/**
 * The "generate image" chat action: ask the user for a model, take the last
 * chat message as the prompt, send the request body to the image backend,
 * store every returned picture and its request sidecar in the cache, and
 * report progress to the chat through status and message events.
 */
module Actions {
  import opened Wrappers
  import opened Text
  import opened NegativePrompt
  import opened Payload
  import opened Cache

  /** What the action sends to the chat: a status line (with its "done" flag) or a message. */
  datatype Event = Status(description: string, done: bool) | Message(content: string)

  /** A chat message of the request body; `content` is None when the message has no "content" key. */
  datatype ChatMessage = ChatMessage(content: Option<string>)

  /** The request body; `messages` is None when it has no "messages" key. */
  datatype Body = Body(messages: Option<seq<ChatMessage>>)

  /**
   * What the backend call produced: a failure (transport error, an HTTP error
   * status or a reply that is not JSON) with its message; a JSON reply that is
   * not an object; or an object, with its "data" list when it has one. `shown`
   * is the reply's Python rendering.
   */
  datatype Response =
    | Failed(reason: string)
    | NotMapping(shown: string)
    | Mapping(shown: string, data: Option<seq<Entry>>)

  const NoModel := "You didn't pick a model!"
  const Generating := "Generating Stable Diffusion Image..."
  const Generated := "Image generated successfully"
  const ErrorPrefix := "Error generating image: "

  /** The last message's text, or the text of the Python exception its lookup raises. */
  function LastPrompt(body: Body): (r: Result<string, string>)
    ensures r.Success? <==> body.messages.Some? && |body.messages.value| > 0 && body.messages.value[|body.messages.value| - 1].content.Some?
    ensures r.Success? ==> r.value == body.messages.value[|body.messages.value| - 1].content.value
  {
    match body.messages
    case None => Failure("'messages'")
    case Some(ms) =>
      if ms == [] then Failure("list index out of range")
      else match ms[|ms| - 1].content
        case None => Failure("'content'")
        case Some(text) => Success(text)
  }

  /** The reply's "data" list, or the message of the exception that rejects the reply. */
  function ResponseData(response: Response): (r: Result<seq<Entry>, string>)
    ensures r.Success? <==> response.Mapping? && response.data.Some?
    ensures r.Success? ==> r.value == response.data.value
    ensures response.Failed? ==> r == Failure(response.reason)
    ensures !response.Failed? && r.Failure? ==> r == Failure("Unexpected response format: " + response.shown)
  {
    match response
    case Failed(reason) => Failure(reason)
    case NotMapping(shown) => Failure("Unexpected response format: " + shown)
    case Mapping(shown, data) =>
      if data.None? then Failure("Unexpected response format: " + shown) else Success(data.value)
  }

  /** The request body for a prompt: the negative clause is extracted from the prompt itself. */
  function RequestBody(prompt: string, model: string, user: User): (r: Json)
    ensures r.JObject? && |r.members| > 0 && r.members[|r.members| - 1] == TagsMember(model, user)
    ensures Lookup(r.members, "prompt") == Some(JString(prompt))
  {
    PayloadTags(prompt, ExtractNegative(prompt), model, user);
    PayloadPromptUnmodified(prompt, ExtractNegative(prompt), model, user);
    BuildPayload(prompt, ExtractNegative(prompt), model, user)
  }

  /** The chat message that shows one stored image. */
  function ImageMessage(url: string): (m: string)
    ensures |m| == |url| + 21 && m[..19] == "![Generated Image](" && m[|m| - 2..] == ")\n"
    ensures m[19..|m| - 2] == url
  {
    "![Generated Image](" + url + ")\n"
  }

  /** The URL of each stored image, in order. */
  function Urls(names: seq<string>): (urls: seq<string>)
    ensures |urls| == |names|
    ensures forall k :: 0 <= k < |names| ==> urls[k] == UrlPrefix + names[k]
  {
    seq(|names|, k requires 0 <= k < |names| => UrlPrefix + names[k])
  }

  /** One message event per URL, in order. */
  function Messages(urls: seq<string>): (ms: seq<Event>)
    ensures |ms| == |urls|
    ensures forall k :: 0 <= k < |urls| ==> ms[k] == Message(ImageMessage(urls[k]))
  {
    seq(|urls|, k requires 0 <= k < |urls| => Message(ImageMessage(urls[k])))
  }

  /** Emitting one more image message extends the messages by that message. */
  lemma MessagesSnoc(urls: seq<string>, url: string)
    ensures Messages(urls + [url]) == Messages(urls) + [Message(ImageMessage(url))]
  {
    assert forall k :: 0 <= k < |urls| ==> (urls + [url])[k] == urls[k];
  }

  /** Saving one more image adds its URL at the end of the list. */
  lemma UrlsOfSnoc(saved: seq<Saved>, s: Saved)
    ensures Urls(Names(saved + [s])) == Urls(Names(saved)) + [UrlPrefix + s.name]
  {
    assert forall k :: 0 <= k < |saved| ==> (saved + [s])[k] == saved[k];
  }

  /** The events an action emits and the cache it leaves. */
  datatype Outcome = Outcome(events: seq<Event>, files: map<string, Content>)

  /**
   * Everything after the request body is built: the backend's reply is
   * checked, its entries are saved, and the events that follow "Generating"
   * are the image messages and the success status, or one error status.
   */
  function Respond(files: map<string, Content>, payload: Json, response: Response, uuid: nat -> Uuid,
                   guess: string -> Option<string>, decode: string -> Result<seq<byte>, string>): (r: Outcome)
    ensures |r.events| > 0 && r.events[|r.events| - 1].Status? && r.events[|r.events| - 1].done
    ensures ResponseData(response).Failure? ==> r.files == files
  {
    match ResponseData(response)
    case Failure(e) => Outcome([Status(ErrorPrefix + e, true)], files)
    case Success(entries) =>
      var b := Persist(files, entries, payload, uuid, guess, decode);
      if b.failure.Some? then Outcome([Status(ErrorPrefix + b.failure.value, true)], b.files)
      else Outcome(Messages(Urls(Names(b.saved))) + [Status(Generated, true)], b.files)
  }

  /**
   * One run of the action. `selection` is the user's answer to the model
   * question, `backend` the reply to a request body, `uuid(k)` the UUID drawn
   * for the k-th image, `guess` the extension lookup and `decode` the base64
   * decoder. The "Generating" status goes out before anything can fail, so
   * every failure after model selection is reported after it.
   */
  function ActOutcome(files: map<string, Content>, selection: Option<string>, body: Body, user: User,
                      backend: Json -> Response, uuid: nat -> Uuid,
                      guess: string -> Option<string>, decode: string -> Result<seq<byte>, string>): (r: Outcome)
    ensures |r.events| > 0 && r.events[|r.events| - 1].Status? && r.events[|r.events| - 1].done
    ensures r.events[0] == Status(NoModel, true) <==> ResolveModel(selection).None?
  {
    match ResolveModel(selection)
    case None => Outcome([Status(NoModel, true)], files)
    case Some(model) =>
      var rest := match LastPrompt(body)
        case Failure(e) => Outcome([Status(ErrorPrefix + e, true)], files)
        case Success(prompt) =>
          var payload := RequestBody(prompt, model, user);
          Respond(files, payload, backend(payload), uuid, guess, decode);
      Outcome([Status(Generating, false)] + rest.events, rest.files)
  }

  /** The action object; `files` is the content of its image cache directory. */
  class Action {
    var files: map<string, Content>

    /** The cache directory is created if missing and kept as it is otherwise. */
    constructor (existing: map<string, Content>)
      ensures files == existing
    {
      files := existing;
    }

    /** Decodes one base64 image, stores it under a name made of `id` and an extension, and returns the name. */
    method SaveB64Image(b64: string, id: Uuid, guess: string -> Option<string>, decode: string -> Result<seq<byte>, string>)
      returns (r: Result<string, string>)
      modifies this
      ensures var o := SaveB64(b64, id, guess, decode);
        && (o.Success? ==> r == Success(o.value.name) && files == old(files)[o.value.name := Image(o.value.bytes)])
        && (o.Failure? ==> r == Failure(o.error) && files == old(files))
        && (o.Success? && o.value.name !in old(files) ==> |files| == |old(files)| + 1)
    {
      var comma := FindChar(b64, ',', 0);
      if comma.Some? {
        var header, encoded := b64[..comma.value], b64[comma.value + 1..];
        var mime := BeforeFirst(header, ';');
        var data := decode(encoded);
        if data.Failure? {
          return Failure("Error saving image: " + data.error);
        }
        var name := id + OptionText(guess(mime));
        files := files[name := Image(data.value)];
        return Success(name);
      } else {
        var name := id + ".png";
        var data := decode(b64);
        if data.Failure? {
          return Failure("Error saving image: " + data.error);
        }
        files := files[name := Image(data.value)];
        return Success(name);
      }
    }

    /** Writes the request body next to an image, as "<name>.json". */
    method WriteSidecar(name: string, payload: Json)
      modifies this
      ensures files == old(files)[name + ".json" := Sidecar(payload)]
    {
      files := files[name + ".json" := Sidecar(payload)];
    }

    /** One turn of the loop: save the entry's image, then write its sidecar. */
    method PersistEntry(entry: Entry, id: Uuid, payload: Json,
                        guess: string -> Option<string>, decode: string -> Result<seq<byte>, string>)
      returns (r: Result<string, string>)
      modifies this
      ensures var o := EntryOutcome(entry, id, guess, decode);
        && (o.Success? ==>
              && r == Success(o.value.name)
              && files == old(files)[o.value.name := Image(o.value.bytes)][o.value.name + ".json" := Sidecar(payload)])
        && (o.Failure? ==> r == Failure(o.error) && files == old(files))
    {
      if entry.b64Json.None? {
        return Failure("'b64_json'");
      }
      r := SaveB64Image(entry.b64Json.value, id, guess, decode);
      if r.Success? {
        WriteSidecar(r.value, payload);
      }
    }

    /**
     * The loop over the reply's entries: each image is saved, its URL
     * collected and its sidecar written; the first failing entry ends the loop.
     */
    method PersistImages(entries: seq<Entry>, payload: Json, uuid: nat -> Uuid,
                         guess: string -> Option<string>, decode: string -> Result<seq<byte>, string>)
      returns (images: seq<string>, failure: Option<string>)
      modifies this
      ensures var b := Persist(old(files), entries, payload, uuid, guess, decode);
        && files == b.files && failure == b.failure && images == Urls(Names(b.saved))
    {
      images, failure := [], None;
      ghost var saved: seq<Saved> := [];
      var i := 0;
      while i < |entries| && failure.None?
        invariant i <= |entries|
        invariant Persist(old(files), entries[..i], payload, uuid, guess, decode) == Batch(files, saved, failure)
        invariant images == Urls(Names(saved))
      {
        PersistSnoc(old(files), entries, i, payload, uuid, guess, decode);
        var r := PersistEntry(entries[i], uuid(i), payload, guess, decode);
        if r.Failure? {
          failure := Some(r.error);
        } else {
          ghost var s := EntryOutcome(entries[i], uuid(i), guess, decode).value;
          UrlsOfSnoc(saved, s);
          images := images + [UrlPrefix + r.value];
          saved := saved + [s];
        }
        i := i + 1;
      }
      if i == |entries| {
        assert entries[..i] == entries;
      } else {
        PersistStopsAtFailure(old(files), entries, i, payload, uuid, guess, decode);
      }
    }

    /**
     * The reply's handling: check it, save its images with their sidecars,
     * then emit one message per image and the success status, or a single
     * error status.
     */
    method HandleResponse(payload: Json, response: Response, uuid: nat -> Uuid,
                          guess: string -> Option<string>, decode: string -> Result<seq<byte>, string>)
      returns (events: seq<Event>)
      modifies this
      ensures var o := Respond(old(files), payload, response, uuid, guess, decode);
        events == o.events && files == o.files
    {
      var data := ResponseData(response);
      if data.Failure? {
        return [Status(ErrorPrefix + data.error, true)];
      }
      var images, failure := PersistImages(data.value, payload, uuid, guess, decode);
      if failure.Some? {
        return [Status(ErrorPrefix + failure.value, true)];
      }
      ghost var b := Persist(old(files), data.value, payload, uuid, guess, decode);
      events := [];
      var i := 0;
      while i < |images|
        invariant i <= |images|
        invariant events == Messages(images[..i])
        invariant files == b.files
      {
        assert images[..i + 1] == images[..i] + [images[i]];
        MessagesSnoc(images[..i], images[i]);
        events := events + [Message(ImageMessage(images[i]))];
        i := i + 1;
      }
      assert images[..i] == images;
      events := events + [Status(Generated, true)];
    }

    /** The whole action, emitting its events in order and updating the cache as `ActOutcome` says. */
    method Act(selection: Option<string>, body: Body, user: User, backend: Json -> Response, uuid: nat -> Uuid,
               guess: string -> Option<string>, decode: string -> Result<seq<byte>, string>)
      returns (events: seq<Event>)
      modifies this
      ensures var o := ActOutcome(old(files), selection, body, user, backend, uuid, guess, decode);
        events == o.events && files == o.files
    {
      var model := ResolveModel(selection);
      if model.None? {
        return [Status(NoModel, true)];
      }
      events := [Status(Generating, false)];
      var prompt := LastPrompt(body);
      if prompt.Failure? {
        return events + [Status(ErrorPrefix + prompt.error, true)];
      }
      var negative := ExtractNegative(prompt.value);
      var payload := BuildPayload(prompt.value, negative, model.value, user);
      ActSendsRequest(files, selection, body, user, backend, uuid, guess, decode, model.value, prompt.value);
      var rest := HandleResponse(payload, backend(payload), uuid, guess, decode);
      events := events + rest;
    }
  }

  /** Once a model is chosen and the last message read, the backend gets the body built from that message, after "Generating". */
  lemma ActSendsRequest(files: map<string, Content>, selection: Option<string>, body: Body, user: User,
                        backend: Json -> Response, uuid: nat -> Uuid,
                        guess: string -> Option<string>, decode: string -> Result<seq<byte>, string>,
                        model: string, prompt: string)
    requires ResolveModel(selection) == Some(model) && LastPrompt(body) == Success(prompt)
    ensures var payload := RequestBody(prompt, model, user);
      var rest := Respond(files, payload, backend(payload), uuid, guess, decode);
      ActOutcome(files, selection, body, user, backend, uuid, guess, decode) ==
        Outcome([Status(Generating, false)] + rest.events, rest.files)
  {
  }

  /** Without a known model the only event is the "no model" status, the cache is untouched and the backend is never asked. */
  lemma NoModelEndsEarly(files: map<string, Content>, selection: Option<string>, body: Body, user: User,
                         backend: Json -> Response, uuid: nat -> Uuid,
                         guess: string -> Option<string>, decode: string -> Result<seq<byte>, string>)
    ensures ActOutcome(files, selection, body, user, backend, uuid, guess, decode).events == [Status(NoModel, true)]
      <==> selection.None? || selection.value !in ModelNames
    ensures selection.None? || selection.value !in ModelNames ==>
      ActOutcome(files, selection, body, user, backend, uuid, guess, decode) == Outcome([Status(NoModel, true)], files)
  {
    if ResolveModel(selection).Some? {
      assert ActOutcome(files, selection, body, user, backend, uuid, guess, decode).events[0] == Status(Generating, false);
    }
  }

  /** A body without a readable last message writes nothing and reports the lookup's error after "Generating". */
  lemma MissingPromptWritesNothing(files: map<string, Content>, selection: Option<string>, body: Body, user: User,
                                   backend: Json -> Response, uuid: nat -> Uuid,
                                   guess: string -> Option<string>, decode: string -> Result<seq<byte>, string>)
    requires ResolveModel(selection).Some? && LastPrompt(body).Failure?
    ensures ActOutcome(files, selection, body, user, backend, uuid, guess, decode) ==
      Outcome([Status(Generating, false), Status(ErrorPrefix + LastPrompt(body).error, true)], files)
  {
  }

  /** A rejected backend call or an unusable reply writes nothing and reports one error status. */
  lemma RespondRejected(files: map<string, Content>, payload: Json, response: Response, uuid: nat -> Uuid,
                        guess: string -> Option<string>, decode: string -> Result<seq<byte>, string>)
    requires ResponseData(response).Failure?
    ensures Respond(files, payload, response, uuid, guess, decode) ==
      Outcome([Status(ErrorPrefix + ResponseData(response).error, true)], files)
  {
  }

  /**
   * When every entry saves, the events are one image message per entry in
   * the reply's order and then the success status; the cache keeps every old
   * file and gains exactly an image and a sidecar holding the request body
   * per entry.
   */
  lemma RespondSucceeds(files: map<string, Content>, payload: Json, response: Response, uuid: nat -> Uuid,
                        guess: string -> Option<string>, decode: string -> Result<seq<byte>, string>, entries: seq<Entry>)
    requires FreshIds(files, uuid, |entries|)
    requires ResponseData(response) == Success(entries)
    requires forall k :: 0 <= k < |entries| ==> EntryOutcome(entries[k], uuid(k), guess, decode).Success?
    ensures var o := Respond(files, payload, response, uuid, guess, decode);
      && |o.events| == |entries| + 1
      && (forall k :: 0 <= k < |entries| ==>
            o.events[k] == Message(ImageMessage(UrlPrefix + EntryOutcome(entries[k], uuid(k), guess, decode).value.name)))
      && o.events[|entries|] == Status(Generated, true)
      && |o.files| == |files| + 2 * |entries|
      && (forall name :: name in files ==> name in o.files && o.files[name] == files[name])
      && (forall k :: 0 <= k < |entries| ==>
            var s := EntryOutcome(entries[k], uuid(k), guess, decode).value;
            && s.name in o.files && o.files[s.name] == Image(s.bytes)
            && s.name + ".json" in o.files && o.files[s.name + ".json"] == Sidecar(payload))
  {
    PersistOutcome(files, entries, payload, uuid, guess, decode);
    PersistGrows(files, entries, payload, uuid, guess, decode);
    var b := Persist(files, entries, payload, uuid, guess, decode);
    var ms := Messages(Urls(Names(b.saved)));
    assert forall k :: 0 <= k < |entries| ==> (ms + [Status(Generated, true)])[k] == ms[k];
  }

  /**
   * When entry `f` fails after the entries before it saved, no image message
   * is emitted, only the failure's status; the files of the earlier entries
   * stay in the cache and nothing else is added.
   */
  lemma RespondStopsAtFailedEntry(files: map<string, Content>, payload: Json, response: Response, uuid: nat -> Uuid,
                                  guess: string -> Option<string>, decode: string -> Result<seq<byte>, string>,
                                  entries: seq<Entry>, f: nat)
    requires FreshIds(files, uuid, |entries|)
    requires ResponseData(response) == Success(entries)
    requires f < |entries|
    requires forall k :: 0 <= k < f ==> EntryOutcome(entries[k], uuid(k), guess, decode).Success?
    requires EntryOutcome(entries[f], uuid(f), guess, decode).Failure?
    ensures var o := Respond(files, payload, response, uuid, guess, decode);
      && o.events == [Status(ErrorPrefix + EntryOutcome(entries[f], uuid(f), guess, decode).error, true)]
      && |o.files| == |files| + 2 * f
      && (forall name :: name in files ==> name in o.files && o.files[name] == files[name])
      && (forall k :: 0 <= k < f ==>
            var s := EntryOutcome(entries[k], uuid(k), guess, decode).value;
            && s.name in o.files && o.files[s.name] == Image(s.bytes)
            && s.name + ".json" in o.files && o.files[s.name + ".json"] == Sidecar(payload))
  {
    PersistOutcome(files, entries, payload, uuid, guess, decode);
    PersistGrows(files, entries, payload, uuid, guess, decode);
    var b := Persist(files, entries, payload, uuid, guess, decode);
    SavedUpToFailure(entries, b.saved, b.failure, f, uuid, guess, decode);
  }

  /** The saved prefix ends exactly at the first failing entry. */
  lemma SavedUpToFailure(entries: seq<Entry>, saved: seq<Saved>, failure: Option<string>, f: nat, uuid: nat -> Uuid,
                         guess: string -> Option<string>, decode: string -> Result<seq<byte>, string>)
    requires |saved| <= |entries| && f < |entries|
    requires forall k :: 0 <= k < |saved| ==> EntryOutcome(entries[k], uuid(k), guess, decode) == Success(saved[k])
    requires failure.None? <==> |saved| == |entries|
    requires failure.Some? ==> EntryOutcome(entries[|saved|], uuid(|saved|), guess, decode) == Failure(failure.value)
    requires forall k :: 0 <= k < f ==> EntryOutcome(entries[k], uuid(k), guess, decode).Success?
    requires EntryOutcome(entries[f], uuid(f), guess, decode).Failure?
    ensures |saved| == f && failure == Some(EntryOutcome(entries[f], uuid(f), guess, decode).error)
  {
  }

  /** The events of a run end with a "done" status, and it is the only one. */
  ghost predicate FinishedOnce(events: seq<Event>) {
    && |events| > 0
    && events[|events| - 1].Status? && events[|events| - 1].done
    && forall k :: 0 <= k < |events| - 1 ==> !(events[k].Status? && events[k].done)
  }

  /** After the request, whatever the reply, the events end with exactly one "done" status. */
  lemma RespondFinishesOnce(files: map<string, Content>, payload: Json, response: Response, uuid: nat -> Uuid,
                            guess: string -> Option<string>, decode: string -> Result<seq<byte>, string>)
    ensures FinishedOnce(Respond(files, payload, response, uuid, guess, decode).events)
  {
    var data := ResponseData(response);
    if data.Success? {
      var b := Persist(files, data.value, payload, uuid, guess, decode);
      if b.failure.None? {
        var ms := Messages(Urls(Names(b.saved)));
        assert forall k :: 0 <= k < |ms| ==> (ms + [Status(Generated, true)])[k] == ms[k];
      }
    }
  }

  /** Every run, whatever the selection, the body and the backend's reply, ends with exactly one "done" status. */
  lemma ActFinishesOnce(files: map<string, Content>, selection: Option<string>, body: Body, user: User,
                        backend: Json -> Response, uuid: nat -> Uuid,
                        guess: string -> Option<string>, decode: string -> Result<seq<byte>, string>)
    ensures FinishedOnce(ActOutcome(files, selection, body, user, backend, uuid, guess, decode).events)
  {
    if ResolveModel(selection).Some? && LastPrompt(body).Success? {
      var model, prompt := ResolveModel(selection).value, LastPrompt(body).value;
      var payload := RequestBody(prompt, model, user);
      ActSendsRequest(files, selection, body, user, backend, uuid, guess, decode, model, prompt);
      RespondFinishesOnce(files, payload, backend(payload), uuid, guess, decode);
      FinishedOncePrepend(Status(Generating, false), Respond(files, payload, backend(payload), uuid, guess, decode).events);
    }
  }

  /** An event that is not a "done" status can precede a finished run. */
  lemma FinishedOncePrepend(e: Event, rest: seq<Event>)
    requires !(e.Status? && e.done) && FinishedOnce(rest)
    ensures FinishedOnce([e] + rest)
  {
    assert forall k :: 1 <= k < |rest| + 1 ==> ([e] + rest)[k] == rest[k - 1];
  }

  /**
   * The "core" model and the last message "A cat. Negative: blurry" send the
   * non-SDXL body with the whole message as the prompt and "blurry" as the
   * negative prompt.
   */
  lemma CoreRequestExample(user: User)
    ensures RequestBody("A cat. Negative: blurry", ResolveModel(Some("core")).value, user) == JObject([
      ("prompt", JString("A cat. Negative: blurry")),
      ("negative_prompt", JString("blurry")),
      ("mode", JString("text-to-image")),
      ("model", JString("eit_sdcore")),
      ("aspect_ratio", JString("1:1")),
      ("response_format", JString("b64_json")),
      TagsMember("eit_sdcore", user)])
  {
    ExtractExamplePrompt();
    CoreIsNotSdxl();
    PayloadOtherShape("A cat. Negative: blurry", Some("blurry"), "eit_sdcore", user);
  }

  /** The "core" model's backend name does not contain "sdxl". */
  lemma CoreIsNotSdxl()
    ensures !Contains("eit_sdcore", "sdxl")
  {
    WithoutLetterNoContains("eit_sdcore", "sdxl", 2);
  }
}

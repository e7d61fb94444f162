/**
 * The image cache directory and what the action writes into it: one image
 * file per returned picture, named by a fresh UUID and an extension, and a
 * JSON sidecar named after it that records the request body.
 */
module Cache {
  import opened Wrappers
  import opened Text
  import opened Payload

  newtype byte = b: int | 0 <= b < 256

  /** A `str(uuid.uuid4())`: 36 characters. */
  type Uuid = s: string | |s| == 36 witness "00000000-0000-0000-0000-000000000000"

  /** A file of the cache directory: decoded image bytes, or the JSON dump of a request body. */
  datatype Content = Image(bytes: seq<byte>) | Sidecar(payload: Json)

  /** The URL path under which the host serves a cached file. */
  const UrlPrefix := "/cache/image/generations/"

  /** One image of the backend's `data` list; `b64Json` is None when the entry lacks the "b64_json" key. */
  datatype Entry = Entry(b64Json: Option<string>)

  /** What one call of the image saver writes: the file name it returns and the bytes it stores. */
  datatype Saved = Saved(name: string, bytes: seq<byte>)

  /**
   * The saver: a string with a comma is split at its first comma into a
   * header and the base64 text; the extension is looked up for the header up
   * to its first ';' (so "data:image/png" for a data URI) and rendered as
   * "None" when the lookup finds nothing. A string without a comma is decoded
   * whole and gets ".png". A decoding failure is reported as
   * "Error saving image: " and the decoder's message.
   */
  function SaveB64(b64: string, id: Uuid, guess: string -> Option<string>, decode: string -> Result<seq<byte>, string>): (r: Result<Saved, string>)
    ensures r.Success? ==> id <= r.value.name
    ensures r.Failure? ==> "Error saving image: " <= r.error
  {
    match FindChar(b64, ',', 0)
    case Some(c) =>
      var mime := BeforeFirst(b64[..c], ';');
      var data := decode(b64[c + 1..]);
      if data.Failure? then Failure("Error saving image: " + data.error)
      else Success(Saved(id + OptionText(guess(mime)), data.value))
    case None =>
      var data := decode(b64);
      if data.Failure? then Failure("Error saving image: " + data.error)
      else Success(Saved(id + ".png", data.value))
  }

  /** With a header: the split is at the first comma, and the header's text before ';' picks the extension. */
  lemma SaveWithHeader(header: string, encoded: string, id: Uuid, guess: string -> Option<string>, decode: string -> Result<seq<byte>, string>)
    requires ',' !in header
    ensures SaveB64(header + "," + encoded, id, guess, decode) ==
      if decode(encoded).Failure? then Failure("Error saving image: " + decode(encoded).error)
      else Success(Saved(id + OptionText(guess(BeforeFirst(header, ';'))), decode(encoded).value))
  {
    var s := header + "," + encoded;
    FindCharAtFirst(header, ',', encoded);
    assert s[..|header|] == header;
    assert s[|header| + 1..] == encoded;
  }

  /** A data URI "data:<mime>;base64,<text>" is looked up as "data:<mime>", not as "<mime>". */
  lemma SaveDataUri(mime: string, encoded: string, id: Uuid, guess: string -> Option<string>, decode: string -> Result<seq<byte>, string>)
    requires ',' !in mime && ';' !in mime
    requires decode(encoded).Success?
    ensures SaveB64("data:" + mime + ";base64," + encoded, id, guess, decode) ==
      Success(Saved(id + OptionText(guess("data:" + mime)), decode(encoded).value))
  {
    var header := "data:" + mime + ";base64";
    assert "data:" + mime + ";base64," + encoded == header + "," + encoded;
    assert ',' !in header;
    SaveWithHeader(header, encoded, id, guess, decode);
    assert header == ("data:" + mime) + [';'] + "base64";
    BeforeFirstStopsAt("data:" + mime, ';', "base64");
  }

  /** When the lookup knows no extension, the file name ends in the literal text "None". */
  lemma SaveUnknownMime(header: string, encoded: string, id: Uuid, guess: string -> Option<string>, decode: string -> Result<seq<byte>, string>)
    requires ',' !in header
    requires guess(BeforeFirst(header, ';')).None? && decode(encoded).Success?
    ensures SaveB64(header + "," + encoded, id, guess, decode) == Success(Saved(id + "None", decode(encoded).value))
  {
    SaveWithHeader(header, encoded, id, guess, decode);
  }

  /** Without a comma the whole string is decoded and the name is the UUID and ".png". */
  lemma SaveWithoutHeader(b64: string, id: Uuid, guess: string -> Option<string>, decode: string -> Result<seq<byte>, string>)
    requires ',' !in b64
    ensures SaveB64(b64, id, guess, decode) ==
      if decode(b64).Failure? then Failure("Error saving image: " + decode(b64).error)
      else Success(Saved(id + ".png", decode(b64).value))
  {
    assert FindChar(b64, ',', 0).None?;
  }

  /** One entry of the loop: a missing "b64_json" key fails with Python's KeyError text, otherwise the saver runs. */
  function EntryOutcome(entry: Entry, id: Uuid, guess: string -> Option<string>, decode: string -> Result<seq<byte>, string>): (r: Result<Saved, string>)
    ensures r.Success? ==> id <= r.value.name
  {
    match entry.b64Json
    case None => Failure("'b64_json'")
    case Some(s) => SaveB64(s, id, guess, decode)
  }

  /** The cache after some entries of a response, what was saved so far, and the failure that stopped the loop. */
  datatype Batch = Batch(files: map<string, Content>, saved: seq<Saved>, failure: Option<string>)

  /** One turn of the loop: save the image, then write its sidecar; a failed batch takes no further turns. */
  function PersistStep(b: Batch, entry: Entry, id: Uuid, payload: Json, guess: string -> Option<string>, decode: string -> Result<seq<byte>, string>): (r: Batch)
    ensures b.failure.Some? ==> r == b
    ensures b.failure.None? && r.failure.None? ==> b.saved <= r.saved && |r.saved| == |b.saved| + 1
    ensures b.failure.None? && r.failure.Some? ==> r.saved == b.saved && r.files == b.files
  {
    if b.failure.Some? then b
    else match EntryOutcome(entry, id, guess, decode)
      case Failure(e) => b.(failure := Some(e))
      case Success(s) =>
        Batch(b.files[s.name := Image(s.bytes)][s.name + ".json" := Sidecar(payload)], b.saved + [s], None)
  }

  /** The loop over the response's entries; entry k is saved under the k-th UUID of the request. */
  function Persist(files: map<string, Content>, entries: seq<Entry>, payload: Json, uuid: nat -> Uuid, guess: string -> Option<string>, decode: string -> Result<seq<byte>, string>): (r: Batch)
    ensures |r.saved| <= |entries|
    ensures r.failure.None? <==> |r.saved| == |entries|
    decreases |entries|
  {
    if entries == [] then Batch(files, [], None)
    else
      var n := |entries| - 1;
      PersistStep(Persist(files, entries[..n], payload, uuid, guess, decode), entries[n], uuid(n), payload, guess, decode)
  }

  /** The file names of the saved images, in order. */
  function Names(saved: seq<Saved>): (names: seq<string>)
    ensures |names| == |saved|
    ensures forall k :: 0 <= k < |saved| ==> names[k] == saved[k].name
  {
    seq(|saved|, k requires 0 <= k < |saved| => saved[k].name)
  }

  /** The first `n` UUIDs never repeat and no file already in the cache starts with one of them. */
  ghost predicate FreshIds(files: map<string, Content>, uuid: nat -> Uuid, n: nat) {
    && (forall k: nat, j: nat :: k < n && j < n && k != j ==> uuid(k) != uuid(j))
    && (forall k: nat, name :: k < n && name in files ==> !(uuid(k) <= name))
  }

  /**
   * Which entries were saved: all of them when there is no failure,
   * otherwise exactly those before the first failing one, whose error is the
   * batch's failure; saved k is what entry k produced.
   */
  lemma {:induction false} PersistOutcome(files: map<string, Content>, entries: seq<Entry>, payload: Json, uuid: nat -> Uuid, guess: string -> Option<string>, decode: string -> Result<seq<byte>, string>)
    ensures var b := Persist(files, entries, payload, uuid, guess, decode);
      && |b.saved| <= |entries|
      && (forall k :: 0 <= k < |b.saved| ==> EntryOutcome(entries[k], uuid(k), guess, decode) == Success(b.saved[k]))
      && (b.failure.None? <==> |b.saved| == |entries|)
      && (b.failure.Some? ==> EntryOutcome(entries[|b.saved|], uuid(|b.saved|), guess, decode) == Failure(b.failure.value))
    decreases |entries|
  {
    if entries != [] {
      var n := |entries| - 1;
      PersistOutcome(files, entries[..n], payload, uuid, guess, decode);
      var p := Persist(files, entries[..n], payload, uuid, guess, decode);
      var b := Persist(files, entries, payload, uuid, guess, decode);
      assert b == PersistStep(p, entries[n], uuid(n), payload, guess, decode);
      assert forall k :: 0 <= k < n ==> entries[..n][k] == entries[k];
      if p.failure.Some? {
        assert |p.saved| < n;
        assert b == p;
      } else if EntryOutcome(entries[n], uuid(n), guess, decode).Failure? {
        assert b.saved == p.saved;
      } else {
        assert b.saved == p.saved + [EntryOutcome(entries[n], uuid(n), guess, decode).value];
      }
    }
  }

  /** `name` is one of the files written for the saved images: an image or its sidecar. */
  ghost predicate NewName(name: string, saved: seq<Saved>) {
    exists k :: 0 <= k < |saved| && (name == saved[k].name || name == saved[k].name + ".json")
  }

  /**
   * `current` is `files` grown by the saved images: every old file is
   * untouched, each saved image adds exactly two files (the image, under a
   * name that starts with its UUID, and its sidecar holding `payload`), and
   * every other file is one of these.
   */
  ghost predicate Grown(files: map<string, Content>, current: map<string, Content>, saved: seq<Saved>, payload: Json, uuid: nat -> Uuid) {
    && (forall name :: name in files ==> name in current && current[name] == files[name])
    && |current| == |files| + 2 * |saved|
    && (forall name :: name in current ==> name in files || NewName(name, saved))
    && (forall k :: 0 <= k < |saved| ==> uuid(k) <= saved[k].name)
    && (forall k :: 0 <= k < |saved| ==>
          && saved[k].name in current && current[saved[k].name] == Image(saved[k].bytes)
          && saved[k].name + ".json" in current && current[saved[k].name + ".json"] == Sidecar(payload))
  }

  /** Names that start with different UUIDs differ, and so do their sidecar names. */
  lemma DifferentIdsDifferentNames(a: Uuid, b: Uuid, x: string, y: string)
    requires a <= x && b <= y && a != b
    ensures x != y && x + ".json" != y && x != y + ".json" && x + ".json" != y + ".json"
  {
    assert a == x[..36] && a == (x + ".json")[..36];
    assert b == y[..36] && b == (y + ".json")[..36];
  }

  /** A name that starts with the next UUID is not yet in a cache grown from fresh UUIDs. */
  lemma NextNameIsFresh(files: map<string, Content>, current: map<string, Content>, saved: seq<Saved>, payload: Json, uuid: nat -> Uuid, name: string)
    requires FreshIds(files, uuid, |saved| + 1)
    requires Grown(files, current, saved, payload, uuid)
    requires uuid(|saved|) <= name
    ensures name !in current && name + ".json" !in current
  {
    var id := uuid(|saved|);
    assert name !in files && name + ".json" !in files by {
      assert id <= name + ".json" by { assert (name + ".json")[..36] == name[..36]; }
    }
    forall k | 0 <= k < |saved|
      ensures saved[k].name != name && saved[k].name != name + ".json"
      ensures saved[k].name + ".json" != name && saved[k].name + ".json" != name + ".json"
    {
      DifferentIdsDifferentNames(uuid(k), id, saved[k].name, name);
    }
  }

  /** Writing the next image and its sidecar keeps the cache grown from fresh UUIDs. */
  lemma GrownByNext(files: map<string, Content>, current: map<string, Content>, saved: seq<Saved>, payload: Json, uuid: nat -> Uuid, s: Saved)
    requires FreshIds(files, uuid, |saved| + 1)
    requires Grown(files, current, saved, payload, uuid)
    requires uuid(|saved|) <= s.name
    ensures Grown(files, current[s.name := Image(s.bytes)][s.name + ".json" := Sidecar(payload)], saved + [s], payload, uuid)
  {
    NextNameIsFresh(files, current, saved, payload, uuid, s.name);
    var next := current[s.name := Image(s.bytes)][s.name + ".json" := Sidecar(payload)];
    NextKeepsFiles(files, current, saved, payload, uuid, s);
    NextNamesAreNew(files, current, saved, payload, uuid, s);
    NextContents(files, current, saved, payload, uuid, s);
  }

  lemma NextKeepsFiles(files: map<string, Content>, current: map<string, Content>, saved: seq<Saved>, payload: Json, uuid: nat -> Uuid, s: Saved)
    requires Grown(files, current, saved, payload, uuid)
    requires s.name !in current && s.name + ".json" !in current
    ensures var next := current[s.name := Image(s.bytes)][s.name + ".json" := Sidecar(payload)];
      && (forall name :: name in files ==> name in next && next[name] == files[name])
      && |next| == |files| + 2 * |saved + [s]|
  {
    assert s.name != s.name + ".json";
  }

  lemma NextNamesAreNew(files: map<string, Content>, current: map<string, Content>, saved: seq<Saved>, payload: Json, uuid: nat -> Uuid, s: Saved)
    requires Grown(files, current, saved, payload, uuid)
    ensures var next := current[s.name := Image(s.bytes)][s.name + ".json" := Sidecar(payload)];
      forall name :: name in next ==> name in files || NewName(name, saved + [s])
  {
    var next := current[s.name := Image(s.bytes)][s.name + ".json" := Sidecar(payload)];
    var saved' := saved + [s];
    forall name | name in next ensures name in files || NewName(name, saved') {
      if name == s.name || name == s.name + ".json" {
        assert saved'[|saved|] == s;
      } else if name !in files {
        var k :| 0 <= k < |saved| && (name == saved[k].name || name == saved[k].name + ".json");
        assert saved'[k] == saved[k];
      }
    }
  }

  lemma NextContents(files: map<string, Content>, current: map<string, Content>, saved: seq<Saved>, payload: Json, uuid: nat -> Uuid, s: Saved)
    requires Grown(files, current, saved, payload, uuid)
    requires s.name !in current && s.name + ".json" !in current
    requires uuid(|saved|) <= s.name
    ensures var next := current[s.name := Image(s.bytes)][s.name + ".json" := Sidecar(payload)];
      && (forall k :: 0 <= k < |saved + [s]| ==> uuid(k) <= (saved + [s])[k].name)
      && (forall k :: 0 <= k < |saved + [s]| ==>
            && (saved + [s])[k].name in next && next[(saved + [s])[k].name] == Image((saved + [s])[k].bytes)
            && (saved + [s])[k].name + ".json" in next && next[(saved + [s])[k].name + ".json"] == Sidecar(payload))
  {
    var next := current[s.name := Image(s.bytes)][s.name + ".json" := Sidecar(payload)];
    OldContentsKept(current, saved, payload, s);
    assert s.name != s.name + ".json";
    assert next[s.name] == Image(s.bytes);
    var saved' := saved + [s];
    assert forall k :: 0 <= k < |saved'| ==> saved'[k] == if k < |saved| then saved[k] else s;
  }

  lemma OldContentsKept(current: map<string, Content>, saved: seq<Saved>, payload: Json, s: Saved)
    requires forall k :: 0 <= k < |saved| ==>
      && saved[k].name in current && current[saved[k].name] == Image(saved[k].bytes)
      && saved[k].name + ".json" in current && current[saved[k].name + ".json"] == Sidecar(payload)
    requires s.name !in current && s.name + ".json" !in current
    ensures var next := current[s.name := Image(s.bytes)][s.name + ".json" := Sidecar(payload)];
      forall k :: 0 <= k < |saved| ==>
        && saved[k].name in next && next[saved[k].name] == Image(saved[k].bytes)
        && saved[k].name + ".json" in next && next[saved[k].name + ".json"] == Sidecar(payload)
  {
  }

  /** The loop grows the cache as `Grown` says: old files untouched, two new files per saved image. */
  lemma {:induction false} PersistGrows(files: map<string, Content>, entries: seq<Entry>, payload: Json, uuid: nat -> Uuid, guess: string -> Option<string>, decode: string -> Result<seq<byte>, string>)
    requires FreshIds(files, uuid, |entries|)
    ensures var b := Persist(files, entries, payload, uuid, guess, decode);
      Grown(files, b.files, b.saved, payload, uuid)
    decreases |entries|
  {
    if entries != [] {
      var n := |entries| - 1;
      PersistGrows(files, entries[..n], payload, uuid, guess, decode);
      var p := Persist(files, entries[..n], payload, uuid, guess, decode);
      var o := EntryOutcome(entries[n], uuid(n), guess, decode);
      if p.failure.None? && o.Success? {
        GrownByNext(files, p.files, p.saved, payload, uuid, o.value);
      }
    }
  }

  /** Persisting one more entry is one more turn of the loop, with the UUID of that entry's position. */
  lemma PersistSnoc(files: map<string, Content>, entries: seq<Entry>, i: nat, payload: Json, uuid: nat -> Uuid, guess: string -> Option<string>, decode: string -> Result<seq<byte>, string>)
    requires i < |entries|
    ensures Persist(files, entries[..i + 1], payload, uuid, guess, decode) ==
      PersistStep(Persist(files, entries[..i], payload, uuid, guess, decode), entries[i], uuid(i), payload, guess, decode)
  {
    assert entries[..i + 1][..i] == entries[..i];
  }

  /** After a failure the remaining entries change nothing. */
  lemma {:induction false} PersistStopsAtFailure(files: map<string, Content>, entries: seq<Entry>, i: nat, payload: Json, uuid: nat -> Uuid, guess: string -> Option<string>, decode: string -> Result<seq<byte>, string>)
    requires i <= |entries|
    requires Persist(files, entries[..i], payload, uuid, guess, decode).failure.Some?
    ensures Persist(files, entries, payload, uuid, guess, decode) == Persist(files, entries[..i], payload, uuid, guess, decode)
    decreases |entries| - i
  {
    if i < |entries| {
      var n := |entries| - 1;
      assert entries[..n][..i] == entries[..i];
      PersistStopsAtFailure(files, entries[..n], i, payload, uuid, guess, decode);
      assert entries[..|entries|] == entries;
    } else {
      assert entries[..i] == entries;
    }
  }
}

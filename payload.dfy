/**
 * The request body sent to the image backend: the table of model keys, the
 * two body shapes (SDXL and the other Stable Diffusion models) and the
 * metadata tags added to both.
 */
module Payload {
  import opened Wrappers
  import opened Text

  /** JSON values as the action builds them; object members keep insertion order, as a Python dict does. */
  datatype Json =
    | JString(str: string)
    | JInt(num: int)
    | JArray(items: seq<Json>)
    | JObject(members: seq<(string, Json)>)

  /** The requester record handed to the action; Python's `None` is `None` here. */
  type User = Option<map<string, string>>

  /** The model keys a user may type and the backend model each stands for. */
  const ModelNames: map<string, string> := map[
    "sdxl" := "eit_sdxl",
    "core" := "eit_sdcore",
    "large3" := "eit_sd3large",
    "ultra" := "eit_sdultra",
    "large35" := "eit_sd35large"
  ]

  /** The backend model for the user's answer, or None when the answer is missing, empty or unknown. */
  function ResolveModel(selection: Option<string>): (r: Option<string>)
    ensures r.Some? <==> selection.Some? && selection.value in {"sdxl", "core", "large3", "ultra", "large35"}
    ensures selection == Some("sdxl") ==> r == Some("eit_sdxl")
    ensures selection == Some("core") ==> r == Some("eit_sdcore")
    ensures selection == Some("large3") ==> r == Some("eit_sd3large")
    ensures selection == Some("ultra") ==> r == Some("eit_sdultra")
    ensures selection == Some("large35") ==> r == Some("eit_sd35large")
  {
    if selection.None? || selection.value == "" || selection.value !in ModelNames then None
    else Some(ModelNames[selection.value])
  }

  /** Only the "sdxl" key leads to a backend model whose name contains "sdxl". */
  lemma SdxlFamilyIsSdxlKey(selection: Option<string>)
    requires ResolveModel(selection).Some?
    ensures Contains(ResolveModel(selection).value, "sdxl") <==> selection == Some("sdxl")
  {
    var id := ResolveModel(selection).value;
    if selection == Some("sdxl") {
      assert id == "eit_sdxl";
      assert id[4..8] == "sdxl";
      ContainsAt(id, "sdxl", 4);
    } else {
      assert id in {"eit_sdcore", "eit_sd3large", "eit_sdultra", "eit_sd35large"};
      assert 'x' !in id;
      WithoutLetterNoContains(id, "sdxl", 2);
    }
  }

  /** The keys of an object, in order. */
  function Keys(members: seq<(string, Json)>): (ks: seq<string>)
    ensures |ks| == |members|
    ensures forall i :: 0 <= i < |members| ==> ks[i] == members[i].0
  {
    if members == [] then [] else [members[0].0] + Keys(members[1..])
  }

  /** `obj[key]` for an object built by this module, None when the key is absent. */
  function Lookup(members: seq<(string, Json)>, key: string): (r: Option<Json>) {
    if members == [] then None
    else if members[0].0 == key then Some(members[0].1)
    else Lookup(members[1..], key)
  }

  /** The first member with `key` decides what the lookup yields. */
  lemma LookupAt(members: seq<(string, Json)>, key: string, i: nat)
    requires i < |members| && members[i].0 == key
    requires forall j :: 0 <= j < i ==> members[j].0 != key
    ensures Lookup(members, key) == Some(members[i].1)
    decreases i
  {
    if i > 0 {
      LookupAt(members[1..], key, i - 1);
    }
  }

  /**
   * `dict.update({key: value})`: an existing key keeps its place and takes
   * the new value, a new key goes last.
   */
  function Put(members: seq<(string, Json)>, key: string, value: Json): (r: seq<(string, Json)>)
    ensures Keys(r) == if key in Keys(members) then Keys(members) else Keys(members) + [key]
    ensures Lookup(r, key) == Some(value)
    ensures forall k :: k != key ==> Lookup(r, k) == Lookup(members, k)
  {
    if members == [] then [(key, value)]
    else if members[0].0 == key then [(key, value)] + members[1..]
    else [members[0]] + Put(members[1..], key, value)
  }

  /** A requester field for the tags: its value, or "unknown" when there is no record or no such field. */
  function UserField(user: User, field: string): (r: string)
    ensures user.Some? && field in user.value ==> r == user.value[field]
    ensures user.None? || field !in user.value ==> r == "unknown"
  {
    if user.Some? && field in user.value then user.value[field] else "unknown"
  }

  /** The metadata member: the tags "openwebui", the backend model, the requester's email and name, in that order. */
  function TagsMember(model: string, user: User): (m: (string, Json))
    ensures m.0 == "metadata"
  {
    ("metadata", JObject([("tags", JArray([
      JString("openwebui"), JString(model),
      JString(UserField(user, "email")), JString(UserField(user, "name"))]))]))
  }

  /** The body before metadata: one shape for SDXL models, the other for the rest. */
  function BaseShape(prompt: string, negative: Option<string>, model: string): (members: seq<(string, Json)>) {
    if Contains(model, "sdxl") then
      [ ("prompt", JString(prompt)),
        ("cfg_scale", JInt(7)),
        ("height", JInt(1024)),
        ("width", JInt(1024)),
        ("samples", JInt(1)),
        ("steps", JInt(30)),
        ("response_format", JString("b64_json")),
        ("model", JString(model)) ]
    else
      [ ("prompt", JString(prompt)),
        ("negative_prompt", JString(OptionText(negative))),
        ("mode", JString("text-to-image")),
        ("model", JString(model)),
        ("aspect_ratio", JString("1:1")),
        ("response_format", JString("b64_json")) ]
  }

  /** The request body for the last message `prompt`, its extracted negative clause, the backend model and the requester. */
  function BuildPayload(prompt: string, negative: Option<string>, model: string, user: User): (p: Json)
    ensures p.JObject?
  {
    JObject(Put(BaseShape(prompt, negative, model), "metadata", TagsMember(model, user).1))
  }

  /** Updating with a key the object lacks appends that member. */
  lemma {:induction false} PutNewKey(members: seq<(string, Json)>, key: string, value: Json)
    requires forall i :: 0 <= i < |members| ==> members[i].0 != key
    ensures Put(members, key, value) == members + [(key, value)]
    decreases |members|
  {
    if members != [] {
      var rest := members[1..];
      assert members[0].0 != key;
      assert Put(members, key, value) == [members[0]] + Put(rest, key, value);
      assert forall i :: 0 <= i < |rest| ==> rest[i] == members[i + 1];
      PutNewKey(rest, key, value);
      assert members + [(key, value)] == [members[0]] + (rest + [(key, value)]);
    }
  }

  /** The SDXL body, member by member and in order; the prompt is sent unmodified. */
  lemma PayloadSdxlShape(prompt: string, negative: Option<string>, model: string, user: User)
    requires Contains(model, "sdxl")
    ensures BuildPayload(prompt, negative, model, user) == JObject([
      ("prompt", JString(prompt)),
      ("cfg_scale", JInt(7)),
      ("height", JInt(1024)),
      ("width", JInt(1024)),
      ("samples", JInt(1)),
      ("steps", JInt(30)),
      ("response_format", JString("b64_json")),
      ("model", JString(model)),
      TagsMember(model, user)])
  {
    PayloadTags(prompt, negative, model, user);
  }

  /** The body for the other models, member by member; the negative text is "None" when nothing was extracted. */
  lemma PayloadOtherShape(prompt: string, negative: Option<string>, model: string, user: User)
    requires !Contains(model, "sdxl")
    ensures BuildPayload(prompt, negative, model, user) == JObject([
      ("prompt", JString(prompt)),
      ("negative_prompt", JString(if negative.None? then "None" else negative.value)),
      ("mode", JString("text-to-image")),
      ("model", JString(model)),
      ("aspect_ratio", JString("1:1")),
      ("response_format", JString("b64_json")),
      TagsMember(model, user)])
  {
    PayloadTags(prompt, negative, model, user);
  }

  /** Both bodies are their base shape plus the metadata member, appended last. */
  lemma PayloadTags(prompt: string, negative: Option<string>, model: string, user: User)
    ensures BuildPayload(prompt, negative, model, user).members == BaseShape(prompt, negative, model) + [TagsMember(model, user)]
  {
    var base := BaseShape(prompt, negative, model);
    assert forall i :: 0 <= i < |base| ==> |base[i].0| != |"metadata"|;
    PutNewKey(base, "metadata", TagsMember(model, user).1);
  }

  /** The SDXL body's keys, in order, "metadata" last. */
  lemma PayloadSdxlKeys(prompt: string, negative: Option<string>, model: string, user: User)
    requires Contains(model, "sdxl")
    ensures Keys(BuildPayload(prompt, negative, model, user).members) ==
      ["prompt", "cfg_scale", "height", "width", "samples", "steps", "response_format", "model", "metadata"]
  {
    PayloadSdxlShape(prompt, negative, model, user);
    assert |Keys(BuildPayload(prompt, negative, model, user).members)| == 9;
  }

  /** The other bodies' keys, in order, "metadata" last. */
  lemma PayloadOtherKeys(prompt: string, negative: Option<string>, model: string, user: User)
    requires !Contains(model, "sdxl")
    ensures Keys(BuildPayload(prompt, negative, model, user).members) ==
      ["prompt", "negative_prompt", "mode", "model", "aspect_ratio", "response_format", "metadata"]
  {
    PayloadOtherShape(prompt, negative, model, user);
    assert |Keys(BuildPayload(prompt, negative, model, user).members)| == 7;
  }

  /** In both bodies the "prompt" member is the last message, unchanged, including any negative clause. */
  lemma PayloadPromptUnmodified(prompt: string, negative: Option<string>, model: string, user: User)
    ensures Lookup(BuildPayload(prompt, negative, model, user).members, "prompt") == Some(JString(prompt))
  {
    var m := BuildPayload(prompt, negative, model, user).members;
    assert m[0] == ("prompt", JString(prompt)) by {
      if Contains(model, "sdxl") {
        PayloadSdxlShape(prompt, negative, model, user);
      } else {
        PayloadOtherShape(prompt, negative, model, user);
      }
    }
    LookupAt(m, "prompt", 0);
  }
}

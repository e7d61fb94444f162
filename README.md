# LiteLLM Stable Diffusion image action, modelled in Dafny

This project models the chat action that generates an image through a LiteLLM
Stable Diffusion endpoint. The action runs in these steps:

1. Ask the user for a model key and map it through a fixed table of five
   backend models.
2. Take the last chat message as the prompt. Extract a "negative:" clause from
   it with the search `(?i)negative:?\s*(.*)` followed by `strip()`.
3. Build one of two request bodies, chosen by whether the backend model name
   contains "sdxl". Both get a `metadata.tags` list.
4. Check the backend's reply. Decode every returned base64 image into the
   image cache directory under a fresh UUID name, with a JSON sidecar holding
   the request body.
5. Report progress to the chat: status events, then one message event per
   image.

The modules follow these steps:

- `Wrappers`: `Option` and `Result`.
- `Text`: Python's whitespace set, `str.strip`, and first-occurrence search.
- `NegativePrompt`: the negative-clause search, written as a scanner whose
  contract states what the regular expression matches.
- `Payload`: JSON values, the model table, `dict.update`, and the request body.
- `Cache`: `save_b64_image` and the persist loop, as specification functions
  over the cache contents.
- `Actions`: events and the backend reply.
  - `ActOutcome` specifies a whole run.
  - `Respond` specifies the part after the request is sent.
  - The class `Action` has the cache directory as a field
    `files: map<string, Content>`. Its methods save an image, write a sidecar,
    run the persist loop and the emit loop, and run the whole action. Each is
    proved against the corresponding specification function.

The boundary is handled as follows:

- The backend call is an input `backend: Json -> Response`: it maps the
  request body to a failure, a non-object reply, or an object with or without
  a `data` list.
- The UUID of the k-th image of a run is `uuid(k)`, a 36-character string.
  Freshness is the precondition `FreshIds`.
- The MIME-to-extension lookup and the base64 decoder are the parameters
  `guess` and `decode`.
- The emitted events are returned as a sequence.

The negative-clause search matches "negative" case-insensitively as Python's
Unicode IGNORECASE does for those letters:

- the ASCII letters in either case;
- for 'i', also U+0130 and U+0131.

`\s` and `strip()` use the `str.isspace` whitespace set, and `.` stops only
at '\n'.

The code emits the "Generating Stable Diffusion Image..." status as soon as
a model is chosen (lines 119-128), before the prompt is read or the backend
asked. So every later failure yields two events: "Generating", then the
error status. The model follows the code.

## Model

| member | source | states |
|---|---|---|
| Payload.ResolveModel | openwebui/actions/sdlitellm.py:105-117 | a model is chosen exactly when the answer is one of the five keys, and each key is sent as its own backend id: "sdxl" as "eit_sdxl", "core" as "eit_sdcore", "large3" as "eit_sd3large", "ultra" as "eit_sdultra", "large35" as "eit_sd35large"; a missing, empty or unknown answer chooses nothing |
| Payload.SdxlFamilyIsSdxlKey | openwebui/actions/sdlitellm.py:146 | of the five backend ids, only the one chosen by the key "sdxl" contains "sdxl" |
| Text.FindChar | openwebui/actions/sdlitellm.py:59-60 | the index of the first occurrence of a character, with no earlier occurrence, or None exactly when it does not occur: the comma test and the split at the first comma |
| Text.BeforeFirst | openwebui/actions/sdlitellm.py:61 | `split(";")[0]`: the longest prefix without ';', followed by ';' when shorter than the string |
| Text.ContainsAt | openwebui/actions/sdlitellm.py:146 | `sub in s` holds when `sub` occurs at some position of `s` |
| Text.ContainsSome | openwebui/actions/sdlitellm.py:146 | conversely, when `sub in s` holds, there is a position where `sub` occurs |
| Text.OptionText | openwebui/actions/sdlitellm.py:64-66 | the f-string of an optional text: the text itself, or the literal "None" when it is missing |
| Text.Strip | openwebui/actions/sdlitellm.py:138 | the result is the slice left after removing whitespace at both ends, with every removed character whitespace and the kept ends not |
| Text.StripTrimmed | openwebui/actions/sdlitellm.py:138 | a string with no whitespace at either end is its own stripped form |
| Text.StripShape | openwebui/actions/sdlitellm.py:138 | the stripped form contains only characters of the string and has no whitespace at either end |
| NegativePrompt.ExtractNegative | openwebui/actions/sdlitellm.py:135-138 | None exactly when no case-insensitive "negative" occurs; otherwise the stripped group of the match at the first occurrence, with the optional colon and the whitespace after it skipped greedily and the group running to the next newline |
| NegativePrompt.ExtractedTextShape | openwebui/actions/sdlitellm.py:135-138 | the extracted text holds no newline and has no whitespace at either end |
| NegativePrompt.NegativeClauseDeterminesResult | openwebui/actions/sdlitellm.py:135-138 | conversely, any match that starts at the first marker and takes the whitespace greedily determines the extracted text |
| NegativePrompt.ExtractTrailingClause | openwebui/actions/sdlitellm.py:135-138 | a prompt ending in "Negative: " and a stripped single-line clause, with no earlier "n" or "N", yields exactly that clause |
| NegativePrompt.ExtractExamplePrompt | openwebui/actions/sdlitellm.py:135-138 | "A cat. Negative: blurry" yields "blurry" |
| NegativePrompt.ExtractWithoutMarker | openwebui/actions/sdlitellm.py:135-137 | a prompt without the letter n in either case yields None |
| Payload.UserField | openwebui/actions/sdlitellm.py:172-181 | the user's value for a key, or "unknown" when there is no user record or it lacks the key |
| Payload.Put | openwebui/actions/sdlitellm.py:167-184 | `dict.update` with one key: an existing key keeps its position, a new key is appended, the key maps to the new value and every other key keeps its value |
| Payload.PutNewKey | openwebui/actions/sdlitellm.py:167-184 | updating with a key the object lacks appends exactly that member at the end |
| Payload.BuildPayload | openwebui/actions/sdlitellm.py:146-184 | the request body is a JSON object; its members are stated by the lemmas below |
| Payload.PayloadSdxlShape | openwebui/actions/sdlitellm.py:146-156 | an id containing "sdxl" gives exactly prompt, cfg_scale=7, height=1024, width=1024, samples=1, steps=30, response_format="b64_json", model, then metadata, in that order |
| Payload.PayloadOtherShape | openwebui/actions/sdlitellm.py:157-165 | any other id gives exactly prompt, negative_prompt (the extracted text, or "None" when none), mode="text-to-image", model, aspect_ratio="1:1", response_format="b64_json", then metadata |
| Payload.PayloadTags | openwebui/actions/sdlitellm.py:167-184 | both bodies are their base shape with metadata {"tags": ["openwebui", model, email or "unknown", name or "unknown"]} appended last |
| Payload.PayloadSdxlKeys | openwebui/actions/sdlitellm.py:146-156 | the SDXL body's key list, in order |
| Payload.PayloadOtherKeys | openwebui/actions/sdlitellm.py:157-165 | the other body's key list, in order |
| Payload.PayloadPromptUnmodified | openwebui/actions/sdlitellm.py:146-165 | in both bodies "prompt" is the last message unchanged, negative clause included |
| Cache.SaveWithHeader | openwebui/actions/sdlitellm.py:59-70 | with a comma, the split is at the first comma; the text after it is decoded; the name is the UUID and the extension looked up for the header before its first ';'; a decoding error becomes "Error saving image: " and its message |
| Cache.SaveDataUri | openwebui/actions/sdlitellm.py:59-66 | for "data:<mime>;base64,..." the lookup key is "data:<mime>", not "<mime>" |
| Cache.SaveUnknownMime | openwebui/actions/sdlitellm.py:64-66 | when the lookup finds no extension, the file name is the UUID followed by the literal text "None" |
| Cache.SaveWithoutHeader | openwebui/actions/sdlitellm.py:71-80 | without a comma the whole string is decoded and the name is the UUID and ".png" |
| Cache.SaveB64 | openwebui/actions/sdlitellm.py:55-83 | a saved image's name starts with the UUID drawn for it, and every failure's text starts with "Error saving image: " |
| Cache.EntryOutcome | openwebui/actions/sdlitellm.py:200-201 | whatever an entry decodes to, a saved image's name starts with the UUID drawn for it |
| Cache.PersistStep | openwebui/actions/sdlitellm.py:199-206 | a failed batch stays as it is; a turn that succeeds appends exactly one saved image; a turn that fails keeps the saved images and the cache |
| Cache.Persist | openwebui/actions/sdlitellm.py:199-206 | at most one saved image per entry, and every entry is saved exactly when no failure stopped the loop |
| Cache.PersistOutcome | openwebui/actions/sdlitellm.py:199-206 | the loop saves entry k under the k-th UUID; it saves every entry when nothing fails and otherwise exactly those before the first failing entry, whose error is the loop's failure |
| Cache.PersistGrows | openwebui/actions/sdlitellm.py:199-206 | with fresh UUIDs, every old file is kept unchanged; each saved image adds exactly its image file and its sidecar holding the request body; no other file appears |
| Cache.PersistStopsAtFailure | openwebui/actions/sdlitellm.py:199-201 | after a failing entry the remaining entries change nothing |
| Actions.LastPrompt | openwebui/actions/sdlitellm.py:130-131 | the prompt is the content of the last message, and it is found exactly when there are messages and the last one has content |
| Actions.ResponseData | openwebui/actions/sdlitellm.py:192-197 | the reply is usable exactly when it is an object with "data"; a failed call keeps its message; any other reply fails with "Unexpected response format: " and the reply's text |
| Actions.RequestBody | openwebui/actions/sdlitellm.py:135-184 | the body sent is an object whose last member holds the metadata tags and whose "prompt" is the last message unchanged |
| Actions.Urls | openwebui/actions/sdlitellm.py:202 | one URL per saved file, "/cache/image/generations/" followed by its name, in the order saved |
| Actions.ImageMessage | openwebui/actions/sdlitellm.py:209-215 | the message is "![Generated Image](", the URL and ")\n", and the URL is exactly its middle part |
| Actions.Messages | openwebui/actions/sdlitellm.py:209-215 | one message event per URL, in the same order, each showing its URL |
| Actions.Respond | openwebui/actions/sdlitellm.py:192-226 | whatever the reply, the last event is a done status; a rejected reply leaves the cache unchanged |
| Actions.ActOutcome | openwebui/actions/sdlitellm.py:92-238 | every run ends with a done status, and the first event is "You didn't pick a model!" exactly when no model was chosen |
| Actions.Action.constructor | openwebui/actions/sdlitellm.py:39-43 | the cache directory keeps whatever it already holds |
| Actions.Action.SaveB64Image | openwebui/actions/sdlitellm.py:55-83 | the method returns and writes exactly what `SaveB64` specifies: on success the named file is written (one file more when the name is new), and on failure nothing changes |
| Actions.Action.WriteSidecar | openwebui/actions/sdlitellm.py:203-206 | the request body is stored under the image's name followed by ".json", and nothing else changes |
| Actions.Action.PersistEntry | openwebui/actions/sdlitellm.py:200-206 | one turn of the loop writes exactly the image and its sidecar that `EntryOutcome` specifies and returns the image's name, or changes nothing and returns the error |
| Actions.Action.PersistImages | openwebui/actions/sdlitellm.py:199-206 | the loop leaves the cache, the URL list and the failure that `Persist` specifies |
| Actions.Action.HandleResponse | openwebui/actions/sdlitellm.py:192-226 | the reply handling and emit loop produce the events and cache that `Respond` specifies |
| Actions.Action.Act | openwebui/actions/sdlitellm.py:92-238 | the whole action emits the events and leaves the cache that `ActOutcome` specifies |
| Actions.ActSendsRequest | openwebui/actions/sdlitellm.py:119-191 | once a model is chosen and the last message read, the backend gets the body built from that message and its extracted negative text, and "Generating" precedes everything the reply leads to |
| Actions.NoModelEndsEarly | openwebui/actions/sdlitellm.py:105-115 | the events are exactly the one "You didn't pick a model!" status with done=True if and only if the answer is missing or not a key; the cache is then unchanged and the backend's reply plays no part |
| Actions.MissingPromptWritesNothing | openwebui/actions/sdlitellm.py:130-131 | a body without a readable last message writes nothing and emits "Generating" and then "Error generating image: " with the lookup's error |
| Actions.RespondRejected | openwebui/actions/sdlitellm.py:192-197 | a failed call, a non-object reply or a reply without "data" writes nothing and emits the single terminal status "Error generating image: " and the message, done=True |
| Actions.RespondSucceeds | openwebui/actions/sdlitellm.py:199-226 | when every entry saves, the events are the n image messages in the reply's order, then "Image generated successfully"; the cache keeps every old file and gains exactly n images and n sidecars equal to the request body |
| Actions.RespondStopsAtFailedEntry | openwebui/actions/sdlitellm.py:199-206 | when entry f fails, no image message is emitted, only its error status; the files of the f earlier entries remain, and nothing else is added |
| Actions.RespondFinishesOnce | openwebui/actions/sdlitellm.py:209-238 | whatever the reply, the events after the request end with exactly one done=True status |
| Actions.ActFinishesOnce | openwebui/actions/sdlitellm.py:105-238 | every run ends with exactly one done=True status, and no earlier event is one |
| Actions.CoreRequestExample | openwebui/actions/sdlitellm.py:157-165 | the "core" model with "A cat. Negative: blurry" sends the whole message as the prompt and "blurry" as the negative prompt |

## Left out

- The HTTP POST, its worker-thread offload and `raise_for_status`: network I/O. The backend is an input function from the request body to a reply; HTTP and transport errors appear as `Failed` with their message text.
- The input dialog and the event emitter are async host calls. The selection is an input; the events are the returned sequence. The emitter is taken to be always present, so the `if __event_emitter__` guards play no part, and an emitter or dialog that raises is not modelled.
- `uuid.uuid4`, `mimetypes.guess_extension`, `base64.b64decode` and `json.dump` are library calls whose tables and behaviour lie outside the repository. They are parameters; a sidecar stores the request body as a JSON value, not its serialised text. The decoder is not implemented, so there is no encode/decode round trip.
- File-system errors while writing an image or a sidecar, `Path.mkdir`, `CACHE_DIR`, the `Valves` configuration (endpoint URL, API key) and the request headers: configuration and I/O.
- Values of the wrong Python type: a non-string selection, prompt, user field or `b64_json` value, a `data` value that is not a list, non-object entries.
- The pipeline and the search tool modules (`openwebui/pipelines/chat_with_smolagents.py`, `openwebui/tools/smolagent_search.py`) are not part of this model. They only set up and run a third-party agent.

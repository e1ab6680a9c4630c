# AI interactive dashboard: conversation state and prompt construction

A Dafny model of the Flask back end in `app.py`. The back end forwards user
text or an uploaded image to a hosted generative model and returns the answer
as JSON. The model covers the logic the back end owns:

- **Input validation.** The chat, correct and summarize endpoints read
  `"text"` from the JSON body and apply Python's `str.strip()`. Text that is
  empty after stripping gets `{"ok": false, "error": "Empty input"}` with
  status 400, and the model is never called. The image endpoint answers 400
  with `"no file uploaded"` when the `image` field is missing.
- **Conversation memory.** The session holds a list of turns, each a role
  string and a text. A chat request adds the user turn to a copy of the
  history. It renders the prompt as the preamble, one line per turn of the
  last ten turns, and the cue `"Assistant:"`. Only when the model answers
  does the request store the copy back, with the assistant turn appended.
  Clear empties the history.
- **Prompt builders.** The correct prompt is one string. The summarize and
  image prompts are two-part lists.
- **Response envelope.** Success is 200 with the answer under
  `reply`/`corrected`/`summary`/`result`. A model failure is 500 with the
  exception's message.
- **Audit-log object.** Each logged interaction is written to the bucket as
  `logs/{endpoint}_{YYYYMMDD-HHMMSS}.json`.

The generative model is an oracle. Every model-backed handler takes a
`Generation = Generated(text) | Raised(message)` chosen by the caller. Every
model-backed handler returns a `Handled` value with three parts: the response, the prompt
it sent (`None` means no model call was made), and the `log_to_gcs` call it
made. The upload's own success or failure is not an input of any handler.
That shows in the types that a logging failure cannot change a response
(`log_to_gcs` catches every exception).

Modules:

- `Text` (`text.dfy`): `str.strip()` over the exact set of characters that
  `str.isspace()` accepts. `StrippedFrom` gives an independent
  characterisation of the result, and `StrippedFromUnique` proves that
  characterisation unique.
- `Prompts` (`prompts.dfy`): the turn lines, the ten-turn window, the
  rendered chat prompt and the fixed-instruction prompts.
- `Api` (`api.dfy`): the request body, validation, the response envelope,
  and the stateless endpoints (correct, summarize, image) as functions.
- `AuditLog` (`audit_log.dfy`): the object name and the stored record.
- `Chat` (`chat.dfy`): class `Session`, holding `session["convo"]`, with one
  method per endpoint (`Chat`, `Clear`). Also `RenderPrompt`, the loop that
  builds `prompt_list`.

## Modelling choices

- Roles are strings, as in the code; nothing restricts them to the two
  values `"user"` and `"assistant"`. The line is `"User: …"` when the role
  is `"user"` and `"Assistant: …"` for every other role.
- Some bodies make `.get` or `.strip()` raise outside any `try`: a truthy
  JSON body that is not an object, or a non-string `"text"`. These end in
  the framework's own 500 page (`Body.Uncaught`), not in the documented
  JSON error. JSON `null`, or a falsy non-object body, reads as `{}` and so
  as blank text.
- In the image endpoint, `if not image_file` also rejects a file part whose
  file name is empty. The framework's file object is falsy in that case.
- The session key `"convo"` can be absent (`Option`). A failed chat never
  writes the key, so the stored history stays as it was.
- The log record's timestamp and the object name come from two separate
  clock readings (`isoTime` and `stamp`).

## Model

| member | source | states |
|---|---|---|
| `Text.Strip` | app.py:69 | the result is the one piece of the input with only white space cut from either end, and it neither starts nor ends with white space |
| `Text.StrippedFromUnique` | app.py:69 | that description fixes the stripped string uniquely, so `Strip` is exactly Python's `strip()` |
| `Text.StripEmptyIff` | app.py:69-71 | stripping leaves nothing exactly when the text is empty or all white space, which is the condition the endpoints refuse |
| `Text.StripKeepsTrimmed` | app.py:69 | text with no white space at either end passes through unchanged |
| `Text.StripIdempotent` | app.py:69 | stripping an already stripped text changes nothing |
| `Prompts.FormatTurn` | app.py:83-84 | a turn with role `"user"` renders as `"User: " + text` and a turn with any other role as `"Assistant: " + text`; the line is a user line exactly when the role is `"user"`, and the text after the label reads back as the turn's text |
| `Prompts.LastTurns` | app.py:82 | `convo[-10:]` is the last `min(10, n)` turns, as a suffix of the history |
| `Prompts.FormatAll` | app.py:82-84 | one line per turn, in the same order |
| `Prompts.FormatAllSnoc` | app.py:82-84 | formatting one more turn appends its line at the end, which is what each pass of the prompt loop does |
| `Prompts.RenderedPromptShape` | app.py:81-85 | the chat prompt has `min(10, n) + 2` lines: the preamble first, the cue `"Assistant:"` last, and in between the lines of the last `min(10, n)` turns, oldest first |
| `Prompts.OlderTurnsInvisible` | app.py:82 | turns before the last ten never affect the prompt |
| `Prompts.NewTurnShown` | app.py:74-85 | the user turn just added is always the second-to-last line, `"User: " + text` |
| `Prompts.SingleTurnPrompt` | app.py:81-85 | a one-turn conversation renders as exactly `[preamble, "User: " + text, "Assistant:"]` |
| `Prompts.TextParts` | app.py:88 | the list of prompt strings goes to the model as text parts, one per string, in order |
| `Prompts.CorrectPrompt` | app.py:113-117 | the correct prompt is a single string: the fixed instruction and `"Text: "`, then the user's text as everything that follows |
| `Prompts.SummarizePrompt` | app.py:135-138 | the summarize prompt has exactly two parts: the instruction, then `"Text: "` followed by the user's text |
| `Prompts.ImagePrompt` | app.py:161-164 | the image prompt has exactly two parts: the instruction, then a media part tagged `image/jpeg` holding the uploaded bytes unchanged |
| `Prompts.TextPromptsInjective` | app.py:113-138 | different texts give different correct and summarize prompts |
| `Api.RawText` | app.py:68-69 | a null body reads as empty text; a non-object body raises when it is truthy and reads as empty text when it is falsy; in an object, a missing `"text"` key reads as empty text, a string value reads as itself, and any other value raises |
| `Api.ReadInput` | app.py:68-71 | the body is unreadable exactly when reading raises; it is blank exactly when the text is all white space; otherwise the result is the non-empty stripped text |
| `Api.Answer` | app.py:118-123 | after the prompt is sent: on success the response is 200 with the text under the key, and the pair is logged; on a raised exception the response is 500 with its message, and nothing is logged |
| `Api.Refuse` | app.py:69-71 | a refused request makes no model call, logs nothing and is not ok: 400 `"Empty input"` for blank text, the framework's 500 for an unreadable body |
| `Api.Correct` | app.py:106-123 | the model is called exactly when the text survives validation, with the correct prompt of the stripped text; the response is ok exactly when validation and generation both succeed, and it then carries the answer under `corrected` and logs it under `correct`; an unreadable body gives the framework's 500 and blank text 400, both with no model call and no log; a raised exception gives 500 with its message and no log |
| `Api.Summarize` | app.py:128-144 | the same contract with the summarize prompt, the key `summary` and the endpoint `summarize`: an unreadable body gives the framework's 500, blank text 400, neither calling the model or logging; a raised exception gives 500 with its message and no log |
| `Api.Image` | app.py:149-169 | a missing upload gives 400 `"no file uploaded"` with no model call and no log; otherwise the model gets the image prompt of the uploaded bytes; the response is ok exactly when generation succeeds, with the answer under `result`, logged as `("image uploaded", text, "image")`; a response that is not ok logs nothing |
| `Api.BlankTextRefused` | app.py:106-144 | for a white-space-only text, correct and summarize give the same result, whatever the model would answer: 400, no model call, nothing logged |
| `AuditLog.BlobName` | app.py:38 | the name starts with `logs/` and ends with `.json`, and the endpoint and the stamp can be read back from fixed positions |
| `AuditLog.BlobNameInjective` | app.py:38 | with well-formed stamps, two names are equal exactly when the endpoint and the second are equal, so two writes in the same second to the same endpoint overwrite each other |
| `AuditLog.LogObject` | app.py:34-47 | the uploaded object is named from the endpoint and the stamp, and the record holds the ISO time, the endpoint, the input and the output |
| `Chat.RenderPrompt` | app.py:81-85 | the loop builds exactly `RenderedPrompt(preamble, convo)`: the preamble, the lines of `convo[-10:]` in order, and the cue |
| `Chat.ExchangeKeepsAlternation` | app.py:73-96 | appending one user turn and then one assistant turn keeps a history alternating strictly, user first |
| `Chat.Session.History` | app.py:73 | an absent `"convo"` key reads as the empty history |
| `Chat.Session.Chat` | app.py:66-96 | blank or unreadable input gives 400 or the framework's 500, with no model call and the history unchanged; otherwise the model gets the rendered prompt of the old history plus the new user turn; a raised exception gives 500 with its message, nothing logged and the history unchanged; success gives 200 with the reply under `reply`, logs it under `chat`, and stores exactly old history + [user turn, assistant turn]; a strictly alternating history stays alternating |
| `Chat.Session.Clear` | app.py:98-101 | the stored history becomes present and empty, and the response is the ok acknowledgement |
| `Chat.HelloIsValid` | app.py:68-71 | the body `{"text": "hello"}` passes validation as `"hello"` |
| `Chat.HelloOnEmptyHistory` | app.py:81-85 | for any preamble, `"hello"` as the only turn renders as exactly the preamble, `"User: hello"` and the cue |
| `Chat.ClearThenHello` | app.py:66-101 | after a clear, a chat with `"hello"` sends exactly `[preamble, "User: hello", "Assistant:"]`; on success the history is that single exchange, and on failure it stays empty |

## Left out

- `api_models` and `genai.list_models`: the endpoint only relays the provider's model catalogue.
- Flask routing, `index`/`render_template`, cookie signing and the per-client lookup of the session. One `Session` object stands for the session of the requesting client.
- `request.get_json()` raises for a request that is not JSON or is malformed; the framework's resulting 400/415 error page is not modelled.
- `model_generate` and the provider SDK: the answer is the `Generation` parameter. In chat, `resp.text if hasattr(resp, "text") else str(resp)` is folded into the generated text.
- The bucket upload, its JSON serialisation (`json.dumps(..., indent=2)`), the console messages and the `try`/`except` around them. `LogObject` gives the object `log_to_gcs` would write. No handler takes the upload's outcome as an input, matching the swallowed exception.
- `datetime.now()`: the second-granularity stamp and the ISO time are parameters.
- Api.Image: the temporary file `upload_tmp.jpg` is modelled as passing the uploaded bytes through unchanged. A failure to save or read it, which the handler would report as 500, is not modelled separately.
- Chat.Session.Chat: `api_chat` appends the user turn in place to the list object it got from the session. The model appends to a copy instead. The difference cannot be observed, because on the failure path the session is not marked modified and so is not saved.
- The body of the framework's 500 page for an uncaught exception. `Body.Uncaught` only records that one occurs.
- Concurrent requests on one session (last write wins) and on the shared temporary file: concurrency is out of scope.
- Environment configuration: the API key check at start-up, the session secret, the bucket name and `app.run`.

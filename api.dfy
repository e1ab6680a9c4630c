/** The request and response shapes shared by the endpoints, and the
    stateless endpoints: grammar correction, summarization and image insight.
    The generative model is an oracle: the caller supplies what it would
    answer, and each handler reports the prompt it sent (none when it
    rejected the request first) and the interaction it asked to log. */
module Api {
  import Text
  import opened Prompts

  datatype Option<T> = None | Some(value: T)

  /** A JSON value found under the "text" key. */
  datatype JsonValue = Str(s: string) | NonStr

  /** What `request.get_json()` gives: JSON null, an object, or any other
      JSON value, which Python finds truthy or falsy. */
  datatype JsonBody = Null | Object(fields: map<string, JsonValue>) | NonObject(truthy: bool)

  /** `(request.get_json() or {}).get("text", "")`, None where evaluating it
      and calling `.strip()` on it raise: a truthy non-object body has no
      `.get`, and a non-string value has no `.strip`. */
  function RawText(body: JsonBody): (t: Option<string>)
    ensures body.Null? ==> t == Some("")
    ensures body.NonObject? ==> t == (if body.truthy then None else Some(""))
    ensures body.Object? && "text" !in body.fields ==> t == Some("")
    ensures body.Object? && "text" in body.fields ==> (t.Some? <==> body.fields["text"].Str?)
    ensures body.Object? && "text" in body.fields && t.Some? ==> t.value == body.fields["text"].s
  {
    match body
    case Null => Some("")
    case NonObject(truthy) => if truthy then None else Some("")
    case Object(fields) =>
      if "text" !in fields then Some("")
      else if fields["text"].Str? then Some(fields["text"].s)
      else None
  }

  /** The outcome of reading and stripping the submitted text. */
  datatype Input = Unreadable | Blank | Given(text: string)

  /** The validation every text endpoint starts with: strip the text and
      refuse it when nothing is left. */
  function ReadInput(body: JsonBody): (v: Input)
    ensures v.Unreadable? <==> RawText(body).None?
    ensures v.Blank? <==> RawText(body).Some? && Text.AllSpace(RawText(body).value)
    ensures v.Given? ==> v.text != [] && Text.StrippedFrom(RawText(body).value, v.text)
  {
    match RawText(body)
    case None => Unreadable
    case Some(raw) =>
      var t := Text.Strip(raw);
      Text.StripEmptyIff(raw);
      if t == [] then Blank else Given(t)
  }

  /** What the model client answers: generated text, or the message of the
      exception it raised. */
  datatype Generation = Generated(text: string) | Raised(message: string)

  /** The JSON body of a response. `Uncaught` is the framework's own error
      page for an exception the handler does not catch. */
  datatype Body =
    | Payload(key: string, value: string)  // {"ok": true, key: value}
    | Acknowledged                        // {"ok": true}
    | Error(message: string)              // {"ok": false, "error": message}
    | Uncaught

  datatype Response = Response(status: int, body: Body)

  const EmptyInput := "Empty input"
  const NoFile := "no file uploaded"

  /** The arguments of one `log_to_gcs(user_input, model_output, endpoint)` call. */
  datatype LogCall = LogCall(input: string, output: string, endpoint: string)

  /** What one request did: the response, the prompt sent to the model (None:
      no model call), and the interaction handed to the audit log. */
  datatype Handled = Handled(response: Response, sent: Option<Prompt>, logged: Option<LogCall>)

  predicate IsOk(r: Response) {
    r.body.Payload? || r.body.Acknowledged?
  }

  /** The shared tail of every model-backed endpoint once `prompt` was sent:
      on success log the pair and answer 200 with the text under `key`; on a
      raised exception answer 500 with its message and log nothing. */
  function Answer(prompt: Prompt, gen: Generation, input: string, key: string, endpoint: string): (h: Handled)
    ensures h.sent == Some(prompt)
    ensures IsOk(h.response) <==> gen.Generated?
    ensures h.response.status == (if gen.Generated? then 200 else 500)
    ensures gen.Generated? ==> h.response.body == Payload(key, gen.text)
    ensures gen.Generated? ==> h.logged == Some(LogCall(input, gen.text, endpoint))
    ensures gen.Raised? ==> h.response.body == Error(gen.message) && h.logged == None
  {
    match gen
    case Generated(text) => Handled(Response(200, Payload(key, text)), Some(prompt), Some(LogCall(input, text, endpoint)))
    case Raised(message) => Handled(Response(500, Error(message)), Some(prompt), None)
  }

  /** A request refused before any model call. */
  function Refuse(v: Input): (h: Handled)
    requires !v.Given?
    ensures h.sent == None && h.logged == None && !IsOk(h.response)
    ensures v.Blank? ==> h.response == Response(400, Error(EmptyInput))
    ensures v.Unreadable? ==> h.response == Response(500, Uncaught)
  {
    if v.Blank? then Handled(Response(400, Error(EmptyInput)), None, None)
    else Handled(Response(500, Uncaught), None, None)
  }

  /** POST /api/correct. Blank text is refused with 400 before the model is
      asked; otherwise the stripped text goes to the model in the correct
      prompt and comes back under "corrected". */
  function Correct(body: JsonBody, gen: Generation): (h: Handled)
    ensures h.sent.Some? <==> ReadInput(body).Given?
    ensures ReadInput(body).Unreadable? ==> h == Handled(Response(500, Uncaught), None, None)
    ensures ReadInput(body).Blank? ==> h == Handled(Response(400, Error(EmptyInput)), None, None)
    ensures ReadInput(body).Given? ==> h.sent == Some(CorrectPrompt(ReadInput(body).text))
    ensures IsOk(h.response) <==> ReadInput(body).Given? && gen.Generated?
    ensures IsOk(h.response) ==> h.response == Response(200, Payload("corrected", gen.text))
    ensures IsOk(h.response) ==> h.logged == Some(LogCall(ReadInput(body).text, gen.text, "correct"))
    ensures !IsOk(h.response) ==> h.logged == None
    ensures ReadInput(body).Given? && gen.Raised? ==> h.response == Response(500, Error(gen.message))
  {
    var v := ReadInput(body);
    if v.Given? then Answer(CorrectPrompt(v.text), gen, v.text, "corrected", "correct")
    else Refuse(v)
  }

  /** POST /api/summarize: the same validation, the two-part summarize
      prompt, and the answer under "summary". */
  function Summarize(body: JsonBody, gen: Generation): (h: Handled)
    ensures h.sent.Some? <==> ReadInput(body).Given?
    ensures ReadInput(body).Unreadable? ==> h == Handled(Response(500, Uncaught), None, None)
    ensures ReadInput(body).Blank? ==> h == Handled(Response(400, Error(EmptyInput)), None, None)
    ensures ReadInput(body).Given? ==> h.sent == Some(SummarizePrompt(ReadInput(body).text))
    ensures IsOk(h.response) <==> ReadInput(body).Given? && gen.Generated?
    ensures IsOk(h.response) ==> h.response == Response(200, Payload("summary", gen.text))
    ensures IsOk(h.response) ==> h.logged == Some(LogCall(ReadInput(body).text, gen.text, "summarize"))
    ensures !IsOk(h.response) ==> h.logged == None
    ensures ReadInput(body).Given? && gen.Raised? ==> h.response == Response(500, Error(gen.message))
  {
    var v := ReadInput(body);
    if v.Given? then Answer(SummarizePrompt(v.text), gen, v.text, "summary", "summarize")
    else Refuse(v)
  }

  /** The multipart field "image": the client's file name and the bytes. */
  datatype Upload = Upload(filename: string, data: seq<byte>)

  /** `if not image_file`: no field at all, or a file part whose file name is
      empty (such a part is falsy). */
  predicate Missing(file: Option<Upload>) {
    file.None? || file.value.filename == []
  }

  /** POST /api/image. A missing upload is refused with 400 before the model
      is asked; otherwise the uploaded bytes go to the model as a JPEG part
      and the answer comes back under "result". */
  function Image(file: Option<Upload>, gen: Generation): (h: Handled)
    ensures h.sent.Some? <==> !Missing(file)
    ensures Missing(file) ==> h == Handled(Response(400, Error(NoFile)), None, None)
    ensures !Missing(file) ==> h.sent == Some(ImagePrompt(file.value.data))
    ensures IsOk(h.response) <==> !Missing(file) && gen.Generated?
    ensures IsOk(h.response) ==> h.response == Response(200, Payload("result", gen.text))
    ensures IsOk(h.response) ==> h.logged == Some(LogCall("image uploaded", gen.text, "image"))
    ensures !IsOk(h.response) ==> h.logged == None
    ensures !Missing(file) && gen.Raised? ==> h.response == Response(500, Error(gen.message))
  {
    if Missing(file) then Handled(Response(400, Error(NoFile)), None, None)
    else Answer(ImagePrompt(file.value.data), gen, "image uploaded", "result", "image")
  }

  /** Correct and summarize refuse white-space-only text alike: 400,
      no model call, nothing logged, whatever the model would have said. */
  lemma {:induction false} BlankTextRefused(raw: string, gen: Generation)
    requires Text.AllSpace(raw)
    ensures var body := Object(map["text" := Str(raw)]);
            Correct(body, gen) == Summarize(body, gen)
            == Handled(Response(400, Error(EmptyInput)), None, None)
  {
    var body := Object(map["text" := Str(raw)]);
    assert RawText(body) == Some(raw);
  }
}

/// The POST /api/restore handler (server.js:60-183): the checks in front of
/// the upstream call, the classification of Qwen's answer, and the reply.

module RestoreHandler {
  import opened JsValues
  import RequestTranslator
  import ResultExtractor

  /** What the upstream call produced once it settled: `resp.status`, the text
      of `resp.text()`, and what JSON.parse made of that text (None when it
      throws). */
  datatype Response = Response(status: int, text: string, parsed: Option<Json>)

  /** The outcome of `fetch` and `resp.text()`: either promise rejects with an
      error message, or both resolve. */
  datatype Exchange = Rejected(message: string) | Answered(response: Response)

  /** `resp.ok` of a fetch response: the status is in the 2xx range. */
  predicate IsOk(status: int) {
    200 <= status <= 299
  }

  /** Every reply the handler sends. */
  datatype Reply =
    | Restored(url: Json)                     // 200 {url}
    | MissingApiKey                           // 500 missing_api_key
    | ImageRequired                           // 400 imageBase64_required
    | InvalidJson(status: int, raw: string)   // 500 invalid_json_from_qwen
    | QwenError(status: int, detail: Json)    // 500 qwen_error
    | NoImageUrl(detail: Json)                // 500 no_image_url_in_qwen_output
    | ParseOutputError                        // 500 parse_output_error
    | ServerError(message: string)            // 500 server_error

  const MissingApiKeyMessage: string := "DASHSCOPE_API_KEY no está configurada en Render"
  const ImageRequiredMessage: string := "Falta imageBase64 (string base64) en el body"

  /** The message of the TypeError that converting an object without a
      callable `toString` or `valueOf` to a string raises in Node's engine. */
  const ToPrimitiveMessage: string := "Cannot convert object to primitive value"

  /** The HTTP status code of a reply. */
  function HttpStatus(r: Reply): (code: int)
    ensures code == 200 <==> r.Restored?
    ensures code == 400 <==> r.ImageRequired?
    ensures code == 500 <==> !r.Restored? && !r.ImageRequired?
  {
    match r
    case Restored(_) => 200
    case ImageRequired => 400
    case _ => 500
  }

  /** The machine-readable `error` field of a failure reply. */
  function ErrorCode(r: Reply): (code: string)
    requires !r.Restored?
    ensures code == "imageBase64_required" <==> HttpStatus(r) == 400
    ensures code == "missing_api_key" <==> r.MissingApiKey?
    ensures code == "invalid_json_from_qwen" <==> r.InvalidJson?
    ensures code == "qwen_error" <==> r.QwenError?
    ensures code == "no_image_url_in_qwen_output" <==> r.NoImageUrl?
    ensures code == "parse_output_error" <==> r.ParseOutputError?
    ensures code == "server_error" <==> r.ServerError?
  {
    match r
    case MissingApiKey => "missing_api_key"
    case ImageRequired => "imageBase64_required"
    case InvalidJson(_, _) => "invalid_json_from_qwen"
    case QwenError(_, _) => "qwen_error"
    case NoImageUrl(_) => "no_image_url_in_qwen_output"
    case ParseOutputError => "parse_output_error"
    case ServerError(_) => "server_error"
  }

  /** Two failure replies share an error code only when they are the same
      kind of failure: each failure mode has a code of its own. */
  lemma ErrorCodesDistinct(a: Reply, b: Reply)
    requires !a.Restored? && !b.Restored?
    requires ErrorCode(a) == ErrorCode(b)
    ensures a.MissingApiKey? == b.MissingApiKey? && a.ImageRequired? == b.ImageRequired?
    ensures a.InvalidJson? == b.InvalidJson? && a.QwenError? == b.QwenError?
    ensures a.NoImageUrl? == b.NoImageUrl? && a.ParseOutputError? == b.ParseOutputError?
    ensures a.ServerError? == b.ServerError?
  {
  }

  /** The JSON body of a reply. The message of a `parse_output_error` is the
      text of a JavaScript TypeError and is not part of this model. */
  function Body(r: Reply): (j: Json)
    ensures j.Obj?
    ensures r.Restored? ==> j.fields == map["url" := r.url]
    ensures !r.Restored? ==> "error" in j.fields && j.fields["error"] == Str(ErrorCode(r))
    ensures r.MissingApiKey? || r.ImageRequired? || r.ServerError? ==> j.fields.Keys == {"error", "message"}
    ensures r.MissingApiKey? ==> j.fields["message"] == Str(MissingApiKeyMessage)
    ensures r.ImageRequired? ==> j.fields["message"] == Str(ImageRequiredMessage)
    ensures r.ServerError? ==> j.fields["message"] == Str(r.message)
    ensures r.InvalidJson? ==> j.fields.Keys == {"error", "status", "raw"}
    ensures r.QwenError? ==> j.fields.Keys == {"error", "status", "detail"}
    ensures r.InvalidJson? || r.QwenError? ==> j.fields["status"] == Num(r.status as real)
    ensures r.InvalidJson? ==> j.fields["raw"] == Str(r.raw)
    ensures r.NoImageUrl? ==> j.fields.Keys == {"error", "detail"}
    ensures r.QwenError? || r.NoImageUrl? ==> j.fields["detail"] == r.detail
    ensures r.ParseOutputError? ==> j.fields.Keys == {"error"}
  {
    match r
    case Restored(url) => Obj(map["url" := url])
    case MissingApiKey =>
      Obj(map["error" := Str(ErrorCode(r)), "message" := Str(MissingApiKeyMessage)])
    case ImageRequired =>
      Obj(map["error" := Str(ErrorCode(r)), "message" := Str(ImageRequiredMessage)])
    case InvalidJson(status, raw) =>
      Obj(map["error" := Str(ErrorCode(r)), "status" := Num(status as real), "raw" := Str(raw)])
    case QwenError(status, detail) =>
      Obj(map["error" := Str(ErrorCode(r)), "status" := Num(status as real), "detail" := detail])
    case NoImageUrl(detail) =>
      Obj(map["error" := Str(ErrorCode(r)), "detail" := detail])
    case ParseOutputError => Obj(map["error" := Str(ErrorCode(r))])
    case ServerError(message) => Obj(map["error" := Str(ErrorCode(r)), "message" := Str(message)])
  }

  /** `req.body || {}`, the object `imageBase64` and `mode` are read from: the
      parsed body, or an empty object in place of a missing or falsy one. */
  function Received(body: Value): (r: Json)
    ensures Truthy(body) ==> r == body.value
    ensures !Truthy(body) ==> r == Obj(map[])
  {
    Or(body, Some(Obj(map[]))).value
  }

  /** A property of the destructured body, `const { imageBase64, mode } =
      req.body || {}`: present only when the body is an object with that key. */
  function Arg(body: Value, key: string): (r: Value)
    requires key in {"imageBase64", "mode"}
    ensures r.Some? <==> Truthy(body) && body.value.Obj? && key in body.value.fields
    ensures r.Some? ==> r.value == body.value.fields[key]
  {
    Member(Received(body), key)
  }

  function ImageArg(body: Value): Value {
    Arg(body, "imageBase64")
  }

  function ModeArg(body: Value): Value {
    Arg(body, "mode")
  }

  /** `imageBase64` passes `!imageBase64 || typeof imageBase64 !== 'string'`:
      it is a string, and not the empty one. */
  predicate IsImagePayload(v: Value)
    ensures IsImagePayload(v) <==> v.Some? && v.value.Str? && v.value.s != ""
  {
    Truthy(v) && v.value.Str?
  }

  /** The log line before the job is built formats `${mode || 'auto'}`; that
      string conversion throws for a `mode` it cannot convert. */
  predicate LogThrows(mode: Value) {
    ToStringThrows(Or(mode, Some(Str("auto"))).value)
  }

  /** What the handler does before any network work: reply at once, or send
      this job body upstream. */
  datatype Step = Answer(reply: Reply) | Send(job: Json)

  /** The two fast-fail checks, in the handler's order: the API key first,
      whatever the body holds; then the image payload. A request passing both
      is logged, and a `mode` the log line cannot turn into a string ends the
      request in the outer `catch` before any job is built. Otherwise the job
      body is the one for the request's payload and mode. */
  function Admit(hasApiKey: bool, body: Value): (s: Step)
    ensures !hasApiKey ==> s == Answer(MissingApiKey)
    ensures hasApiKey && !IsImagePayload(ImageArg(body)) ==> s == Answer(ImageRequired)
    ensures hasApiKey && IsImagePayload(ImageArg(body)) && LogThrows(ModeArg(body)) ==>
      s == Answer(ServerError(ToPrimitiveMessage))
    ensures s.Send? <==> hasApiKey && IsImagePayload(ImageArg(body)) && !LogThrows(ModeArg(body))
    ensures s.Send? ==>
      RequestTranslator.ReadJob(s.job) ==
        Some((RequestTranslator.DataUrl(ImageArg(body).value.s), RequestTranslator.Instruction(ModeArg(body))))
  {
    if !hasApiKey then Answer(MissingApiKey)
    else
      var imageBase64 := ImageArg(body);
      if !Truthy(imageBase64) || !imageBase64.value.Str? then Answer(ImageRequired)
      else if LogThrows(ModeArg(body)) then Answer(ServerError(ToPrimitiveMessage))
      else Send(RequestTranslator.JobBody(imageBase64.value.s, ModeArg(body)))
  }

  /** The reply to an upstream exchange, checked in the handler's order: a
      rejected call is a server error; then unparseable text, whatever the
      status; then a status that is not OK; then extraction of the URL. */
  function Conclude(exchange: Exchange): (r: Reply)
    ensures exchange.Rejected? <==> r.ServerError?
    ensures exchange.Rejected? ==> r == ServerError(exchange.message)
    ensures exchange.Answered? && exchange.response.parsed.None? ==>
      r == InvalidJson(exchange.response.status, exchange.response.text)
    ensures r.InvalidJson? ==> exchange.Answered? && exchange.response.parsed.None?
    ensures exchange.Answered? && exchange.response.parsed.Some? && !IsOk(exchange.response.status) ==>
      r == QwenError(exchange.response.status, exchange.response.parsed.value)
    ensures r.QwenError? ==>
      exchange.Answered? && exchange.response.parsed.Some? && !IsOk(exchange.response.status)
    ensures (exchange.Answered? && exchange.response.parsed.Some? && IsOk(exchange.response.status) &&
             ResultExtractor.ExtractImageUrl(exchange.response.parsed.value).NoUrl?) ==>
      r == NoImageUrl(exchange.response.parsed.value)
    ensures r.Restored? <==>
      exchange.Answered? && exchange.response.parsed.Some? && IsOk(exchange.response.status) &&
      ResultExtractor.ExtractImageUrl(exchange.response.parsed.value).Url?
    ensures r.Restored? ==> ResultExtractor.ExtractImageUrl(exchange.response.parsed.value) == ResultExtractor.Url(r.url)
    ensures r.NoImageUrl? ==>
      exchange.Answered? && exchange.response.parsed == Some(r.detail) &&
      ResultExtractor.ExtractImageUrl(r.detail).NoUrl?
    ensures r.ParseOutputError? <==>
      exchange.Answered? && exchange.response.parsed.Some? && IsOk(exchange.response.status) &&
      ResultExtractor.ExtractImageUrl(exchange.response.parsed.value).ShapeError?
  {
    match exchange
    case Rejected(message) => ServerError(message)
    case Answered(resp) =>
      match resp.parsed
      case None => InvalidJson(resp.status, resp.text)
      case Some(json) =>
        if !IsOk(resp.status) then QwenError(resp.status, json)
        else
          match ResultExtractor.ExtractImageUrl(json)
          case Url(url) => Restored(url)
          case NoUrl => NoImageUrl(json)
          case ShapeError => ParseOutputError
  }

  /** The whole handler. `upstream` answers the job body sent to Qwen; it is
      consulted only for a request that passes both fast-fail checks and the
      log line, with the body built for that request. */
  function Restore(hasApiKey: bool, body: Value, upstream: Json -> Exchange): (r: Reply)
    ensures !hasApiKey ==> r == MissingApiKey
    ensures hasApiKey && !IsImagePayload(ImageArg(body)) ==> r == ImageRequired
    ensures hasApiKey && IsImagePayload(ImageArg(body)) && LogThrows(ModeArg(body)) ==>
      r == ServerError(ToPrimitiveMessage)
    ensures hasApiKey && IsImagePayload(ImageArg(body)) && !LogThrows(ModeArg(body)) ==>
      r == Conclude(upstream(RequestTranslator.JobBody(ImageArg(body).value.s, ModeArg(body))))
  {
    match Admit(hasApiKey, body)
    case Answer(reply) => reply
    case Send(job) => Conclude(upstream(job))
  }

  /** A request that fails a fast-fail check, or whose `mode` the log line
      cannot format, is answered without the upstream service: any two
      upstream behaviours give the same reply. */
  lemma RejectedRequestsSendNothing(hasApiKey: bool, body: Value, up1: Json -> Exchange, up2: Json -> Exchange)
    requires !hasApiKey || !IsImagePayload(ImageArg(body)) || LogThrows(ModeArg(body))
    ensures Restore(hasApiKey, body, up1) == Restore(hasApiKey, body, up2)
    ensures HttpStatus(Restore(hasApiKey, body, up1)) ==
      if hasApiKey && !IsImagePayload(ImageArg(body)) then 400 else 500
  {
  }

  /** A concrete request the log line stops: `{"imageBase64": "abc",
      "mode": {"toString": 1}}` with the key configured gets a 500
      `server_error`, whatever Qwen would have answered. */
  lemma UnprintableModeIsServerError(upstream: Json -> Exchange)
    ensures
      var body := Some(Obj(map["imageBase64" := Str("abc"), "mode" := Obj(map["toString" := Num(1.0)])]));
      Restore(true, body, upstream) == ServerError(ToPrimitiveMessage)
  {
    var body := Some(Obj(map["imageBase64" := Str("abc"), "mode" := Obj(map["toString" := Num(1.0)])]));
    assert ModeArg(body) == Some(Obj(map["toString" := Num(1.0)]));
  }

  /** A 200 reply happens exactly when the key is configured, the payload is
      a non-empty string, Qwen answers parseable JSON with an OK status, and
      a URL is extracted from it; the reply carries that URL verbatim. */
  lemma RestoredExactly(hasApiKey: bool, body: Value, upstream: Json -> Exchange, url: Json)
    ensures Restore(hasApiKey, body, upstream) == Restored(url) <==>
      hasApiKey && IsImagePayload(ImageArg(body)) && !LogThrows(ModeArg(body)) &&
      var ex := upstream(RequestTranslator.JobBody(ImageArg(body).value.s, ModeArg(body)));
      ex.Answered? && ex.response.parsed.Some? && IsOk(ex.response.status) &&
      ResultExtractor.ExtractImageUrl(ex.response.parsed.value) == ResultExtractor.Url(url)
  {
  }

  /** If Qwen answers with the user message it was sent, the reply is the
      data URL of the caller's payload: the extractor reads image blocks the
      way the translator writes them. */
  lemma EchoedMessageRestoresDataUrl(hasApiKey: bool, body: Value, status: int, text: string)
    requires hasApiKey && IsImagePayload(ImageArg(body)) && !LogThrows(ModeArg(body)) && IsOk(status)
    ensures
      var image := ImageArg(body).value.s;
      var message := RequestTranslator.UserMessage(RequestTranslator.DataUrl(image), RequestTranslator.Instruction(ModeArg(body)));
      var echo := Obj(map["output" := Obj(map["choices" := Arr([Obj(map["message" := message])])])]);
      Restore(hasApiKey, body, _ => Answered(Response(status, text, Some(echo)))) ==
        Restored(Str(RequestTranslator.DataUrl(image)))
  {
    var image := ImageArg(body).value.s;
    var dataUrl := RequestTranslator.DataUrl(image);
    var message := RequestTranslator.UserMessage(dataUrl, RequestTranslator.Instruction(ModeArg(body)));
    var echo := Obj(map["output" := Obj(map["choices" := Arr([Obj(map["message" := message])])])]);
    var blocks := ResultExtractor.Content(echo).items;
    assert blocks == message.fields["content"].items;
    assert dataUrl != "" by {
      assert |dataUrl| == |RequestTranslator.DataUrlPrefix| + |image|;
    }
    assert ResultExtractor.FirstImageAt(blocks, 0);
  }
}

/** The front end's `apiClient` (frontend/src/lib/api-client.ts), reduced to
    what its callers can observe: the value a request resolves to, or the
    value it throws. The network is a parameter: what the server answered
    (its status, whether its body parsed as JSON, and what reading a failed
    answer's body gave), or the message of the error `fetch` threw. */
module ApiClient {
  import opened Wrappers
  import opened Text

  /** The body of a failed answer, as `apiClient.get` tries to read it:
      JSON, with `json` its `JSON.stringify`; or not JSON, with `text` the
      raw text and `rereadError` the message of the TypeError that reading
      the already-consumed body a second time rejects with. */
  datatype ErrorBody = JsonBody(json: string) | PlainBody(text: string, rereadError: string)

  /** What the server did with a request. */
  datatype HttpReply<T> =
    | Answered(status: int, body: Result<T, string>, errorBody: ErrorBody)
    | NetworkFailure(message: string)

  /** A value a request throws, as a `catch` clause sees it: an `Error`
      object with its `message` and, only if something set one, a `status`
      property; or a value that is not an `Error` at all. */
  datatype Thrown = JsError(message: string, status: Option<int>) | NonError

  /** What an awaited request gives: its value, or what it threw. */
  datatype Outcome<T> = Returned(value: T) | Threw(err: Thrown)

  /** `response.ok` */
  predicate ResponseOk(status: int) {
    200 <= status <= 299
  }

  /** The thrown value carries the HTTP status 404, as the caller's
      `err.status === 404` test asks. */
  predicate StatusNotFound<T>(o: Outcome<T>) {
    o.Threw? && o.err.JsError? && o.err.status == Some(404)
  }

  /** The message of the error a failed answer is reported with. */
  function ApiErrorText(status: int, details: string): string {
    "API error: " + IntToString(status) + " - " + details
  }

  /** `apiClient.get`: the parsed body of a 2xx answer. A failed answer
      whose body is JSON throws an `Error` "API error: <status> - <json>",
      built without a `status` property; one whose body is not JSON throws
      the TypeError of the second body read, since `response.json()` has
      already consumed the body `response.text()` asks for. A failed
      `fetch` or an unparsable 2xx body is rethrown as it came. */
  function Get<T>(reply: HttpReply<T>): (r: Outcome<T>)
    ensures r.Returned? <==> reply.Answered? && ResponseOk(reply.status) && reply.body.Ok?
    ensures r.Returned? ==> r.value == reply.body.value
    ensures reply.Answered? && !ResponseOk(reply.status) && reply.errorBody.JsonBody? ==>
      r == Threw(JsError(ApiErrorText(reply.status, reply.errorBody.json), None))
    ensures reply.Answered? && !ResponseOk(reply.status) && reply.errorBody.PlainBody? ==>
      r == Threw(JsError(reply.errorBody.rereadError, None))
    ensures reply.NetworkFailure? ==> r == Threw(JsError(reply.message, None))
  {
    match reply
    case NetworkFailure(m) => Threw(JsError(m, None))
    case Answered(status, body, errorBody) =>
      if !ResponseOk(status) then
        match errorBody
        case JsonBody(json) => Threw(JsError(ApiErrorText(status, json), None))
        case PlainBody(_, rereadError) => Threw(JsError(rereadError, None))
      else if body.Err? then Threw(JsError(body.error, None))
      else Returned(body.value)
  }

  /** No outcome of `apiClient.get` carries a status: whatever the server
      answered, a caller's 404 test is never true. */
  lemma GetNeverCarriesStatus<T>(reply: HttpReply<T>)
    ensures Get(reply).Threw? ==> Get(reply).err.JsError? && Get(reply).err.status.None?
    ensures !StatusNotFound(Get(reply))
  {
  }

  /** A 404 answer with a JSON body is thrown as a plain error whose
      message is "API error: 404 - " and the body. */
  lemma GetNotFound<T>(body: Result<T, string>, json: string)
    ensures Get(Answered(404, body, JsonBody(json))) == Threw(JsError("API error: 404 - " + json, None))
  {
    assert NatToString(4) == "4";
    assert NatToString(40) == "40";
    assert IntToString(404) == "404";
    assert "API error: " + "404" + " - " == "API error: 404 - ";
  }

  /** A failed answer whose body is not JSON never reports its text: what
      is thrown is the second read's error, whatever the text says. */
  lemma GetPlainBodyLost<T>(status: int, body: Result<T, string>, text: string, rereadError: string)
    requires !ResponseOk(status)
    ensures Get(Answered(status, body, PlainBody(text, rereadError))) == Threw(JsError(rereadError, None))
    ensures Get(Answered(status, body, PlainBody(text, rereadError))) == Get(Answered(status, body, PlainBody("", rereadError)))
  {
  }

  /** The details a failed answer is meant to be reported with: the JSON
      when the body is JSON, its text otherwise. */
  function Details(e: ErrorBody): string {
    match e
    case JsonBody(json) => json
    case PlainBody(text, _) => text
  }

  /** `apiClient.get` as its caller evidently expects it: the same, except
      that every failed answer throws "API error: <status> - <details>"
      with its `status` attached, the details being the JSON or, for a
      body that is not JSON, its text. */
  function GetWithStatus<T>(reply: HttpReply<T>): (r: Outcome<T>)
    ensures r.Returned? <==> Get(reply).Returned?
    ensures r.Returned? ==> r == Get(reply)
    ensures reply.Answered? && !ResponseOk(reply.status) ==>
      r == Threw(JsError(ApiErrorText(reply.status, Details(reply.errorBody)), Some(reply.status)))
    ensures !(reply.Answered? && !ResponseOk(reply.status)) ==> r == Get(reply)
  {
    match reply
    case NetworkFailure(_) => Get(reply)
    case Answered(status, _, errorBody) =>
      if !ResponseOk(status) then Threw(JsError(ApiErrorText(status, Details(errorBody)), Some(status)))
      else Get(reply)
  }

  /** With the status attached, exactly the 404 answers reach the caller's
      404 branch. */
  lemma GetWithStatusNotFound<T>(reply: HttpReply<T>)
    ensures StatusNotFound(GetWithStatus(reply)) <==> reply.Answered? && reply.status == 404
  {
  }

  /** With the corrected client, a body that is not JSON is reported by
      its text, and two failed answers that differ in that text throw
      different messages. */
  lemma GetWithStatusKeepsText<T>(status: int, body: Result<T, string>, text1: string, text2: string, e1: string, e2: string)
    requires !ResponseOk(status) && text1 != text2
    ensures GetWithStatus(Answered(status, body, PlainBody(text1, e1))).err.message
         != GetWithStatus(Answered(status, body, PlainBody(text2, e2))).err.message
  {
    var p := "API error: " + IntToString(status) + " - ";
    assert ApiErrorText(status, text1) == p + text1;
    assert ApiErrorText(status, text2) == p + text2;
    assert (p + text1)[|p|..] == text1 && (p + text2)[|p|..] == text2;
  }

  /** `apiClient.post` and `apiClient.delete`, which treat the reply alike:
      the parsed body of a 2xx answer; otherwise an `Error` whose message
      is "API error: <status>"; a failed `fetch` or an unparsable body is
      thrown as it came. */
  function Send<T>(reply: HttpReply<T>): (r: Outcome<T>)
    ensures r.Returned? <==> reply.Answered? && ResponseOk(reply.status) && reply.body.Ok?
    ensures r.Returned? ==> r.value == reply.body.value
    ensures reply.Answered? && !ResponseOk(reply.status) ==>
      r == Threw(JsError("API error: " + IntToString(reply.status), None))
    ensures reply.NetworkFailure? ==> r == Threw(JsError(reply.message, None))
  {
    match reply
    case NetworkFailure(m) => Threw(JsError(m, None))
    case Answered(status, body, _) =>
      if !ResponseOk(status) then Threw(JsError("API error: " + IntToString(status), None))
      else if body.Err? then Threw(JsError(body.error, None))
      else Returned(body.value)
  }

  /** What `apiClient.post` and `apiClient.delete` throw is always an
      `Error`, so their callers' fallbacks for other thrown values are
      never used. */
  lemma SendThrowsErrors<T>(reply: HttpReply<T>)
    ensures Send(reply).Threw? ==> Send(reply).err.JsError?
  {
  }
}

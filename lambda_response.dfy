/**
 * The response envelope of the Node.js handlers: a status code, a header
 * object built by spreading the caller's headers over three defaults, and
 * a body that is either a string passed through or the JSON text of a
 * value.  JSON text is not modelled; a stringified body is represented by
 * the value it encodes.
 */
module LambdaResponse {
  import opened Wrappers
  import opened JsValues

  type Headers = map<string, Json>

  /** The response body: a string sent as it is, or the JSON encoding of a value. */
  datatype Body = Verbatim(text: string) | Stringified(value: Json)

  datatype Response = Response(statusCode: int, headers: Headers, body: Body)

  /** The headers every response starts from; Allow-Credentials is the boolean `true`. */
  function DefaultHeaders(): Headers {
    map["Content-Type" := JStr("application/json"),
        "Access-Control-Allow-Origin" := JStr("*"),
        "Access-Control-Allow-Credentials" := JBool(true)]
  }

  /**
   * createResponse: the status code as given; the default headers with the
   * caller's spread after them, so a caller header wins; a string body
   * verbatim and any other value stringified.
   */
  function CreateResponse(statusCode: int, body: Json, headers: Headers): (r: Response)
    ensures r.statusCode == statusCode
    ensures forall h :: h in r.headers <==> h in DefaultHeaders() || h in headers
    ensures forall h :: h in headers ==> r.headers[h] == headers[h]
    ensures forall h :: h in DefaultHeaders() && h !in headers ==> r.headers[h] == DefaultHeaders()[h]
    ensures body.JStr? ==> r.body == Verbatim(body.s)
    ensures !body.JStr? ==> r.body == Stringified(body)
  {
    Response(statusCode, DefaultHeaders() + headers,
             if body.JStr? then Verbatim(body.s) else Stringified(body))
  }

  /** The value a client reads back from a body: the string itself, or the parsed JSON. */
  function Received(r: Response): Json {
    match r.body
    case Verbatim(t) => JStr(t)
    case Stringified(v) => v
  }

  /** Whatever the handler passes as body is what the client receives. */
  lemma BodyRoundTrip(statusCode: int, body: Json, headers: Headers)
    ensures Received(CreateResponse(statusCode, body, headers)) == body
  {
  }

  /** success: 200 with the given body. */
  function Success(body: Json, headers: Headers): (r: Response)
    ensures r.statusCode == 200 && Received(r) == body
    ensures r.headers == CreateResponse(r.statusCode, body, headers).headers
  {
    CreateResponse(200, body, headers)
  }

  /** created: 201 with the given body. */
  function Created(body: Json, headers: Headers): (r: Response)
    ensures r.statusCode == 201 && Received(r) == body
    ensures r.headers == CreateResponse(r.statusCode, body, headers).headers
  {
    CreateResponse(201, body, headers)
  }

  /** noContent: 204 with the empty string as body. */
  function NoContent(headers: Headers): (r: Response)
    ensures r.statusCode == 204 && r.body == Verbatim("")
  {
    CreateResponse(204, JStr(""), headers)
  }

  /** The `{error: message}` object of the error helpers; an `undefined` message takes the default. */
  function ErrorObject(message: Option<Json>, default: string): (v: Json)
    ensures v.JObj? && v.fields.Keys == {"error"}
    ensures message.Some? ==> v.fields["error"] == message.value
    ensures message.None? ==> v.fields["error"] == JStr(default)
  {
    JObj(map["error" := message.GetOr(JStr(default))])
  }

  function BadRequest(message: Option<Json>, headers: Headers): (r: Response)
    ensures r.statusCode == 400 && Received(r) == ErrorObject(message, "Bad Request")
  {
    CreateResponse(400, ErrorObject(message, "Bad Request"), headers)
  }

  function Unauthorized(message: Option<Json>, headers: Headers): (r: Response)
    ensures r.statusCode == 401 && Received(r) == ErrorObject(message, "Unauthorized")
  {
    CreateResponse(401, ErrorObject(message, "Unauthorized"), headers)
  }

  function Forbidden(message: Option<Json>, headers: Headers): (r: Response)
    ensures r.statusCode == 403 && Received(r) == ErrorObject(message, "Forbidden")
  {
    CreateResponse(403, ErrorObject(message, "Forbidden"), headers)
  }

  function NotFound(message: Option<Json>, headers: Headers): (r: Response)
    ensures r.statusCode == 404 && Received(r) == ErrorObject(message, "Not Found")
  {
    CreateResponse(404, ErrorObject(message, "Not Found"), headers)
  }

  function ServerError(message: Option<Json>, headers: Headers): (r: Response)
    ensures r.statusCode == 500 && Received(r) == ErrorObject(message, "Internal Server Error")
  {
    CreateResponse(500, ErrorObject(message, "Internal Server Error"), headers)
  }

  /** The "error" field of a response body, when it has one. */
  function ErrorOf(r: Response): Option<Json> {
    Field(Received(r), "error")
  }

  /**
   * The error helpers differ only in status code: each sends back the
   * message it was given, or its reason phrase when the message is
   * `undefined` (a `null` message is sent as `null`).
   */
  lemma ErrorHelpersFaithful(message: Option<Json>, headers: Headers)
    ensures ErrorOf(BadRequest(message, headers)) == Some(message.GetOr(JStr("Bad Request")))
    ensures ErrorOf(Unauthorized(message, headers)) == Some(message.GetOr(JStr("Unauthorized")))
    ensures ErrorOf(Forbidden(message, headers)) == Some(message.GetOr(JStr("Forbidden")))
    ensures ErrorOf(NotFound(message, headers)) == Some(message.GetOr(JStr("Not Found")))
    ensures ErrorOf(ServerError(message, headers)) == Some(message.GetOr(JStr("Internal Server Error")))
  {
  }

  /** With no caller headers a response carries exactly the three defaults. */
  lemma DefaultHeadersOnly(statusCode: int, body: Json)
    ensures CreateResponse(statusCode, body, map[]).headers == DefaultHeaders()
  {
  }
}

/**
 * The response envelope of the Java handlers: a status code, the header map
 * and the body text.  Serialization to JSON text is not modelled; a body
 * that holds an object is represented by the object it serializes.
 */
module ApiResponse {
  import opened Wrappers

  type Headers = map<string, string>

  /** The objects handed to the serializer: an entity view, or the one-field `{"error": msg}` map. */
  datatype Json<T> = Entity(value: T) | ErrorField(error: string)

  /** The `Object body` argument of `createResponse`. */
  datatype Content<T> =
    | Text(text: string)     // a `String`, passed through verbatim
    | Object(obj: Json<T>)   // any other object, serialized
    | Unserializable         // an object the serializer rejects

  /** The response "body": a verbatim string, or the serialization of an object. */
  datatype Body<T> = Verbatim(text: string) | Serialized(obj: Json<T>)

  datatype Response<T> = Response(statusCode: int, headers: Headers, body: Body<T>)

  /** The body written when serialization fails. */
  const SerializationErrorBody: string := "{\"error\": \"Error serializing response\"}"

  /** The headers every response starts from. */
  function DefaultHeaders(): Headers {
    map["Content-Type" := "application/json",
        "Access-Control-Allow-Origin" := "*",
        "Access-Control-Allow-Credentials" := "true"]
  }

  /** Reason phrases of the status codes the helpers use (section 15 of RFC 9110). */
  function ReasonPhrase(code: int): string {
    match code
    case 200 => "OK"
    case 201 => "Created"
    case 204 => "No Content"
    case 400 => "Bad Request"
    case 401 => "Unauthorized"
    case 403 => "Forbidden"
    case 404 => "Not Found"
    case 500 => "Internal Server Error"
    case _ => ""
  }

  /**
   * createResponse: the status code as given; the default headers, each
   * overridden by a caller header of the same name; strings verbatim,
   * objects serialized, and the fixed error body when serialization fails.
   */
  function CreateResponse<T>(statusCode: int, body: Content<T>, headers: Option<Headers>): (r: Response<T>)
    ensures r.statusCode == statusCode
    ensures forall h :: h in r.headers <==> h in DefaultHeaders() || (headers.Some? && h in headers.value)
    ensures headers.Some? ==> forall h :: h in headers.value ==> r.headers[h] == headers.value[h]
    ensures forall h :: h in DefaultHeaders() && !(headers.Some? && h in headers.value) ==>
              r.headers[h] == DefaultHeaders()[h]
    ensures body.Text? ==> r.body == Verbatim(body.text)
    ensures body.Object? ==> r.body == Serialized(body.obj)
    ensures body.Unserializable? ==> r.body == Verbatim(SerializationErrorBody)
  {
    var merged := if headers.Some? then DefaultHeaders() + headers.value else DefaultHeaders();
    var text := match body
      case Text(s) => Verbatim(s)
      case Object(o) => Serialized(o)
      case Unserializable => Verbatim(SerializationErrorBody);
    Response(statusCode, merged, text)
  }

  /**
   * createResponse as the handler code runs it: three puts of the default
   * headers, the caller's headers put over them, then the body.
   */
  method BuildResponse<T>(statusCode: int, body: Content<T>, headers: Option<Headers>) returns (r: Response<T>)
    ensures r == CreateResponse(statusCode, body, headers)
  {
    var responseHeaders: Headers := map[];
    responseHeaders := responseHeaders["Content-Type" := "application/json"];
    responseHeaders := responseHeaders["Access-Control-Allow-Origin" := "*"];
    responseHeaders := responseHeaders["Access-Control-Allow-Credentials" := "true"];
    if headers.Some? {
      responseHeaders := responseHeaders + headers.value;
    }
    var sent: Body<T>;
    match body {
      case Text(s) => sent := Verbatim(s);
      case Object(o) => sent := Serialized(o);
      case Unserializable => sent := Verbatim(SerializationErrorBody);
    }
    r := Response(statusCode, responseHeaders, sent);
  }

  /** The error responses all have this shape: a single "error" field, the reason phrase when the message is null. */
  function ErrorResponse<T>(code: int, message: Option<string>, headers: Option<Headers>): (r: Response<T>)
    ensures r.statusCode == code
    ensures r.body == Serialized(ErrorField(message.GetOr(ReasonPhrase(code))))
    ensures headers.None? ==> r.headers == DefaultHeaders()
  {
    CreateResponse(code, Object(ErrorField(message.GetOr(ReasonPhrase(code)))), headers)
  }

  /** success: 200 with the given body. */
  function Success<T>(body: Content<T>, headers: Option<Headers>): (r: Response<T>)
    ensures r == CreateResponse(200, body, headers)
  {
    CreateResponse(200, body, headers)
  }

  /** created: 201 with the given body. */
  function Created<T>(body: Content<T>, headers: Option<Headers>): (r: Response<T>)
    ensures r == CreateResponse(201, body, headers)
  {
    CreateResponse(201, body, headers)
  }

  /** noContent: 204 with the empty string as body. */
  function NoContent<T>(headers: Option<Headers>): (r: Response<T>)
    ensures r.statusCode == 204 && r.body == Verbatim("")
  {
    CreateResponse(204, Text(""), headers)
  }

  function BadRequest<T>(message: Option<string>, headers: Option<Headers>): (r: Response<T>)
    ensures r == ErrorResponse(400, message, headers)
  {
    ErrorResponse(400, message, headers)
  }

  function Unauthorized<T>(message: Option<string>, headers: Option<Headers>): (r: Response<T>)
    ensures r == ErrorResponse(401, message, headers)
  {
    ErrorResponse(401, message, headers)
  }

  function Forbidden<T>(message: Option<string>, headers: Option<Headers>): (r: Response<T>)
    ensures r == ErrorResponse(403, message, headers)
  {
    ErrorResponse(403, message, headers)
  }

  function NotFound<T>(message: Option<string>, headers: Option<Headers>): (r: Response<T>)
    ensures r == ErrorResponse(404, message, headers)
  {
    ErrorResponse(404, message, headers)
  }

  function ServerError<T>(message: Option<string>, headers: Option<Headers>): (r: Response<T>)
    ensures r == ErrorResponse(500, message, headers)
  {
    ErrorResponse(500, message, headers)
  }

  /** The message of an error response, read back from its body. */
  function ErrorMessage<T>(r: Response<T>): Option<string> {
    if r.body.Serialized? && r.body.obj.ErrorField? then Some(r.body.obj.error) else None
  }

  /**
   * The error helpers are told apart by their status codes alone, and the
   * message passed to each can be read back from the body; a null message
   * reads back as the code's reason phrase.
   */
  lemma ErrorHelpersFaithful<T>(message: Option<string>, headers: Option<Headers>)
    ensures BadRequest<T>(message, headers).statusCode == 400
    ensures Unauthorized<T>(message, headers).statusCode == 401
    ensures Forbidden<T>(message, headers).statusCode == 403
    ensures NotFound<T>(message, headers).statusCode == 404
    ensures ServerError<T>(message, headers).statusCode == 500
    ensures ErrorMessage(BadRequest<T>(message, headers)) == Some(message.GetOr("Bad Request"))
    ensures ErrorMessage(Unauthorized<T>(message, headers)) == Some(message.GetOr("Unauthorized"))
    ensures ErrorMessage(Forbidden<T>(message, headers)) == Some(message.GetOr("Forbidden"))
    ensures ErrorMessage(NotFound<T>(message, headers)) == Some(message.GetOr("Not Found"))
    ensures ErrorMessage(ServerError<T>(message, headers)) == Some(message.GetOr("Internal Server Error"))
  {
  }

  /** With no caller headers every response carries exactly the three default headers. */
  lemma DefaultHeadersOnly<T>(statusCode: int, body: Content<T>)
    ensures CreateResponse(statusCode, body, None).headers == DefaultHeaders()
    ensures DefaultHeaders()["Access-Control-Allow-Credentials"] == "true"
  {
  }
}

/**
  The gateway client (`APIService`): request preparation with its early guards,
  the status classifier, the error-wrapping rule, the Google login exchange, the
  multipart PDF upload and the endpoint wrappers.
  URL parsing, JSON encoding and decoding and the network are supplied as an
  `Environment`: the model decides only what the client does with their results.
 */
module Gateway {
  import opened Wrappers
  import opened Utf8
  import opened Constants
  import opened Models
  import opened ApiError

  datatype HttpRequest = HttpRequest(url: string, httpMethod: string, headers: map<string, string>, body: Option<seq<Byte>>)

  /** What `URLSession.data(for:)` hands back: a response (HTTP or not) with its bytes, or a thrown error. */
  datatype Transport =
    | Reply(isHttp: bool, statusCode: int, data: seq<Byte>)
    | TransportFailure(cause: string)

  /** The outcome of `JSONEncoder().encode(body)`. */
  datatype Encoded = Encoded(bytes: seq<Byte>) | EncodeFailed(reason: string)

  /** The request bodies the endpoints send. */
  datatype RequestBody =
    | LoginBody(idToken: string)
    | ChatBody(message: string)
    | IngestBody(text: string, filename: Option<string>)

  /** Platform behaviour the client relies on: `URL(string:)` succeeding, the JSON
      encoder, the decoder of the `{success, error}` envelope, and the network. */
  datatype Environment = Environment(
    formsUrl: string -> bool,
    encode: RequestBody -> Encoded,
    decodeError: seq<Byte> -> Option<ErrorResponse>,
    transport: HttpRequest -> Transport)

  /** The arguments of `request(endpoint:method:body:requiresAuth:)`. */
  datatype Call = Call(endpoint: string, httpMethod: string, body: Option<RequestBody>, requiresAuth: bool)

  const JsonContentType: string := "application/json"

  /** The `Authorization` value of section 2.1 of RFC 6750; the token is inserted as stored. */
  function BearerCredential(token: string): (r: string)
    ensures |r| == 7 + |token| && r[..7] == "Bearer " && r[7..] == token
  {
    "Bearer " + token
  }

  predicate IsSuccessStatus(status: int) {
    200 <= status <= 299
  }

  /** The message of an `httpError`: the envelope's `error` text when the body decodes
      as `{success, error}`, else "Unknown error". */
  function RejectionMessage(envelope: Option<ErrorResponse>): string
  {
    if envelope.Some? then envelope.value.error else "Unknown error"
  }

  /** The decision of the status switch. */
  datatype Classified<T> = Accepted(value: T) | Undecodable(reason: string) | Rejected(error: APIError)

  /** 2xx: the decoded value exactly as decoded (its `success` flag is not looked at),
      or the decoder's failure; 401: unauthorized; any other status: an HTTP error
      carrying the envelope's `error` text when the body decodes as `{success, error}`,
      else "Unknown error". */
  function Classify<T>(status: int, data: seq<Byte>, decode: seq<Byte> -> Result<T, string>,
                       decodeError: seq<Byte> -> Option<ErrorResponse>): (r: Classified<T>)
    ensures r.Accepted? <==> IsSuccessStatus(status) && decode(data).Ok?
    ensures r.Accepted? ==> decode(data) == Ok(r.value)
    ensures r.Undecodable? <==> IsSuccessStatus(status) && decode(data).Err?
    ensures r.Rejected? <==> !IsSuccessStatus(status)
    ensures r.Rejected? ==> (r.error == Unauthorized <==> status == 401)
    ensures r.Rejected? && status != 401 ==> r.error == HttpError(status, RejectionMessage(decodeError(data)))
  {
    if IsSuccessStatus(status) then
      match decode(data)
      case Ok(v) => Accepted(v)
      case Err(why) => Undecodable(why)
    else if status == 401 then Rejected(Unauthorized)
    else
      Rejected(HttpError(status, RejectionMessage(decodeError(data))))
  }

  /** What a sent request yields before any wrapping. A transport error and, when
      `rawDecodeError` holds, a decoder failure on 2xx surface as the raw error; a
      non-HTTP response is `invalidResponse`. */
  function Receive<T>(reply: Transport, decode: seq<Byte> -> Result<T, string>,
                      decodeError: seq<Byte> -> Option<ErrorResponse>, rawDecodeError: bool): (r: Result<T, Failure>)
    ensures reply.TransportFailure? ==> r == Err(Foreign(reply.cause))
    ensures reply.Reply? && !reply.isHttp ==> r == Err(Api(InvalidResponse))
    ensures r.Ok? <==> reply.Reply? && reply.isHttp && IsSuccessStatus(reply.statusCode) && decode(reply.data).Ok?
    ensures r.Ok? ==> decode(reply.data) == Ok(r.value)
    ensures reply.Reply? && reply.isHttp && IsSuccessStatus(reply.statusCode) && decode(reply.data).Err? ==>
      r == (if rawDecodeError then Err(Foreign(decode(reply.data).error)) else Err(Api(DecodingError)))
    ensures reply.Reply? && reply.isHttp && reply.statusCode == 401 ==> r == Err(Api(Unauthorized))
    ensures reply.Reply? && reply.isHttp && !IsSuccessStatus(reply.statusCode) && reply.statusCode != 401 ==>
      r == Err(Api(HttpError(reply.statusCode, RejectionMessage(decodeError(reply.data)))))
  {
    match reply
    case TransportFailure(c) => Err(Foreign(c))
    case Reply(isHttp, status, data) =>
      if !isHttp then Err(Api(InvalidResponse))
      else
        match Classify(status, data, decode, decodeError)
        case Accepted(v) => Ok(v)
        case Undecodable(why) => if rawDecodeError then Err(Foreign(why)) else Err(Api(DecodingError))
        case Rejected(e) => Err(Api(e))
  }

  /** The catch clauses of `request`: an `APIError` is rethrown unchanged, anything else becomes `networkError`. */
  function Wrap(f: Failure): (e: APIError)
    ensures f.Api? ==> e == f.error
    ensures !f.Api? ==> e == NetworkError(LocalizedDescription(f))
  {
    if f.Api? then f.error else NetworkError(LocalizedDescription(f))
  }

  /** The do-block of `request` with its catch clauses: every failure is an `APIError`,
      a transport error becomes `networkError`, and a payload comes only from a 2xx
      HTTP response whose body decodes. */
  function Dispatch<T>(reply: Transport, decode: seq<Byte> -> Result<T, string>,
                       decodeError: seq<Byte> -> Option<ErrorResponse>): (r: Result<T, Failure>)
    ensures r.Err? ==> r.error.Api?
    ensures reply.TransportFailure? ==> r == Err(Api(NetworkError(reply.cause)))
    ensures reply.Reply? && !reply.isHttp ==> r == Err(Api(InvalidResponse))
    ensures r.Ok? <==> reply.Reply? && reply.isHttp && IsSuccessStatus(reply.statusCode) && decode(reply.data).Ok?
    ensures r.Ok? ==> decode(reply.data) == Ok(r.value)
    ensures reply.Reply? && reply.isHttp && IsSuccessStatus(reply.statusCode) && decode(reply.data).Err? ==>
      r == Err(Api(DecodingError))
    ensures reply.Reply? && reply.isHttp && reply.statusCode == 401 ==> r == Err(Api(Unauthorized))
    ensures reply.Reply? && reply.isHttp && !IsSuccessStatus(reply.statusCode) && reply.statusCode != 401 ==>
      r == Err(Api(HttpError(reply.statusCode, RejectionMessage(decodeError(reply.data)))))
  {
    match Receive(reply, decode, decodeError, false)
    case Ok(v) => Ok(v)
    case Err(f) => Err(Api(Wrap(f)))
  }

  /** The request `request` sends for `call`: the method as given, JSON content type,
      a bearer credential exactly when auth is required, and the encoded body if one is given. */
  predicate Prepared(req: HttpRequest, call: Call, token: Option<string>, env: Environment)
  {
    && req.url == BaseURL + call.endpoint
    && req.httpMethod == call.httpMethod
    && (call.requiresAuth ==> token.Some? && req.headers == map["Content-Type" := JsonContentType, "Authorization" := BearerCredential(token.value)])
    && (!call.requiresAuth ==> req.headers == map["Content-Type" := JsonContentType])
    && (call.body.Some? ==> env.encode(call.body.value).Encoded? && req.body == Some(env.encode(call.body.value).bytes))
    && (call.body.None? ==> req.body.None?)
  }

  /** Whether `request` gets as far as the network for this call and stored token. */
  predicate Sends(call: Call, token: Option<string>, env: Environment)
  {
    && env.formsUrl(BaseURL + call.endpoint)
    && (call.requiresAuth ==> token.Some?)
    && (call.body.Some? ==> env.encode(call.body.value).Encoded?)
  }

  /** The request construction of `request`: the URL guard first, then the credential
      guard, then body encoding, whose failure escapes as the encoder's own error. */
  method Prepare(call: Call, token: Option<string>, env: Environment) returns (r: Result<HttpRequest, Failure>)
    ensures !env.formsUrl(BaseURL + call.endpoint) ==> r == Err(Api(InvalidURL))
    ensures env.formsUrl(BaseURL + call.endpoint) && call.requiresAuth && token.None? ==> r == Err(Api(Unauthorized))
    ensures env.formsUrl(BaseURL + call.endpoint) && (call.requiresAuth ==> token.Some?) &&
            call.body.Some? && env.encode(call.body.value).EncodeFailed? ==>
              r == Err(Foreign(env.encode(call.body.value).reason))
    ensures r.Ok? <==> Sends(call, token, env)
    ensures r.Ok? ==> Prepared(r.value, call, token, env)
  {
    if !env.formsUrl(BaseURL + call.endpoint) {
      return Err(Api(InvalidURL));
    }
    var req := HttpRequest(BaseURL + call.endpoint, "GET", map[], None);
    req := req.(httpMethod := call.httpMethod);
    req := req.(headers := req.headers["Content-Type" := JsonContentType]);
    if call.requiresAuth {
      if token.None? {
        return Err(Api(Unauthorized));
      }
      req := req.(headers := req.headers["Authorization" := BearerCredential(token.value)]);
    }
    if call.body.Some? {
      match env.encode(call.body.value)
      case EncodeFailed(why) =>
        return Err(Foreign(why));
      case Encoded(bytes) =>
        req := req.(body := Some(bytes));
    }
    return Ok(req);
  }

  /** `request`: nothing is sent unless the URL forms, the credential is present when
      required and the body encodes; what is sent is the prepared request, and its
      reply is classified and wrapped by `Dispatch`. */
  method Request<T>(call: Call, token: Option<string>, env: Environment, decode: seq<Byte> -> Result<T, string>)
    returns (outcome: Result<T, Failure>, sent: Option<HttpRequest>)
    ensures sent.Some? <==> Sends(call, token, env)
    ensures !env.formsUrl(BaseURL + call.endpoint) ==> outcome == Err(Api(InvalidURL))
    ensures env.formsUrl(BaseURL + call.endpoint) && call.requiresAuth && token.None? ==> outcome == Err(Api(Unauthorized))
    ensures env.formsUrl(BaseURL + call.endpoint) && (call.requiresAuth ==> token.Some?) &&
            call.body.Some? && env.encode(call.body.value).EncodeFailed? ==>
              outcome == Err(Foreign(env.encode(call.body.value).reason))
    ensures sent.None? ==> outcome.Err?
    ensures outcome.Err? && !outcome.error.Api? ==> sent.None? && call.body.Some? && env.encode(call.body.value).EncodeFailed?
    ensures sent.Some? ==> Prepared(sent.value, call, token, env)
    ensures sent.Some? ==> outcome == Dispatch(env.transport(sent.value), decode, env.decodeError)
  {
    var prepared := Prepare(call, token, env);
    match prepared
    case Err(f) =>
      outcome, sent := Err(f), None;
    case Ok(req) =>
      sent := Some(req);
      outcome := Dispatch(env.transport(req), decode, env.decodeError);
  }

  /** What `loginWithGoogle` yields: `invalidURL` when the URL does not form, the
      encoder's own error when the body does not encode, else the reply to the POST of
      the encoded `{idToken}` classified as in `request` with a wrapped decoding error. */
  function LoginOutcome(idToken: string, env: Environment, decode: seq<Byte> -> Result<AuthResponse, string>)
    : Result<AuthResponse, Failure>
  {
    if !env.formsUrl(BaseURL + GoogleLoginPath) then Err(Api(InvalidURL))
    else
      match env.encode(LoginBody(idToken))
      case EncodeFailed(why) => Err(Foreign(why))
      case Encoded(bytes) =>
        var req := HttpRequest(BaseURL + GoogleLoginPath, "POST", map["Content-Type" := JsonContentType], Some(bytes));
        Receive(env.transport(req), decode, env.decodeError, false)
  }

  /** `loginWithGoogle`: POST of `{idToken}` without credentials; encoder and transport
      errors escape unwrapped, the reply is classified as in `request`. */
  method LoginWithGoogle(idToken: string, env: Environment, decode: seq<Byte> -> Result<AuthResponse, string>)
    returns (outcome: Result<AuthResponse, Failure>, sent: Option<HttpRequest>)
    ensures sent.Some? <==> env.formsUrl(BaseURL + GoogleLoginPath) && env.encode(LoginBody(idToken)).Encoded?
    ensures !env.formsUrl(BaseURL + GoogleLoginPath) ==> outcome == Err(Api(InvalidURL))
    ensures env.formsUrl(BaseURL + GoogleLoginPath) && env.encode(LoginBody(idToken)).EncodeFailed? ==>
      outcome == Err(Foreign(env.encode(LoginBody(idToken)).reason))
    ensures sent.Some? ==> Prepared(sent.value, Call(GoogleLoginPath, "POST", Some(LoginBody(idToken)), false), None, env)
    ensures sent.Some? ==> outcome == Receive(env.transport(sent.value), decode, env.decodeError, false)
    ensures outcome == LoginOutcome(idToken, env, decode)
  {
    sent := None;
    if !env.formsUrl(BaseURL + GoogleLoginPath) {
      return Err(Api(InvalidURL)), None;
    }
    var req := HttpRequest(BaseURL + GoogleLoginPath, "GET", map[], None);
    req := req.(httpMethod := "POST");
    req := req.(headers := req.headers["Content-Type" := JsonContentType]);
    match env.encode(LoginBody(idToken))
    case EncodeFailed(why) =>
      return Err(Foreign(why)), None;
    case Encoded(bytes) =>
      req := req.(body := Some(bytes));
    sent := Some(req);
    outcome := Receive(env.transport(req), decode, env.decodeError, false);
  }
}

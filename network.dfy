/** The live HTTP client (APIClient.swift): how requests are built and authorised, and how
    a transport outcome is classified into a value or an `APIError`. The transport itself
    and the JSON coders are parameters. */
module Network {
  import opened Wrappers
  import opened Text
  import Auth

  newtype byte = x: int | 0 <= x < 256

  type Bytes = seq<byte>

  /** A foreign error (from URLSession or JSONDecoder), seen through its description. */
  datatype Cause = Cause(localizedDescription: string)

  datatype APIError =
    | InvalidURL
    | Unauthorized
    | NetworkError(cause: Cause)
    | DecodingError(cause: Cause)
    | ServerError(code: int, message: string)
  {
    /** `errorDescription`, which is also the error's `localizedDescription`. */
    function Description(): (d: string)
      ensures Unauthorized? ==> d == "Session expired. Please reconnect."
      ensures NetworkError? ==> d == "Network error: " + cause.localizedDescription
      ensures ServerError? ==> StartsWith(d, "Server error ")
    {
      match this
      case InvalidURL => "Invalid URL"
      case Unauthorized => "Session expired. Please reconnect."
      case NetworkError(e) => "Network error: " + e.localizedDescription
      case DecodingError(e) => "Data error: " + e.localizedDescription
      case ServerError(code, msg) => "Server error " + IntText(code) + ": " + msg
    }

    /** The one case that sends the user back to sign in. */
    predicate IsUnauthorized() {
      match this
      case Unauthorized => true
      case _ => false
    }
  }

  /** Only the unauthorized case is unauthorized, and its text differs from every other case's. */
  lemma UnauthorizedOnly(e: APIError)
    ensures e.IsUnauthorized() <==> e == Unauthorized
    ensures !e.IsUnauthorized() ==> e.Description() != Unauthorized.Description()
  {
    match e
    case InvalidURL =>
    case Unauthorized =>
    case NetworkError(c) =>
      assert e.Description()[0] == 'N';
    case DecodingError(c) =>
      assert e.Description()[0] == 'D';
    case ServerError(code, msg) =>
      assert e.Description()[2] == 'r';
  }

  /** What the transport handed back: it threw, or it returned a response that is
      either not HTTP or an HTTP status with a body. */
  datatype Outcome = Threw(cause: Cause) | NotHttp | Http(statusCode: int, data: Bytes)

  predicate IsSuccessStatus(code: int) {
    200 <= code <= 299
  }

  /** `execute`'s classification of one transport outcome, given the body decoder and the
      UTF-8 decoding of a body. */
  function Execute<T>(outcome: Outcome, decode: Bytes -> Result<T, Cause>, utf8: Bytes -> Option<string>): (r: Result<T, APIError>)
    ensures r.Success? <==> outcome.Http? && IsSuccessStatus(outcome.statusCode) && decode(outcome.data).Success?
    ensures r.Success? ==> decode(outcome.data) == Success(r.value)
    ensures r == Failure(Unauthorized) <==> outcome.Http? && outcome.statusCode == 401
    ensures outcome.Threw? <==> r.Failure? && r.error.NetworkError?
    ensures outcome.Threw? ==> r == Failure(NetworkError(outcome.cause))
    ensures outcome.NotHttp? ==> r == Failure(ServerError(0, "Invalid response"))
    ensures outcome.Http? && outcome.statusCode != 401 && !IsSuccessStatus(outcome.statusCode)
      <==> r.Failure? && r.error.ServerError? && !outcome.NotHttp?
    ensures r.Failure? && r.error.ServerError? && outcome.Http? ==>
      r.error == ServerError(outcome.statusCode, utf8(outcome.data).GetOr(""))
    ensures r.Failure? && r.error.DecodingError? <==>
      outcome.Http? && IsSuccessStatus(outcome.statusCode) && decode(outcome.data).Failure?
    ensures r != Failure(InvalidURL)
  {
    match outcome
    case Threw(e) => Failure(NetworkError(e))
    case NotHttp => Failure(ServerError(0, "Invalid response"))
    case Http(code, data) =>
      if code == 401 then Failure(Unauthorized)
      else if !IsSuccessStatus(code) then Failure(ServerError(code, utf8(data).GetOr("")))
      else match decode(data)
        case Success(v) => Success(v)
        case Failure(e) => Failure(DecodingError(e))
  }

  /** What `post` throws: an `APIError`, or the JSON encoder's own error. */
  datatype ClientError = Api(error: APIError) | Encoding(cause: Cause)

  /** An `APIError` thrown through `post`. */
  function Thrown<T>(r: Result<T, APIError>): (t: Result<T, ClientError>)
    ensures t.Success? <==> r.Success?
    ensures r.Success? ==> t.value == r.value
    ensures r.Failure? ==> t.error == Api(r.error)
  {
    match r
    case Success(v) => Success(v)
    case Failure(e) => Failure(Api(e))
  }

  /** Foundation's URL parsing, a foreign function: whether `URLComponents(string:)` parses
      a text, whether the components, with the query items set when there are any, form a
      URL, and whether `URL(string:)` parses a text. */
  datatype UrlParsing = UrlParsing(
    componentsParse: string -> bool, componentsForm: (string, map<string, string>) -> bool, urlParses: string -> bool)

  /** A `URLRequest` as far as the client shapes it. */
  datatype Request = Request(
    httpMethod: string, url: string, query: map<string, string>, headers: map<string, string>, body: Option<Bytes>)

  class APIClient {
    const baseURL: string
    /** The token provider reads the signed-in state afresh for every request. */
    const auth: Auth.AuthManager

    constructor(baseURL: string, auth: Auth.AuthManager)
      ensures this.baseURL == baseURL && this.auth == auth
    {
      this.baseURL := baseURL;
      this.auth := auth;
    }

    /** `applyAuth`: sets "Authorization: Bearer <token>" when the provider has a token
        and otherwise leaves the request as it was. */
    method ApplyAuth(request: Request) returns (authorised: Request)
      ensures auth.CurrentToken().None? ==> authorised == request
      ensures auth.CurrentToken().Some? ==>
        authorised == request.(headers := request.headers["Authorization" := "Bearer " + auth.token])
    {
      authorised := request;
      var token := auth.CurrentToken();
      if token.Some? {
        authorised := authorised.(headers := authorised.headers["Authorization" := "Bearer " + token.value]);
      }
    }

    /** `get`: a GET on baseURL + path with the query items and the current token. A text
        `URLComponents` cannot parse traps at the force unwrap, so it is excluded; components
        that form no URL throw `.invalidURL` before anything is sent. */
    method Get<T>(path: string, query: map<string, string>, urls: UrlParsing, transport: Request -> Outcome,
                  decode: Bytes -> Result<T, Cause>, utf8: Bytes -> Option<string>)
      returns (sent: Option<Request>, r: Result<T, APIError>)
      requires urls.componentsParse(baseURL + path)
      ensures !urls.componentsForm(baseURL + path, query) <==> sent.None?
      ensures sent.None? ==> r == Failure(InvalidURL)
      ensures sent.Some? ==> var q := sent.value;
        && q.httpMethod == "GET" && q.url == baseURL + path && q.query == query && q.body.None?
        && ("Authorization" in q.headers <==> auth.token != "")
        && (auth.token != "" ==> q.headers == map["Authorization" := "Bearer " + auth.token])
        && r == Execute(transport(q), decode, utf8)
    {
      if !urls.componentsForm(baseURL + path, query) {
        return None, Failure(InvalidURL);
      }
      var request := Request("GET", baseURL + path, query, map[], None);
      request := ApplyAuth(request);
      sent := Some(request);
      r := Execute(transport(request), decode, utf8);
    }

    /** `post`: a POST on baseURL + path with a JSON content type, the current token and the
        encoded body, if any. A text `URL` cannot parse throws `.invalidURL`, and a body the
        encoder rejects throws the encoder's error, both before anything is sent. */
    method Post<B, T>(path: string, body: Option<B>, encode: B -> Result<Bytes, Cause>, urls: UrlParsing,
                      transport: Request -> Outcome, decode: Bytes -> Result<T, Cause>, utf8: Bytes -> Option<string>)
      returns (sent: Option<Request>, r: Result<T, ClientError>)
      ensures sent.None? <==> !urls.urlParses(baseURL + path) || (body.Some? && encode(body.value).Failure?)
      ensures !urls.urlParses(baseURL + path) ==> r == Failure(Api(InvalidURL))
      ensures urls.urlParses(baseURL + path) && body.Some? && encode(body.value).Failure? ==>
        r == Failure(Encoding(encode(body.value).error))
      ensures sent.Some? ==> var q := sent.value;
        && q.httpMethod == "POST" && q.url == baseURL + path && q.query == map[]
        && q.body == (if body.Some? then Some(encode(body.value).value) else None)
        && "Content-Type" in q.headers && q.headers["Content-Type"] == "application/json"
        && ("Authorization" in q.headers <==> auth.token != "")
        && (auth.token != "" ==> q.headers["Authorization"] == "Bearer " + auth.token)
        && r == Thrown(Execute(transport(q), decode, utf8))
    {
      if !urls.urlParses(baseURL + path) {
        return None, Failure(Api(InvalidURL));
      }
      var request := Request("POST", baseURL + path, map[], map["Content-Type" := "application/json"], None);
      request := ApplyAuth(request);
      if body.Some? {
        var encoded := encode(body.value);
        if encoded.Failure? {
          return None, Failure(Encoding(encoded.error));
        }
        request := request.(body := Some(encoded.value));
      }
      sent := Some(request);
      r := Thrown(Execute(transport(request), decode, utf8));
    }
  }

  /** The token is looked up per request: a sign-in between two requests of the same
      client changes the second request's header, and a logout removes it. */
  method TokenReadPerRequest(path: string, newToken: string, urls: UrlParsing, transport: Request -> Outcome,
                             decode: Bytes -> Result<int, Cause>, utf8: Bytes -> Option<string>)
    returns (before: Option<Request>, during: Option<Request>, after: Option<Request>)
    requires newToken != ""
    requires urls.componentsParse("http://localhost:8000" + path) && urls.componentsForm("http://localhost:8000" + path, map[])
    ensures before.Some? && "Authorization" !in before.value.headers
    ensures during.Some? && "Authorization" in during.value.headers && during.value.headers["Authorization"] == "Bearer " + newToken
    ensures after.Some? && "Authorization" !in after.value.headers
  {
    var auth := new Auth.AuthManager("", "");
    var client := new APIClient("http://localhost:8000", auth);
    var r;
    before, r := client.Get(path, map[], urls, transport, decode, utf8);
    auth.SetToken(newToken, None);
    during, r := client.Get(path, map[], urls, transport, decode, utf8);
    auth.Logout();
    after, r := client.Get(path, map[], urls, transport, decode, utf8);
  }
}

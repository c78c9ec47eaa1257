/**
 * The HTTP client of the Eventline API: how a request is shaped from the client's configuration
 * (its URI and headers) and how the outcome of the network call is turned into a response, an
 * `APIError` or a `ClientError`.
 *
 * The network call itself, the environment lookups and the parsing of the endpoint are inputs:
 * the request is returned for inspection and the outcome of sending it is a parameter.
 */
module Client {
  import opened Wrappers
  import opened Json
  import Text

  const DefaultEndpoint: string := "https://api.eventline.net/v0"

  const AuthorizationHeader: string := "Authorization"
  const ProjectHeader: string := "X-Eventline-Project-Id"

  /** The six components urlparse splits an endpoint into. */
  datatype UrlComponents = UrlComponents(scheme: string, netloc: string, path: string,
                                         params: string, query: string, fragment: string)

  /** A configured value, or the process environment's when none was given. */
  function Resolve(given: Option<string>, environment: Option<string>): (r: Option<string>) {
    if given.Some? then given else environment
  }

  /** A given value wins, and the environment only matters when none is given. */
  lemma ResolvePrefersGiven(given: Option<string>, environment: Option<string>)
    ensures given.Some? ==> Resolve(given, environment) == given
    ensures given.None? ==> Resolve(given, environment) == environment
  {
  }

  predicate EndsWithSlash(s: string) {
    |s| > 0 && s[|s| - 1] == '/'
  }

  /** The endpoint path without its trailing slash, if it has one, followed by the route. */
  function JoinPath(base: string, path: string): (full: string)
    ensures |full| >= |path| && full[|full| - |path|..] == path
    ensures full[..|full| - |path|] + "/" == base <==> EndsWithSlash(base)
    ensures !EndsWithSlash(base) ==> full[..|full| - |path|] == base
  {
    var stem := if EndsWithSlash(base) then base[..|base| - 1] else base;
    assert (stem + path)[..|stem + path| - |path|] == stem;
    stem + path
  }

  /** Only one slash is removed: an endpoint path with one trailing slash joins like one without. */
  lemma JoinPathOneSlash(base: string, path: string)
    requires !EndsWithSlash(base)
    ensures JoinPath(base + "/", path) == JoinPath(base, path)
    ensures JoinPath(base + "//", path) == base + "/" + path
  {
    assert (base + "/")[..|base + "/"| - 1] == base;
    assert (base + "//")[..|base + "//"| - 1] == base + "/";
  }

  /** The schemes CPython 3.10's urllib writes with a "//" authority part (`uses_netloc`). */
  const UsesNetloc: set<string> :=
    {"", "ftp", "http", "gopher", "nntp", "telnet", "imap", "wais", "file", "mms", "https", "shttp",
     "snews", "prospero", "rtsp", "rtspu", "rsync", "svn", "svn+ssh", "sftp", "nfs", "git",
     "git+ssh", "ws", "wss"}

  /**
   * urlunparse of (scheme, netloc, url, "", "", "") as CPython 3.10 computes it: writes the
   * authority part, then the scheme.
   */
  function Unsplit(scheme: string, netloc: string, url: string): (uri: string)
    ensures |uri| >= |url| && uri[|uri| - |url|..] == url
    ensures scheme != "" && netloc != "" && (url == "" || url[0] == '/') ==>
              uri == scheme + "://" + netloc + url
  {
    var authority :=
      if netloc != "" || (scheme != "" && scheme in UsesNetloc && url[..if |url| < 2 then |url| else 2] != "//") then
        "//" + netloc + (if url != "" && url[0] != '/' then "/" else "")
      else "";
    var prefix := if scheme != "" then scheme + ":" + authority else authority;
    assert (prefix + url)[|prefix + url| - |url|..] == url;
    prefix + url
  }

  /** The request handed to the network: method, URI, headers and JSON body. */
  datatype Request = Request(httpMethod: string, uri: string, headers: map<string, string>, json: Option<Value>)

  /** What `response.json()` gives: a JSON document, or a decoding error. */
  datatype Body = NotJson | Parsed(doc: Value)

  datatype Response = Response(status: int, reason: string, body: Body)

  /** The outcome of the network call: the exception it raised, or the response. */
  datatype HttpOutcome = Failed(cause: string) | Received(response: Response)

  /**
   * The client's exceptions. `RequestFailed` is a `ClientError` wrapping the network call's
   * exception; `APIError`, a subclass of `ClientError`, reports a non-2xx response.
   */
  datatype ClientError =
    | RequestFailed(cause: string)
    | APIError(httpMethod: string, uri: string, status: int, errorMessage: Value, errorCode: Value)

  /** The exception's text: "METHOD URI: request failed with status N", then ": MESSAGE" if any. */
  function ErrorText(e: ClientError): (s: string)
    ensures e.RequestFailed? ==> s == e.cause
    ensures e.APIError? ==>
      var head := e.httpMethod + " " + e.uri + ": request failed with status " + Text.IntToString(e.status);
      && |s| >= |head| && s[..|head|] == head
      && (e.errorMessage == Null <==> |s| == |head|)
      && (e.errorMessage != Null ==> s[|head|..] == ": " + Show(e.errorMessage))
  {
    match e
    case RequestFailed(cause) => cause
    case APIError(httpMethod, uri, status, message, _) =>
      var head := httpMethod + " " + uri + ": request failed with status " + Text.IntToString(status);
      if message != Null then head + ": " + Show(message) else head
  }

  /** What `send_request` ends with: the response, a `ClientError`, or an exception it lets escape. */
  datatype SendResult =
    | Returned(response: Response)
    | Raised(error: ClientError)
    | Escaped(exception: string)

  const KeyError: string := "KeyError"
  const TypeError: string := "TypeError"

  /** `document[key]` in Python: only a dict can be indexed by a string key. */
  function Subscript(document: Value, key: string): (r: Result<Value, string>) {
    if !document.Obj? then Err(TypeError)
    else if key !in document.fields then Err(KeyError)
    else Ok(document.fields[key])
  }

  /** The status test of `send_request`: 2xx is success. */
  predicate IsSuccess(status: int) {
    status >= 200 && status < 300
  }

  lemma StatusBoundaries()
    ensures !IsSuccess(199) && IsSuccess(200) && IsSuccess(299) && !IsSuccess(300)
  {
  }

  /**
   * How `send_request` ends, given the outcome of the network call for a request to `uri`. An
   * error body must be a dict with both "error" and "code"; a body that is JSON but of another
   * shape raises a KeyError or TypeError that `send_request` does not catch.
   */
  function Classify(httpMethod: string, uri: string, outcome: HttpOutcome): (r: SendResult)
    ensures r.Returned? <==> outcome.Received? && IsSuccess(outcome.response.status)
    ensures r.Returned? ==> r.response == outcome.response
    ensures outcome.Failed? ==> r == Raised(RequestFailed(outcome.cause))
    ensures r.Raised? && r.error.APIError? ==>
      && outcome.Received? && !IsSuccess(outcome.response.status)
      && r.error.httpMethod == httpMethod && r.error.uri == uri && r.error.status == outcome.response.status
    ensures outcome.Received? && !IsSuccess(outcome.response.status) && outcome.response.body.NotJson? ==>
      r == Raised(APIError(httpMethod, uri, outcome.response.status, Str(outcome.response.reason), Null))
    ensures r.Escaped? <==>
      && outcome.Received? && !IsSuccess(outcome.response.status) && outcome.response.body.Parsed?
      && !(outcome.response.body.doc.Obj? &&
           "error" in outcome.response.body.doc.fields && "code" in outcome.response.body.doc.fields)
  {
    match outcome
    case Failed(cause) => Raised(RequestFailed(cause))
    case Received(response) =>
      if IsSuccess(response.status) then Returned(response)
      else if response.body.NotJson? then
        Raised(APIError(httpMethod, uri, response.status, Str(response.reason), Null))
      else
        var doc := response.body.doc;
        if !doc.Obj? then Escaped(TypeError)
        else if "error" !in doc.fields || "code" !in doc.fields then Escaped(KeyError)
        else Raised(APIError(httpMethod, uri, response.status, doc.fields["error"], doc.fields["code"]))
  }

  /** A JSON error body with "error" and "code" gives the `APIError` its message and its code. */
  lemma ErrorBodyExtracted(httpMethod: string, uri: string, status: int, reason: string, doc: map<string, Value>)
    requires !IsSuccess(status) && "error" in doc && "code" in doc
    ensures Classify(httpMethod, uri, Received(Response(status, reason, Parsed(Obj(doc))))) ==
            Raised(APIError(httpMethod, uri, status, doc["error"], doc["code"]))
  {
  }

  /** A 404 whose body names the error and its code. */
  lemma NotFoundExample(uri: string)
    ensures var body := Obj(map["error" := Str("not found"), "code" := Str("account_not_found")]);
      Classify("GET", uri, Received(Response(404, "Not Found", Parsed(body)))) ==
      Raised(APIError("GET", uri, 404, Str("not found"), Str("account_not_found")))
  {
    var body := map["error" := Str("not found"), "code" := Str("account_not_found")];
    ErrorBodyExtracted("GET", uri, 404, "Not Found", body);
  }

  /** A client for the Eventline API. */
  class Client {
    const endpoint: string
    /** urlparse(endpoint) */
    const components: UrlComponents
    const apiKey: Option<string>

    /** `Client.__init__`: the API key is taken from the environment only when none is given. */
    constructor (components: UrlComponents, environmentApiKey: Option<string>,
                 endpoint: string := DefaultEndpoint, apiKey: Option<string> := None)
      ensures this.endpoint == endpoint && this.components == components
      ensures this.apiKey == Resolve(apiKey, environmentApiKey)
    {
      this.endpoint := endpoint;
      this.components := components;
      var key := apiKey;
      if key.None? {
        key := environmentApiKey;
      }
      this.apiKey := key;
    }

    /**
     * `build_uri`: the endpoint's scheme and address, its path with at most one trailing slash
     * removed and the route appended; the endpoint's params, query and fragment are dropped.
     */
    function BuildUri(path: string): (uri: string)
      ensures |uri| >= |path| && uri[|uri| - |path|..] == path
      ensures var full := JoinPath(components.path, path);
        components.scheme != "" && components.netloc != "" && (full == "" || full[0] == '/') ==>
        uri == components.scheme + "://" + components.netloc + full
    {
      var full := JoinPath(components.path, path);
      var uri := Unsplit(components.scheme, components.netloc, full);
      assert uri[|uri| - |path|..] == full[|full| - |path|..];
      uri
    }

    /**
     * `send_request`: builds the URI and the headers, and classifies the outcome of sending the
     * request. The project id argument wins over the environment's.
     */
    method SendRequest(httpMethod: string, path: string, environmentProjectId: Option<string>, outcome: HttpOutcome,
                       body: Option<Value> := None, projectId: Option<string> := None)
      returns (request: Request, result: SendResult)
      ensures request.httpMethod == httpMethod && request.uri == BuildUri(path) && request.json == body
      ensures request.headers.Keys <= {AuthorizationHeader, ProjectHeader}
      ensures AuthorizationHeader in request.headers <==> apiKey.Some?
      ensures apiKey.Some? ==> request.headers[AuthorizationHeader] == "Bearer " + apiKey.value
      ensures ProjectHeader in request.headers <==> Resolve(projectId, environmentProjectId).Some?
      ensures ProjectHeader in request.headers ==>
                request.headers[ProjectHeader] == Resolve(projectId, environmentProjectId).value
      ensures result == Classify(httpMethod, request.uri, outcome)
    {
      var uri := BuildUri(path);
      var headers: map<string, string> := map[];
      if apiKey.Some? {
        headers := headers[AuthorizationHeader := "Bearer " + apiKey.value];
      }
      var project := projectId;
      if project.None? {
        project := environmentProjectId;
      }
      if project.Some? {
        headers := headers[ProjectHeader := project.value];
      }
      request := Request(httpMethod, uri, headers, body);
      if outcome.Failed? {
        return request, Raised(RequestFailed(outcome.cause));
      }
      var response := outcome.response;
      if !(response.status >= 200 && response.status < 300) {
        var message := Str(response.reason);
        var code := Null;
        if response.body.Parsed? {
          var error := response.body.doc;
          var m := Subscript(error, "error");
          if m.Err? {
            return request, Escaped(m.error);
          }
          message := m.value;
          var c := Subscript(error, "code");
          if c.Err? {
            return request, Escaped(c.error);
          }
          code := c.value;
        }
        return request, Raised(APIError(httpMethod, uri, response.status, message, code));
      }
      return request, Returned(response);
    }
  }

  lemma DefaultAccountUriText()
    ensures "https" + "://" + "api.eventline.net" + "/v0/account" == "https://api.eventline.net/v0/account"
  {
  }

  /** With the default endpoint, the account route is under api.eventline.net/v0. */
  lemma DefaultEndpointExample(c: Client)
    requires c.components == UrlComponents("https", "api.eventline.net", "/v0", "", "", "")
    ensures c.BuildUri("/account") == "https://api.eventline.net/v0/account"
  {
    assert JoinPath("/v0", "/account") == "/v0/account" by {
      assert !EndsWithSlash("/v0");
      assert "/v0" + "/account" == "/v0/account";
    }
    assert c.BuildUri("/account") == "https" + "://" + "api.eventline.net" + "/v0/account";
    DefaultAccountUriText();
  }
}

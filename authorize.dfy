/** Request construction (src/core/authorize.rs): the client-credentials
    token request (section 4.4.2 of RFC 6749) with form-encoded Basic
    credentials, the Bearer (section 2.1 of RFC 6750) and `customerId`
    headers of every API request, and the step order "fetch a token, build
    a client, send". Requests are description values; the client builder,
    the transport and the token decoder are functions handed in, each of
    which may fail. */
module Authorize {
  import opened Wrappers
  import opened Errors
  import opened Entities
  import opened FormEncoding

  /** src/core/credentials.rs: the three values read from the environment. */
  datatype Credentials = Credentials(secret: string, clientId: string, customerId: string)

  /** A header value as the typed hyper header holds it. */
  datatype HeaderValue =
    | Text(text: string)
    | Basic(username: string, password: Option<string>)
    | Bearer(token: string)

  type Headers = map<string, HeaderValue>

  /** hyper's `Headers`: one value per header name, `set` replacing any earlier one. */
  class HeaderMap {
    var entries: Headers

    constructor ()
      ensures entries == map[]
    {
      entries := map[];
    }

    method Set(name: string, value: HeaderValue)
      modifies this
      ensures entries == old(entries)[name := value]
    {
      entries := entries[name := value];
    }
  }

  datatype HttpMethod = Get | Post

  /** A request with the headers the program sets; the HTTP library's own
      default headers are not part of it. */
  datatype Request = Request(
    verb: HttpMethod,
    url: string,
    headers: Headers,
    query: Option<map<string, string>>,
    body: Option<string>)

  /** A response, seen only by the decoders. */
  datatype Response = Response(status: int, body: string)

  /** The world outside: building a client with default headers (which may
      fail), sending a request, and decoding the token service's answer. */
  datatype Http = Http(
    build: Headers -> Option<ReqwestError>,
    send: Request -> Result<Response, ReqwestError>,
    tokenJson: Response -> Result<AccessToken, ReqwestError>)

  const IdentityServerUrl := "https://api.sbanken.no/identityserver/connect/token"
  const UserAgentText := "sbanken-cli/0.3.0"
  const Json := "application/json"
  const FormUrlEncoded := "application/x-www-form-urlencoded"
  const GrantBody := "grant_type=client_credentials"

  // ------------------------------------------------------------ the token

  /** The Basic credentials: the form-encoded client id, and the form-encoded secret. */
  function BasicCredentials(c: Credentials): HeaderValue {
    Basic(FormEncodeString(c.clientId), Some(FormEncodeString(c.secret)))
  }

  /** The headers of the token client. */
  function TokenHeaders(c: Credentials): Headers {
    map["User-Agent" := Text(UserAgentText), "Accept" := Text(Json),
        "Content-Type" := Text(FormUrlEncoded), "Authorization" := BasicCredentials(c)]
  }

  function TokenRequest(c: Credentials): Request {
    Request(Post, IdentityServerUrl, TokenHeaders(c), None, Some(GrantBody))
  }

  /** What fetching a token yields and which requests it sends. */
  function TokenStep(c: Credentials, http: Http): (Result<AccessToken, ReqwestError>, seq<Request>) {
    match http.build(TokenHeaders(c))
    case Some(e) => (Err(e), [])
    case None =>
      match http.send(TokenRequest(c))
      case Err(e) => (Err(e), [TokenRequest(c)])
      case Ok(response) => (http.tokenJson(response), [TokenRequest(c)])
  }

  /** `get_access_token`. */
  method GetAccessToken(c: Credentials, http: Http)
    returns (r: Result<AccessToken, ReqwestError>, sent: seq<Request>)
    ensures (r, sent) == TokenStep(c, http)
  {
    var username := FormEncodeString(c.clientId);
    var password := Some(FormEncodeString(c.secret));
    var headers := new HeaderMap();
    headers.Set("User-Agent", Text(UserAgentText));
    headers.Set("Accept", Text(Json));
    headers.Set("Content-Type", Text(FormUrlEncoded));
    headers.Set("Authorization", Basic(username, password));
    assert headers.entries == TokenHeaders(c);
    var buildError := http.build(headers.entries);
    if buildError.Some? {
      return Err(buildError.value), [];
    }
    var request := Request(Post, IdentityServerUrl, headers.entries, None, Some(GrantBody));
    sent := [request];
    var response := http.send(request);
    if response.Err? {
      return Err(response.error), sent;
    }
    r := http.tokenJson(response.value);
  }

  /** The token request is a POST of exactly `grant_type=client_credentials`
      to the identity server, sent as a form, accepting JSON, with the
      form-encoded client id and secret as Basic credentials. */
  lemma TokenRequestShape(c: Credentials)
    ensures var q := TokenRequest(c);
      q.verb == Post && q.url == "https://api.sbanken.no/identityserver/connect/token" &&
      q.body == Some("grant_type=client_credentials") && q.query == None &&
      q.headers.Keys == {"User-Agent", "Accept", "Content-Type", "Authorization"} &&
      q.headers["Content-Type"] == Text("application/x-www-form-urlencoded") &&
      q.headers["Accept"] == Text("application/json") &&
      q.headers["Authorization"] == Basic(FormEncodeString(c.clientId), Some(FormEncodeString(c.secret)))
  {
  }

  /** The Basic credentials lose nothing: decoding them gives back the UTF-8
      bytes of the client id and the secret, and they hold only characters
      the form serializer writes. */
  lemma BasicCredentialsDecode(c: Credentials)
    ensures var b := BasicCredentials(c);
      FormDecode(b.username) == Some(Utf8(c.clientId)) &&
      b.password.Some? && FormDecode(b.password.value) == Some(Utf8(c.secret)) &&
      AllOutputChars(b.username) && AllOutputChars(b.password.value)
  {
    DecodeEncode(Utf8(c.clientId));
    DecodeEncode(Utf8(c.secret));
    EncodeAlphabet(Utf8(c.clientId));
    EncodeAlphabet(Utf8(c.secret));
  }

  /** Credentials made of ASCII alphanumerics and `*-._` go out as they are. */
  lemma PlainCredentialsUnchanged(c: Credentials)
    requires AllUnreserved(c.clientId) && AllUnreserved(c.secret)
    ensures BasicCredentials(c) == Basic(c.clientId, Some(c.secret))
  {
    EncodeUnreservedIdentity(c.clientId);
    EncodeUnreservedIdentity(c.secret);
  }

  // -------------------------------------------------------- API requests

  /** The headers of every API client. */
  function ApiHeaders(c: Credentials, token: string): Headers {
    map["User-Agent" := Text(UserAgentText), "Content-Type" := Text(Json),
        "Authorization" := Bearer(token), "customerId" := Text(c.customerId)]
  }

  /** `construct_headers`. */
  method ConstructHeaders(c: Credentials, token: string) returns (headers: HeaderMap)
    ensures fresh(headers)
    ensures headers.entries == ApiHeaders(c, token)
  {
    headers := new HeaderMap();
    headers.Set("User-Agent", Text(UserAgentText));
    headers.Set("Content-Type", Text(Json));
    headers.Set("Authorization", Bearer(token));
    headers.Set("customerId", Text(c.customerId));
  }

  /** An API client sends exactly four headers: the user agent, a JSON
      content type, the token as Bearer, and the customer id; no Accept. */
  lemma ApiHeadersShape(c: Credentials, token: string)
    ensures var h := ApiHeaders(c, token);
      h.Keys == {"User-Agent", "Content-Type", "Authorization", "customerId"} &&
      h["User-Agent"] == Text("sbanken-cli/0.3.0") && h["Content-Type"] == Text("application/json") &&
      h["Authorization"] == Bearer(token) && h["customerId"] == Text(c.customerId) &&
      "Accept" !in h
  {
  }

  /** Different tokens make different headers: the header carries the token itself. */
  lemma ApiHeadersCarryToken(c: Credentials, t1: string, t2: string)
    requires ApiHeaders(c, t1) == ApiHeaders(c, t2)
    ensures t1 == t2
  {
    assert ApiHeaders(c, t1)["Authorization"] == Bearer(t1);
  }

  /** The outcome of an authorized call and every request it sends, in order. */
  datatype Outcome = Outcome(result: Result<Response, ReqwestError>, sent: seq<Request>)

  /** A fresh token, then an API client with its headers, then one request. */
  function Authorized(c: Credentials, http: Http, verb: HttpMethod, url: string,
                      query: Option<map<string, string>>, body: Option<string>): Outcome
  {
    var (token, tokenSent) := TokenStep(c, http);
    match token
    case Err(e) => Outcome(Err(e), tokenSent)
    case Ok(t) =>
      var headers := ApiHeaders(c, t.accessToken);
      match http.build(headers)
      case Some(e) => Outcome(Err(e), tokenSent)
      case None =>
        var request := Request(verb, url, headers, query, body);
        Outcome(http.send(request), tokenSent + [request])
  }

  /** `get_request`: the query is attached exactly when there is one. */
  method GetRequest(c: Credentials, http: Http, url: string, params: Option<map<string, string>>)
    returns (r: Result<Response, ReqwestError>, sent: seq<Request>)
    ensures Outcome(r, sent) == Authorized(c, http, Get, url, params, None)
  {
    var token;
    token, sent := GetAccessToken(c, http);
    if token.Err? {
      return Err(token.error), sent;
    }
    var headers := ConstructHeaders(c, token.value.accessToken);
    var buildError := http.build(headers.entries);
    if buildError.Some? {
      return Err(buildError.value), sent;
    }
    if params.Some? {
      var request := Request(Get, url, headers.entries, Some(params.value), None);
      sent := sent + [request];
      return http.send(request), sent;
    }
    var request := Request(Get, url, headers.entries, None, None);
    sent := sent + [request];
    r := http.send(request);
  }

  /** `post_request`: the body is the object's JSON serialization. */
  method PostRequest<T>(c: Credentials, http: Http, url: string, item: T, toJson: T -> string)
    returns (r: Result<Response, ReqwestError>, sent: seq<Request>)
    ensures Outcome(r, sent) == Authorized(c, http, Post, url, None, Some(toJson(item)))
  {
    var token;
    token, sent := GetAccessToken(c, http);
    if token.Err? {
      return Err(token.error), sent;
    }
    var headers := ConstructHeaders(c, token.value.accessToken);
    var buildError := http.build(headers.entries);
    if buildError.Some? {
      return Err(buildError.value), sent;
    }
    var request := Request(Post, url, headers.entries, None, Some(toJson(item)));
    sent := sent + [request];
    r := http.send(request);
  }

  /** A call sends at most two requests, and the token request always comes first. */
  lemma TokenComesFirst(c: Credentials, http: Http, verb: HttpMethod, url: string,
                        query: Option<map<string, string>>, body: Option<string>)
    ensures var o := Authorized(c, http, verb, url, query, body);
      |o.sent| <= 2 && (|o.sent| >= 1 ==> o.sent[0] == TokenRequest(c))
  {
  }

  /** A call that got an answer sent exactly two requests, the second of
      them the very request asked for. */
  lemma AnsweredCallSentRequest(c: Credentials, http: Http, verb: HttpMethod, url: string,
                                query: Option<map<string, string>>, body: Option<string>)
    ensures var o := Authorized(c, http, verb, url, query, body);
      o.result.Ok? ==>
        |o.sent| == 2 && o.sent[0] == TokenRequest(c) && o.sent[1].verb == verb &&
        o.sent[1].url == url && o.sent[1].query == query && o.sent[1].body == body
  {
  }

  /** A request made on behalf of the credentials: the token request they
      build, or an API request carrying exactly the headers they build with
      the Bearer token it holds. */
  predicate OnBehalfOf(c: Credentials, q: Request) {
    q == TokenRequest(c) ||
    ("Authorization" in q.headers && q.headers["Authorization"].Bearer? &&
     q.headers == ApiHeaders(c, q.headers["Authorization"].token))
  }

  predicate AllOnBehalfOf(c: Credentials, s: seq<Request>) {
    forall i :: 0 <= i < |s| ==> OnBehalfOf(c, s[i])
  }

  /** Every request of a call is made on behalf of the credentials it was given. */
  lemma AuthorizedOnBehalfOf(c: Credentials, http: Http, verb: HttpMethod, url: string,
                             query: Option<map<string, string>>, body: Option<string>)
    ensures AllOnBehalfOf(c, Authorized(c, http, verb, url, query, body).sent)
  {
    var o := Authorized(c, http, verb, url, query, body);
    var token := TokenStep(c, http).0;
    if token.Ok? && http.build(ApiHeaders(c, token.value.accessToken)).None? {
      assert o.sent[1].headers == ApiHeaders(c, token.value.accessToken);
    }
  }

  lemma OnBehalfOfJoin(c: Credentials, s1: seq<Request>, s2: seq<Request>)
    requires AllOnBehalfOf(c, s1) && AllOnBehalfOf(c, s2)
    ensures AllOnBehalfOf(c, s1 + s2)
  {
    forall i | 0 <= i < |s1 + s2| ensures OnBehalfOf(c, (s1 + s2)[i]) {
      if i < |s1| { assert (s1 + s2)[i] == s1[i]; } else { assert (s1 + s2)[i] == s2[i - |s1|]; }
    }
  }

  /** Every request of a call goes to the identity server or to the URL asked for. */
  lemma AuthorizedUrls(c: Credentials, http: Http, verb: HttpMethod, url: string,
                       query: Option<map<string, string>>, body: Option<string>)
    ensures var s := Authorized(c, http, verb, url, query, body).sent;
      forall i :: 0 <= i < |s| ==> s[i].url == IdentityServerUrl || s[i].url == url
  {
  }

  /** If no token comes back, nothing but the token request is sent and
      the call fails with the token's error. */
  lemma NoTokenNoRequest(c: Credentials, http: Http, verb: HttpMethod, url: string,
                         query: Option<map<string, string>>, body: Option<string>)
    requires TokenStep(c, http).0.Err?
    ensures var o := Authorized(c, http, verb, url, query, body);
      o.result == Err(TokenStep(c, http).0.error) &&
      forall i :: 0 <= i < |o.sent| ==> o.sent[i] == TokenRequest(c)
  {
  }

  /** With a token and a client, exactly one API request follows the token
      request: to the given URL, with the method, query and body given, and
      the Bearer header carrying that very token; its answer is the result. */
  lemma WithTokenOneRequest(c: Credentials, http: Http, verb: HttpMethod, url: string,
                            query: Option<map<string, string>>, body: Option<string>, t: AccessToken)
    requires TokenStep(c, http).0 == Ok(t)
    requires http.build(ApiHeaders(c, t.accessToken)).None?
    ensures var o := Authorized(c, http, verb, url, query, body);
      var request := Request(verb, url, ApiHeaders(c, t.accessToken), query, body);
      o.sent == [TokenRequest(c), request] && o.result == http.send(request) &&
      request.headers["Authorization"] == Bearer(t.accessToken)
  {
  }
}

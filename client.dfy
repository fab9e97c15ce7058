/**
 * Construction of `FirebotClient`: validation of host and port, the default port,
 * the HTTP base URL shared by every route, and the arguments of the realtime
 * channel. The constructor only validates and builds strings, so it is a function
 * returning the client's fields or the message of the error it throws.
 */
module Client {
  import opened Wrappers
  import opened Decimal
  import opened Endpoints
  import Websocket

  const DefaultPort: int := 7472
  const InvalidHostMessage := "Invalid host"
  const InvalidPortMessage := "Invalid port number"
  const ApiPath := "/api/v1"

  /** The characters `String.prototype.trim` removes: white space and line terminators. */
  predicate IsJsWhitespace(c: char) {
    var n := c as int;
    n == 0x09 || n == 0x0A || n == 0x0B || n == 0x0C || n == 0x0D || n == 0x20
    || n == 0xA0 || n == 0x1680 || (0x2000 <= n <= 0x200A) || n == 0x2028 || n == 0x2029
    || n == 0x202F || n == 0x205F || n == 0x3000 || n == 0xFEFF
  }

  predicate IsBlank(s: string) {
    forall i | 0 <= i < |s| :: IsJsWhitespace(s[i])
  }

  /** `s` without its leading white space. */
  function TrimStart(s: string): (r: string)
    ensures |r| <= |s| && r == s[|s| - |r|..]
    ensures r != [] ==> !IsJsWhitespace(r[0])
    ensures IsBlank(s[..|s| - |r|])
  {
    if s != [] && IsJsWhitespace(s[0]) then
      var r := TrimStart(s[1..]);
      assert s[..|s| - |r|] == [s[0]] + s[1..][..|s| - 1 - |r|];
      r
    else s
  }

  /** `s` without its trailing white space. */
  function TrimEnd(s: string): (r: string)
    ensures |r| <= |s| && r == s[..|r|]
    ensures r != [] ==> !IsJsWhitespace(r[|r| - 1])
    ensures IsBlank(s[|r|..])
  {
    if s != [] && IsJsWhitespace(s[|s| - 1]) then
      var r := TrimEnd(s[..|s| - 1]);
      assert s[|r|..] == s[..|s| - 1][|r|..] + [s[|s| - 1]];
      r
    else s
  }

  /** `s.trim()`. */
  function Trim(s: string): string {
    TrimEnd(TrimStart(s))
  }

  /** `host.trim() === ""` holds exactly for strings made only of white space, the empty one included. */
  lemma TrimEmptyIffBlank(s: string)
    ensures Trim(s) == "" <==> IsBlank(s)
  {
    var t := TrimStart(s);
    if Trim(s) == "" {
      assert IsBlank(t[0..]);
      assert s == s[..|s| - |t|] + t;
    }
  }

  /** Identity of the client object under construction, which every route points back to. */
  type ClientRef = nat

  /** The thirteen HTTP route wrappers, in the order the constructor creates them. */
  datatype RouteKind =
    | CommandsRoute | CountersRoute | CurrencyRoute | CustomRolesRoute | CustomVariablesRoute
    | EffectsRoute | FontsRoute | QueuesRoute | QuotesRoute | ReplaceVariablesRoute
    | StatusRoute | TimersRoute | ViewersRoute

  const RouteKinds: seq<RouteKind> := [
    CommandsRoute, CountersRoute, CurrencyRoute, CustomRolesRoute, CustomVariablesRoute,
    EffectsRoute, FontsRoute, QueuesRoute, QuotesRoute, ReplaceVariablesRoute,
    StatusRoute, TimersRoute, ViewersRoute
  ]

  /** An `ApiRoute`: the client it belongs to and the base URL it prefixes its requests with. */
  datatype ApiRoute = ApiRoute(kind: RouteKind, firebotClient: ClientRef, baseUrl: string)

  /** The arguments `new FirebotWebSocket(host, port, secure)` receives. */
  datatype SocketArgs = SocketArgs(host: string, port: int, secure: bool) {
    function Url(): string {
      Websocket.WebSocketUrl(host, port, secure)
    }
  }

  datatype FirebotClient = FirebotClient(
    host: string, port: int, baseUrl: string, routes: seq<ApiRoute>, websocket: SocketArgs)

  /** `http${secure ? "s" : ""}://${host}:${port}/api/v1`. */
  function BaseUrl(host: string, port: int, secure: bool): string {
    Endpoint(if secure then "https" else "http", host, port) + ApiPath
  }

  /** Recovers host, port and the secure flag from a base URL. */
  function ParseBaseUrl(url: string): Option<(string, nat, bool)> {
    if |url| < |ApiPath| || url[|url| - |ApiPath|..] != ApiPath then None
    else
      var endpoint := url[..|url| - |ApiPath|];
      match ParseEndpoint("https", endpoint)
      case Some((h, p)) => Some((h, p, true))
      case None =>
        match ParseEndpoint("http", endpoint)
        case Some((h, p)) => Some((h, p, false))
        case None => None
  }

  /** The base URL determines host, port and scheme: building it loses nothing. */
  lemma BaseUrlRoundTrip(host: string, port: nat, secure: bool)
    ensures ParseBaseUrl(BaseUrl(host, port, secure)) == Some((host, port, secure))
  {
    var scheme := if secure then "https" else "http";
    var e := Endpoint(scheme, host, port);
    var url := e + ApiPath;
    assert url[|url| - |ApiPath|..] == ApiPath;
    assert url[..|url| - |ApiPath|] == e;
    EndpointRoundTrip(scheme, host, port);
    if !secure {
      OtherSchemeRejected("http", "https", host, port, 4);
    }
  }

  /** The websocket URL names the same host and port, under `ws` or `wss`. */
  lemma SocketUrlRoundTrip(host: string, port: nat, secure: bool)
    ensures ParseEndpoint(if secure then "wss" else "ws", SocketArgs(host, port, secure).Url())
         == Some((host, port))
  {
    EndpointRoundTrip(if secure then "wss" else "ws", host, port);
  }

  /** One route of each kind, all pointing back to `self` and sharing `baseUrl`. */
  function Routes(self: ClientRef, baseUrl: string): (routes: seq<ApiRoute>)
    ensures |routes| == |RouteKinds|
    ensures forall i | 0 <= i < |RouteKinds| :: routes[i] == ApiRoute(RouteKinds[i], self, baseUrl)
  {
    seq(|RouteKinds|, i requires 0 <= i < |RouteKinds| => ApiRoute(RouteKinds[i], self, baseUrl))
  }

  /**
   * `new FirebotClient(host, port = 7472, secure = false)`. `self` is the identity of
   * the object being constructed.
   */
  function NewClient(self: ClientRef, host: string, port: Option<int>, secure: bool): (r: Result<FirebotClient>)
    ensures r.Failure? <==> IsBlank(host) || !(0 < port.GetOr(DefaultPort) < 65536)
    ensures r.Failure? ==> r.error == if IsBlank(host) then InvalidHostMessage else InvalidPortMessage
    ensures r.Success? ==>
      && r.value.host == host
      && r.value.port == port.GetOr(DefaultPort)
      && r.value.baseUrl == BaseUrl(host, r.value.port, secure)
      && ParseBaseUrl(r.value.baseUrl) == Some((host, r.value.port, secure))
      && |r.value.routes| == |RouteKinds|
      && (forall i | 0 <= i < |RouteKinds| ::
            r.value.routes[i] == ApiRoute(RouteKinds[i], self, r.value.baseUrl))
      && r.value.websocket == SocketArgs(host, r.value.port, secure)
  {
    TrimEmptyIffBlank(host);
    var p := port.GetOr(DefaultPort);
    if host == "" || Trim(host) == "" then Failure(InvalidHostMessage)
    else if p <= 0 || p >= 65536 then Failure(InvalidPortMessage)
    else
      var baseUrl := BaseUrl(host, p, secure);
      BaseUrlRoundTrip(host, p, secure);
      Success(FirebotClient(host, p, baseUrl, Routes(self, baseUrl), SocketArgs(host, p, secure)))
  }

  /** Every route kind is created, exactly once. */
  lemma EveryRouteOnce(k: RouteKind)
    ensures k in RouteKinds
    ensures forall i, j | 0 <= i < j < |RouteKinds| :: RouteKinds[i] != RouteKinds[j]
  {
  }

  /** The HTTP routes and the websocket agree on host and port. */
  lemma ChannelsAgree(self: ClientRef, host: string, port: Option<int>, secure: bool)
    requires NewClient(self, host, port, secure).Success?
    ensures var c := NewClient(self, host, port, secure).value;
      && c.port > 0
      && ParseBaseUrl(c.baseUrl) == Some((host, c.port, secure))
      && ParseEndpoint(if secure then "wss" else "ws", c.websocket.Url()) == Some((host, c.port))
  {
    var c := NewClient(self, host, port, secure).value;
    SocketUrlRoundTrip(host, c.port, secure);
  }

  lemma ExampleHostsAreNotBlank()
    ensures !IsBlank("localhost") && !IsBlank("example.com")
  {
    assert !IsJsWhitespace("localhost"[0]) && !IsJsWhitespace("example.com"[0]);
  }

  lemma ExamplePortsText()
    ensures NatToText(7472) == "7472" && NatToText(8080) == "8080"
  {
  }

  lemma LocalhostDefaultUrl()
    ensures BaseUrl("localhost", 7472, false) == "http://localhost:7472/api/v1"
  {
    ExamplePortsText();
  }

  lemma LocalhostCustomUrl()
    ensures BaseUrl("localhost", 8080, false) == "http://localhost:8080/api/v1"
  {
    ExamplePortsText();
  }

  lemma ExampleComDefaultUrl()
    ensures BaseUrl("example.com", 7472, true) == "https://example.com:7472/api/v1"
  {
    ExamplePortsText();
  }

  lemma ExampleComCustomUrl()
    ensures BaseUrl("example.com", 8080, true) == "https://example.com:8080/api/v1"
  {
    ExamplePortsText();
  }

  lemma DefaultPortInsecure()
    ensures var r := NewClient(0, "localhost", None, false);
      r.Success? && r.value.host == "localhost" && r.value.port == 7472
      && r.value.baseUrl == "http://localhost:7472/api/v1"
  {
    ExampleHostsAreNotBlank();
    LocalhostDefaultUrl();
  }

  lemma CustomPortInsecure()
    ensures var r := NewClient(0, "localhost", Some(8080), false);
      r.Success? && r.value.host == "localhost" && r.value.port == 8080
      && r.value.baseUrl == "http://localhost:8080/api/v1"
  {
    ExampleHostsAreNotBlank();
    LocalhostCustomUrl();
  }

  lemma DefaultPortSecure()
    ensures var r := NewClient(0, "example.com", None, true);
      r.Success? && r.value.host == "example.com" && r.value.port == 7472
      && r.value.baseUrl == "https://example.com:7472/api/v1"
  {
    ExampleHostsAreNotBlank();
    ExampleComDefaultUrl();
  }

  lemma CustomPortSecure()
    ensures var r := NewClient(0, "example.com", Some(8080), true);
      r.Success? && r.value.host == "example.com" && r.value.port == 8080
      && r.value.baseUrl == "https://example.com:8080/api/v1"
  {
    ExampleHostsAreNotBlank();
    ExampleComCustomUrl();
  }

  lemma EmptyHostRejected()
    ensures NewClient(0, "", None, false) == Failure(InvalidHostMessage)
  {
  }

  lemma NegativePortRejected()
    ensures NewClient(0, "localhost", Some(-1), false) == Failure(InvalidPortMessage)
  {
    ExampleHostsAreNotBlank();
  }

  /** The host check comes first: a blank host is reported even when the port is invalid too. */
  lemma HostCheckedFirst(self: ClientRef, host: string, port: int, secure: bool)
    requires IsBlank(host)
    ensures NewClient(self, host, Some(port), secure) == Failure(InvalidHostMessage)
  {
  }
}

/**
 * The frontend's authentication context: the `/auth/me` request and the reading of its
 * reply, the origin and payload checks on the popup's `postMessage`, the login URL,
 * logout, and the state the provider keeps (the user, the loading flag and the token
 * stored on the window).
 *
 * The network is outside the model: a request is the value the context would send and
 * the outcome of a call is a parameter. `new URL(API_BASE).origin` is a parameter too,
 * None when the constructor throws.
 */
module AuthClient {
  import opened Wrappers
  import opened Text
  import opened OrderedMaps

  /** `AuthUser` as the backend returns it. */
  datatype AuthUser = AuthUser(
    id: string, email: string, name: Option<string>, picture: Option<string>,
    plan: Option<string>, roles: Option<seq<string>>)

  const DefaultApiBase := "http://localhost:8000"

  /** `(env && env.VITE_API_BASE) || 'http://localhost:8000'` */
  function ApiBase(env: Option<map<string, string>>): (r: string)
    ensures env.Some? && "VITE_API_BASE" in env.value && env.value["VITE_API_BASE"] != [] ==>
      r == env.value["VITE_API_BASE"]
    ensures env.None? || "VITE_API_BASE" !in env.value || env.value["VITE_API_BASE"] == [] ==>
      r == DefaultApiBase
    ensures r != []
  {
    match env
    case None => DefaultApiBase
    case Some(vars) =>
      if "VITE_API_BASE" in vars && vars["VITE_API_BASE"] != [] then vars["VITE_API_BASE"]
      else DefaultApiBase
  }

  // ---------------------------------------------------------------------------
  // Requests and their outcomes.

  /** What `fetch` is given: the verb, the URL, whether cookies go along, the headers in order. */
  datatype Request = Request(verb: string, url: string, withCookies: bool, headers: OrderedMap<string, string>)

  /** The body of a reply once `res.json()` has run. */
  datatype JsonBody = NotJson | JsonNull | UserObject(user: AuthUser)

  /** A call either throws (network failure) or yields a status and a body. */
  datatype FetchOutcome = NetworkError | Response(status: int, body: JsonBody)

  predicate OkStatus(status: int) {
    200 <= status <= 299
  }

  /** The `/auth/me` request: cookies always, and a Bearer header only for a non-empty token. */
  function MeRequest(apiBase: string, token: Option<string>): (r: Request)
    ensures r.verb == "GET" && r.url == apiBase + "/auth/me" && r.withCookies
    ensures Get(r.headers, "Accept") == Some("application/json")
    ensures Get(r.headers, "Authorization").Some? <==> Truthy(token)
    ensures Truthy(token) ==> Get(r.headers, "Authorization") == Some("Bearer " + token.value)
  {
    var accept := [("Accept", "application/json")];
    var headers := if Truthy(token) then accept + [("Authorization", "Bearer " + token.value)] else accept;
    Request("GET", apiBase + "/auth/me", true, headers)
  }

  /**
   * `fetchMe`'s result: the user of an OK reply, and null for a thrown call, a status
   * outside 200-299, a body that is not JSON or a JSON null.
   */
  function MeResult(outcome: FetchOutcome): (r: Option<AuthUser>)
    ensures r.Some? <==> outcome.Response? && OkStatus(outcome.status) && outcome.body.UserObject?
    ensures r.Some? ==> r.value == outcome.body.user
  {
    match outcome
    case NetworkError => None
    case Response(status, body) =>
      if !OkStatus(status) then None
      else match body
        case UserObject(u) => Some(u)
        case _ => None
  }

  /** A failed call and a rejected status give the same null as each other. */
  lemma MeResultFailuresAgree(status: int, body: JsonBody)
    requires !OkStatus(status)
    ensures MeResult(Response(status, body)) == MeResult(NetworkError) == None
  {
  }

  /** `logout`'s request. */
  function LogoutRequest(apiBase: string): (r: Request)
    ensures r.verb == "POST" && r.url == apiBase + "/auth/logout" && r.withCookies
    ensures Get(r.headers, "X-Requested-With") == Some("XMLHttpRequest")
    ensures Get(r.headers, "Accept") == Some("application/json")
    ensures Get(r.headers, "Authorization").None?
  {
    Request("POST", apiBase + "/auth/logout", true,
      [("X-Requested-With", "XMLHttpRequest"), ("Accept", "application/json")])
  }

  // ---------------------------------------------------------------------------
  // The popup's message.

  const Loopback := "127.0.0.1"
  const LocalHost := "localhost"

  /** The API's origin and its variants with the first loopback spelling swapped. */
  function ExpectedOrigins(apiOrigin: string): (r: seq<string>)
    ensures |r| == 3 && r[0] == apiOrigin
  {
    [apiOrigin, ReplaceFirst(apiOrigin, Loopback, LocalHost), ReplaceFirst(apiOrigin, LocalHost, Loopback)]
  }

  predicate IsValidOrigin(origin: string, apiOrigin: string) {
    origin in ExpectedOrigins(apiOrigin)
  }

  /** The API's own origin is always accepted. */
  lemma OwnOriginAccepted(apiOrigin: string)
    ensures IsValidOrigin(apiOrigin, apiOrigin)
  {
  }

  /** An API origin naming neither loopback spelling accepts its own origin and nothing else. */
  lemma PlainOriginOnly(origin: string, apiOrigin: string)
    requires !Contains(apiOrigin, Loopback) && !Contains(apiOrigin, LocalHost)
    ensures IsValidOrigin(origin, apiOrigin) <==> origin == apiOrigin
  {
    ReplaceFirstAbsent(apiOrigin, Loopback, LocalHost);
    ReplaceFirstAbsent(apiOrigin, LocalHost, Loopback);
  }

  /**
   * When the API is addressed as `127.0.0.1`, a popup on `localhost` with the same
   * scheme and port is accepted, and the other way round.
   */
  lemma LoopbackAliases(scheme: string, port: string)
    requires '1' !in scheme && 'l' !in scheme
    ensures IsValidOrigin(scheme + LocalHost + port, scheme + Loopback + port)
    ensures IsValidOrigin(scheme + Loopback + port, scheme + LocalHost + port)
  {
    ReplaceFirstAfter(scheme, Loopback, port, LocalHost);
    ReplaceFirstAfter(scheme, LocalHost, port, Loopback);
  }

  /** The message data, None when it is null or not an object. */
  datatype Payload = Payload(kind: Option<string>, status: Option<string>, token: Option<string>)

  predicate IsOAuthSuccess(data: Option<Payload>) {
    data.Some? && data.value.kind == Some("oauth") && data.value.status == Some("success")
  }

  /** A message has an effect only when the API origin parses, the origin matches and the payload is a success. */
  predicate Accepted(apiOrigin: Option<string>, origin: string, data: Option<Payload>) {
    apiOrigin.Some? && IsValidOrigin(origin, apiOrigin.value) && IsOAuthSuccess(data)
  }

  // ---------------------------------------------------------------------------
  // The login URL.

  /** Characters `encodeURIComponent` leaves as they are. */
  predicate Unreserved(c: char) {
    ('A' <= c <= 'Z') || ('a' <= c <= 'z') || ('0' <= c <= '9')
    || c == '-' || c == '_' || c == '.' || c == '!' || c == '~' || c == '*' || c == '\'' || c == '(' || c == ')'
  }

  /** The UTF-8 bytes of one character. */
  function Utf8(c: char): (bytes: seq<nat>)
    ensures 1 <= |bytes| <= 4
    ensures forall i :: 0 <= i < |bytes| ==> bytes[i] < 256
    ensures (c as int < 128) <==> |bytes| == 1
    ensures c as int < 128 ==> bytes == [c as int]
  {
    var n := c as int;
    if n < 0x80 then [n]
    else if n < 0x800 then [0xC0 + n / 64, 0x80 + n % 64]
    else if n < 0x1_0000 then [0xE0 + n / 4096, 0x80 + (n / 64) % 64, 0x80 + n % 64]
    else [0xF0 + n / 262144, 0x80 + (n / 4096) % 64, 0x80 + (n / 64) % 64, 0x80 + n % 64]
  }

  predicate IsHexDigit(c: char) {
    ('0' <= c <= '9') || ('A' <= c <= 'F')
  }

  /** The upper-case hexadecimal digit of a value below 16. */
  function HexDigit(d: nat): (c: char)
    requires d < 16
    ensures IsHexDigit(c)
  {
    if d < 10 then ('0' as int + d) as char else ('A' as int + d - 10) as char
  }

  function HexValue(c: char): (v: nat)
    requires IsHexDigit(c)
    ensures v < 16 && HexDigit(v) == c
  {
    if c <= '9' then c as int - '0' as int else c as int - 'A' as int + 10
  }

  /** `%XX` for one byte, upper-case. */
  function Escape(b: nat): (r: string)
    requires b < 256
    ensures |r| == 3 && r[0] == '%' && IsHexDigit(r[1]) && IsHexDigit(r[2])
    ensures HexValue(r[1]) * 16 + HexValue(r[2]) == b
  {
    ['%', HexDigit(b / 16), HexDigit(b % 16)]
  }

  /** Characters that can appear in an encoded component. */
  predicate UriSafe(c: char) {
    Unreserved(c) || c == '%'
  }

  function EscapeAll(bytes: seq<nat>): (r: string)
    requires forall i :: 0 <= i < |bytes| ==> bytes[i] < 256
    ensures |r| == 3 * |bytes|
    ensures forall i :: 0 <= i < |r| ==> UriSafe(r[i])
  {
    if bytes == [] then [] else Escape(bytes[0]) + EscapeAll(bytes[1..])
  }

  function EncodeChar(c: char): (r: string)
    ensures Unreserved(c) ==> r == [c]
    ensures !Unreserved(c) ==> r != [] && r[0] == '%' && |r| % 3 == 0
    ensures forall i :: 0 <= i < |r| ==> UriSafe(r[i])
  {
    if Unreserved(c) then [c] else EscapeAll(Utf8(c))
  }

  /** `encodeURIComponent`: every character of a Dafny string is a Unicode scalar value, so it never throws. */
  function EncodeUriComponent(s: string): (r: string)
    ensures |r| >= |s|
    ensures forall i :: 0 <= i < |r| ==> UriSafe(r[i])
  {
    if s == [] then [] else EncodeChar(s[0]) + EncodeUriComponent(s[1..])
  }

  /** A text made only of unreserved characters is encoded as itself. */
  lemma {:induction false} EncodeUnreserved(s: string)
    requires forall i :: 0 <= i < |s| ==> Unreserved(s[i])
    ensures EncodeUriComponent(s) == s
  {
    if s != [] {
      EncodeUnreserved(s[1..]);
    }
  }

  /** Decoding of single-byte escapes, the inverse of the encoding on ASCII text. */
  function PercentDecode(e: string): (r: string)
    decreases |e|
  {
    if |e| >= 3 && e[0] == '%' && IsHexDigit(e[1]) && IsHexDigit(e[2]) && HexValue(e[1]) < 8 then
      [(HexValue(e[1]) * 16 + HexValue(e[2])) as char] + PercentDecode(e[3..])
    else if e == [] then []
    else [e[0]] + PercentDecode(e[1..])
  }

  predicate Ascii(s: string) {
    forall i :: 0 <= i < |s| ==> s[i] as int < 128
  }

  lemma DecodeEncodedChar(c: char, rest: string)
    requires c as int < 128
    ensures PercentDecode(EncodeChar(c) + rest) == [c] + PercentDecode(rest)
  {
  }

  /** Decoding the encoding of ASCII text gives the text back. */
  lemma {:induction false} DecodeEncode(s: string)
    requires Ascii(s)
    ensures PercentDecode(EncodeUriComponent(s)) == s
  {
    if s != [] {
      DecodeEncodedChar(s[0], EncodeUriComponent(s[1..]));
      DecodeEncode(s[1..]);
    }
  }

  const LoginPath := "/auth/google/login?redirect="

  /** The URL the popup opens: the login path of the Google provider with the page's origin as redirect. */
  function LoginUrl(apiBase: string, windowOrigin: string): (r: string)
    ensures StartsWith(r, apiBase + LoginPath)
  {
    assert (apiBase + LoginPath + EncodeUriComponent(windowOrigin))[..|apiBase + LoginPath|] == apiBase + LoginPath;
    apiBase + LoginPath + EncodeUriComponent(windowOrigin)
  }

  /**
   * The redirect value is the whole rest of the URL: it holds no `&`, `#` or `=` that
   * could end it or add a parameter, and for an ASCII origin it decodes to the origin.
   */
  lemma LoginUrlRedirect(apiBase: string, windowOrigin: string)
    ensures var rest := LoginUrl(apiBase, windowOrigin)[|apiBase + LoginPath|..];
      && rest == EncodeUriComponent(windowOrigin)
      && '&' !in rest && '#' !in rest && '=' !in rest
      && (Ascii(windowOrigin) ==> PercentDecode(rest) == windowOrigin)
  {
    var rest := EncodeUriComponent(windowOrigin);
    assert LoginUrl(apiBase, windowOrigin)[|apiBase + LoginPath|..] == rest;
    SafeHasNoDelimiters(rest);
    if Ascii(windowOrigin) {
      DecodeEncode(windowOrigin);
    }
  }

  lemma SafeHasNoDelimiters(e: string)
    requires forall i :: 0 <= i < |e| ==> UriSafe(e[i])
    ensures '&' !in e && '#' !in e && '=' !in e
  {
  }

  // ---------------------------------------------------------------------------
  // The provider's state.

  class AuthProvider {
    const apiBase: string
    /** `new URL(API_BASE).origin`, None when the constructor throws. */
    const apiOrigin: Option<string>
    var user: Option<AuthUser>
    var loading: bool
    var mounted: bool
    /** `window.__APP_OAUTH_TOKEN` */
    var windowToken: Option<string>
    /** Where the page was sent when the popup could not be opened. */
    var navigatedTo: Option<string>

    constructor(apiBase: string, apiOrigin: Option<string>, windowToken: Option<string>)
      ensures this.apiBase == apiBase && this.apiOrigin == apiOrigin
      ensures user.None? && loading && mounted
      ensures this.windowToken == windowToken && navigatedTo.None?
    {
      this.apiBase := apiBase;
      this.apiOrigin := apiOrigin;
      user := None;
      loading := true;
      mounted := true;
      this.windowToken := windowToken;
      navigatedTo := None;
    }

    /** The mount effect's first call: `fetchMe()` without a token, applied only while mounted. */
    method InitialLoad(outcome: FetchOutcome) returns (sent: Request)
      modifies this
      ensures sent == MeRequest(apiBase, None) && Get(sent.headers, "Authorization").None?
      ensures old(mounted) ==> user == MeResult(outcome) && !loading
      ensures !old(mounted) ==> user == old(user) && loading == old(loading)
      ensures mounted == old(mounted) && windowToken == old(windowToken) && navigatedTo == old(navigatedTo)
    {
      sent := MeRequest(apiBase, None);
      var u := MeResult(outcome);
      if mounted {
        user := u;
      }
      if mounted {
        loading := false;
      }
    }

    /** The effect's cleanup. */
    method Unmount()
      modifies this
      ensures !mounted
      ensures user == old(user) && loading == old(loading)
      ensures windowToken == old(windowToken) && navigatedTo == old(navigatedTo)
    {
      mounted := false;
    }

    /**
     * `onMessage`: a message from another origin, or one that is not an OAuth success,
     * changes nothing and sends nothing. An accepted one stores a non-empty token on the
     * window, calls `/auth/me` with it, and sets the user only when that call gives one.
     */
    method OnMessage(origin: string, data: Option<Payload>, outcome: FetchOutcome) returns (sent: Option<Request>)
      modifies this
      ensures !Accepted(apiOrigin, origin, data) ==>
        sent.None? && user == old(user) && windowToken == old(windowToken)
      ensures Accepted(apiOrigin, origin, data) ==>
        && sent == Some(MeRequest(apiBase, data.value.token))
        && windowToken == (if Truthy(data.value.token) then data.value.token else old(windowToken))
        && user == (if MeResult(outcome).Some? then MeResult(outcome) else old(user))
      ensures loading == old(loading) && mounted == old(mounted) && navigatedTo == old(navigatedTo)
    {
      sent := None;
      if apiOrigin.None? {
        return;
      }
      var expected := apiOrigin.value;
      var localhostVariant := ReplaceFirst(expected, Loopback, LocalHost);
      var loopbackVariant := ReplaceFirst(expected, LocalHost, Loopback);
      var isValidOrigin := origin == expected || origin == localhostVariant || origin == loopbackVariant;
      assert isValidOrigin == IsValidOrigin(origin, expected);
      if !isValidOrigin {
        return;
      }
      if IsOAuthSuccess(data) {
        var token := data.value.token;
        if token.Some? && token.value != [] {
          windowToken := token;
        }
        sent := Some(MeRequest(apiBase, token));
        var u := MeResult(outcome);
        if u.Some? {
          user := u;
        }
      }
    }

    /** `login`: the popup opens the login URL; when it is blocked the page itself goes there. */
    method Login(windowOrigin: string, popupOpened: bool) returns (url: string)
      modifies this
      ensures url == LoginUrl(apiBase, windowOrigin)
      ensures navigatedTo == if popupOpened then old(navigatedTo) else Some(url)
      ensures user == old(user) && loading == old(loading) && mounted == old(mounted)
      ensures windowToken == old(windowToken)
    {
      url := LoginUrl(apiBase, windowOrigin);
      if !popupOpened {
        navigatedTo := Some(url);
      }
    }

    /** `logout`: the request's outcome is ignored and the user is cleared in every case. */
    method Logout() returns (sent: Request)
      modifies this
      ensures sent == LogoutRequest(apiBase)
      ensures user.None?
      ensures loading == old(loading) && mounted == old(mounted)
      ensures windowToken == old(windowToken) && navigatedTo == old(navigatedTo)
    {
      sent := LogoutRequest(apiBase);
      user := None;
    }
  }

  const OutsideProvider := "useAuth must be used within AuthProvider"

  /** `useAuth`: the context, or the error thrown outside a provider. */
  function UseAuth(ctx: Option<AuthProvider>): (r: Result<AuthProvider, string>)
    ensures r.Ok? <==> ctx.Some?
    ensures r.Ok? ==> r.value == ctx.value
    ensures r.Err? ==> r.error == OutsideProvider
  {
    match ctx
    case None => Err(OutsideProvider)
    case Some(p) => Ok(p)
  }
}

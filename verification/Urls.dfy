/** The two URL transformations: `Url::parse` of src/services/gateway_mqtt/login.rs
    and `compute_ws_url` of src/services/cloud_gateway/cloud_gateway_service.rs. */
module Urls {
  import opened Common

  datatype Url = Url(tls: bool, host: string, port: nat, path: string)

  // ── String searches ───────────────────────────────────────────────────────

  const SEPARATOR := "://"

  /** Where `split_once("://")` splits. */
  function FindSeparator(s: string): (r: Option<nat>)
    ensures r.Some? ==> r.value + 3 <= |s|
  {
    if |s| < 3 then None
    else if s[..3] == SEPARATOR then Some(0)
    else
      match FindSeparator(s[1..])
      case None => None
      case Some(i) => Some(i + 1)
  }

  /** `str::find` of one character. */
  function IndexOf(s: string, c: char): (r: Option<nat>)
    ensures r.Some? ==> r.value < |s| && s[r.value] == c && c !in s[..r.value]
    ensures r.None? ==> c !in s
  {
    if s == "" then None
    else if s[0] == c then Some(0)
    else
      assert s == [s[0]] + s[1..];
      match IndexOf(s[1..], c)
      case None => None
      case Some(i) => assert s[..i + 1] == [s[0]] + s[1..][..i]; Some(i + 1)
  }

  /** Where `rsplit_once` of one character splits. */
  function LastIndexOf(s: string, c: char): (r: Option<nat>)
    ensures r.Some? ==> r.value < |s| && s[r.value] == c && c !in s[r.value + 1..]
    ensures r.None? ==> c !in s
  {
    if s == "" then None
    else
      var k := |s| - 1;
      assert s == s[..k] + [s[k]];
      if s[k] == c then Some(k)
      else
        match LastIndexOf(s[..k], c)
        case None => None
        case Some(i) => assert s[i + 1..] == s[..k][i + 1..] + [s[k]]; Some(i)
  }

  lemma {:induction false} SeparatorFound(a: string, b: string)
    requires ':' !in a
    ensures FindSeparator(a + SEPARATOR + b) == Some(|a|)
  {
    var s := a + SEPARATOR + b;
    if a == "" {
      assert s[..3] == SEPARATOR;
    } else {
      assert s[0] == a[0] && a[0] != ':';
      assert s[1..] == a[1..] + SEPARATOR + b;
      SeparatorFound(a[1..], b);
    }
  }

  lemma {:induction false} IndexFound(a: string, c: char, b: string)
    requires c !in a
    ensures IndexOf(a + [c] + b, c) == Some(|a|)
  {
    if a == "" {
    } else {
      assert (a + [c] + b)[1..] == a[1..] + [c] + b;
      IndexFound(a[1..], c, b);
    }
  }

  lemma {:induction false} LastIndexFound(a: string, c: char, b: string)
    requires c !in b
    ensures LastIndexOf(a + [c] + b, c) == Some(|a|)
  {
    var s, k := a + [c] + b, |b| - 1;
    if b == "" {
    } else {
      assert s[..|s| - 1] == a + [c] + b[..k];
      assert s[|s| - 1] == b[k];
      LastIndexFound(a, c, b[..k]);
    }
  }

  // ── Decimal ports ─────────────────────────────────────────────────────────

  const MAX_PORT: nat := 65535

  predicate IsDigit(c: char) {
    '0' <= c <= '9'
  }

  function Decimal(n: nat): string {
    if n < 10 then [('0' as int + n) as char] else Decimal(n / 10) + [('0' as int + n % 10) as char]
  }

  /** The value of a digit string; `None` when it is not one. */
  function DigitsValue(s: string): (r: Option<nat>)
    ensures r.Some? <==> forall i :: 0 <= i < |s| ==> IsDigit(s[i])
  {
    if s == "" then Some(0)
    else
      var k := |s| - 1;
      assert forall i :: 0 <= i < k ==> s[i] == s[..k][i];
      match DigitsValue(s[..k])
      case None => None
      case Some(v) => if IsDigit(s[k]) then Some(10 * v + (s[k] as int - '0' as int)) else None
  }

  function Unsigned(s: string): string {
    if s != "" && s[0] == '+' then s[1..] else s
  }

  /** Rust's `parse::<u16>`: an optional plus sign, at least one digit, no overflow. */
  function ParsePort(s: string): (r: Option<nat>)
    ensures r.Some? ==> r.value <= MAX_PORT
  {
    var digits := Unsigned(s);
    if digits == "" then None
    else
      match DigitsValue(digits)
      case None => None
      case Some(v) => if v <= MAX_PORT then Some(v) else None
  }

  lemma {:induction false} DecimalDigits(n: nat)
    ensures Decimal(n) != "" && forall i :: 0 <= i < |Decimal(n)| ==> IsDigit(Decimal(n)[i])
    ensures DigitsValue(Decimal(n)) == Some(n)
  {
    var s := Decimal(n);
    if n < 10 {
      assert s[..0] == "";
    } else {
      DecimalDigits(n / 10);
      assert s[..|s| - 1] == Decimal(n / 10);
    }
  }

  lemma PortRoundTrip(n: nat)
    requires n <= MAX_PORT
    ensures ParsePort(Decimal(n)) == Some(n)
    ensures ':' !in Decimal(n) && '/' !in Decimal(n)
  {
    DecimalDigits(n);
    assert IsDigit(Decimal(n)[0]);
  }

  function Zeros(k: nat): string {
    seq(k, _ => '0')
  }

  /** `s` writes `n` in decimal, after `k` superfluous zeros. */
  predicate Writes(s: string, k: nat, n: nat) {
    s == Zeros(k) + Decimal(n)
  }

  lemma {:induction false} ZerosAddNothing(k: nat, n: nat)
    ensures DigitsValue(Zeros(k) + Decimal(n)) == Some(n)
  {
    var s := Zeros(k) + Decimal(n);
    if n < 10 {
      assert s[..|s| - 1] == Zeros(k);
      OnlyZeros(k);
    } else {
      assert s[..|s| - 1] == Zeros(k) + Decimal(n / 10);
      ZerosAddNothing(k, n / 10);
    }
  }

  lemma {:induction false} OnlyZeros(k: nat)
    ensures DigitsValue(Zeros(k)) == Some(0)
  {
    if k == 0 {
    } else {
      assert Zeros(k)[..k - 1] == Zeros(k - 1);
      OnlyZeros(k - 1);
    }
  }

  /** Every digit string writes its value. */
  lemma {:induction false} DigitsWrite(s: string) returns (k: nat)
    requires s != "" && DigitsValue(s).Some?
    ensures Writes(s, k, DigitsValue(s).value)
  {
    var n, d := DigitsValue(s).value, |s| - 1;
    assert s == s[..d] + [s[d]];
    if d == 0 {
      k := 0;
    } else {
      k := DigitsWrite(s[..d]);
      var v := DigitsValue(s[..d]).value;
      if v == 0 {
        assert Zeros(k) + "0" + [s[d]] == Zeros(k + 1) + [s[d]];
        k := k + 1;
      } else {
        assert n / 10 == v && n % 10 == s[d] as int - '0' as int;
        assert Zeros(k) + Decimal(v) + [s[d]] == Zeros(k) + (Decimal(v) + [s[d]]);
      }
    }
  }

  /** The texts accepted as port `n` are exactly its decimal numeral, after any
      number of zeros and at most one plus sign, for every 16-bit `n` and no other. */
  lemma PortAccepted(s: string, n: nat)
    ensures ParsePort(s) == Some(n) <==> n <= 65535 && exists k :: Writes(Unsigned(s), k, n)
  {
    var digits := Unsigned(s);
    forall k | Writes(digits, k, n) ensures digits != "" && DigitsValue(digits) == Some(n) {
      ZerosAddNothing(k, n);
      DecimalDigits(n);
    }
    if ParsePort(s) == Some(n) {
      var k := DigitsWrite(digits);
    }
  }

  // ── Url::parse ────────────────────────────────────────────────────────────

  function DefaultPort(tls: bool): nat {
    if tls then 443 else 80
  }

  function ParseAuthority(authority: string, tls: bool): Result<(string, nat)> {
    match LastIndexOf(authority, ':')
    case Some(i) =>
      if i == 0 then Ok((authority, DefaultPort(tls)))
      else
        (match ParsePort(authority[i + 1..])
         case Some(port) => Ok((authority[..i], port))
         case None => Err("invalid port"))
    case None => Ok((authority, DefaultPort(tls)))
  }

  function Parse(input: string): Result<Url> {
    match FindSeparator(input)
    case None => Err("invalid gateway url")
    case Some(i) =>
      var scheme, rest := input[..i], input[i + 3..];
      if scheme != "https" && scheme != "http" then Err("unsupported gateway scheme")
      else
        var tls := scheme == "https";
        var (authority, path) := match IndexOf(rest, '/')
          case Some(j) => (rest[..j], rest[j..])
          case None => (rest, "/");
        match ParseAuthority(authority, tls)
        case Err(e) => Err(e)
        case Ok(hp) => Ok(Url(tls, hp.0, hp.1, path))
  }

  function Scheme(tls: bool): string {
    if tls then "https" else "http"
  }

  function Print(u: Url): string {
    Scheme(u.tls) + SEPARATOR + (u.host + ":" + Decimal(u.port) + u.path)
  }

  /** What every parsed URL satisfies. */
  predicate Plausible(u: Url) {
    '/' !in u.host && u.port <= MAX_PORT && u.path != "" && u.path[0] == '/'
  }

  lemma PrefixMember(s: string, i: nat, c: char)
    requires i <= |s| && c !in s
    ensures c !in s[..i]
  {
  }

  lemma ParsedIsPlausible(input: string)
    requires Parse(input).Ok?
    ensures Plausible(Parse(input).value)
  {
    var i := FindSeparator(input).value;
    var rest := input[i + 3..];
    var slash := IndexOf(rest, '/');
    var authority := if slash.Some? then rest[..slash.value] else rest;
    assert '/' !in authority;
    var colon := LastIndexOf(authority, ':');
    if colon.Some? {
      PrefixMember(authority, colon.value, '/');
    }
  }

  /** Which part of the input is the authority and which the path. */
  lemma ParseParts(tls: bool, authority: string, path: string)
    requires '/' !in authority && path != "" && path[0] == '/'
    ensures Parse(Scheme(tls) + SEPARATOR + (authority + path)) ==
      match ParseAuthority(authority, tls)
      case Err(e) => Err(e)
      case Ok(hp) => Ok(Url(tls, hp.0, hp.1, path))
  {
    var scheme, rest := Scheme(tls), authority + path;
    var input := scheme + SEPARATOR + rest;
    SeparatorFound(scheme, rest);
    assert input[..|scheme|] == scheme && input[|scheme| + 3..] == rest;
    assert rest == authority + ['/'] + path[1..];
    IndexFound(authority, '/', path[1..]);
    assert rest[..|authority|] == authority && rest[|authority|..] == path;
  }

  /** The port after the last colon must parse, and then decides the outcome. */
  lemma PortDecides(tls: bool, host: string, port: string, path: string)
    requires host != "" && '/' !in host && ':' !in port && '/' !in port && path != "" && path[0] == '/'
    ensures
      var r := Parse(Scheme(tls) + SEPARATOR + (host + ":" + port + path));
      match ParsePort(port)
      case None => r.Err?
      case Some(p) => r == Ok(Url(tls, host, p, path))
  {
    var authority := host + ":" + port;
    assert host + ":" + port + path == authority + path;
    assert '/' !in authority;
    ParseParts(tls, authority, path);
    LastIndexFound(host, ':', port);
    assert authority == host + [':'] + port;
    assert authority[..|host|] == host && authority[|host| + 1..] == port;
  }

  /** Printing and parsing again gives the same URL, colons in the host included,
      exactly when the host is not empty. */
  lemma PrintParse(u: Url)
    requires Plausible(u)
    ensures Parse(Print(u)) == Ok(u) <==> u.host != ""
  {
    var port := Decimal(u.port);
    PortRoundTrip(u.port);
    if u.host != "" {
      PortDecides(u.tls, u.host, port, u.path);
    } else {
      // The authority is then ":" and the port, which becomes the host.
      var authority := ":" + port;
      assert u.host + ":" + port + u.path == authority + u.path;
      ParseParts(u.tls, authority, u.path);
      LastIndexFound("", ':', port);
      assert authority == "" + [':'] + port;
    }
  }

  /** Something other than a slash follows the first "://". */
  predicate NamesHost(input: string) {
    match FindSeparator(input)
    case None => false
    case Some(i) => i + 3 < |input| && input[i + 3] != '/'
  }

  /** An accepted input has an empty host exactly when nothing, or the path, follows "://". */
  lemma HostFromInput(input: string)
    requires Parse(input).Ok?
    ensures Parse(input).value.host != "" <==> NamesHost(input)
  {
    var i := FindSeparator(input).value;
    var rest := input[i + 3..];
    var slash := IndexOf(rest, '/');
    var authority := if slash.Some? then rest[..slash.value] else rest;
    assert authority == "" <==> !NamesHost(input) by {
      assert slash.Some? && slash.value > 0 ==> rest[0] in rest[..slash.value];
    }
  }

  /** Every accepted input has one normal form that parsing leaves alone, exactly
      when it names a host. */
  lemma ParseNormalises(input: string)
    requires Parse(input).Ok?
    ensures Parse(Print(Parse(input).value)) == Parse(input) <==> NamesHost(input)
  {
    ParsedIsPlausible(input);
    PrintParse(Parse(input).value);
    HostFromInput(input);
  }

  /** Every URL without a host is accepted all the same. */
  lemma EmptyHostAccepted(tls: bool, path: string)
    requires path == "" || path[0] == '/'
    ensures Parse(Scheme(tls) + SEPARATOR + path) == Ok(Url(tls, "", DefaultPort(tls), if path == "" then "/" else path))
  {
    if path == "" {
      MissingPathIsRoot(tls, "");
      assert "" + "/" == "/";
      DefaultPortUsed("", "/");
    } else {
      assert "" + path == path;
      DefaultPortUsed("", path);
    }
  }

  /** Without a port, the scheme's default is used. */
  lemma DefaultPortUsed(host: string, path: string)
    requires '/' !in host && ':' !in host && path != "" && path[0] == '/'
    ensures Parse("https" + SEPARATOR + (host + path)) == Ok(Url(true, host, 443, path))
    ensures Parse("http" + SEPARATOR + (host + path)) == Ok(Url(false, host, 80, path))
  {
    ParseParts(true, host, path);
    ParseParts(false, host, path);
  }

  /** Without a path, the root is meant. */
  lemma MissingPathIsRoot(tls: bool, authority: string)
    requires '/' !in authority
    ensures Parse(Scheme(tls) + SEPARATOR + authority) == Parse(Scheme(tls) + SEPARATOR + (authority + "/"))
  {
    var scheme := Scheme(tls);
    var input := scheme + SEPARATOR + authority;
    SeparatorFound(scheme, authority);
    assert input[..|scheme|] == scheme && input[|scheme| + 3..] == authority;
    assert IndexOf(authority, '/').None?;
    ParseParts(tls, authority, "/");
  }

  function UpToSlash(s: string): string {
    match IndexOf(s, '/')
    case Some(j) => s[..j]
    case None => s
  }

  /** What follows the scheme, up to the first slash. */
  function AuthorityOf(input: string): string {
    if StartsWith(input, HTTPS) then UpToSlash(input[|HTTPS|..])
    else if StartsWith(input, HTTP) then UpToSlash(input[|HTTP|..])
    else ""
  }

  /** No colon, a colon in front, or a port after the last one. */
  predicate HasGoodPort(authority: string) {
    match LastIndexOf(authority, ':')
    case None => true
    case Some(i) => i == 0 || ParsePort(authority[i + 1..]).Some?
  }

  lemma {:induction false} SeparatorThere(s: string)
    ensures FindSeparator(s).Some? ==> s[FindSeparator(s).value..FindSeparator(s).value + 3] == SEPARATOR
  {
    if |s| < 3 || s[..3] == SEPARATOR {
    } else {
      SeparatorThere(s[1..]);
      if FindSeparator(s).Some? {
        var i := FindSeparator(s).value;
        assert s[i..i + 3] == s[1..][i - 1..i + 2];
      }
    }
  }

  /** Which scheme the input has, if any that is supported. */
  lemma SchemeOfInput(input: string, tls: bool)
    ensures
      StartsWith(input, if tls then HTTPS else HTTP)
      <==> FindSeparator(input) == Some(|Scheme(tls)|) && input[..|Scheme(tls)|] == Scheme(tls)
  {
    var scheme, prefix := Scheme(tls), if tls then HTTPS else HTTP;
    var n := |scheme|;
    assert prefix == scheme + SEPARATOR;
    if StartsWith(input, prefix) {
      assert input == scheme + SEPARATOR + input[n + 3..];
      SeparatorFound(scheme, input[n + 3..]);
      assert input[..n] == input[..n + 3][..n];
    }
    if FindSeparator(input) == Some(n) && input[..n] == scheme {
      SeparatorThere(input);
      assert input[..n + 3] == input[..n] + input[n..n + 3];
    }
  }

  lemma AuthorityAccepted(authority: string, tls: bool)
    ensures ParseAuthority(authority, tls).Ok? <==> HasGoodPort(authority)
  {
  }

  lemma ParseAfterScheme(input: string, tls: bool)
    requires FindSeparator(input) == Some(|Scheme(tls)|) && input[..|Scheme(tls)|] == Scheme(tls)
    ensures
      var r := ParseAuthority(UpToSlash(input[|Scheme(tls)| + 3..]), tls);
      (Parse(input).Ok? <==> r.Ok?) && (r.Ok? ==> Parse(input).value.tls == tls)
  {
    assert |"https"| == 5 && |"http"| == 4;
  }

  lemma ParseSupported(input: string, tls: bool)
    requires StartsWith(input, if tls then HTTPS else HTTP)
    ensures Parse(input).Ok? <==> HasGoodPort(AuthorityOf(input))
    ensures Parse(input).Ok? ==> Parse(input).value.tls == tls
  {
    SchemeOfInput(input, tls);
    NotBothSchemes(input);
    ParseAfterScheme(input, tls);
    assert |Scheme(tls)| + 3 == if tls then |HTTPS| else |HTTP|;
    AuthorityAccepted(AuthorityOf(input), tls);
  }

  lemma NotBothSchemes(input: string)
    ensures !(StartsWith(input, HTTPS) && StartsWith(input, HTTP))
  {
    if |input| >= 8 {
      assert input[..8][4] == input[4] && input[..7][4] == input[4] && HTTPS[4] == 's' && HTTP[4] == ':';
    }
  }

  lemma ParseUnsupported(input: string)
    requires !StartsWith(input, HTTPS) && !StartsWith(input, HTTP)
    ensures Parse(input).Err?
  {
    SchemeOfInput(input, true);
    SchemeOfInput(input, false);
    assert |"https"| == 5 && |"http"| == 4;
  }

  /** An input is accepted exactly when it begins with "https://" or "http://" and
      its authority, up to the next slash, has a good port or none. */
  lemma ParseAccepts(input: string)
    ensures Parse(input).Ok? <==> (StartsWith(input, "https://") || StartsWith(input, "http://")) && HasGoodPort(AuthorityOf(input))
    ensures Parse(input).Ok? ==> (Parse(input).value.tls <==> StartsWith(input, "https://"))
  {
    NotBothSchemes(input);
    if StartsWith(input, HTTPS) {
      ParseSupported(input, true);
    } else if StartsWith(input, HTTP) {
      ParseSupported(input, false);
    } else {
      ParseUnsupported(input);
    }
  }

  // ── compute_ws_url ────────────────────────────────────────────────────────

  predicate StartsWith(s: string, prefix: string) {
    |prefix| <= |s| && s[..|prefix|] == prefix
  }

  /** `trim_end_matches('/')`. */
  function TrimEnd(s: string): (r: string)
    ensures r != "" ==> r[|r| - 1] != '/'
  {
    if s != "" && s[|s| - 1] == '/' then TrimEnd(s[..|s| - 1]) else s
  }

  const HTTPS := "https://"
  const HTTP := "http://"
  const WS := "/ws"

  function SwapScheme(base: string): string {
    if StartsWith(base, HTTPS) then "wss://" + base[|HTTPS|..]
    else if StartsWith(base, HTTP) then "ws://" + base[|HTTP|..]
    else base
  }

  function ComputeWsUrl(gatewayUrl: string): string {
    var base := SwapScheme(TrimEnd(gatewayUrl));
    if EndsWith(base, WS) then base else base + WS
  }

  function Slashes(n: nat): string {
    seq(n, _ => '/')
  }

  lemma {:induction false} TrimSlashes(s: string, n: nat)
    ensures TrimEnd(s + Slashes(n)) == TrimEnd(s)
  {
    var t := s + Slashes(n);
    if n == 0 {
      assert t == s;
    } else {
      assert t[|t| - 1] == '/';
      assert t[..|t| - 1] == s + Slashes(n - 1);
      TrimSlashes(s, n - 1);
    }
  }

  /** Trailing slashes make no difference. */
  lemma TrailingSlashesIgnored(s: string, n: nat)
    ensures ComputeWsUrl(s + Slashes(n)) == ComputeWsUrl(s)
  {
    TrimSlashes(s, n);
  }

  lemma EndsInWs(s: string)
    ensures EndsWith(ComputeWsUrl(s), WS)
  {
    var base := SwapScheme(TrimEnd(s));
    assert (base + WS)[|base|..] == WS;
  }

  /** A scheme that needs swapping cannot appear by appending "/ws" to a trimmed base. */
  lemma NoSchemeAppears(base: string, scheme: string)
    requires scheme == HTTPS || scheme == HTTP
    requires base != "" ==> base[|base| - 1] != '/'
    requires !StartsWith(base, scheme)
    ensures !StartsWith(base + WS, scheme)
  {
    var s, n := base + WS, |scheme|;
    assert scheme[n - 1] == '/' && scheme[n - 2] == '/' && scheme[n - 3] == ':';
    if n <= |base| {
      assert s[..n] == base[..n];
    } else if n <= |s| {
      // The scheme ends in two slashes, "/ws" has only one, and the base ends in none.
      assert s[..n][n - 1] == s[n - 1] && s[..n][n - 2] == s[n - 2];
      assert s[|base|] == '/' && s[|base| + 1] == 'w' && s[|base| + 2] == 's';
    }
  }

  lemma SwappedHasNoHttp(base: string)
    requires base != "" ==> base[|base| - 1] != '/'
    ensures
      var r := if EndsWith(SwapScheme(base), WS) then SwapScheme(base) else SwapScheme(base) + WS;
      !StartsWith(r, HTTPS) && !StartsWith(r, HTTP)
  {
    var b := SwapScheme(base);
    if b != base {
      assert b[0] == 'w' && (b + WS)[0] == 'w';
    } else {
      NoSchemeAppears(base, HTTPS);
      NoSchemeAppears(base, HTTP);
    }
  }

  /** Applying the transformation to its own result changes nothing. */
  lemma WsUrlIdempotent(s: string)
    ensures ComputeWsUrl(ComputeWsUrl(s)) == ComputeWsUrl(s)
  {
    var r := ComputeWsUrl(s);
    EndsInWs(s);
    assert r[|r| - 1] == r[|r| - 3..][2];
    assert TrimEnd(r) == r;
    SwappedHasNoHttp(TrimEnd(s));
    assert SwapScheme(r) == r;
  }

  /** A gateway reached over TLS is never connected to in the clear. */
  lemma SecureStaysSecure(s: string)
    requires StartsWith(TrimEnd(s), HTTPS)
    ensures StartsWith(ComputeWsUrl(s), "wss://")
  {
    var b := SwapScheme(TrimEnd(s));
    assert b[..6] == "wss://";
    assert (b + WS)[..6] == b[..6];
  }

  // ── The connection path, over the parts of a gateway URL ──────────────────

  lemma {:induction false} TrimAppend(a: string, b: string)
    ensures TrimEnd(a + b) == if TrimEnd(b) != "" then a + TrimEnd(b) else TrimEnd(a)
  {
    if b == "" {
      assert a + b == a;
    } else if b[|b| - 1] == '/' {
      assert (a + b)[..|a + b| - 1] == a + b[..|b| - 1];
      TrimAppend(a, b[..|b| - 1]);
    }
  }

  lemma {:induction false} TrimKeepsFirst(s: string)
    ensures TrimEnd(s) != "" ==> s != "" && TrimEnd(s)[0] == s[0]
  {
    if s == "" {
    } else {
      TrimKeepsFirst(s[..|s| - 1]);
    }
  }

  function WsScheme(tls: bool): string {
    if tls then "wss://" else "ws://"
  }

  lemma SwapParts(tls: bool, rest: string)
    ensures SwapScheme(Scheme(tls) + SEPARATOR + rest) == WsScheme(tls) + rest
  {
    var s := Scheme(tls) + SEPARATOR;
    assert s == if tls then HTTPS else HTTP;
    assert (s + rest)[..|s|] == s && (s + rest)[|s|..] == rest;
    assert !tls ==> (s + rest)[4] == ':' && HTTPS[4] == 's';
    assert !tls && |s + rest| >= 8 ==> (s + rest)[..8][4] == ':';
  }

  /** A query or a fragment, or neither. */
  predicate IsTail(s: string) {
    s == "" || s[0] == '?' || s[0] == '#'
  }

  predicate NoTail(s: string) {
    '?' !in s && '#' !in s
  }

  /** What comes before the query and the fragment. */
  function BeforeTail(s: string): string {
    if IsTail(s) then "" else [s[0]] + BeforeTail(s[1..])
  }

  lemma {:induction false} BeforeTailOf(s: string, tail: string)
    requires NoTail(s) && IsTail(tail)
    ensures BeforeTail(s + tail) == s
  {
    if s == "" {
      assert s + tail == tail;
    } else {
      assert (s + tail)[1..] == s[1..] + tail && s == [s[0]] + s[1..];
      BeforeTailOf(s[1..], tail);
    }
  }

  /** The URL keeps scheme and authority, and its path, which leaves out query and
      fragment, ends in "/ws". */
  predicate GoesToWs(url: string, tls: bool, authority: string) {
    var origin := WsScheme(tls) + authority;
    && StartsWith(url, origin)
    && var path := BeforeTail(url[|origin|..]);
    path != "" && path[0] == '/' && EndsWith(path, WS)
  }

  lemma WsOfParts(tls: bool, authority: string, path: string, tail: string)
    requires NoTail(path) && IsTail(tail)
    ensures GoesToWs(WsScheme(tls) + authority + (path + tail), tls, authority)
       <==> path != "" && path[0] == '/' && EndsWith(path, WS)
  {
    var origin, rest := WsScheme(tls) + authority, path + tail;
    assert (origin + rest)[..|origin|] == origin && (origin + rest)[|origin|..] == rest;
    BeforeTailOf(path, tail);
  }

  lemma AppendedWs(tls: bool, authority: string, path: string)
    requires NoTail(path) && (path == "" || path[0] == '/')
    ensures GoesToWs(WsScheme(tls) + authority + path + WS, tls, authority)
    ensures GoesToWs(WsScheme(tls) + authority + path, tls, authority) <==> EndsWith(path, WS)
  {
    var origin := WsScheme(tls) + authority;
    assert (path + WS)[|path|..] == WS;
    Regroup(origin, path, WS);
    assert path + "" == path && path + WS + "" == path + WS;
    WsOfParts(tls, authority, path, "");
    WsOfParts(tls, authority, path + WS, "");
  }

  /** A rooted path decides by itself whether the URL ends in "/ws". */
  lemma PathDecides(origin: string, path: string)
    requires |path| >= 2 && path[0] == '/' && path[|path| - 1] != '/'
    ensures EndsWith(origin + path, WS) <==> EndsWith(path, WS)
  {
    var s := origin + path;
    if |path| == 2 {
      assert |s| >= 3 ==> s[|s| - 3..][1] == '/';
    } else {
      assert s[|s| - 3..] == path[|path| - 3..];
    }
  }

  /** Without a path it is the authority that decides. */
  lemma AuthorityDecides(tls: bool, authority: string)
    requires '/' !in authority && authority != ""
    ensures EndsWith(WsScheme(tls) + authority, WS) <==> authority == "ws"
  {
    var s, n := WsScheme(tls) + authority, |authority|;
    var last := s[|s| - 3..];
    if n >= 3 {
      assert last[0] == authority[n - 3];
    } else if n == 2 {
      assert last == "/" + authority && last[1..] == authority && WS[1..] == "ws";
    } else {
      assert last[1] == '/';
    }
  }

  lemma TrimParts(s: string, authority: string, path: string)
    requires '/' !in authority
    ensures
      var p := TrimEnd(path);
      TrimEnd(s + (authority + path)) == if authority == "" && p == "" then TrimEnd(s) else s + (authority + p)
  {
    TrimAppend(s, authority + path);
    TrimAppend(authority, path);
    assert authority != "" ==> authority[|authority| - 1] in authority;
    assert TrimEnd(authority) == authority;
    assert authority + "" == authority;
  }

  /** The result when something is left after the scheme. */
  lemma WsUrlOfParts(tls: bool, authority: string, path: string)
    requires '/' !in authority && (authority != "" || TrimEnd(path) != "")
    ensures
      var base := WsScheme(tls) + authority + TrimEnd(path);
      ComputeWsUrl(Scheme(tls) + SEPARATOR + (authority + path)) == if EndsWith(base, WS) then base else base + WS
  {
    var p := TrimEnd(path);
    TrimParts(Scheme(tls) + SEPARATOR, authority, path);
    SwapParts(tls, authority + p);
    Regroup(WsScheme(tls), authority, p);
  }

  lemma Regroup(a: string, b: string, c: string)
    ensures a + (b + c) == a + b + c
  {
  }

  /** The result when nothing is left: the slashes of "://" are trimmed, too. */
  lemma WsUrlOfNothing(tls: bool, path: string)
    requires TrimEnd(path) == ""
    ensures ComputeWsUrl(Scheme(tls) + SEPARATOR + ("" + path)) == Scheme(tls) + ":" + WS
  {
    var base := Scheme(tls) + ":";
    TrimParts(Scheme(tls) + SEPARATOR, "", path);
    assert Scheme(tls) + SEPARATOR == base + Slashes(2);
    TrimSlashes(base, 2);
    assert TrimEnd(base) == base;
    assert |base| < 7 && base[|base| - 1] == ':';
  }

  lemma GoesBelowWithoutTail(tls: bool, authority: string, path: string)
    requires '/' !in authority && (path == "" || path[0] == '/') && NoTail(path)
    ensures
      GoesToWs(ComputeWsUrl(Scheme(tls) + SEPARATOR + (authority + path)), tls, authority)
      <==> !(TrimEnd(path) == "" && (authority == "" || authority == "ws"))
  {
    if authority == "" && TrimEnd(path) == "" {
      WsUrlOfNothing(tls, path);
      assert (Scheme(tls) + ":" + WS)[0] == 'h';
    } else {
      WsUrlOfParts(tls, authority, path);
      TrimKeepsFirst(path);
      TrimKeepsNoTail(path);
      GoesBelowTrimmed(tls, authority, TrimEnd(path));
    }
  }

  lemma GoesBelowTrimmed(tls: bool, authority: string, path: string)
    requires '/' !in authority && NoTail(path) && (authority != "" || path != "")
    requires path == "" || (path[0] == '/' && path[|path| - 1] != '/')
    ensures
      var base := WsScheme(tls) + authority + path;
      GoesToWs(if EndsWith(base, WS) then base else base + WS, tls, authority) <==> !(path == "" && authority == "ws")
  {
    AppendedWs(tls, authority, path);
    if path != "" {
      PathDecides(WsScheme(tls) + authority, path);
    } else {
      AuthorityDecides(tls, authority);
      assert WsScheme(tls) + authority + path == WsScheme(tls) + authority;
    }
  }

  lemma {:induction false} TrimKeepsNoTail(s: string)
    requires NoTail(s)
    ensures NoTail(TrimEnd(s))
  {
    if s == "" {
    } else {
      TrimKeepsNoTail(s[..|s| - 1]);
    }
  }

  lemma {:induction false} TailSurvivesTrim(tail: string)
    requires IsTail(tail) && tail != ""
    ensures TrimEnd(tail) != "" && TrimEnd(tail)[0] == tail[0]
  {
    if |tail| == 1 {
      assert TrimEnd(tail) == tail;
    } else {
      TailSurvivesTrim(tail[..|tail| - 1]);
    }
  }

  /** A query or fragment decides by itself whether the URL ends in "/ws". */
  lemma TailDecides(s: string, tail: string)
    requires IsTail(tail) && tail != ""
    ensures EndsWith(s + tail, WS) <==> EndsWith(tail, WS)
  {
    var all, n := s + tail, |tail|;
    if n >= 3 {
      assert all[|all| - 3..] == tail[n - 3..];
    } else if |all| >= 3 {
      assert all[|all| - 3..][3 - n] == tail[0];
    }
  }

  /** What is appended, or trimmed, goes to the query or fragment if there is one. */
  function TailAfter(tail: string): string {
    if EndsWith(TrimEnd(tail), WS) then TrimEnd(tail) else TrimEnd(tail) + WS
  }

  lemma WsLandsInTail(tls: bool, authority: string, path: string, tail: string)
    requires '/' !in authority && IsTail(tail) && tail != ""
    ensures ComputeWsUrl(Scheme(tls) + SEPARATOR + (authority + (path + tail)))
         == WsScheme(tls) + authority + (path + TailAfter(tail))
  {
    var origin, t := WsScheme(tls) + authority, TrimEnd(tail);
    TailSurvivesTrim(tail);
    TrimAppend(path, tail);
    WsUrlOfParts(tls, authority, path + tail);
    Regroup(origin, path, t);
    TailDecides(origin + path, t);
    Regroup(origin, path + t, WS);
    Regroup(path, t, WS);
  }

  /** The query or fragment reaches the gateway unchanged exactly when it happens
      to end in "/ws" itself. */
  lemma TailKept(tls: bool, authority: string, path: string, tail: string)
    requires '/' !in authority && IsTail(tail) && tail != ""
    ensures
      ComputeWsUrl(Scheme(tls) + SEPARATOR + (authority + (path + tail))) == WsScheme(tls) + authority + (path + tail)
      <==> EndsWith(tail, WS)
  {
    WsLandsInTail(tls, authority, path, tail);
    SamePrefix(WsScheme(tls) + authority, path + TailAfter(tail), path + tail);
    SamePrefix(path, TailAfter(tail), tail);
    var t, u := TrimEnd(tail), TailAfter(tail);
    assert u[|u| - 1] == 's' by {
      assert EndsWith(t, WS) ==> t[|t| - 3..][2] == t[|t| - 1];
    }
    assert EndsWith(tail, WS) ==> tail[|tail| - 3..][2] == tail[|tail| - 1];
    assert tail[|tail| - 1] != '/' ==> t == tail;
    assert (t + WS)[|t|..] == WS;
  }

  lemma SamePrefix(a: string, b: string, c: string)
    ensures a + b == a + c <==> b == c
  {
    assert (a + b)[|a|..] == b && (a + c)[|a|..] == c;
  }

  /** The connection is documented to go to "/ws" below the gateway URL. Without
      query and fragment it keeps the authority and gets a path that ends in "/ws"
      exactly unless the URL has no path and its authority is missing or is "ws"
      itself. With one, the path is never touched, so it must end in "/ws" already. */
  lemma GoesBelowGateway(tls: bool, authority: string, path: string, tail: string)
    requires '/' !in authority && NoTail(authority) && (path == "" || path[0] == '/') && NoTail(path) && IsTail(tail)
    ensures
      GoesToWs(ComputeWsUrl(Scheme(tls) + SEPARATOR + (authority + (path + tail))), tls, authority)
      <==> if tail == "" then !(TrimEnd(path) == "" && (authority == "" || authority == "ws")) else EndsWith(path, WS)
  {
    if tail == "" {
      assert path + tail == path;
      GoesBelowWithoutTail(tls, authority, path);
    } else {
      WsLandsInTail(tls, authority, path, tail);
      TailSurvivesTrim(tail);
      WsOfParts(tls, authority, path, TailAfter(tail));
    }
  }

  /** So "https://h/p?k=1" becomes "wss://h/p?k=1/ws": for every such URL whose path
      and tail do not end in "/ws" the addition ends up in the tail. */
  lemma QueryGetsWs(tls: bool, authority: string, path: string, tail: string)
    requires '/' !in authority && NoTail(authority) && (path == "" || path[0] == '/') && NoTail(path)
    requires IsTail(tail) && tail != "" && tail[|tail| - 1] != '/' && !EndsWith(tail, WS) && !EndsWith(path, WS)
    ensures
      var url := ComputeWsUrl(Scheme(tls) + SEPARATOR + (authority + (path + tail)));
      url == WsScheme(tls) + authority + (path + (tail + WS)) && !GoesToWs(url, tls, authority)
  {
    WsLandsInTail(tls, authority, path, tail);
    GoesBelowGateway(tls, authority, path, tail);
    assert TrimEnd(tail) == tail;
  }

  // ── Spellings of one endpoint ─────────────────────────────────────────────

  function Base(s: string): string {
    SwapScheme(TrimEnd(s))
  }

  /** Two announced URLs are dialled as one exactly when, trimmed and with the scheme
      swapped, they are equal or one is the other, not ending in "/ws", and "/ws". */
  lemma SameEndpoint(a: string, b: string)
    ensures
      ComputeWsUrl(a) == ComputeWsUrl(b)
      <==> || Base(a) == Base(b)
           || (!EndsWith(Base(a), WS) && Base(b) == Base(a) + WS)
           || (!EndsWith(Base(b), WS) && Base(a) == Base(b) + WS)
  {
    var x, y := Base(a), Base(b);
    assert (x + WS)[|x|..] == WS && (y + WS)[|y|..] == WS;
    assert x + WS == y + WS ==> x == y by {
      assert (x + WS)[..|x|] == x && (y + WS)[..|y|] == y;
    }
  }

  /** With and without a final slash, with "/ws" written out, and with the
      WebSocket scheme: one endpoint, for every authority other than "ws". */
  lemma FourSpellings(tls: bool, authority: string)
    requires '/' !in authority && authority != "" && authority != "ws"
    ensures
      var prefix, endpoint := Scheme(tls) + SEPARATOR, WsScheme(tls) + authority + WS;
      && ComputeWsUrl(prefix + (authority + "")) == endpoint
      && ComputeWsUrl(prefix + (authority + "/")) == endpoint
      && ComputeWsUrl(prefix + (authority + WS)) == endpoint
      && ComputeWsUrl(WsScheme(tls) + authority) == endpoint
  {
    assert "/"[..0] == "" && TrimEnd("/") == "" && TrimEnd(WS) == WS;
    SpelledWith(tls, authority, "");
    SpelledWith(tls, authority, "/");
    SpelledWith(tls, authority, WS);
    AuthorityDecides(tls, authority);
    WsSchemeKept(tls, authority);
  }

  lemma SpelledWith(tls: bool, authority: string, path: string)
    requires '/' !in authority && authority != "" && authority != "ws" && (TrimEnd(path) == "" || TrimEnd(path) == WS)
    ensures ComputeWsUrl(Scheme(tls) + SEPARATOR + (authority + path)) == WsScheme(tls) + authority + WS
  {
    var origin, p := WsScheme(tls) + authority, TrimEnd(path);
    WsUrlOfParts(tls, authority, path);
    AuthorityDecides(tls, authority);
    if p == "" {
      assert origin + p == origin;
    } else {
      assert (origin + WS)[|origin|..] == WS;
    }
  }

  /** A WebSocket URL that ends in no slash is its own base. */
  lemma WsSchemeKept(tls: bool, authority: string)
    requires '/' !in authority && authority != ""
    ensures Base(WsScheme(tls) + authority) == WsScheme(tls) + authority
  {
    var s := WsScheme(tls) + authority;
    assert s[|s| - 1] == authority[|authority| - 1] && authority[|authority| - 1] in authority;
    assert s[0] == 'w';
  }
}

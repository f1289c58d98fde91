/**
 Community node addresses: parsing, normalisation into registry keys, and when
 the normalised form reads back as what it was made from.
 */
module NodeAddress {
  import opened Options
  import opened Text

  const ADDRESS_MAX_LEN: nat := 128

  datatype Problem = Empty | TooLong | BadCharacter | NoScheme | BadScheme | Unparsable | BadPort

  datatype Result = Ok(key: string) | Err(problem: Problem)

  /** Unicode lower-casing, known here only by the facts below. */
  type Lower = string -> string

  /** Lower-casing is stable, keeps the delimiters where there are any, and introduces no blank. */
  ghost predicate Lowercasing(lower: Lower) {
    && (forall s :: lower(lower(s)) == lower(s))
    && (forall s :: lower(s) == [] <==> s == [])
    && (forall s :: ':' in lower(s) <==> ':' in s)
    && (forall s :: '/' in lower(s) <==> '/' in s)
    && (forall s :: ']' in lower(s) <==> ']' in s)
    && (forall s :: s != [] && lower(s) != [] ==> (lower(s)[0] == '[' <==> s[0] == '['))
    && (forall s :: Clean(s) ==> Clean(lower(s)))
  }

  function DefaultPort(scheme: string): nat {
    if scheme == "wss" || scheme == "https" then 443
    else if scheme == "ws" || scheme == "http" then 80
    else 11010
  }

  function ParseBracketed(stripped: string, defaultPort: nat): Option<(string, nat)> {
    var parts := SplitOnce(stripped, "]");
    if parts.None? || parts.value.0 == [] then None
    else
      var (host, tail) := parts.value;
      if tail != [] && tail[0] == ':' then
        var port := ParseU16(tail[1..]);
        if port.None? then None else Some((host, port.value))
      else Some((host, defaultPort))
  }

  function ParseHostPort(hostPort: string, defaultPort: nat): Option<(string, nat)> {
    if hostPort == [] then None
    else if hostPort[0] == '[' then ParseBracketed(hostPort[1..], defaultPort)
    else
      var parts := RSplitOnce(hostPort, ':');
      if parts.Some? && ParseU16(parts.value.1).Some? then
        if parts.value.0 == [] then None else Some((parts.value.0, ParseU16(parts.value.1).value))
      else Some((hostPort, defaultPort))
  }

  function Parse(lower: Lower, address: string): Option<(string, nat)> {
    var trimmed := Trim(address);
    var parts := SplitOnce(trimmed, "://");
    var (scheme, rest) := if parts.Some? then (lower(parts.value.0), parts.value.1) else ("", trimmed);
    ParseHostPort(Before(rest, '/'), DefaultPort(scheme))
  }

  /** An IPv6 literal is written in brackets. */
  function Bracket(host: string): string {
    if ':' in host then "[" + host + "]" else host
  }

  function Path(rest: string): string {
    var parts := SplitOnce(rest, "/");
    if parts.Some? && parts.value.1 != [] then "/" + parts.value.1 else ""
  }

  /** The four things a key is made of. */
  datatype Node = Node(scheme: string, host: string, port: nat, path: string)

  function Authority(n: Node): string {
    Bracket(n.host) + ":" + Decimal(n.port)
  }

  function Print(n: Node): string {
    n.scheme + "://" + (Authority(n) + n.path)
  }

  predicate Supported(scheme: string) {
    scheme == "tcp" || scheme == "udp" || scheme == "ws" || scheme == "wss"
  }

  predicate HasBadCharacter(s: string) {
    exists i :: 0 <= i < |s| && (IsWhitespace(s[i]) || IsControl(s[i]))
  }

  function Normalize(lower: Lower, address: string): Result {
    var trimmed := Trim(address);
    if trimmed == [] then Err(Empty)
    else if Utf8Len(trimmed) > ADDRESS_MAX_LEN then Err(TooLong)
    else if HasBadCharacter(trimmed) then Err(BadCharacter)
    else if SplitOnce(trimmed, "://").None? then Err(NoScheme)
    else
      var (scheme, rest) := SplitOnce(trimmed, "://").value;
      if !Supported(lower(scheme)) then Err(BadScheme)
      else if Parse(lower, trimmed).None? then Err(Unparsable)
      else
        var (host, port) := Parse(lower, trimmed).value;
        if port == 0 then Err(BadPort)
        else Ok(Print(Node(lower(scheme), lower(host), port, Path(rest))))
  }

  /** What an accepted address denotes. */
  function Meaning(lower: Lower, address: string): Node
    requires Normalize(lower, address).Ok?
  {
    var (scheme, rest) := SplitOnce(Trim(address), "://").value;
    var (host, port) := Parse(lower, Trim(address)).value;
    Node(lower(scheme), lower(host), port, Path(rest))
  }

  /** The hosts whose printed form reads back: bracketed ones without `]`, bare ones not starting with `[`. */
  predicate Rereadable(host: string) {
    if ':' in host then ']' !in host else host != [] && host[0] != '['
  }

  ghost predicate NodeOk(lower: Lower, n: Node) {
    && Supported(n.scheme) && lower(n.scheme) == n.scheme
    && n.host != [] && lower(n.host) == n.host && '/' !in n.host && Clean(n.host)
    && 1 <= n.port <= 0xFFFF
    && (n.path == "" || (|n.path| > 1 && n.path[0] == '/')) && Clean(n.path)
  }

  // ----- What parsing can return -----

  ghost predicate Within(a: string, b: string) {
    forall c :: c in a ==> c in b
  }

  lemma CleanWithin(a: string, b: string)
    requires Within(a, b) && Clean(b)
    ensures Clean(a)
  {
    forall i | 0 <= i < |a| ensures !IsWhitespace(a[i]) && !IsControl(a[i]) {
      assert a[i] in b;
    }
  }

  lemma {:induction false} SplitOnceJoins(s: string, sep: string)
    ensures SplitOnce(s, sep).Some? ==> SplitOnce(s, sep).value.0 + sep + SplitOnce(s, sep).value.1 == s
  {
    if sep <= s {
      assert [] + sep + s[|sep|..] == s;
    } else if s != [] {
      SplitOnceJoins(s[1..], sep);
      if SplitOnce(s[1..], sep).Some? {
        var (a, b) := SplitOnce(s[1..], sep).value;
        hide SplitOnce;
        assert s == [s[0]] + s[1..];
        assert ([s[0]] + a) + sep + b == [s[0]] + (a + sep + b);
      }
    }
  }

  lemma {:induction false} RSplitOnceJoins(s: string, c: char)
    ensures RSplitOnce(s, c).Some? ==> RSplitOnce(s, c).value.0 + [c] + RSplitOnce(s, c).value.1 == s
  {
    if s != [] && s[|s| - 1] != c {
      RSplitOnceJoins(s[..|s| - 1], c);
      assert s == s[..|s| - 1] + [s[|s| - 1]];
    }
  }

  /** A parsed host is non-empty text taken from the authority, and the port fits sixteen bits. */
  lemma ParsedHost(hostPort: string, defaultPort: nat)
    requires defaultPort <= 0xFFFF && ParseHostPort(hostPort, defaultPort).Some?
    ensures
      var (host, port) := ParseHostPort(hostPort, defaultPort).value;
      host != [] && Within(host, hostPort) && port <= 0xFFFF
  {
    if hostPort[0] == '[' {
      SplitOnceJoins(hostPort[1..], "]");
      assert forall c :: c in hostPort[1..] ==> c in hostPort;
    } else {
      RSplitOnceJoins(hostPort, ':');
    }
  }

  lemma PathIsOk(rest: string)
    requires Clean(rest)
    ensures var path := Path(rest); (path == "" || (|path| > 1 && path[0] == '/')) && Clean(path)
  {
    SplitOnceJoins(rest, "/");
    CleanWithin(Path(rest), rest);
  }

  lemma MeaningIsOk(lower: Lower, address: string)
    requires Lowercasing(lower) && Normalize(lower, address).Ok?
    ensures NodeOk(lower, Meaning(lower, address))
  {
    var trimmed := Trim(address);
    assert Clean(trimmed);
    TrimClean(trimmed);
    var (scheme, rest) := SplitOnce(trimmed, "://").value;
    SplitOnceJoins(trimmed, "://");
    CleanWithin(rest, trimmed);
    PathIsOk(rest);
    var hostPort := Before(rest, '/');
    BeforeIsPrefix(rest, '/');
    ParsedHost(hostPort, DefaultPort(lower(scheme)));
    CleanWithin(ParseHostPort(hostPort, DefaultPort(lower(scheme))).value.0, rest);
  }

  // ----- Reading a key back -----

  lemma DecimalHasNo(n: nat, c: char)
    requires !IsDigit(c)
    ensures c !in Decimal(n) && Decimal(n) != []
  {
    DecimalValue(n);
  }

  /** How an address falls apart into scheme, authority and path. */
  lemma AddressSplits(scheme: string, authority: string, path: string)
    requires ':' !in scheme && '/' !in authority && (path == "" || (|path| > 1 && path[0] == '/'))
    ensures SplitOnce(scheme + "://" + (authority + path), "://") == Some((scheme, authority + path))
    ensures Before(authority + path, '/') == authority && Path(authority + path) == path
  {
    hide SplitOnce, Before, Path;
    assert "://"[0] == ':';
    SplitOnceFinds(scheme, "://", authority + path);
    BeforeStops(authority, '/', path);
    PathFollows(authority, path);
  }

  lemma PathFollows(authority: string, path: string)
    requires '/' !in authority && (path == "" || (|path| > 1 && path[0] == '/'))
    ensures Path(authority + path) == path
  {
    hide SplitOnce;
    if path == "" {
      assert authority + path == authority;
      SplitOnceSplits(authority, '/');
    } else {
      var rest := path[1..];
      assert path == "/" + rest && authority + path == authority + "/" + rest;
      SplitOnceFinds(authority, "/", rest);
    }
  }

  lemma PrintSplits(lower: Lower, n: Node)
    requires NodeOk(lower, n)
    ensures SplitOnce(Print(n), "://") == Some((n.scheme, Authority(n) + n.path))
    ensures Before(Authority(n) + n.path, '/') == Authority(n)
    ensures Path(Authority(n) + n.path) == n.path
    ensures '/' !in Authority(n)
  {
    DecimalHasNo(n.port, '/');
    AddressSplits(n.scheme, Authority(n), n.path);
  }

  lemma PrintIsClean(lower: Lower, n: Node)
    requires NodeOk(lower, n)
    ensures Clean(Print(n)) && Trim(Print(n)) == Print(n)
  {
    DecimalValue(n.port);
    assert Clean(Decimal(n.port));
    assert Clean(Bracket(n.host));
    assert Clean(Authority(n));
    assert Clean(Print(n));
    TrimClean(Print(n));
  }

  lemma BracketedRereads(host: string, port: nat, defaultPort: nat)
    requires ':' in host && 1 <= port <= 0xFFFF
    ensures
      var r := ParseHostPort(Bracket(host) + ":" + Decimal(port), defaultPort);
      if ']' !in host then r == Some((host, port)) else r.Some? ==> ']' !in r.value.0
  {
    hide SplitOnce, ParseU16, Decimal, RSplitOnce;
    var dec := Decimal(port);
    DecimalRoundTrip(port);
    var stripped := (Bracket(host) + ":" + dec)[1..];
    assert stripped == host + "]" + (":" + dec);
    if ']' !in host {
      SplitOnceFinds(host, "]", ":" + dec);
      assert (":" + dec)[1..] == dec;
    } else {
      SplitOnceSplits(stripped, ']');
    }
  }

  lemma BareRereads(host: string, port: nat, defaultPort: nat)
    requires ':' !in host && host != [] && 1 <= port <= 0xFFFF
    ensures
      var r := ParseHostPort(Bracket(host) + ":" + Decimal(port), defaultPort);
      if host[0] != '[' then r == Some((host, port)) else r.Some? ==> ']' in host && ']' !in r.value.0
  {
    hide SplitOnce, ParseU16, Decimal, RSplitOnce;
    var dec := Decimal(port);
    DecimalRoundTrip(port);
    DecimalHasNo(port, ':');
    DecimalHasNo(port, ']');
    var hostPort := host + ":" + dec;
    if host[0] != '[' {
      assert hostPort == host + [':'] + dec;
      RSplitOnceFinds(host, ':', dec);
    } else {
      var stripped := hostPort[1..];
      assert stripped == host[1..] + ":" + dec;
      SplitOnceSplits(stripped, ']');
      assert ']' in stripped ==> ']' in host;
    }
  }

  /** Reading the authority of a key: right when the host is rereadable, and otherwise never the same host. */
  lemma AuthorityRereads(n: Node, defaultPort: nat)
    requires n.host != [] && 1 <= n.port <= 0xFFFF
    ensures Rereadable(n.host) ==> ParseHostPort(Authority(n), defaultPort) == Some((n.host, n.port))
    ensures !Rereadable(n.host) ==>
              var r := ParseHostPort(Authority(n), defaultPort);
              r.Some? ==> ']' in n.host && ']' !in r.value.0
  {
    hide ParseHostPort;
    if ':' in n.host {
      BracketedRereads(n.host, n.port, defaultPort);
    } else {
      BareRereads(n.host, n.port, defaultPort);
    }
  }

  lemma KeyParses(lower: Lower, n: Node)
    requires NodeOk(lower, n)
    ensures Parse(lower, Print(n)) == ParseHostPort(Authority(n), DefaultPort(n.scheme))
  {
    PrintIsClean(lower, n);
    PrintSplits(lower, n);
  }

  /** A key parses back to the lower-cased host and the port it was made from exactly when the host is rereadable. */
  lemma KeyRoundTrip(lower: Lower, address: string)
    requires Lowercasing(lower) && Normalize(lower, address).Ok?
    ensures
      var n := Meaning(lower, address);
      Parse(lower, Normalize(lower, address).key) == Some((n.host, n.port)) <==>
      Rereadable(Parse(lower, Trim(address)).value.0)
  {
    MeaningIsOk(lower, address);
    var n := Meaning(lower, address);
    KeyParses(lower, n);
    AuthorityRereads(n, DefaultPort(n.scheme));
    var host := Parse(lower, Trim(address)).value.0;
    assert n.host == lower(host) && host != [];
  }

  // ----- Distinct meanings have distinct keys -----

  lemma BracketKeepsColon(host: string)
    ensures ':' in Bracket(host) <==> ':' in host
    ensures ':' in host ==> host == Bracket(host)[1..|host| + 1]
  {
    if ':' in host {
      assert Bracket(host)[1..|host| + 1] == host;
      assert forall c :: c in Bracket(host)[1..|host| + 1] ==> c in Bracket(host);
    }
  }

  lemma BracketInjective(a: string, b: string)
    requires Bracket(a) == Bracket(b)
    ensures a == b
  {
    BracketKeepsColon(a);
    BracketKeepsColon(b);
  }

  lemma PrintInjective(lower: Lower, a: Node, b: Node)
    requires NodeOk(lower, a) && NodeOk(lower, b) && Print(a) == Print(b)
    ensures a == b
  {
    PrintSplits(lower, a);
    PrintSplits(lower, b);
    DecimalHasNo(a.port, ':');
    DecimalHasNo(b.port, ':');
    assert Authority(a) == Bracket(a.host) + [':'] + Decimal(a.port);
    assert Authority(b) == Bracket(b.host) + [':'] + Decimal(b.port);
    RSplitOnceFinds(Bracket(a.host), ':', Decimal(a.port));
    RSplitOnceFinds(Bracket(b.host), ':', Decimal(b.port));
    BracketInjective(a.host, b.host);
    DecimalValue(a.port);
    DecimalValue(b.port);
  }

  /** Two accepted addresses share a key exactly when scheme and host agree up to case, and port and path agree. */
  lemma SameKeyIffSameNode(lower: Lower, a: string, b: string)
    requires Lowercasing(lower) && Normalize(lower, a).Ok? && Normalize(lower, b).Ok?
    ensures Normalize(lower, a) == Normalize(lower, b) <==> Meaning(lower, a) == Meaning(lower, b)
  {
    MeaningIsOk(lower, a);
    MeaningIsOk(lower, b);
    if Normalize(lower, a) == Normalize(lower, b) {
      PrintInjective(lower, Meaning(lower, a), Meaning(lower, b));
    }
  }

  // ----- What is accepted, and as what -----

  /** An address as people write it: the host bare or in brackets, the port and the path optional. */
  function Written(scheme: string, host: string, port: Option<nat>, path: string): string {
    scheme + "://" + (WrittenAuthority(host, port) + path)
  }

  function WrittenAuthority(host: string, port: Option<nat>): string {
    Bracket(host) + if port.Some? then ":" + Decimal(port.value) else ""
  }

  /** The port meant when none is written. */
  function UsualPort(scheme: string): nat {
    if scheme == "wss" then 443 else if scheme == "ws" then 80 else 11010
  }

  lemma WrittenAuthorityParses(host: string, port: Option<nat>, defaultPort: nat)
    requires host != [] && Rereadable(host) && (port.Some? ==> port.value <= 0xFFFF)
    ensures ParseHostPort(WrittenAuthority(host, port), defaultPort) ==
            Some((host, if port.Some? then port.value else defaultPort))
  {
    hide SplitOnce, ParseU16, Decimal, RSplitOnce;
    var authority := WrittenAuthority(host, port);
    assert authority == Bracket(host) + if port.Some? then ":" + Decimal(port.value) else "";
    hide WrittenAuthority;
    if port.Some? {
      DecimalRoundTrip(port.value);
      DecimalHasNo(port.value, ':');
    }
    if ':' in host {
      var tail := if port.Some? then ":" + Decimal(port.value) else "";
      assert authority[1..] == host + "]" + tail;
      SplitOnceFinds(host, "]", tail);
      assert port.Some? ==> tail[1..] == Decimal(port.value);
    } else if port.Some? {
      assert authority == host + [':'] + Decimal(port.value);
      RSplitOnceFinds(host, ':', Decimal(port.value));
    } else {
      assert authority == host;
      RSplitOnceJoins(host, ':');
      assert RSplitOnce(host, ':').Some? ==> ':' in host;
    }
  }

  lemma CleanIsWellSpelled(s: string)
    requires Clean(s)
    ensures !HasBadCharacter(s)
  {}

  lemma WrittenParses(lower: Lower, scheme: string, host: string, port: Option<nat>, path: string)
    requires lower(scheme) in {"tcp", "udp", "ws", "wss"} && ':' !in scheme
    requires host != [] && Rereadable(host) && '/' !in host && (port.Some? ==> port.value <= 0xFFFF)
    requires (path == "" || (|path| > 1 && path[0] == '/')) && Clean(Written(scheme, host, port, path))
    ensures
      var address := Written(scheme, host, port, path);
      && address != [] && Trim(address) == address
      && SplitOnce(address, "://") == Some((scheme, WrittenAuthority(host, port) + path))
      && Path(WrittenAuthority(host, port) + path) == path
      && Parse(lower, address) == Some((host, if port.Some? then port.value else UsualPort(lower(scheme))))
  {
    hide SplitOnce, Before, Path, Trim, ParseHostPort, Decimal, Clean;
    if port.Some? {
      DecimalHasNo(port.value, '/');
    }
    assert '/' !in WrittenAuthority(host, port);
    AddressSplits(scheme, WrittenAuthority(host, port), path);
    TrimClean(Written(scheme, host, port, path));
    WrittenAuthorityParses(host, port, UsualPort(lower(scheme)));
    hide WrittenAuthority;
    assert DefaultPort(lower(scheme)) == UsualPort(lower(scheme));
  }

  /** A zero port is refused; any other is printed out, and so is the usual one of a scheme if none is written. */
  lemma WrittenAddressMeans(lower: Lower, scheme: string, host: string, port: Option<nat>, path: string)
    requires Lowercasing(lower) && lower(scheme) in {"tcp", "udp", "ws", "wss"}
    requires host != [] && Rereadable(host) && '/' !in host && (port.Some? ==> port.value <= 0xFFFF)
    requires path == "" || (|path| > 1 && path[0] == '/')
    requires Clean(Written(scheme, host, port, path)) && Utf8Len(Written(scheme, host, port, path)) <= 128
    ensures Normalize(lower, Written(scheme, host, port, path)) ==
            if port == Some(0) then Err(BadPort)
            else Ok(lower(scheme) + "://" + (Bracket(lower(host)) + ":" +
                    Decimal(if port.Some? then port.value else UsualPort(lower(scheme))) + path))
  {
    hide SplitOnce, Path, Trim, Parse, Utf8Len, Decimal, HasBadCharacter, Written, WrittenAuthority, Rereadable;
    assert ':' !in lower(scheme);
    hide Lowercasing;
    WrittenParses(lower, scheme, host, port, path);
    var address := Written(scheme, host, port, path);
    CleanIsWellSpelled(address);
    hide Clean;
    assert Normalize(lower, address).Ok? <==> port != Some(0);
  }

  /** Only the four schemes are accepted, in any case. */
  lemma OtherSchemesAreRefused(lower: Lower, scheme: string, rest: string)
    requires ':' !in scheme && Clean(scheme + "://" + rest) && Utf8Len(scheme + "://" + rest) <= 128
    ensures Normalize(lower, scheme + "://" + rest) == Err(BadScheme) <==>
            lower(scheme) !in {"tcp", "udp", "ws", "wss"}
  {
    var address := scheme + "://" + rest;
    TrimClean(address);
    assert "://"[0] == ':';
    SplitOnceFinds(scheme, "://", rest);
    assert address != [] && !HasBadCharacter(address);
  }

  /** What is refused on sight: nothing at all, too much, blanks or controls, no scheme. */
  lemma RefusedOnSight(lower: Lower, address: string)
    ensures
      var (text, r) := (Trim(address), Normalize(lower, address));
      && (r == Err(Empty) <==> |text| == 0)
      && (r == Err(TooLong) <==> |text| > 0 && Utf8Len(text) > 128)
      && (r == Err(BadCharacter) <==> |text| > 0 && Utf8Len(text) <= 128 && !Clean(text))
      && (r == Err(NoScheme) <==>
            |text| > 0 && Utf8Len(text) <= 128 && Clean(text)
            && forall i :: 0 <= i <= |text| ==> !("://" <= text[i..]))
  {
    SplitOnceNone(Trim(address), "://");
  }

  // ----- Normalising a key -----

  lemma KeyNormalizes(lower: Lower, n: Node)
    requires Lowercasing(lower) && NodeOk(lower, n)
    ensures Normalize(lower, Print(n)).Ok? <==>
              && Utf8Len(Print(n)) <= ADDRESS_MAX_LEN
              && Parse(lower, Print(n)).Some? && Parse(lower, Print(n)).value.1 != 0
    ensures Normalize(lower, Print(n)).Ok? ==>
              Meaning(lower, Print(n)) ==
              Node(n.scheme, lower(Parse(lower, Print(n)).value.0), Parse(lower, Print(n)).value.1, n.path)
  {
    PrintIsClean(lower, n);
    PrintSplits(lower, n);
    assert !HasBadCharacter(Print(n));
  }

  /** Normalising is idempotent on an address exactly when its host is rereadable and its key is not too long. */
  lemma KeyIsFixedPoint(lower: Lower, address: string)
    requires Lowercasing(lower) && Normalize(lower, address).Ok?
    ensures
      var key := Normalize(lower, address).key;
      Normalize(lower, key) == Ok(key) <==>
      Rereadable(Parse(lower, Trim(address)).value.0) && Utf8Len(key) <= ADDRESS_MAX_LEN
  {
    MeaningIsOk(lower, address);
    var n := Meaning(lower, address);
    KeyParses(lower, n);
    KeyNormalizes(lower, n);
    AuthorityRereads(n, DefaultPort(n.scheme));
    var host := Parse(lower, Trim(address)).value.0;
    assert n.host == lower(host) && host != [];
    if Normalize(lower, Print(n)) == Ok(Print(n)) {
      MeaningIsOk(lower, Print(n));
      PrintInjective(lower, Meaning(lower, Print(n)), n);
      assert ']' in n.host <==> ']' in Parse(lower, Print(n)).value.0;
    }
  }

  // ----- The facts about lower-casing are met by the ASCII part of it -----

  function LowerChar(c: char): char {
    if 'A' <= c <= 'Z' then c + 'a' - 'A' else c
  }

  function AsciiLower(s: string): string {
    seq(|s|, i requires 0 <= i < |s| => LowerChar(s[i]))
  }

  lemma AsciiLowerIsLowercasing()
    ensures Lowercasing(AsciiLower)
  {
    forall s: string ensures forall c :: (c == ':' || c == '/' || c == ']') ==> (c in AsciiLower(s) <==> c in s) {
      forall c | (c == ':' || c == '/' || c == ']') && c in s ensures c in AsciiLower(s) {
        var i :| 0 <= i < |s| && s[i] == c;
        assert AsciiLower(s)[i] == c;
      }
      forall c | (c == ':' || c == '/' || c == ']') && c in AsciiLower(s) ensures c in s {
        var i :| 0 <= i < |s| && AsciiLower(s)[i] == c;
        assert s[i] == c;
      }
    }
  }

  // ----- Addresses whose keys do not read back -----

  lemma DoubleBracketParses()
    ensures Parse(AsciiLower, "ws://[[a]:80") == Some(("[a", 80))
    ensures SplitOnce("ws://[[a]:80", "://") == Some(("ws", "[[a]:80"))
    ensures Trim("ws://[[a]:80") == "ws://[[a]:80"
  {
    hide SplitOnce, Before, Trim, ParseU16;
    assert Clean("ws://[[a]:80");
    TrimClean("ws://[[a]:80");
    SplitOnceFinds("ws", "://", "[[a]:80");
    assert "ws" + "://" + "[[a]:80" == "ws://[[a]:80";
    BeforeStops("[[a]:80", '/', "");
    assert "[[a]:80" + "" == "[[a]:80";
    assert "[[a]:80"[1..] == "[a" + "]" + ":80";
    SplitOnceFinds("[a", "]", ":80");
    assert ":80"[1..] == Decimal(80);
    DecimalRoundTrip(80);
  }

  /** A bracketed host that starts with another bracket is accepted, but its key no longer parses. */
  lemma DoubleBracketIsNotReread()
    ensures
      var r := Normalize(AsciiLower, "ws://[[a]:80");
      r.Ok? && Parse(AsciiLower, r.key) != Some(("[a", 80)) && Normalize(AsciiLower, r.key) != r
  {
    hide SplitOnce, Parse, Trim, Utf8Len, Path;
    DoubleBracketParses();
    AsciiLowerIsLowercasing();
    Utf8LenBound("ws://[[a]:80");
    assert AsciiLower("ws") == "ws" && AsciiLower("[a") == "[a";
    assert !HasBadCharacter("ws://[[a]:80");
    KeyRoundTrip(AsciiLower, "ws://[[a]:80");
    KeyIsFixedPoint(AsciiLower, "ws://[[a]:80");
  }

  /** A run of one letter. */
  function Letters(n: nat): string {
    seq(n, i => 'a')
  }

  lemma {:induction false} AsciiLen(s: string)
    requires forall i :: 0 <= i < |s| ==> s[i] as int < 0x80
    ensures Utf8Len(s) == |s|
  {
    if s != [] {
      AsciiLen(s[1..]);
    }
  }

  lemma LongAddressParses(host: string)
    requires host == Letters(122)
    ensures
      var address := "tcp://" + host;
      && Trim(address) == address && Clean(address) && Utf8Len(address) == 128
      && SplitOnce(address, "://") == Some(("tcp", host)) && Parse(AsciiLower, address) == Some((host, 11010))
      && Path(host) == "" && AsciiLower("tcp") == "tcp" && AsciiLower(host) == host
  {
    hide SplitOnce, Trim, Utf8Len, Before, RSplitOnce;
    var address := "tcp://" + host;
    assert Clean(address);
    TrimClean(address);
    AsciiLen(address);
    assert address == "tcp" + "://" + host;
    SplitOnceFinds("tcp", "://", host);
    BeforeStops(host, '/', "");
    assert host + "" == host;
    RSplitOnceJoins(host, ':');
    SplitOnceSplits(host, '/');
    assert AsciiLower("tcp") == "tcp" && AsciiLower(host) == host;
    assert RSplitOnce(host, ':').Some? ==> ':' in host;
    assert ParseHostPort(Before(host, '/'), DefaultPort("tcp")) == Some((host, 11010));
  }

  /** An address of exactly 128 bytes is accepted, but its key spells out the default port and no longer fits. */
  lemma LongAddressOutgrowsItsKey()
    ensures
      var r := Normalize(AsciiLower, "tcp://" + Letters(122));
      r.Ok? && Utf8Len(r.key) > ADDRESS_MAX_LEN && Normalize(AsciiLower, r.key) != r
  {
    hide SplitOnce, Trim, Utf8Len, Parse, Path, Decimal, AsciiLower;
    var host := Letters(122);
    LongAddressParses(host);
    AsciiLowerIsLowercasing();
    var n := Node("tcp", host, 11010, "");
    assert Normalize(AsciiLower, "tcp://" + host) == Ok(Print(n));
    DecimalValue(11010);
    AsciiLen(Print(n));
    KeyIsFixedPoint(AsciiLower, "tcp://" + host);
  }
}

/** A kubeconfig `server` address, taken apart and printed again (query.rs `parse_server`, `server_url`,
    `session_key`). */
module Endpoints {
  import opened Kube
  import opened Decimals

  datatype Address = Address(secure: bool, host: string, port: nat, basePath: string)

  datatype Fault = NoScheme | UnknownScheme | UnclosedLiteral | NoHost | NotAPort

  datatype Result<T> = Ok(value: T) | Err(fault: Fault)

  /** `text.split_once(sep)`. */
  function SplitOnce(text: string, sep: string): Option<(string, string)>
    decreases |text|
  {
    if sep <= text then Some(("", text[|sep|..]))
    else if text == "" then None
    else
      var rest := SplitOnce(text[1..], sep);
      if rest.None? then None else Some(([text[0]] + rest.value.0, rest.value.1))
  }

  function TrimEnd(text: string, c: char): string {
    if text != "" && text[|text| - 1] == c then TrimEnd(text[..|text| - 1], c) else text
  }

  /** A port as `u16` parses one: digits, with or without a plus sign in front. */
  function ParsePort(text: string): Option<nat> {
    var digits := if "+" <= text then text[1..] else text;
    if digits != "" && AllDigits(digits) && Number(digits) < 65_536 then Some(Number(digits)) else None
  }

  /** The host and the text of the port. What follows a bracketed literal and is not a port is dropped. */
  function SplitAuthority(authority: string): Result<(string, Option<string>)> {
    if "[" <= authority then
      match SplitOnce(authority[1..], "]")
      case None => Err(UnclosedLiteral)
      case Some((host, tail)) => Ok((host, if ":" <= tail then Some(tail[1..]) else None))
    else
      match SplitOnce(authority, ":")
      case Some((host, port)) => Ok((host, Some(port)))
      case None => Ok((authority, None))
  }

  function BasePath(path: string): string {
    var trimmed := TrimEnd(path, '/');
    if trimmed == "" then "" else "/" + trimmed
  }

  function ParseAddress(secure: bool, rest: string): Result<Address> {
    var (authority, path) := if SplitOnce(rest, "/").None? then (rest, "") else SplitOnce(rest, "/").value;
    var split := SplitAuthority(authority);
    if split.Err? then Err(split.fault)
    else
      var (host, port) := split.value;
      if host == "" then Err(NoHost)
      else if port.None? then Ok(Address(secure, host, if secure then 443 else 80, BasePath(path)))
      else if ParsePort(port.value).None? then Err(NotAPort)
      else Ok(Address(secure, host, ParsePort(port.value).value, BasePath(path)))
  }

  function ParseServer(server: string): Result<Address> {
    match SplitOnce(server, "://")
    case None => Err(NoScheme)
    case Some((scheme, rest)) =>
      if scheme == "https" then ParseAddress(true, rest)
      else if scheme == "http" then ParseAddress(false, rest)
      else Err(UnknownScheme)
  }

  function Scheme(secure: bool): string {
    if secure then "https" else "http"
  }

  function ServerUrl(a: Address): string {
    Scheme(a.secure) + ("://" + (a.host + (":" + (Decimal(a.port) + a.basePath))))
  }

  // ---- taking apart -----------------------------------------------------------------------------------------

  /** The first separator is the one that starts with a character the front does not have. */
  lemma {:induction false} SplitOnceAt(front: string, sep: string, back: string)
    requires sep != "" && sep[0] !in front
    ensures SplitOnce(front + (sep + back), sep) == Some((front, back))
    decreases |front|
  {
    var text := front + (sep + back);
    if front == "" {
      assert text == sep + back && text[|sep|..] == back;
    } else {
      assert text[0] == front[0] && front[0] in front && text[0] != sep[0];
      assert text[1..] == front[1..] + (sep + back);
      SplitOnceAt(front[1..], sep, back);
      assert [front[0]] + front[1..] == front;
    }
  }

  lemma {:induction false} SplitOnceNone(text: string, sep: string)
    requires sep != "" && sep[0] !in text
    ensures SplitOnce(text, sep) == None
    decreases |text|
  {
    if text != "" {
      assert text[0] in text;
      SplitOnceNone(text[1..], sep);
    }
  }

  lemma {:induction false} SplitOnceFront(text: string, c: char)
    requires SplitOnce(text, [c]).Some?
    ensures var (front, back) := SplitOnce(text, [c]).value; c !in front && text == front + ([c] + back)
    decreases |text|
  {
    if [c] <= text {
      assert text == [c] + text[1..];
    } else {
      SplitOnceFront(text[1..], c);
      assert text == [text[0]] + text[1..];
    }
  }

  lemma {:induction false} SplitOnceMissing(text: string, c: char)
    requires SplitOnce(text, [c]).None?
    ensures c !in text
    decreases |text|
  {
    if text != "" {
      SplitOnceMissing(text[1..], c);
      assert text == [text[0]] + text[1..];
      assert [c] <= text <==> text[0] == c;
    }
  }

  // ---- ports ------------------------------------------------------------------------------------------------

  lemma PathCutOff(front: string, path: string)
    requires '/' !in front
    ensures SplitOnce(front, "/") == None && SplitOnce(front + ("/" + path), "/") == Some((front, path))
  {
    SplitOnceNone(front, "/");
    SplitOnceAt(front, "/", path);
  }

  /** An address without a port is at 443 or 80, by its scheme. */
  lemma DefaultPort(host: string, path: string)
    requires host != "" && '/' !in host && ':' !in host && host[0] != '['
    ensures ParseServer("https" + ("://" + host)) == Ok(Address(true, host, 443, ""))
    ensures ParseServer("http" + ("://" + host)) == Ok(Address(false, host, 80, ""))
    ensures ParseServer("https" + ("://" + (host + ("/" + path)))) == Ok(Address(true, host, 443, BasePath(path)))
    ensures ParseServer("http" + ("://" + (host + ("/" + path)))) == Ok(Address(false, host, 80, BasePath(path)))
  {
    hide SplitOnce, BasePath, ParsePort;
    PathCutOff(host, path);
    SplitOnceNone(host, ":");
    SplitOnceAt("https", "://", host);
    SplitOnceAt("http", "://", host);
    SplitOnceAt("https", "://", host + ("/" + path));
    SplitOnceAt("http", "://", host + ("/" + path));
    assert BasePath("") == "" by { NoPath(); }
  }

  lemma NoPath()
    ensures BasePath("") == ""
  {
  }

  lemma PortReads(port: nat)
    requires port < 65_536
    ensures ParsePort(Decimal(port)) == Some(port) && ParsePort("+" + Decimal(port)) == Some(port)
  {
    hide Decimal;
    assert ("+" + Decimal(port))[1..] == Decimal(port);
    DecimalPlain(port);
    NumberOfDecimal(port);
    assert Decimal(port)[0] in Decimal(port);
  }

  lemma NoPort()
    ensures ParsePort("").None?
  {
  }

  /** A bracketed literal may hold colons, and has a port after it or none; a colon and no port is refused. */
  lemma BracketedLiteral(secure: bool, host: string, port: nat, path: string)
    requires host != "" && '/' !in host && ']' !in host && port < 65_536
    ensures ParseAddress(secure, "[" + (host + ("]" + ""))) == Ok(Address(secure, host, if secure then 443 else 80, ""))
    ensures ParseAddress(secure, "[" + (host + ("]" + (":" + (Decimal(port) + ("/" + path))))))
         == Ok(Address(secure, host, port, BasePath(path)))
    ensures ParseAddress(secure, "[" + (host + ("]" + ":"))) == Err(NotAPort)
  {
    hide SplitOnce, BasePath, Decimal, ParsePort;
    var open := "[" + (host + ("]" + ":"));
    PathCutOff(open, path);
    assert open[1..] == host + ("]" + ":") && ":"[1..] == "";
    SplitOnceAt(host, "]", ":");
    assert ParsePort("").None? by { NoPort(); }
    DecimalPlain(port);
    var bare, whole := "[" + (host + ("]" + "")), "[" + (host + ("]" + (":" + Decimal(port))));
    assert whole + ("/" + path) == "[" + (host + ("]" + (":" + (Decimal(port) + ("/" + path)))));
    PathCutOff(bare, path);
    PathCutOff(whole, path);
    assert bare[1..] == host + ("]" + "") && whole[1..] == host + ("]" + (":" + Decimal(port)));
    SplitOnceAt(host, "]", "");
    SplitOnceAt(host, "]", ":" + Decimal(port));
    assert (":" + Decimal(port))[1..] == Decimal(port);
    assert ParsePort(Decimal(port)) == Some(port) by { PortReads(port); }
    assert BasePath("") == "" by { NoPath(); }
  }

  // ---- normal form ------------------------------------------------------------------------------------------

  /** What every parsed address is: no slash in the host, and a base path that is empty or starts with a
      slash and does not end with one. */
  predicate Normal(a: Address) {
    && a.host != "" && '/' !in a.host && a.port < 65_536
    && (a.basePath == "" || (|a.basePath| > 1 && a.basePath[0] == '/' && a.basePath[|a.basePath| - 1] != '/'))
  }

  lemma {:induction false} TrimEndIs(text: string, c: char)
    ensures TrimEnd(text, c) != "" ==> TrimEnd(text, c)[|TrimEnd(text, c)| - 1] != c
    ensures text != "" && text[|text| - 1] != c ==> TrimEnd(text, c) == text
  {
    if text != "" && text[|text| - 1] == c { TrimEndIs(text[..|text| - 1], c); }
  }

  lemma BasePathNormal(path: string)
    ensures var base := BasePath(path); base == "" || (|base| > 1 && base[0] == '/' && base[|base| - 1] != '/')
  {
    TrimEndIs(path, '/');
  }

  lemma AuthorityHost(authority: string)
    requires '/' !in authority && SplitAuthority(authority).Ok?
    ensures '/' !in SplitAuthority(authority).value.0
  {
    if "[" <= authority {
      SplitOnceFront(authority[1..], ']');
      assert forall x :: x in authority[1..] ==> x in authority;
    } else if SplitOnce(authority, ":").Some? {
      SplitOnceFront(authority, ':');
    } else {
      SplitOnceMissing(authority, ':');
    }
  }

  lemma ParsedIsNormal(server: string)
    requires ParseServer(server).Ok?
    ensures Normal(ParseServer(server).value)
  {
    hide SplitOnce, SplitAuthority, ParsePort, BasePath;
    var rest := SplitOnce(server, "://").value.1;
    if SplitOnce(rest, "/").Some? { SplitOnceFront(rest, '/'); } else { SplitOnceMissing(rest, '/'); }
    var split := if SplitOnce(rest, "/").None? then (rest, "") else SplitOnce(rest, "/").value;
    AuthorityHost(split.0);
    BasePathNormal(split.1);
    if SplitAuthority(split.0).value.1.Some? { PortBound(SplitAuthority(split.0).value.1.value); }
  }

  lemma PortBound(text: string)
    ensures ParsePort(text).Some? ==> ParsePort(text).value < 65_536
  {
  }

  // ---- main results -----------------------------------------------------------------------------------------

  lemma CutAt(x: string, y: string, c: char, u: string, v: string)
    requires c !in x && c !in y && x + ([c] + u) == y + ([c] + v)
    ensures x == y && u == v
  {
    SplitOnceAt(x, [c], u);
    SplitOnceAt(y, [c], v);
  }

  lemma {:induction false} CutAtLast(x: string, y: string, c: char, u: string, v: string)
    requires c !in u && c !in v && x + ([c] + u) == y + ([c] + v)
    ensures x == y && u == v
    decreases |u|
  {
    var s, t := x + ([c] + u), y + ([c] + v);
    var last := s[|s| - 1];
    assert u == "" ==> last == c;
    assert u != "" ==> last == u[|u| - 1];
    assert v == "" ==> t[|t| - 1] == c;
    assert v != "" ==> t[|t| - 1] == v[|v| - 1];
    if u != "" {
      assert s[..|s| - 1] == x + ([c] + u[..|u| - 1]) && t[..|t| - 1] == y + ([c] + v[..|v| - 1]);
      CutAtLast(x, y, c, u[..|u| - 1], v[..|v| - 1]);
      assert u == u[..|u| - 1] + [last] && v == v[..|v| - 1] + [last];
    } else {
      assert s[..|s| - 1] == x && t[..|t| - 1] == y;
    }
  }

  lemma DecimalPlain(n: nat)
    ensures ':' !in Decimal(n) && '/' !in Decimal(n) && ']' !in Decimal(n) && '+' !in Decimal(n)
  {
    NumberOfDecimal(n);
  }

  lemma SchemePlain(secure: bool)
    ensures ':' !in Scheme(secure)
  {
  }

  /** The authority part of a printed address, then the rest. */
  function Authority(a: Address): string {
    a.host + (":" + Decimal(a.port))
  }

  lemma PathsAgree(x: string, y: string, p: string, q: string)
    requires '/' !in x && '/' !in y && x + p == y + q
    requires (p == "" || p[0] == '/') && (q == "" || q[0] == '/')
    ensures x == y && p == q
  {
    assert x + "" == x && y + "" == y;
    assert p != "" ==> (x + p)[|x|] == '/';
    assert q != "" ==> (y + q)[|y|] == '/';
    if p != "" && q != "" {
      assert p == "/" + p[1..] && q == "/" + q[1..];
      CutAt(x, y, '/', p[1..], q[1..]);
    }
  }

  /** The printed address determines scheme, host, port and base path, IPv6 hosts included. */
  lemma UrlIsInjective(a: Address, b: Address)
    requires Normal(a) && Normal(b) && ServerUrl(a) == ServerUrl(b)
    ensures a == b
  {
    hide Decimal, Scheme, SplitOnce;
    var u, v := a.host + (":" + (Decimal(a.port) + a.basePath)), b.host + (":" + (Decimal(b.port) + b.basePath));
    SchemePlain(a.secure);
    SchemePlain(b.secure);
    SplitOnceAt(Scheme(a.secure), "://", u);
    SplitOnceAt(Scheme(b.secure), "://", v);
    assert a.secure == b.secure by { SchemesDiffer(a.secure, b.secure); }
    DecimalPlain(a.port);
    DecimalPlain(b.port);
    assert u == Authority(a) + a.basePath && v == Authority(b) + b.basePath;
    PathsAgree(Authority(a), Authority(b), a.basePath, b.basePath);
    CutAtLast(a.host, b.host, ':', Decimal(a.port), Decimal(b.port));
    NumberOfDecimal(a.port);
    NumberOfDecimal(b.port);
  }

  lemma SchemesDiffer(a: bool, b: bool)
    requires Scheme(a) == Scheme(b)
    ensures a == b
  {
    assert |Scheme(true)| == 5 && |Scheme(false)| == 4;
  }

  lemma AuthorityReads(a: Address)
    requires Normal(a)
    ensures ':' !in a.host && a.host[0] != '[' ==> SplitAuthority(Authority(a)) == Ok((a.host, Some(Decimal(a.port))))
    ensures ':' in a.host || a.host[0] == '[' ==>
      SplitAuthority(Authority(a)).Err? || SplitAuthority(Authority(a)).value.0 != a.host
    ensures ParsePort(Decimal(a.port)) == Some(a.port)
  {
    hide Decimal;
    DecimalPlain(a.port);
    NumberOfDecimal(a.port);
    assert Decimal(a.port)[0] in Decimal(a.port);
    var authority := Authority(a);
    assert authority[0] == a.host[0];
    if a.host[0] == '[' {
      BracketNeverReads(a);
    } else if ':' !in a.host {
      SplitOnceAt(a.host, ":", Decimal(a.port));
    } else if SplitOnce(authority, ":").Some? {
      SplitOnceFront(authority, ':');
    } else {
      SplitOnceMissing(authority, ':');
    }
  }

  lemma BracketNeverReads(a: Address)
    requires Normal(a) && a.host[0] == '['
    ensures SplitAuthority(Authority(a)).Err? || SplitAuthority(Authority(a)).value.0 != a.host
  {
    hide Decimal;
    DecimalPlain(a.port);
    var rest := Authority(a)[1..];
    assert rest[|a.host|] == Decimal(a.port)[0];
    assert Decimal(a.port)[0] in Decimal(a.port);
    if SplitOnce(rest, "]").Some? {
      SplitOnceFront(rest, ']');
      var (host, tail) := SplitOnce(rest, "]").value;
      assert rest[|host|] == ']';
    }
  }

  /** Printing and parsing again gives the same four parts exactly for hosts that need no brackets: no
      colon in them, and no bracket in front. */
  lemma PrintedReads(a: Address)
    requires Normal(a)
    ensures ParseServer(ServerUrl(a)) == Ok(a) <==> ':' !in a.host && a.host[0] != '['
  {
    hide Decimal, Scheme, SplitAuthority, ParsePort, SplitOnce, TrimEnd, ParseServer;
    var authority := Authority(a);
    SchemePlain(a.secure);
    DecimalPlain(a.port);
    SplitOnceAt(Scheme(a.secure), "://", a.host + (":" + (Decimal(a.port) + a.basePath)));
    assert a.host + (":" + (Decimal(a.port) + a.basePath)) == authority + a.basePath;
    if a.basePath == "" {
      assert authority + "" == authority;
      SplitOnceNone(authority, "/");
      assert BasePath("") == "" by { NoPath(); }
    } else {
      assert a.basePath == "/" + a.basePath[1..];
      SplitOnceAt(authority, "/", a.basePath[1..]);
      TrimEndIs(a.basePath[1..], '/');
    }
    AuthorityReads(a);
    SchemeReads(a, authority + a.basePath);
  }

  lemma SchemeReads(a: Address, rest: string)
    requires SplitOnce(ServerUrl(a), "://") == Some((Scheme(a.secure), rest))
    ensures ParseServer(ServerUrl(a)) == ParseAddress(a.secure, rest)
  {
    hide ServerUrl, ParseAddress, SplitOnce;
    assert |Scheme(true)| == 5 && |Scheme(false)| == 4;
  }

  // ---- sessions ---------------------------------------------------------------------------------------------

  datatype Transport = Plaintext | TlsVerified | TlsUnverified

  datatype Endpoint = Endpoint(instance: string, address: Address, verifies: bool)

  datatype SessionKey = SessionKey(instance: string, endpoint: string, transport: Transport)

  function KeyOf(e: Endpoint): SessionKey {
    SessionKey(e.instance, ServerUrl(e.address),
               if !e.address.secure then Plaintext else if e.verifies then TlsVerified else TlsUnverified)
  }

  /** Two endpoints share a session exactly when they are the same instance, the same four-part address and,
      where there is TLS at all, verify certificates alike. */
  lemma SessionsKeepAddressesApart(d: Endpoint, e: Endpoint)
    requires Normal(d.address) && Normal(e.address)
    ensures KeyOf(d) == KeyOf(e) <==>
      d.instance == e.instance && d.address == e.address && (d.address.secure ==> d.verifies == e.verifies)
  {
    hide ServerUrl, Normal;
    if ServerUrl(d.address) == ServerUrl(e.address) { UrlIsInjective(d.address, e.address); }
  }
}

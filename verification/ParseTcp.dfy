// backend/parse.go: from a user-supplied address to the string a TCP backend dials.
//
// url.Parse and net.LookupPort are outside the repository: `parseUrl` and `lookup` stand for them.
module ParseTcp {
  import opened Wrappers
  import opened HostPort

  datatype Url = Url(scheme: string, user: bool, path: string, query: string, fragment: string, host: string)

  datatype Rejection = EmptyAddress | BadUrl | NoTls | BadScheme | UserInfo | NotJustHost | BareV6 | EmptyHost | BadPort

  // unicode.IsSpace.
  predicate IsSpace(c: char) {
    || '\t' <= c <= '\r' || c == ' ' || c == '\U{85}' || c == '\U{A0}' || c == '\U{1680}'
    || '\U{2000}' <= c <= '\U{200A}' || c == '\U{2028}' || c == '\U{2029}' || c == '\U{202F}'
    || c == '\U{205F}' || c == '\U{3000}'
  }

  predicate IsBracket(c: char) {
    c == '[' || c == ']'
  }

  // strings.TrimFunc.
  function Trim(s: string, cut: char -> bool): string {
    if s == [] then s
    else if cut(s[0]) then Trim(s[1..], cut)
    else if cut(s[|s| - 1]) then Trim(s[..|s| - 1], cut)
    else s
  }

  predicate HasScheme(s: string) {
    exists i | 0 <= i < |s| - 2 :: s[i] == ':' && s[i + 1] == '/' && s[i + 2] == '/'
  }

  // Lines 30-56: the host and port part of s.
  function Authority(s: string, parseUrl: string -> Option<Url>): Result<string, Rejection> {
    if s == "" then Err(EmptyAddress)
    else if !HasScheme(s) then Ok(s)
    else
      match parseUrl(s)
      case None => Err(BadUrl)
      case Some(u) =>
        if u.scheme == "https" then Err(NoTls)
        else if u.scheme != "http" then Err(BadScheme)
        else if u.user then Err(UserInfo)
        else if u.path != "" || u.query != "" || u.fragment != "" then Err(NotJustHost)
        else Ok(u.host)
  }

  // Lines 58-66.
  function HostAndPort(hostport: string): Result<(string, string), Rejection> {
    if SplitHostPort(hostport).Some? then Ok(SplitHostPort(hostport).value)
    else if ':' in hostport && hostport[0] != '[' then Err(BareV6)
    else Ok((Trim(hostport, IsBracket), "80"))
  }

  // The address the backend dials.
  function Parse(input: string, parseUrl: string -> Option<Url>, lookup: string -> bool): Result<string, Rejection> {
    match Authority(Trim(input, IsSpace), parseUrl)
    case Err(e) => Err(e)
    case Ok(hostport) => Dialed(hostport, lookup)
  }

  // Lines 58-75.
  function Dialed(hostport: string, lookup: string -> bool): Result<string, Rejection> {
    match HostAndPort(hostport)
    case Err(e) => Err(e)
    case Ok((host, port)) =>
      if host == "" then Err(EmptyHost)
      else if !lookup(port) then Err(BadPort)
      else Ok(JoinHostPort(host, port))
  }

  predicate NoSpace(s: string) {
    forall c | c in s :: !IsSpace(c)
  }

  // The text of a port: what net.LookupPort can accept, a number or a service name.
  predicate PortText(p: string) {
    IsPort(p) && NoSpace(p) && '/' !in p
  }

  lemma TrimNothing(s: string, cut: char -> bool)
    requires s != [] ==> !cut(s[0]) && !cut(s[|s| - 1])
    ensures Trim(s, cut) == s
  {
  }

  // Trim keeps a piece of s whose ends are not cut ...
  lemma {:induction false} TrimSlice(s: string, cut: char -> bool) returns (i: nat)
    ensures var t := Trim(s, cut); i + |t| <= |s| && t == s[i..i + |t|]
    ensures var t := Trim(s, cut); t != [] ==> !cut(t[0]) && !cut(t[|t| - 1])
  {
    i := 0;
    if s != [] {
      if cut(s[0]) {
        var j := TrimSlice(s[1..], cut);
        i := j + 1;
      } else if cut(s[|s| - 1]) {
        i := TrimSlice(s[..|s| - 1], cut);
      }
    }
  }

  // ... and every other character.
  lemma {:induction false} TrimKeeps(s: string, cut: char -> bool, c: char)
    requires c in s && !cut(c)
    ensures c in Trim(s, cut)
  {
    if cut(s[0]) {
      assert s == [s[0]] + s[1..];
      TrimKeeps(s[1..], cut, c);
    } else if cut(s[|s| - 1]) {
      assert s == s[..|s| - 1] + [s[|s| - 1]];
      TrimKeeps(s[..|s| - 1], cut, c);
    }
  }

  lemma SliceScheme(s: string, i: nat, j: nat)
    requires i <= j <= |s| && !HasScheme(s)
    ensures !HasScheme(s[i..j])
  {
    var t := s[i..j];
    forall k | 0 <= k < |t| - 2
      ensures !(t[k] == ':' && t[k + 1] == '/' && t[k + 2] == '/')
    {
      assert t[k] == s[i + k] && t[k + 1] == s[i + k + 1] && t[k + 2] == s[i + k + 2];
    }
  }

  lemma JoinScheme(h: string, p: string)
    requires '/' !in p && !HasScheme(h)
    ensures !HasScheme(JoinHostPort(h, p))
  {
    var s, left := JoinHostPort(h, p), Bracketed(h);
    assert s == left + [':'] + p;
    forall i | 0 <= i < |s| - 2
      ensures !(s[i] == ':' && s[i + 1] == '/' && s[i + 2] == '/')
    {
      var j := if ':' in h then i - 1 else i;
      if i + 2 > |left| {
        assert s[i + 2] == p[i + 2 - |left| - 1];
      } else if 0 <= j < |h| - 2 {
        assert s[i] == h[j] && s[i + 1] == h[j + 1] && s[i + 2] == h[j + 2];
      }
    }
  }

  // Without a scheme the trimmed text is host and port.
  lemma Schemeless(s: string, parseUrl: string -> Option<Url>, lookup: string -> bool)
    requires Trim(s, IsSpace) != "" && !HasScheme(s)
    ensures Parse(s, parseUrl, lookup) == Dialed(Trim(s, IsSpace), lookup)
  {
    var i := TrimSlice(s, IsSpace);
    SliceScheme(s, i, i + |Trim(s, IsSpace)|);
  }

  // What precedes the last colon of a joined address.
  function Bracketed(h: string): string {
    if ':' in h then "[" + h + "]" else h
  }

  lemma JoinedLeft(h: string, p: string)
    requires IsPort(p)
    ensures var s, i := JoinHostPort(h, p), LastIndexOf(JoinHostPort(h, p), ':');
            i == |Bracketed(h)| && s[..i] == Bracketed(h) && s[i + 1..] == p
  {
    assert JoinHostPort(h, p) == Bracketed(h) + [':'] + p;
    LastIndex(Bracketed(h), ':', p);
  }

  lemma JoinedUnique(h: string, p: string, h': string, p': string)
    requires IsPort(p) && IsPort(p') && JoinHostPort(h, p) == JoinHostPort(h', p')
    ensures h == h' && p == p'
  {
    JoinedLeft(h, p);
    JoinedLeft(h', p');
    BracketedInjective(h, h');
  }

  lemma BracketedInjective(h: string, h': string)
    requires Bracketed(h) == Bracketed(h')
    ensures h == h'
  {
    var b := Bracketed(h);
    assert ':' in h ==> b[1..|b| - 1] == h && ':' in b;
    assert ':' in h' ==> b[1..|b| - 1] == h' && ':' in b;
  }

  // The host survives being printed and parsed again.
  predicate Reparses(h: string)
    requires h != ""
  {
    BracketFree(h) && (':' in h || !IsSpace(h[0]))
  }

  // A joined address dials itself: for every nonempty host without brackets, white space or "://"
  // and every valid port.
  lemma RoundTrip(h: string, p: string, parseUrl: string -> Option<Url>, lookup: string -> bool)
    requires h != "" && BracketFree(h) && NoSpace(h) && !HasScheme(h)
    requires PortText(p) && lookup(p)
    ensures Parse(JoinHostPort(h, p), parseUrl, lookup) == Ok(JoinHostPort(h, p))
  {
    assert h[0] in h;
    JoinedReparses(h, p, parseUrl, lookup);
  }

  lemma JoinedReparses(h: string, p: string, parseUrl: string -> Option<Url>, lookup: string -> bool)
    requires h != "" && Reparses(h) && !HasScheme(h) && PortText(p) && lookup(p)
    ensures Parse(JoinHostPort(h, p), parseUrl, lookup) == Ok(JoinHostPort(h, p))
  {
    var t := JoinHostPort(h, p);
    JoinedEnds(h, p);
    TrimNothing(t, IsSpace);
    JoinScheme(h, p);
    Schemeless(t, parseUrl, lookup);
    RoundTripIff(h, p);
  }

  lemma JoinedEnds(h: string, p: string)
    requires h != "" && NoSpace(p)
    ensures var t := JoinHostPort(h, p); t != "" && !IsSpace(t[|t| - 1]) && t[0] == if ':' in h then '[' else h[0]
  {
    var t := JoinHostPort(h, p);
    assert p != "" ==> t[|t| - 1] == p[|p| - 1] && p[|p| - 1] in p;
  }

  // Exactly which joined addresses dial themselves: those whose host has no brackets and, unless
  // its colons put it in brackets, does not start with white space.
  lemma JoinedReparsesIff(h: string, p: string, parseUrl: string -> Option<Url>, lookup: string -> bool)
    requires h != "" && !HasScheme(h) && PortText(p) && lookup(p)
    ensures Parse(JoinHostPort(h, p), parseUrl, lookup) == Ok(JoinHostPort(h, p)) <==> Reparses(h)
  {
    var t := JoinHostPort(h, p);
    if Reparses(h) {
      JoinedReparses(h, p, parseUrl, lookup);
    } else if Parse(t, parseUrl, lookup) == Ok(t) {
      JoinScheme(h, p);
      assert ':' in t;
      TrimKeeps(t, IsSpace, ':');
      Schemeless(t, parseUrl, lookup);
      DialedItself(h, p, lookup);
    }
  }

  lemma DialedItself(h: string, p: string, lookup: string -> bool)
    requires h != "" && PortText(p)
    requires var t := JoinHostPort(h, p); ':' in Trim(t, IsSpace) && Dialed(Trim(t, IsSpace), lookup) == Ok(t)
    ensures Reparses(h)
  {
    var t := JoinHostPort(h, p);
    var x := Trim(t, IsSpace);
    var i := TrimSlice(t, IsSpace);
    var (h', p') := HostAndPort(x).value;
    if SplitHostPort(x).Some? {
      SplitIff(x, h', p');
      JoinedUnique(h, p, h', p');
    } else {
      JoinedUnique(h, p, h', p');
      TrimmedGrows(h, x);
    }
  }

  // "[h]:80" that does not split is trimmed to "h]:80", not to h.
  lemma TrimmedGrows(h: string, x: string)
    requires h != "" && x == Trim(JoinHostPort(h, "80"), IsSpace) && ':' in x && x[0] == '['
    ensures Trim(x, IsBracket) != h
  {
    if Trim(x, IsBracket) == h {
      var t := JoinHostPort(h, "80");
      TrimKeeps(x, IsBracket, ':');
      var _ := TrimSlice(x, IsBracket);
      TrimNothing(t, IsSpace);
      ReTrimmed(h);
    }
  }

  lemma ReTrimmed(h: string)
    requires h != "" && ':' in h && !IsBracket(h[0])
    ensures Trim(JoinHostPort(h, "80"), IsBracket) == h + "]:80"
  {
    var t := JoinHostPort(h, "80");
    assert t[1..] == h + "]:80";
    assert t[1..][|t| - 2] == '0';
    TrimNothing(t[1..], IsBracket);
  }

  // An address built from a host with a bracket inside does not parse back to itself.
  lemma BracketsDoNotReparse(h: string, parseUrl: string -> Option<Url>, lookup: string -> bool)
    requires h != "" && !BracketFree(h) && !HasScheme(h) && lookup("80")
    ensures Parse(JoinHostPort(h, "80"), parseUrl, lookup) != Ok(JoinHostPort(h, "80"))
  {
    JoinedReparsesIff(h, "80", parseUrl, lookup);
  }

  predicate PieceAt(h: string, a: string, i: nat) {
    i + |h| <= |a| && h == a[i..i + |h|]
  }

  lemma SplitHostIsPiece(a: string)
    requires SplitHostPort(a).Some?
    ensures var (h, p) := SplitHostPort(a).value; BracketFree(h) && IsPort(p) && exists i :: PieceAt(h, a, i)
  {
    var (h, p) := SplitHostPort(a).value;
    SplitIff(a, h, p);
    assert PieceAt(h, a, if a == "[" + h + "]:" + p then 1 else 0);
  }

  // The host taken from a is a piece of it; a host with a port has no brackets, one without is
  // given port 80 and has none at its ends.
  lemma HostText(a: string)
    requires HostAndPort(a).Ok?
    ensures var (h, p) := HostAndPort(a).value;
            && (exists i :: PieceAt(h, a, i))
            && (SplitHostPort(a).Some? ==> BracketFree(h) && IsPort(p))
            && (SplitHostPort(a).None? ==> p == "80" && (h != "" ==> !IsBracket(h[0]) && !IsBracket(h[|h| - 1])))
  {
    if SplitHostPort(a).Some? {
      SplitHostIsPiece(a);
    } else {
      var i := TrimSlice(a, IsBracket);
      assert PieceAt(Trim(a, IsBracket), a, i);
    }
  }

  // What url.Parse promises of an authority: it ends before the first slash.
  ghost predicate HostsHaveNoSlash(parseUrl: string -> Option<Url>) {
    forall s :: parseUrl(s).Some? ==> '/' !in parseUrl(s).value.host
  }

  // Whatever Parse accepts - with or without white space, ports, brackets or a scheme - it accepts
  // again as the same address exactly when the host it took can be printed and parsed.
  lemma AcceptedReparsesIff(s: string, parseUrl: string -> Option<Url>, lookup: string -> bool)
    requires Parse(s, parseUrl, lookup).Ok?
    requires HostsHaveNoSlash(parseUrl) && forall p :: lookup(p) ==> PortText(p)
    ensures var a := Authority(Trim(s, IsSpace), parseUrl);
            && a.Ok? && HostAndPort(a.value).Ok? && HostAndPort(a.value).value.0 != ""
            && var t := Parse(s, parseUrl, lookup).value;
               Parse(t, parseUrl, lookup) == Ok(t) <==> Reparses(HostAndPort(a.value).value.0)
  {
    var a := Authority(Trim(s, IsSpace), parseUrl).value;
    var (h, p) := HostAndPort(a).value;
    HostText(a);
    var i: nat :| PieceAt(h, a, i);
    AuthorityScheme(Trim(s, IsSpace), parseUrl);
    SliceScheme(a, i, i + |h|);
    JoinedReparsesIff(h, p, parseUrl, lookup);
  }

  lemma AuthorityScheme(s: string, parseUrl: string -> Option<Url>)
    requires HostsHaveNoSlash(parseUrl) && Authority(s, parseUrl).Ok?
    ensures !HasScheme(Authority(s, parseUrl).value)
  {
  }

  // Both ways to fail. "a[b" leaves a bracket in the host ...
  lemma BracketIsLost(parseUrl: string -> Option<Url>, lookup: string -> bool)
    requires lookup("80")
    ensures Parse("a[b", parseUrl, lookup) == Ok("a[b:80")
    ensures Parse("a[b:80", parseUrl, lookup) != Ok("a[b:80")
  {
    var s := "a[b";
    TrimNothing(s, IsSpace);
    TrimNothing(s, IsBracket);
    assert s + ":" + "80" == "a[b:80" && s[1] == '[';
    BracketsDoNotReparse(s, parseUrl, lookup);
  }

  // ... and brackets around a host without a colon are dropped ...
  lemma BracketsAreDropped(h: string, p: string, parseUrl: string -> Option<Url>, lookup: string -> bool)
    requires h != "" && BracketFree(h) && ':' !in h && PortText(p) && lookup(p)
    ensures Parse("[" + h + "]:" + p, parseUrl, lookup) == Ok(h + ":" + p)
  {
    var s := "[" + h + "]:" + p;
    assert p != "" ==> s[|s| - 1] == p[|p| - 1] && p[|p| - 1] in p;
    TrimNothing(s, IsSpace);
    assert forall i | 0 <= i < |s| - 2 && s[i] == ':' :: i == |h| + 2 && s[i + 1] == p[0];
    Schemeless(s, parseUrl, lookup);
    SplitBracketed(h, p);
  }

  // ... so that leading white space they protected, as in "[ ]:80", is lost.
  lemma SpaceIsLost(h: string, p: string, parseUrl: string -> Option<Url>, lookup: string -> bool)
    requires h != "" && BracketFree(h) && ':' !in h && IsSpace(h[0]) && PortText(p) && lookup(p)
    ensures Parse("[" + h + "]:" + p, parseUrl, lookup) == Ok(h + ":" + p)
    ensures Parse(h + ":" + p, parseUrl, lookup) != Ok(h + ":" + p)
  {
    BracketsAreDropped(h, p, parseUrl, lookup);
    JoinedReparsesIff(h, p, parseUrl, lookup);
  }

  // A host without a port is dialed on port 80.
  lemma PortDefaultsTo80(h: string, parseUrl: string -> Option<Url>, lookup: string -> bool)
    requires h != "" && BracketFree(h) && ':' !in h && NoSpace(h) && lookup("80")
    ensures Parse(h, parseUrl, lookup) == Ok(h + ":80")
  {
    assert h[0] in h && h[|h| - 1] in h;
    Schemeless(h, parseUrl, lookup);
    TrimNothing(h, IsBracket);
    assert h + ":" + "80" == h + ":80";
  }

  // An IPv6 literal with a port but no brackets is refused, not misread.
  lemma BareV6Refused(h: string, p: string, parseUrl: string -> Option<Url>, lookup: string -> bool)
    requires ':' in h && BracketFree(h) && NoSpace(h) && !HasScheme(h) && PortText(p)
    ensures Parse(h + ":" + p, parseUrl, lookup) == Err(BareV6)
  {
    UnbracketedText(h, p);
    Schemeless(h + ":" + p, parseUrl, lookup);
    BareV6Unsplit(h, p);
  }

  lemma BareV6Unsplit(h: string, p: string)
    requires ':' in h && BracketFree(h) && IsPort(p)
    ensures HostAndPort(h + ":" + p) == Err(BareV6)
  {
    var s := h + [':'] + p;
    LastIndex(h, ':', p);
    assert s[0] == h[0] && h[0] in h && s[..|h|] == h;
  }

  lemma UnbracketedText(h: string, p: string)
    requires NoSpace(h) && PortText(p) && !HasScheme(h)
    ensures NoSpace(h + ":" + p) && !HasScheme(h + ":" + p)
  {
    var s := h + ":" + p;
    forall c | c in s ensures !IsSpace(c) {
      var k :| 0 <= k < |s| && s[k] == c;
      assert k < |h| ==> c in h;
      assert k > |h| ==> c in p;
    }
    forall i | 0 <= i < |s| - 2
      ensures !(s[i] == ':' && s[i + 1] == '/' && s[i + 2] == '/')
    {
      assert i + 2 > |h| ==> s[i + 2] == p[i + 2 - |h| - 1];
      assert i + 2 < |h| ==> s[i] == h[i] && s[i + 1] == h[i + 1] && s[i + 2] == h[i + 2];
    }
  }

  function HttpUrl(host: string): Url {
    Url("http", false, "", "", "", host)
  }

  // An accepted URL is plain http with nothing but a host, and means what that host means alone.
  lemma UrlMeansItsHost(s: string, host: string, parseUrl: string -> Option<Url>, lookup: string -> bool)
    requires HasScheme(Trim(s, IsSpace))
    ensures Parse(s, parseUrl, lookup).Ok? ==> exists u :: parseUrl(Trim(s, IsSpace)) == Some(HttpUrl(u))
    ensures parseUrl(Trim(s, IsSpace)) == Some(HttpUrl(host)) && host != "" && NoSpace(host) && !HasScheme(host) ==>
              Parse(s, parseUrl, lookup) == Parse(host, parseUrl, lookup)
  {
    if host != "" && NoSpace(host) && !HasScheme(host) {
      Schemeless(host, parseUrl, lookup);
    }
    UrlAuthority(Trim(s, IsSpace), parseUrl);
  }

  lemma UrlAuthority(s: string, parseUrl: string -> Option<Url>)
    requires HasScheme(s)
    ensures Authority(s, parseUrl).Ok? ==> parseUrl(s) == Some(HttpUrl(Authority(s, parseUrl).value))
    ensures forall host :: parseUrl(s) == Some(HttpUrl(host)) ==> Authority(s, parseUrl) == Ok(host)
  {
  }

  // A bracketed IPv6 literal without a port is dialed on port 80.
  lemma BracketedV6DefaultsTo80(h: string, parseUrl: string -> Option<Url>, lookup: string -> bool)
    requires ':' in h && BracketFree(h) && !HasScheme(h) && lookup("80")
    ensures Parse("[" + h + "]", parseUrl, lookup) == Ok("[" + h + "]:80")
  {
    var s := "[" + h + "]";
    TrimNothing(s, IsSpace);
    BracketScheme(h);
    Schemeless(s, parseUrl, lookup);
    BracketedV6Dialed(h, lookup);
  }

  lemma BracketScheme(h: string)
    requires !HasScheme(h)
    ensures !HasScheme("[" + h + "]")
  {
    var s := "[" + h + "]";
    forall i | 0 <= i < |s| - 2
      ensures !(s[i] == ':' && s[i + 1] == '/' && s[i + 2] == '/')
    {
      assert 0 < i < |h| - 1 ==> s[i] == h[i - 1] && s[i + 1] == h[i] && s[i + 2] == h[i + 1];
    }
  }

  lemma BracketedV6Dialed(h: string, lookup: string -> bool)
    requires ':' in h && BracketFree(h) && lookup("80")
    ensures Dialed("[" + h + "]", lookup) == Ok("[" + h + "]:80")
  {
    BracketedUnsplit(h);
    TrimBrackets(h);
    assert "[" + h + "]:" + "80" == "[" + h + "]:80";
  }

  lemma BracketedUnsplit(h: string)
    requires BracketFree(h)
    ensures SplitHostPort("[" + h + "]").None?
  {
    var s := "[" + h + "]";
    assert s == ("[" + h) + [']'] + "";
    FirstIndex("[" + h, ']', "");
  }

  lemma TrimBrackets(h: string)
    requires h != "" && BracketFree(h)
    ensures Trim("[" + h + "]", IsBracket) == h
  {
    var s := "[" + h + "]";
    assert s[1..] == h + "]" && (h + "]")[..|h|] == h && s[1..][0] == h[0] && h[0] in h && h[|h| - 1] in h;
    TrimNothing(h, IsBracket);
    assert Trim(h + "]", IsBracket) == Trim((h + "]")[..|h|], IsBracket);
  }

  // Why an address is refused: blank, without a host, or with a port that is none.
  lemma BlankRefused(s: string, parseUrl: string -> Option<Url>, lookup: string -> bool)
    requires forall c | c in s :: c in WHITE
    ensures Parse(s, parseUrl, lookup) == Err(EmptyAddress)
  {
    forall c | c in s ensures IsSpace(c) {
      SpaceIsWhite(c);
    }
    AllSpaces(s);
  }

  lemma EmptyHostRefused(p: string, parseUrl: string -> Option<Url>, lookup: string -> bool)
    requires PortText(p)
    ensures Parse(":" + p, parseUrl, lookup) == Err(EmptyHost)
  {
    var s := ":" + p;
    assert p != "" ==> s[|s| - 1] == p[|p| - 1] && p[|p| - 1] in p;
    TrimNothing(s, IsSpace);
    assert s == "" + ":" + p;
    JoinScheme("", p);
    Schemeless(s, parseUrl, lookup);
    SplitIff(s, "", p);
  }

  lemma BadPortRefused(h: string, p: string, parseUrl: string -> Option<Url>, lookup: string -> bool)
    requires h != "" && Reparses(h) && !HasScheme(h) && PortText(p) && !lookup(p)
    ensures Parse(JoinHostPort(h, p), parseUrl, lookup) == Err(BadPort)
  {
    JoinedEnds(h, p);
    TrimNothing(JoinHostPort(h, p), IsSpace);
    JoinScheme(h, p);
    Schemeless(JoinHostPort(h, p), parseUrl, lookup);
    RoundTripIff(h, p);
  }

  // A URL is refused for the first of these that applies.
  lemma UrlRefused(s: string, u: Url, parseUrl: string -> Option<Url>, lookup: string -> bool)
    requires HasScheme(Trim(s, IsSpace))
    ensures parseUrl(Trim(s, IsSpace)).None? ==> Parse(s, parseUrl, lookup) == Err(BadUrl)
    ensures parseUrl(Trim(s, IsSpace)) == Some(u) ==>
              && (u.scheme == "https" ==> Parse(s, parseUrl, lookup) == Err(NoTls))
              && (u.scheme != "https" && u.scheme != "http" ==> Parse(s, parseUrl, lookup) == Err(BadScheme))
              && (u.scheme == "http" && u.user ==> Parse(s, parseUrl, lookup) == Err(UserInfo))
              && (u.scheme == "http" && !u.user && (u.path != "" || u.query != "" || u.fragment != "") ==>
                    Parse(s, parseUrl, lookup) == Err(NotJustHost))
  {
    assert Trim(s, IsSpace) != "";
  }

  // The white space of Unicode, character by character.
  const WHITE: string := "\t\n\U{0B}\U{0C}\r \U{85}\U{A0}\U{1680}\U{2000}\U{2001}\U{2002}\U{2003}\U{2004}" +
                         "\U{2005}\U{2006}\U{2007}\U{2008}\U{2009}\U{200A}\U{2028}\U{2029}\U{202F}\U{205F}\U{3000}"

  lemma WhiteIsSpace(k: nat)
    requires k < |WHITE|
    ensures IsSpace(WHITE[k])
  {
  }

  lemma SpaceIsWhite(c: char)
    ensures IsSpace(c) <==> c in WHITE
  {
    if c in WHITE {
      var k :| 0 <= k < |WHITE| && WHITE[k] == c;
      WhiteIsSpace(k);
    } else if IsSpace(c) {
      WhiteIndex(c);
    }
  }

  lemma WhiteIndex(c: char)
    requires IsSpace(c)
    ensures exists k: nat :: k < |WHITE| && WHITE[k] == c
  {
    assert WHITE[0] == '\t' && WHITE[1] == '\n' && WHITE[2] == '\U{0B}' && WHITE[3] == '\U{0C}' && WHITE[4] == '\r';
    assert WHITE[5] == ' ' && WHITE[6] == '\U{85}' && WHITE[7] == '\U{A0}' && WHITE[8] == '\U{1680}';
    assert WHITE[9] == '\U{2000}' && WHITE[10] == '\U{2001}' && WHITE[11] == '\U{2002}' && WHITE[12] == '\U{2003}';
    assert WHITE[13] == '\U{2004}' && WHITE[14] == '\U{2005}' && WHITE[15] == '\U{2006}' && WHITE[16] == '\U{2007}';
    assert WHITE[17] == '\U{2008}' && WHITE[18] == '\U{2009}' && WHITE[19] == '\U{200A}' && WHITE[20] == '\U{2028}';
    assert WHITE[21] == '\U{2029}' && WHITE[22] == '\U{202F}' && WHITE[23] == '\U{205F}' && WHITE[24] == '\U{3000}';
  }

  // White space around an address does not matter.
  lemma {:induction false} PaddingIgnored(before: string, s: string, after: string, parseUrl: string -> Option<Url>,
                                          lookup: string -> bool)
    requires (forall c | c in before :: c in WHITE) && forall c | c in after :: c in WHITE
    ensures Parse(before + s + after, parseUrl, lookup) == Parse(s, parseUrl, lookup)
  {
    forall c ensures c in WHITE <==> IsSpace(c) {
      SpaceIsWhite(c);
    }
    TrimPadding(before, s, after);
  }

  lemma {:induction false} TrimPadding(before: string, s: string, after: string)
    requires (forall c | c in before :: IsSpace(c)) && forall c | c in after :: IsSpace(c)
    ensures Trim(before + s + after, IsSpace) == Trim(s, IsSpace)
    decreases |before| + |s| + |after|
  {
    var x := before + s + after;
    if before != [] {
      assert x[0] == before[0] && before[0] in before;
      assert x[1..] == before[1..] + s + after;
      TrimPadding(before[1..], s, after);
    } else if s != [] && IsSpace(s[0]) {
      assert x[0] == s[0] && x[1..] == [] + s[1..] + after;
      TrimPadding([], s[1..], after);
    } else if after != [] {
      assert x == s + after && x[|x| - 1] == after[|after| - 1] && after[|after| - 1] in after;
      assert x[..|x| - 1] == [] + s + after[..|after| - 1];
      TrimPadding([], s, after[..|after| - 1]);
      if s == [] {
        AllSpaces(after);
        assert x == after;
      }
    } else {
      assert x == s;
    }
  }

  lemma {:induction false} AllSpaces(s: string)
    requires forall c | c in s :: IsSpace(c)
    ensures Trim(s, IsSpace) == ""
  {
    if s != [] {
      assert s[0] in s;
      AllSpaces(s[1..]);
    }
  }
}

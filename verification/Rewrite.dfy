// http.go: host rewriting (lines 26-86) over a registry state of RegistryRuns.
//
// net.ParseIP is outside the repository: `parseIp` stands for it.
module Rewrite {
  import opened Wrappers
  import opened RouteTable
  import opened HostPort
  import opened RegistryRuns
  import opened RegistrySafety
  import opened RegistryTheorems
  import RouteNames
  import Numbers

  predicate IsDigit(c: char) {
    '0' <= c <= '9'
  }

  predicate IsNumber(s: string) {
    s != "" && forall c | c in s :: IsDigit(c)
  }

  // Lines 59-66.
  method AllDigits(s: string) returns (ok: bool)
    ensures ok == IsNumber(s)
  {
    for i := 0 to |s|
      invariant forall c | c in s[..i] :: IsDigit(c)
    {
      if s[i] < '0' || s[i] > '9' {
        assert s[i] in s;
        return false;
      }
      assert s[..i + 1] == s[..i] + [s[i]];
    }
    assert s[..|s|] == s;
    return s != "";
  }

  predicate BadHostByte(c: char) {
    c <= ' ' || c == '\U{7F}' || c == '/' || c == '?' || c == '#' || c == '@' || c == '\\'
  }

  // A bare host, as far as line 77 to 84 check it.
  predicate Accepted(h: string, parseIp: string -> bool) {
    h == "" || ((forall c | c in h :: !BadHostByte(c)) && (':' in h ==> parseIp(h)))
  }

  // Lines 73-86.
  method ValidateHostRewrite(h: string, parseIp: string -> bool) returns (ok: bool)
    ensures ok == Accepted(h, parseIp)
  {
    if h == "" {
      return true;
    }
    for i := 0 to |h|
      invariant forall c | c in h[..i] :: !BadHostByte(c)
    {
      if h[i] <= ' ' || h[i] == '\U{7F}' || h[i] == '/' || h[i] == '?' || h[i] == '#' || h[i] == '@' || h[i] == '\\' {
        assert h[i] in h;
        return false;
      }
      assert h[..i + 1] == h[..i] + [h[i]];
    }
    assert h[..|h|] == h;
    if ':' in h && !parseIp(h) {
      return false;
    }
    return true;
  }

  // The route's declared rewrite, if it has one.
  function Declared(s: Sys, id: Id): Option<string> {
    if id in s.procs && s.procs[id].call.Add? && s.procs[id].call.rewrite != "" then Some(s.procs[id].call.rewrite)
    else None
  }

  function NameAndPort(urlHost: string): (string, string) {
    if SplitHostPort(urlHost).Some? then SplitHostPort(urlHost).value else (urlHost, "")
  }

  // Lines 35-56: the lookup that every call would do without the flag.
  function PlainRewrite(s: Sys, urlHost: string): Option<string> {
    var (name, port) := NameAndPort(urlHost);
    match Find(s.table, ToLower(name))
    case None => None
    case Some(id) =>
      match Declared(s, id)
      case None => None
      case Some(rewrite) =>
        if port == "" then Some(rewrite)
        else if !IsNumber(port) then None
        else Some(JoinHostPort(rewrite, port))
  }

  // Lines 31-57: the sticky flag is loaded in state s, the route looked up later, in state t.
  function HostRewrite(s: Sys, t: Sys, urlHost: string): Option<string> {
    if !s.rewrites then None else PlainRewrite(t, urlHost)
  }

  // The fast path answers what the plain lookup would have answered at one of the two moments; with
  // nothing in between the two agree.
  lemma FastPathRefines(s: Sys, acts: seq<Action>, urlHost: string)
    requires Reachable(s) && Runs(s, acts)
    ensures var t, r := After(s, acts), HostRewrite(s, After(s, acts), urlHost);
            && (r == PlainRewrite(t, urlHost) || (r.None? && PlainRewrite(s, urlHost).None?))
            && (!s.rewrites ==> r.None?)
    ensures HostRewrite(s, s, urlHost) == PlainRewrite(s, urlHost)
  {
    var (name, port) := NameAndPort(urlHost);
    ReadersSeePublishedOnly(s, ToLower(name), false);
    match Find(s.table, ToLower(name))
    case None =>
    case Some(id) =>
      if Declared(s, id).Some? {
        RewriteImpliesFlag(s, id);
      }
  }

  // Exactly what goes out for every URL host. Name and port are what SplitHostPort makes of it; a
  // host that does not split is a name without a port.
  lemma RewriteAnswers(s: Sys, urlHost: string, name: string, port: string)
    requires if SplitHostPort(urlHost).Some? then SplitHostPort(urlHost) == Some((name, port))
             else name == urlHost && port == ""
    ensures var id := Find(s.table, ToLower(name));
            var h := if id.Some? then Declared(s, id.value) else None;
            && (h.None? ==> PlainRewrite(s, urlHost) == None)
            && (h.Some? && port == "" ==> PlainRewrite(s, urlHost) == h)
            && (h.Some? && IsNumber(port) ==> PlainRewrite(s, urlHost) == Some(JoinHostPort(h.value, port)))
            && (h.Some? && port != "" && !IsNumber(port) ==> PlainRewrite(s, urlHost) == None)
  {
  }

  // Whether a rewrite goes out, in terms of the run: a visible route of that name, up to case, was
  // added with a rewrite, and the port is absent or decimal.
  lemma RewriteGoesOutIff(s: Sys, urlHost: string, name: string, port: string)
    requires Reachable(s) && BracketFree(name) && IsPort(port)
    requires urlHost == JoinHostPort(name, port) || (urlHost == name && port == "" && SplitHostPort(name).None?)
    ensures (exists h :: PlainRewrite(s, urlHost) == Some(h)) <==>
              && (port == "" || IsNumber(port))
              && exists id: Id :: Visible(s, id) && Rewrites(s.procs[id], name)
  {
    RoundTripIff(name, port);
    RewriteAnswers(s, urlHost, name, port);
    ReadersSeePublishedOnly(s, ToLower(name), false);
    var id := Find(s.table, ToLower(name));
    if id.Some? && Declared(s, id.value).Some? {
      VisibleIsAdd(s, id.value);
      RouteNames.ToLowerIff(s.procs[id.value].call.name, name);
      assert Visible(s, id.value) && Rewrites(s.procs[id.value], name);
    }
    if i: Id :| Visible(s, i) && Rewrites(s.procs[i], name) {
      VisibleIsAdd(s, i);
      RouteNames.ToLowerIff(s.procs[i].call.name, name);
      assert Find(s.table, ToLower(name)) == Some(i);
    }
  }

  ghost predicate Rewrites(proc: Proc, name: string) {
    proc.call.Add? && proc.call.rewrite != "" && RouteNames.SameName(proc.call.name, name)
  }

  // For an accepted rewrite and a URL host "name:digits", the outgoing host splits back into
  // exactly the rewrite and the request's port - if, and only if, the rewrite has no brackets.
  // Accepted does not exclude them: a colon-free "[a]" passes line 82.
  lemma RewriteSplitsBackIff(s: Sys, name: string, port: string)
    requires BracketFree(name) && IsNumber(port)
    requires var id := Find(s.table, ToLower(name)); id.Some? && Declared(s, id.value).Some?
    ensures var r := PlainRewrite(s, JoinHostPort(name, port));
            var h := Declared(s, Find(s.table, ToLower(name)).value).value;
            r == Some(JoinHostPort(h, port)) && (SplitHostPort(r.value) == Some((h, port)) <==> BracketFree(h))
  {
    NumberIsPort(port);
    RoundTripIff(name, port);
    RoundTripIff(Declared(s, Find(s.table, ToLower(name)).value).value, port);
  }

  // Whatever the URL host, a rewrite that goes out is the declared one of the visible route it
  // names, alone or with the URL's own decimal port: no other text is joined to it.
  lemma OnlyDigitsAreJoined(s: Sys, urlHost: string)
    requires PlainRewrite(s, urlHost).Some?
    ensures exists name, id: Id ::
              && (name == urlHost || exists p :: SplitHostPort(urlHost) == Some((name, p)))
              && Find(s.table, ToLower(name)) == Some(id) && Declared(s, id).Some?
              && SentFor(Declared(s, id).value, PlainRewrite(s, urlHost).value, urlHost)
  {
    var (name, port) := NameAndPort(urlHost);
    var id := Find(s.table, ToLower(name)).value;
    assert name == urlHost || SplitHostPort(urlHost) == Some((name, port));
    assert SentFor(Declared(s, id).value, PlainRewrite(s, urlHost).value, urlHost);
  }

  ghost predicate SentFor(rewrite: string, sent: string, urlHost: string) {
    || sent == rewrite
    || exists name, port ::
         SplitHostPort(urlHost) == Some((name, port)) && IsNumber(port) && sent == JoinHostPort(rewrite, port)
  }

  lemma NumberIsPort(port: string)
    requires IsNumber(port)
    ensures IsPort(port)
  {
    assert !IsDigit('[') && !IsDigit(']') && !IsDigit(':');
  }

  // Putting brackets around an accepted name is accepted too, and what then goes out names the
  // host without them.
  lemma BracketedRewriteAccepted(h: string, port: string, parseIp: string -> bool)
    requires h != "" && Accepted(h, parseIp) && BracketFree(h) && ':' !in h && IsNumber(port)
    ensures Accepted("[" + h + "]", parseIp)
    ensures SplitHostPort(JoinHostPort("[" + h + "]", port)) == Some((h, port))
  {
    var b := "[" + h + "]";
    forall c | c in b ensures !BadHostByte(c) && c != ':' {
      var k :| 0 <= k < |b| && b[k] == c;
      assert 0 < k < |b| - 1 ==> c == h[k - 1];
    }
    NumberIsPort(port);
    assert JoinHostPort(b, port) == "[" + h + "]:" + port;
    SplitBracketed(h, port);
  }

  // Which hosts are accepted, character by character.
  lemma RefusedCharacters(h: string, parseIp: string -> bool, c: char)
    requires Accepted(h, parseIp) && c in h
    ensures c !in "/?#@\\ \t\r\n" && c != '\0' && c != '\U{7F}'
  {
  }

  // A host of these characters is accepted, if it has a colon exactly when it is an IP literal.
  lemma HostnamesAccepted(h: string, parseIp: string -> bool)
    requires forall c | c in h :: 'a' <= c <= 'z' || 'A' <= c <= 'Z' || '0' <= c <= '9' || c in "-._:"
    ensures Accepted(h, parseIp) <==> (':' in h ==> parseIp(h))
  {
  }

  // Exactly the decimal numbers are ports.
  lemma NumbersAreDecimal(s: string)
    ensures IsNumber(s) <==> Numbers.Value(s).Some?
  {
    Numbers.ValueIff(s);
  }
}

// "host:port" strings: SplitHostPort and JoinHostPort of Go's package net, which every address in
// the registry goes through, and hostOf of middleware.go.
module HostPort {
  import opened Wrappers

  function IndexOf(s: string, c: char): (i: int)
    ensures -1 <= i < |s|
    ensures i >= 0 ==> s[i] == c && c !in s[..i]
    ensures i < 0 ==> c !in s
  {
    if s == [] then -1
    else if s[0] == c then 0
    else
      var i := IndexOf(s[1..], c);
      assert i >= 0 ==> s[..i + 1] == [s[0]] + s[1..][..i];
      if i < 0 then -1 else i + 1
  }

  function LastIndexOf(s: string, c: char): (i: int)
    ensures -1 <= i < |s|
    ensures i >= 0 ==> s[i] == c && c !in s[i + 1..]
    ensures i < 0 ==> c !in s
  {
    if s == [] then -1
    else if s[|s| - 1] == c then |s| - 1
    else
      var i := LastIndexOf(s[..|s| - 1], c);
      assert i >= 0 ==> s[i + 1..] == s[..|s| - 1][i + 1..] + [s[|s| - 1]];
      i
  }

  // net.SplitHostPort; every error is None.
  function SplitHostPort(s: string): Option<(string, string)> {
    var i := LastIndexOf(s, ':');
    if i < 0 then None
    else if s[0] == '[' then
      var end := IndexOf(s, ']');
      if end < 0 || end + 1 != i then None
      else if '[' in s[1..] || ']' in s[end + 1..] then None
      else Some((s[1..end], s[i + 1..]))
    else if ':' in s[..i] || '[' in s || ']' in s then None
    else Some((s[..i], s[i + 1..]))
  }

  function JoinHostPort(host: string, port: string): string {
    if ':' in host then "[" + host + "]:" + port else host + ":" + port
  }

  // middleware.go:40-45.
  function HostOf(address: string): string {
    if SplitHostPort(address).Some? then SplitHostPort(address).value.0 else address
  }

  predicate BracketFree(s: string) {
    '[' !in s && ']' !in s
  }

  predicate IsPort(p: string) {
    BracketFree(p) && ':' !in p
  }

  lemma {:induction false} FirstIndex(a: string, c: char, b: string)
    requires c !in a
    ensures IndexOf(a + [c] + b, c) == |a|
  {
    var s := a + [c] + b;
    assert s[|a|] == c;
    assert forall j | |a| < j <= |s| :: s[..j][|a|] == c;
    assert forall k | 0 <= k < |a| :: s[k] == a[k];
  }

  lemma {:induction false} LastIndex(a: string, c: char, b: string)
    requires c !in b
    ensures LastIndexOf(a + [c] + b, c) == |a|
  {
    var s := a + [c] + b;
    assert s[|a|] == c;
    assert forall j | 0 <= j <= |a| :: s[j..][|a| - j] == c;
    assert forall k | |a| < k < |s| :: s[k] == b[k - |a| - 1];
  }

  // Exactly which strings split, and into what.
  lemma SplitIff(s: string, h: string, p: string)
    ensures SplitHostPort(s) == Some((h, p)) <==>
            BracketFree(h) && IsPort(p) && (s == "[" + h + "]:" + p || (s == h + ":" + p && ':' !in h))
  {
    if SplitHostPort(s) == Some((h, p)) {
      SplitSound(s, h, p);
    }
    if BracketFree(h) && IsPort(p) {
      if s == "[" + h + "]:" + p {
        SplitBracketed(h, p);
      } else if s == h + ":" + p && ':' !in h {
        SplitPlain(h, p);
      }
    }
  }

  lemma SplitSound(s: string, h: string, p: string)
    requires SplitHostPort(s) == Some((h, p))
    ensures BracketFree(h) && IsPort(p)
    ensures s == "[" + h + "]:" + p || (s == h + ":" + p && ':' !in h)
  {
    var i := LastIndexOf(s, ':');
    if s[0] == '[' {
      var end := IndexOf(s, ']');
      assert s == ['['] + s[1..end] + [']'] + [':'] + s[i + 1..];
      forall c | c in h ensures c in s[1..] && c in s[..end] {
        var k :| 0 <= k < |h| && h[k] == c;
        assert s[1..][k] == c && s[..end][k + 1] == c;
      }
      forall c | c in p ensures c in s[1..] && c in s[end + 1..] {
        var k :| 0 <= k < |p| && p[k] == c;
        assert s[1..][i + k] == c && s[end + 1..][k + 1] == c;
      }
    } else {
      assert s == s[..i] + [':'] + s[i + 1..];
      assert forall c :: c in p ==> c in s;
      assert forall c :: c in h ==> c in s;
    }
  }

  lemma SplitBracketed(h: string, p: string)
    requires BracketFree(h) && IsPort(p)
    ensures SplitHostPort("[" + h + "]:" + p) == Some((h, p))
  {
    var s := "[" + h + "]:" + p;
    LastIndex("[" + h + "]", ':', p);
    assert s == ("[" + h + "]") + [':'] + p;
    FirstIndex("[" + h, ']', ":" + p);
    assert s == ("[" + h) + [']'] + (":" + p);
    assert s[1..] == h + "]:" + p;
    assert s[|h| + 2..] == ":" + p;
    assert s[1..|h| + 1] == h && s[|h| + 3..] == p;
  }

  lemma SplitPlain(h: string, p: string)
    requires BracketFree(h) && IsPort(p) && ':' !in h
    ensures SplitHostPort(h + ":" + p) == Some((h, p))
  {
    var s := h + ":" + p;
    LastIndex(h, ':', p);
    assert s == h + [':'] + p;
    assert s[..|h|] == h && s[|h| + 1..] == p;
    if h != [] {
      assert s[0] == h[0];
    }
  }

  // A joined address splits back into its parts exactly when the host has no brackets and the port
  // has neither brackets nor colons.
  lemma RoundTripIff(h: string, p: string)
    ensures SplitHostPort(JoinHostPort(h, p)) == Some((h, p)) <==> BracketFree(h) && IsPort(p)
  {
    SplitIff(JoinHostPort(h, p), h, p);
  }

  // Joining what was split gives the address back, unless it bracketed a host without a colon.
  lemma JoinAfterSplit(s: string)
    requires SplitHostPort(s).Some?
    ensures var (h, p) := SplitHostPort(s).value;
            JoinHostPort(h, p) == s || (':' !in h && s == "[" + h + "]:" + p && JoinHostPort(h, p) == h + ":" + p)
  {
    var (h, p) := SplitHostPort(s).value;
    SplitIff(s, h, p);
  }
}

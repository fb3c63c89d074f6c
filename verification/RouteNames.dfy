// Route names are case-insensitive: registry.go:84, 176, 197 and 289 look at ToLower(name) only.
module RouteNames {
  import opened Wrappers
  import opened RouteTable
  import opened HostPort

  const UPPER: string := "ABCDEFGHIJKLMNOPQRSTUVWXYZ"
  const LOWER: string := "abcdefghijklmnopqrstuvwxyz"

  // x and y are the upper-case and the lower-case form of one ASCII letter.
  predicate Pair(x: char, y: char, k: nat) {
    k < 26 && x == UPPER[k] && y == LOWER[k]
  }

  // The same character up to the case of an ASCII letter ...
  ghost predicate SameLetter(a: char, b: char) {
    a == b || exists k: nat :: Pair(a, b, k) || Pair(b, a, k)
  }

  // ... and the same name.
  ghost predicate SameName(a: string, b: string) {
    |a| == |b| && forall i | 0 <= i < |a| :: SameLetter(a[i], b[i])
  }

  lemma UpperAt(c: char) returns (k: nat)
    requires 'A' <= c <= 'Z'
    ensures Pair(c, Lower(c), k)
  {
    k := c as int - 'A' as int;
    Alphabet(k);
  }

  lemma Alphabet(k: nat)
    requires k < 26
    ensures UPPER[k] == 'A' + k as char && LOWER[k] == 'a' + k as char
  {
  }

  lemma PairLowers(x: char, y: char, k: nat)
    requires Pair(x, y, k)
    ensures Lower(x) == y && Lower(y) == y
  {
    Alphabet(k);
  }

  lemma LowerIff(a: char, b: char)
    ensures Lower(a) == Lower(b) <==> SameLetter(a, b)
  {
    if exists k: nat :: Pair(a, b, k) || Pair(b, a, k) {
      var k: nat :| Pair(a, b, k) || Pair(b, a, k);
      if Pair(a, b, k) {
        PairLowers(a, b, k);
      } else {
        PairLowers(b, a, k);
      }
    }
    if Lower(a) == Lower(b) && a != b {
      if 'A' <= a <= 'Z' {
        var k := UpperAt(a);
        if 'A' <= b <= 'Z' {
          var j := UpperAt(b);
          Alphabet(k);
          Alphabet(j);
        }
      } else if 'A' <= b <= 'Z' {
        var k := UpperAt(b);
      }
    }
  }

  // ToLower leaves no upper-case letter, and is the same exactly for names equal up to case.
  lemma NoUpperCase(s: string)
    ensures |ToLower(s)| == |s| && forall c | c in ToLower(s) :: c !in UPPER
    ensures SameName(s, ToLower(s))
  {
    forall i | 0 <= i < |s| ensures ToLower(s)[i] !in UPPER && SameLetter(s[i], ToLower(s)[i]) {
      LowerLeavesNoUpper(s[i]);
      LowerTwice(s[i]);
      LowerIff(s[i], Lower(s[i]));
    }
  }

  lemma LowerLeavesNoUpper(c: char)
    ensures Lower(c) !in UPPER
  {
    forall k: nat | k < 26 ensures UPPER[k] != Lower(c) {
      Alphabet(k);
    }
  }

  lemma LowerTwice(c: char)
    ensures Lower(Lower(c)) == Lower(c)
  {
  }

  lemma ToLowerIff(a: string, b: string)
    ensures ToLower(a) == ToLower(b) <==> SameName(a, b)
  {
    forall i | 0 <= i < |a| && i < |b|
      ensures ToLower(a)[i] == ToLower(b)[i] <==> SameLetter(a[i], b[i])
    {
      LowerIff(a[i], b[i]);
    }
    if ToLower(a) == ToLower(b) {
      forall i | 0 <= i < |a| ensures SameLetter(a[i], b[i]) {
        assert ToLower(a)[i] == ToLower(b)[i];
      }
    } else if |a| == |b| {
      assert exists i :: 0 <= i < |a| && ToLower(a)[i] != ToLower(b)[i];
    }
  }

  // What a published route answers to: exactly the names equal to its own up to case. Lookup and
  // Remove find it, a dial of any port goes to it, and an Add of the name is refused.
  lemma AnswersToItsName(t: Table, name: string, id: Id, other: string, port: string, fallback: bool)
    requires !t.closed && t.Shows(ToLower(name), id) && BracketFree(other) && IsPort(port)
    ensures SameName(name, other) ==>
              && Find(t, ToLower(other)) == Some(id)
              && Take(t, ToLower(other)) == (t.(routes := t.routes - {ToLower(name)}), Some(id))
              && Dispatch(t, ToLower(HostOf(JoinHostPort(other, port))), fallback) == Via(id)
              && Reserve(t, ToLower(other)) == (t, RefusedExists)
  {
    ToLowerIff(name, other);
    RoundTripIff(other, port);
  }

  // ... and no other name: publishing, removing or reserving it changes nothing for them.
  lemma OthersUnaffected(t: Table, name: string, id: Id, other: string)
    requires !SameName(name, other)
    ensures var key := ToLower(other);
            && Find(Publish(t, ToLower(name), id).0, key) == Find(t, key)
            && Find(Take(t, ToLower(name)).0, key) == Find(t, key)
            && Find(Reserve(t, ToLower(name)).0, key) == Find(t, key)
            && Reserve(Reserve(t, ToLower(name)).0, key).1 == Reserve(t, key).1
  {
    ToLowerIff(name, other);
  }
}

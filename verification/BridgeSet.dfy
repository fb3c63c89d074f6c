// listenlocal.go, bridgeSet (lines 75-116): the listeners of a registry, kept in a Go slice.
//
// A slice is a backing array and a length, and removal shifts inside the backing array; what
// matters is that closeAll, which walks a slice outside the lock, never shares its array with the
// set any more.
module BridgeSet {

  type Listener = nat

  // Lines 98-104: the first occurrence leaves, the order of the others stays.
  function RemoveFirst(ls: seq<Listener>, l: Listener): seq<Listener> {
    if ls == [] then []
    else if ls[0] == l then ls[1..]
    else [ls[0]] + RemoveFirst(ls[1..], l)
  }

  lemma {:induction false} RemoveFirstAt(ls: seq<Listener>, l: Listener, i: nat)
    requires i < |ls| && ls[i] == l && l !in ls[..i]
    ensures RemoveFirst(ls, l) == ls[..i] + ls[i + 1..]
  {
    if i > 0 {
      assert ls[0] == ls[..i][0];
      forall j | 0 <= j < i - 1 ensures ls[1..][j] != l {
        assert ls[..i][j + 1] == ls[1..][j];
      }
      RemoveFirstAt(ls[1..], l, i - 1);
    }
  }

  lemma {:induction false} RemoveFirstAbsent(ls: seq<Listener>, l: Listener)
    requires l !in ls
    ensures RemoveFirst(ls, l) == ls
  {
    if ls != [] {
      RemoveFirstAbsent(ls[1..], l);
    }
  }

  // Exactly one occurrence of l goes, everything else stays.
  lemma {:induction false} RemoveFirstCount(ls: seq<Listener>, l: Listener)
    ensures multiset(RemoveFirst(ls, l)) == multiset(ls) - multiset{l}
  {
    if ls != [] {
      assert ls == [ls[0]] + ls[1..];
      if ls[0] != l {
        RemoveFirstCount(ls[1..], l);
      }
    }
  }

  datatype Op = AddOp(l: Listener) | RemoveOp(l: Listener)

  class Set {
    var buf: array<Listener>
    var len: nat
    var closed: bool
    var shut: seq<Listener>   // listeners closeAll closed, in order

    ghost predicate Valid()
      reads this
    {
      len <= buf.Length && (closed ==> len == 0)
    }

    ghost function Contents(): seq<Listener>
      reads this, buf
      requires Valid()
    {
      buf[..len]
    }

    constructor ()
      ensures Valid() && fresh(buf) && Contents() == [] && !closed && shut == []
    {
      buf := new Listener[0];
      len, closed, shut := 0, false, [];
    }

    // Lines 84-92. append grows in place while there is room, and otherwise moves.
    method Add(l: Listener) returns (ok: bool)
      requires Valid()
      modifies this, buf
      ensures Valid() && (buf == old(buf) || fresh(buf))
      ensures ok == !old(closed) && closed == old(closed) && shut == old(shut)
      ensures Contents() == if ok then old(Contents()) + [l] else old(Contents())
    {
      if closed {
        return false;
      }
      if len == buf.Length {
        ghost var was := Contents();
        var bigger := new Listener[2 * len + 1];
        for i := 0 to len
          invariant fresh(bigger) && unchanged(this) && buf[..len] == was && bigger[..i] == was[..i]
        {
          bigger[i] := buf[i];
        }
        buf := bigger;
      }
      buf[len] := l;
      len := len + 1;
      ok := true;
    }

    // Lines 96-105: find l, then shift the rest down in place.
    method Remove(l: Listener)
      requires Valid()
      modifies this, buf
      ensures Valid() && buf == old(buf) && closed == old(closed) && shut == old(shut)
      ensures Contents() == RemoveFirst(old(Contents()), l)
    {
      ghost var was := Contents();
      var i := 0;
      while i < len && buf[i] != l
        invariant i <= len && l !in was[..i] && unchanged(this) && unchanged(buf)
      {
        i := i + 1;
      }
      if i == len {
        RemoveFirstAbsent(was, l);
        return;
      }
      RemoveFirstAt(was, l, i);
      var j := i;
      while j + 1 < len
        invariant i <= j < len && unchanged(this)
        invariant forall k :: 0 <= k < i ==> buf[k] == was[k]
        invariant forall k :: i <= k < j ==> buf[k] == was[k + 1]
        invariant forall k :: j < k < len ==> buf[k] == was[k]
      {
        buf[j] := buf[j + 1];
        j := j + 1;
      }
      len := len - 1;
      assert Contents() == was[..i] + was[i + 1..];
    }

    // Lines 109-112: take the slice, leave nil.
    method TakeAll() returns (ls: array<Listener>, n: nat)
      requires Valid()
      modifies this
      ensures Valid() && closed && Contents() == [] && shut == old(shut)
      ensures ls == old(buf) && n == old(len) && fresh(buf)
    {
      ls, n := buf, len;
      buf := new Listener[0];
      len, closed := 0, true;
    }

    method Apply(ops: seq<Op>)
      requires Valid()
      modifies this, buf
      ensures Valid() && (buf == old(buf) || fresh(buf)) && closed == old(closed) && shut == old(shut)
    {
      for i := 0 to |ops|
        invariant Valid() && (buf == old(buf) || fresh(buf)) && closed == old(closed) && shut == old(shut)
      {
        match ops[i]
        case AddOp(l) =>
          var _ := Add(l);
        case RemoveOp(l) =>
          Remove(l);
      }
    }

    // Lines 108-116, with arbitrary adds and removals by other goroutines between any two closes:
    // still every listener tracked when the lock was taken is closed, in order, and the set stays
    // empty.
    method CloseAll(meanwhile: nat -> seq<Op>)
      requires Valid()
      modifies this, buf
      ensures Valid() && closed && Contents() == []
      ensures shut == old(shut) + old(Contents())
    {
      ghost var tracked := Contents();
      var ls, n := TakeAll();
      for i := 0 to n
        invariant Valid() && closed && fresh(buf)
        invariant ls[..n] == tracked && shut == old(shut) + tracked[..i]
      {
        Apply(meanwhile(i));
        shut := shut + [ls[i]];
      }
    }
  }
}

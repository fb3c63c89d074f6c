// errors.go and the error values of registry.go: classification over whole error trees.
//
// A Go error is a tree: fmt.Errorf with %w, errors.Join and net.OpError have children, and the
// Retryable marker has one. `matches` holds the sentinels a node itself answers errors.Is for, and
// `net` says whether the node is a net.Error and, if so, what its Timeout() reports.
module Errors {
  import opened Wrappers

  datatype Target =
    | Canceled
    | DeadlineExceeded
    | ConnRefused
    | ConnReset
    | Sentinel(name: string)

  datatype Err =
    | Node(matches: set<Target>, net: Option<bool>, kids: seq<Err>)
    | Marker(inner: Err)

  // fmt.Errorf with one %w per child.
  function Errorf(kids: seq<Err>): Err {
    Node({}, None, kids)
  }

  function Plain(t: Target): Err {
    Node({t}, None, [])
  }

  const ERR_CLOSED: Err := Plain(Sentinel("registry closed"))
  const ERR_TARGET_NOT_FOUND: Target := Sentinel("k8s: target not found")

  // errors.Is: the node itself or any node below it.
  predicate Is(e: Err, t: Target) {
    match e
    case Node(matches, _, kids) => t in matches || exists k | k in kids :: Is(k, t)
    case Marker(inner) => Is(inner, t)
  }

  // errors.AsType[*retryableError].
  predicate HasMarker(e: Err) {
    match e
    case Node(_, _, kids) => exists k | k in kids :: HasMarker(k)
    case Marker(_) => true
  }

  // errors.AsType[net.Error]: the first net.Error in depth-first order decides.
  function FirstNet(e: Err): Option<bool>
    decreases e, 1
  {
    match e
    case Node(_, net, kids) => if net.Some? then net else FirstNetOf(kids)
    case Marker(inner) => FirstNet(inner)
  }

  function FirstNetOf(es: seq<Err>): Option<bool>
    decreases es, 0
  {
    if es == [] then None
    else if FirstNet(es[0]).Some? then FirstNet(es[0]) else FirstNetOf(es[1..])
  }

  // Lines 26-31; nil is None.
  function Retryable(e: Option<Err>): Option<Err> {
    if e.None? then None else Some(Marker(e.value))
  }

  // Lines 37-55.
  predicate IsRetryable(e: Option<Err>) {
    if e.None? then false
    else if HasMarker(e.value) then true
    else if Is(e.value, ConnRefused) || Is(e.value, ConnReset) then true
    else if Is(e.value, Canceled) || Is(e.value, DeadlineExceeded) then false
    else FirstNet(e.value) == Some(true)
  }

  // registry.go:371-377.
  function WaitError(cause: Err, last: Option<Err>): Err {
    if last.Some? then Errorf([cause, last.value]) else Errorf([cause])
  }

  // ---- The tree read as a set of nodes ----

  ghost predicate Contains(t: Err, n: Err) {
    t == n ||
    match t
    case Node(_, _, kids) => exists k | k in kids :: Contains(k, n)
    case Marker(inner) => Contains(inner, n)
  }

  ghost predicate Carries(n: Err, t: Target) {
    n.Node? && t in n.matches
  }

  lemma {:induction false} IsIffSomeNode(e: Err, t: Target)
    ensures Is(e, t) <==> exists n :: Contains(e, n) && Carries(n, t)
  {
    match e
    case Marker(inner) =>
      IsIffSomeNode(inner, t);
      forall n | Contains(inner, n) ensures Contains(e, n) {}
    case Node(matches, _, kids) =>
      forall k | k in kids ensures Is(k, t) <==> exists n :: Contains(k, n) && Carries(n, t) {
        IsIffSomeNode(k, t);
      }
      forall k, n | k in kids && Contains(k, n) ensures Contains(e, n) {}
      if t in matches {
        assert Contains(e, e) && Carries(e, t);
      }
  }

  lemma {:induction false} HasMarkerIffSomeNode(e: Err)
    ensures HasMarker(e) <==> exists n :: Contains(e, n) && n.Marker?
  {
    match e
    case Marker(_) =>
      assert Contains(e, e);
    case Node(_, _, kids) =>
      forall k | k in kids ensures HasMarker(k) <==> exists n :: Contains(k, n) && n.Marker? {
        HasMarkerIffSomeNode(k);
      }
      forall k, n | k in kids && Contains(k, n) ensures Contains(e, n) {}
  }

  lemma {:induction false} ContainsTransitive(t: Err, u: Err, n: Err)
    requires Contains(t, u) && Contains(u, n)
    ensures Contains(t, n)
  {
    if t != u {
      match t
      case Marker(inner) =>
        ContainsTransitive(inner, u, n);
      case Node(_, _, kids) =>
        var k :| k in kids && Contains(k, u);
        ContainsTransitive(k, u, n);
    }
  }

  // ---- The tree read as the list that errors.Is and errors.As walk: depth first, parents first ----

  ghost function Preorder(e: Err): seq<Err>
    decreases e, 1
  {
    match e
    case Node(_, _, kids) => [e] + PreorderOf(kids)
    case Marker(inner) => [e] + Preorder(inner)
  }

  ghost function PreorderOf(es: seq<Err>): seq<Err>
    decreases es, 0
  {
    if es == [] then [] else Preorder(es[0]) + PreorderOf(es[1..])
  }

  // What the first net.Error of a list reports.
  ghost function FirstNetIn(ns: seq<Err>): Option<bool> {
    if ns == [] then None
    else if ns[0].Node? && ns[0].net.Some? then ns[0].net
    else FirstNetIn(ns[1..])
  }

  lemma {:induction false} FirstNetOfConcat(a: seq<Err>, b: seq<Err>)
    ensures FirstNetIn(a + b) == if FirstNetIn(a).Some? then FirstNetIn(a) else FirstNetIn(b)
  {
    if a == [] {
      assert a + b == b;
    } else {
      assert (a + b)[1..] == a[1..] + b;
      FirstNetOfConcat(a[1..], b);
    }
  }

  lemma {:induction false} FirstNetIsFirst(e: Err)
    ensures FirstNet(e) == FirstNetIn(Preorder(e))
    decreases e, 1
  {
    match e
    case Marker(inner) =>
      FirstNetIsFirst(inner);
      FirstNetOfConcat([e], Preorder(inner));
    case Node(_, _, kids) =>
      FirstNetOfKids(kids);
      FirstNetOfConcat([e], PreorderOf(kids));
  }

  lemma {:induction false} FirstNetOfKids(es: seq<Err>)
    ensures FirstNetOf(es) == FirstNetIn(PreorderOf(es))
    decreases es, 0
  {
    if es != [] {
      FirstNetIsFirst(es[0]);
      FirstNetOfKids(es[1..]);
      FirstNetOfConcat(Preorder(es[0]), PreorderOf(es[1..]));
    }
  }

  lemma {:induction false} InPreorder(e: Err, n: Err)
    ensures n in Preorder(e) <==> Contains(e, n)
    decreases e, 1
  {
    match e
    case Marker(inner) => InPreorder(inner, n);
    case Node(_, _, kids) => InPreorderOf(kids, n);
  }

  lemma {:induction false} InPreorderOf(es: seq<Err>, n: Err)
    ensures n in PreorderOf(es) <==> exists k | k in es :: Contains(k, n)
    decreases es, 0
  {
    if es != [] {
      InPreorder(es[0], n);
      InPreorderOf(es[1..], n);
      assert forall k :: k in es <==> k == es[0] || k in es[1..];
    }
  }

  // Retryable, as one statement about the list: some node says "not ready", or no node is a context
  // error and the first net.Error on the way is a timeout.
  lemma RetryableIff(e: Err)
    ensures IsRetryable(Some(e)) <==>
            || (exists n | n in Preorder(e) :: NotReadyNode(n))
            || ((forall n | n in Preorder(e) :: !ContextNode(n)) && FirstNetIn(Preorder(e)) == Some(true))
  {
    FirstNetIsFirst(e);
    forall n ensures n in Preorder(e) <==> Contains(e, n) {
      InPreorder(e, n);
    }
    HasMarkerIffSomeNode(e);
    IsIffSomeNode(e, ConnRefused);
    IsIffSomeNode(e, ConnReset);
    IsIffSomeNode(e, Canceled);
    IsIffSomeNode(e, DeadlineExceeded);
  }

  ghost predicate NotReadyNode(n: Err) {
    n.Marker? || Carries(n, ConnRefused) || Carries(n, ConnReset)
  }

  ghost predicate ContextNode(n: Err) {
    Carries(n, Canceled) || Carries(n, DeadlineExceeded)
  }

  // Retryable marks every error, hides none, and leaves nil alone.
  lemma RetryableMarks(e: Err, t: Target)
    ensures Retryable(None) == None && !IsRetryable(None)
    ensures Retryable(Some(e)).Some? && IsRetryable(Retryable(Some(e)))
    ensures Is(Retryable(Some(e)).value, t) <==> Is(e, t)
  {
  }

  // A marker anywhere survives every wrapping around it, whatever else the tree carries:
  // context errors included.
  lemma MarkerSurvivesWrapping(t: Err, u: Err, e: Err)
    requires Contains(t, u) && Contains(u, Marker(e))
    ensures IsRetryable(Some(t))
    ensures forall x :: Is(e, x) ==> Is(t, x)
  {
    ContainsTransitive(t, u, Marker(e));
    HasMarkerIffSomeNode(t);
    assert exists n :: Contains(t, n) && n.Marker?;
    forall x | Is(e, x) ensures Is(t, x) {
      IsIffSomeNode(e, x);
      var n :| Contains(e, n) && Carries(n, x);
      assert Contains(Marker(e), n);
      ContainsTransitive(t, Marker(e), n);
      IsIffSomeNode(t, x);
    }
  }

  // A caller's own context error is terminal exactly when no node marks the tree as not ready.
  lemma ContextErrorTerminalIff(t: Err, c: Err)
    requires Contains(t, c) && ContextNode(c)
    ensures !IsRetryable(Some(t)) <==> forall n :: Contains(t, n) ==> !NotReadyNode(n)
  {
    HasMarkerIffSomeNode(t);
    IsIffSomeNode(t, ConnRefused);
    IsIffSomeNode(t, ConnReset);
    IsIffSomeNode(t, Canceled);
    IsIffSomeNode(t, DeadlineExceeded);
  }

  // Both the context's cause and the last backend error show through the readiness wait's error.
  lemma WaitErrorShowsBoth(cause: Err, last: Option<Err>, t: Target)
    ensures Is(WaitError(cause, last), t) <==> Is(cause, t) || (last.Some? && Is(last.value, t))
  {
    if last.Some? {
      assert forall k :: k in [cause, last.value] <==> k == cause || k == last.value;
    } else {
      assert forall k :: k in [cause] <==> k == cause;
    }
  }

  // Whether the error of an ended readiness wait is itself retryable, for every cause: it wraps the
  // last backend error too, and what either of them says counts.
  lemma WaitErrorRetryableIff(cause: Err, last: Option<Err>)
    ensures IsRetryable(Some(WaitError(cause, last))) <==>
            || NotReady(cause)
            || (last.Some? && NotReady(last.value))
            || (!OfContext(cause) && (last.Some? ==> !OfContext(last.value)) && TimesOut(cause, last))
  {
    var w := WaitError(cause, last);
    WaitErrorShowsBoth(cause, last, ConnRefused);
    WaitErrorShowsBoth(cause, last, ConnReset);
    WaitErrorShowsBoth(cause, last, Canceled);
    WaitErrorShowsBoth(cause, last, DeadlineExceeded);
    WaitErrorFirstNet(cause, last);
    assert forall k :: k in w.kids <==> k == cause || (last.Some? && k == last.value);
  }

  lemma FirstNetOfOne(e: Err)
    ensures FirstNetOf([e]) == FirstNet(e)
  {
    assert [e][1..] == [];
  }

  lemma WaitErrorFirstNet(cause: Err, last: Option<Err>)
    ensures (FirstNet(WaitError(cause, last)) == Some(true)) <==> TimesOut(cause, last)
  {
    FirstNetOfOne(cause);
    if last.Some? {
      assert [cause, last.value][1..] == [last.value];
      FirstNetOfOne(last.value);
    }
  }

  // The net.Error met first, in the cause and then in the last error, is a timeout.
  predicate TimesOut(cause: Err, last: Option<Err>) {
    if FirstNet(cause).Some? then FirstNet(cause) == Some(true)
    else last.Some? && FirstNet(last.value) == Some(true)
  }

  predicate OfContext(e: Err) {
    Is(e, Canceled) || Is(e, DeadlineExceeded)
  }

  // For a cause that is a context error: the cause does not make the error terminal once the last
  // backend error was a not-ready one.
  lemma WaitErrorOfContext(cause: Err, last: Option<Err>)
    requires OfContext(cause)
    ensures IsRetryable(Some(WaitError(cause, last))) <==> NotReady(cause) || (last.Some? && NotReady(last.value))
  {
    WaitErrorRetryableIff(cause, last);
  }

  // The cause of the ready timeout, registry.go:312-313: it wraps nothing, so the wait error is
  // retryable exactly when the last backend error is.
  const NOT_READY_IN: Err := Errorf([])

  lemma WaitErrorOfTimeout(last: Option<Err>)
    ensures IsRetryable(Some(WaitError(NOT_READY_IN, last))) <==> IsRetryable(last)
  {
    WaitErrorRetryableIff(NOT_READY_IN, last);
  }

  // An unmarked network timeout is enough, although no node of it is marked, refused or reset.
  lemma TimeoutStaysRetryable()
    ensures var e := Node({}, Some(true), []); !NotReady(e) && IsRetryable(Some(WaitError(NOT_READY_IN, Some(e))))
  {
    WaitErrorOfTimeout(Some(Node({}, Some(true), [])));
  }

  // A marker, or a refused or reset connection, somewhere in the tree.
  predicate NotReady(e: Err) {
    HasMarker(e) || Is(e, ConnRefused) || Is(e, ConnReset)
  }

  // ---- Errors of k8s/portforward.go ----

  // Line 156, and line 199 before it is wrapped.
  const BACKEND_STOPPED: Err := Plain(Sentinel("k8s: backend stopped"))

  // Lines 162 and 170: the cause wrapped by fmt.Errorf and marked Retryable.
  function Unready(inner: Err): Err {
    Marker(Errorf([inner]))
  }

  // An absent pod or service is retried, and still detected by errors.Is on the error the caller
  // gets when the wait ends.
  lemma TargetNotFoundReachesCaller(cause: Err, resolveErr: Err)
    requires Is(resolveErr, ERR_TARGET_NOT_FOUND)
    ensures IsRetryable(Some(Unready(resolveErr)))
    ensures Is(WaitError(cause, Some(Unready(resolveErr))), ERR_TARGET_NOT_FOUND)
  {
    var kids := [resolveErr];
    assert resolveErr in kids;
    assert Is(Errorf(kids), ERR_TARGET_NOT_FOUND);
    WaitErrorShowsBoth(cause, Some(Unready(resolveErr)), ERR_TARGET_NOT_FOUND);
  }

  // The two "stopped" errors of a dial differ: refused at entry it is terminal, met inside
  // ensureConn it is retryable.
  lemma StoppedErrorsDiffer()
    ensures !IsRetryable(Some(BACKEND_STOPPED))
    ensures IsRetryable(Some(Unready(BACKEND_STOPPED)))
  {
  }
}

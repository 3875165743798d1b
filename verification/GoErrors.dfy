// Go error values as trees, and errors.As as a search of those trees.
module GoErrors {
  import opened Types

  datatype Err =
    | Plain(msg: string)
    | StatusError(status: Status, patchTestsFailed: bool, cause: Option<Err>)
    | ExitError(code: int, cause: Option<Err>)
    | PoisonError(inner: Err)
    | Wrapped(inner: Err)       // fmt.Errorf with %w, retry.RetryableError
    | Joined(errs: seq<Err>)    // errors.Join

  // errors.As: the error itself first, then whatever it unwraps to, in order.
  function As(e: Err, p: Err -> bool): Option<Err>
    decreases e, 0
  {
    if p(e) then Some(e)
    else match e
      case Plain(_) => None
      case StatusError(_, _, cause) => if cause.Some? then As(cause.value, p) else None
      case ExitError(_, cause) => if cause.Some? then As(cause.value, p) else None
      case PoisonError(inner) => As(inner, p)
      case Wrapped(inner) => As(inner, p)
      case Joined(errs) => AsAny(errs, p)
  }

  function AsAny(errs: seq<Err>, p: Err -> bool): Option<Err>
    decreases errs, 0
  {
    if errs == [] then None
    else
      var first := As(errs[0], p);
      if first.Some? then first else AsAny(errs[1..], p)
  }

  // Every node of the tree, parents before children, left before right.
  function Nodes(e: Err): (ns: seq<Err>)
    ensures |ns| > 0 && ns[0] == e
    decreases e, 0
  {
    [e] + match e
      case Plain(_) => []
      case StatusError(_, _, cause) => if cause.Some? then Nodes(cause.value) else []
      case ExitError(_, cause) => if cause.Some? then Nodes(cause.value) else []
      case PoisonError(inner) => Nodes(inner)
      case Wrapped(inner) => Nodes(inner)
      case Joined(errs) => NodesOfAll(errs)
  }

  function NodesOfAll(errs: seq<Err>): seq<Err>
    decreases errs, 0
  {
    if errs == [] then [] else Nodes(errs[0]) + NodesOfAll(errs[1..])
  }

  ghost predicate IsFirst(found: Option<Err>, ns: seq<Err>, p: Err -> bool) {
    match found
    case None => forall i :: 0 <= i < |ns| ==> !p(ns[i])
    case Some(n) => exists i :: 0 <= i < |ns| && ns[i] == n && p(n) && forall j :: 0 <= j < i ==> !p(ns[j])
  }

  lemma FirstOfConcatenation(a: Option<Err>, b: Option<Err>, xs: seq<Err>, ys: seq<Err>, p: Err -> bool)
    requires IsFirst(a, xs, p) && IsFirst(b, ys, p)
    ensures IsFirst(if a.Some? then a else b, xs + ys, p)
  {
    if a.Some? {
      var i :| 0 <= i < |xs| && xs[i] == a.value && p(xs[i]) && forall j :: 0 <= j < i ==> !p(xs[j]);
      assert (xs + ys)[i] == a.value;
    } else if b.Some? {
      var i :| 0 <= i < |ys| && ys[i] == b.value && p(ys[i]) && forall j :: 0 <= j < i ==> !p(ys[j]);
      assert (xs + ys)[|xs| + i] == b.value;
    }
  }

  // errors.As finds the first matching node in that order.
  lemma {:induction false} AsFindsFirst(e: Err, p: Err -> bool)
    ensures IsFirst(As(e, p), Nodes(e), p)
    decreases e, 0
  {
    if p(e) {
      assert Nodes(e)[0] == e;
    } else {
      var rest := Nodes(e)[1..];
      assert Nodes(e) == [e] + rest;
      assert IsFirst(None, [e], p);
      match e {
        case Plain(_) =>
        case StatusError(_, _, cause) => if cause.Some? { AsFindsFirst(cause.value, p); }
        case ExitError(_, cause) => if cause.Some? { AsFindsFirst(cause.value, p); }
        case PoisonError(inner) => AsFindsFirst(inner, p);
        case Wrapped(inner) => AsFindsFirst(inner, p);
        case Joined(errs) => AsAnyFindsFirst(errs, p);
      }
      FirstOfConcatenation(None, As(e, p), [e], rest, p);
    }
  }

  lemma {:induction false} AsAnyFindsFirst(errs: seq<Err>, p: Err -> bool)
    ensures IsFirst(AsAny(errs, p), NodesOfAll(errs), p)
    decreases errs, 0
  {
    if errs != [] {
      AsFindsFirst(errs[0], p);
      AsAnyFindsFirst(errs[1..], p);
      FirstOfConcatenation(As(errs[0], p), AsAny(errs[1..], p), Nodes(errs[0]), NodesOfAll(errs[1..]), p);
    }
  }

  predicate IsStatus(e: Err) { e.StatusError? }

  function AsStatus(e: Err): (r: Option<Err>)
    ensures r.Some? ==> r.value.StatusError?
  {
    AsFindsFirst(e, IsStatus);
    As(e, IsStatus)
  }

  // Errors raised outside the worker's own packages: no StatusError anywhere inside.
  predicate Foreign(e: Err) {
    forall n :: n in Nodes(e) ==> !n.StatusError?
  }

  type ForeignError = e: Err | Foreign(e) witness Plain("")

  lemma ForeignHasNoStatus(e: ForeignError)
    ensures AsStatus(e) == None
  {
    AsFindsFirst(e, IsStatus);
  }

  // What an error, or its absence, makes the worker report.
  function Reported(outcome: Option<Err>): (Status, bool) {
    match outcome
    case None => (Passed, false)
    case Some(e) =>
      match AsStatus(e)
      case Some(se) => (se.status, se.patchTestsFailed)
      case None => (Errored, false)
  }

  // A status is seen through every way of wrapping an error, and an outer status hides the inner ones; of joined
  // errors the first with a status counts.
  lemma StatusSeenThrough(e: Err, code: int, status: Status, testsFailed: bool, before: seq<Err>, after: seq<Err>)
    requires forall i :: 0 <= i < |before| ==> AsStatus(before[i]).None?
    ensures AsStatus(Wrapped(e)) == AsStatus(e) && AsStatus(PoisonError(e)) == AsStatus(e)
    ensures AsStatus(ExitError(code, Some(e))) == AsStatus(e) && AsStatus(ExitError(code, None)).None?
    ensures AsStatus(StatusError(status, testsFailed, Some(e))) == Some(StatusError(status, testsFailed, Some(e)))
    ensures AsStatus(e).Some? ==> AsStatus(Joined(before + [e] + after)) == AsStatus(e)
  {
    JoinedSkips(before, [e] + after);
    assert before + [e] + after == before + ([e] + after);
    assert ([e] + after)[1..] == after;
  }

  lemma {:induction false} JoinedSkips(before: seq<Err>, rest: seq<Err>)
    requires forall i :: 0 <= i < |before| ==> AsStatus(before[i]).None?
    ensures AsAny(before + rest, IsStatus) == AsAny(rest, IsStatus)
    decreases |before|
  {
    if before == [] {
      assert before + rest == rest;
    } else {
      assert AsStatus(before[0]).None?;
      JoinedSkips(before[1..], rest);
      assert (before + rest)[1..] == before[1..] + rest;
    }
  }
}

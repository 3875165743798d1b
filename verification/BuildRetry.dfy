// The build stage: retried on any error, and judged by everything the attempts reported.
module BuildRetry {
  import opened Types
  import opened GoErrors
  import opened Engine

  // One attempt: whether the context is still alive when it would start, and how it goes.
  datatype Try = Try(alive: bool, tooling: Option<ForeignError>, exec: Exec)

  datatype BuildEnv = BuildEnv(tries: seq<Try>)
  {
    predicate Alive(i: nat) { i < |tries| && tries[i].alive }

    function Attempt(p: Params, i: nat): Option<Err>
      requires Alive(i)
    {
      BuildOnce(p, tries[i].tooling, tries[i].exec)
    }

    function AttemptClass(p: Params, i: nat): Class
      requires Alive(i)
    {
      BuildOnceClass(p, tries[i].tooling, tries[i].exec)
    }
  }

  const DEFAULT_MAX_RETRIES: nat := 3

  const BUILDING_ERRORED: Err := Plain("building errored")

  // The errors recorded from attempt i on; retrying ends at success, at the limit, or when the
  // context has expired.
  function Recorded(p: Params, env: BuildEnv, maxRetries: nat, i: nat): (errs: seq<Err>)
    requires i <= maxRetries
    decreases maxRetries - i
  {
    if !env.Alive(i) || env.Attempt(p, i).None? then []
    else
      [env.Attempt(p, i).value] + if i < maxRetries then Recorded(p, env, maxRetries, i + 1) else []
  }

  // Attempt k succeeds and nothing stops the retrying before it.
  predicate SucceedsAt(p: Params, env: BuildEnv, maxRetries: nat, k: nat) {
    && k <= maxRetries
    && (forall j :: 0 <= j <= k ==> env.Alive(j))
    && (forall j :: 0 <= j < k ==> env.Attempt(p, j).Some?)
    && env.Attempt(p, k).None?
  }

  predicate Succeeds(p: Params, env: BuildEnv, maxRetries: nat) {
    exists k | 0 <= k <= maxRetries :: SucceedsAt(p, env, maxRetries, k)
  }

  predicate Inexcusable(e: Err) {
    AsStatus(e).Some? && AsStatus(e).value.status != Errored
  }

  function Aggregate(errs: seq<Err>): Err {
    if forall e :: e in errs ==> Inexcusable(e) then Rejected(false, Some(BUILDING_FAILED)) else BUILDING_ERRORED
  }

  function BuildOutcome(p: Params, env: BuildEnv, maxRetries: nat): Option<Err> {
    if Succeeds(p, env, maxRetries) then None else Some(Aggregate(Recorded(p, env, maxRetries, 0)))
  }

  predicate FailedBefore(p: Params, env: BuildEnv, i: nat) {
    forall j :: 0 <= j < i ==> env.Alive(j) && env.Attempt(p, j).Some?
  }

  lemma OneMoreFailed(p: Params, env: BuildEnv, i: nat)
    requires FailedBefore(p, env, i) && env.Alive(i) && env.Attempt(p, i).Some?
    ensures FailedBefore(p, env, i + 1)
  {
  }

  // After the attempts before i, these errors are recorded and nothing has stopped the retrying.
  predicate RecordedSoFar(p: Params, env: BuildEnv, maxRetries: nat, i: nat, errs: seq<Err>) {
    && FailedBefore(p, env, i) && |errs| == i && i <= maxRetries + 1
    && Recorded(p, env, maxRetries, 0) == errs + RecordedRest(p, env, maxRetries, i)
  }

  function RecordedRest(p: Params, env: BuildEnv, maxRetries: nat, i: nat): seq<Err> {
    if i <= maxRetries then Recorded(p, env, maxRetries, i) else []
  }

  lemma RecordOneMore(p: Params, env: BuildEnv, maxRetries: nat, i: nat, errs: seq<Err>)
    requires RecordedSoFar(p, env, maxRetries, i, errs) && i <= maxRetries
    requires env.Alive(i) && env.Attempt(p, i).Some?
    ensures RecordedSoFar(p, env, maxRetries, i + 1, errs + [env.Attempt(p, i).value])
  {
    OneMoreFailed(p, env, i);
    var e, rest := env.Attempt(p, i).value, RecordedRest(p, env, maxRetries, i + 1);
    assert RecordedRest(p, env, maxRetries, i) == [e] + rest;
    assert errs + ([e] + rest) == errs + [e] + rest;
  }

  lemma RecordNoMore(p: Params, env: BuildEnv, maxRetries: nat, i: nat, errs: seq<Err>)
    requires RecordedSoFar(p, env, maxRetries, i, errs)
    requires i > maxRetries || !env.Alive(i) || env.Attempt(p, i).None?
    ensures errs == Recorded(p, env, maxRetries, 0)
  {
    assert RecordedRest(p, env, maxRetries, i) == [];
  }

  // The retry loop: the errors of the attempts made, and whether the last one succeeded.
  method Retry(p: Params, env: BuildEnv, maxRetries: nat) returns (errs: seq<Err>, built: bool)
    ensures errs == Recorded(p, env, maxRetries, 0)
    ensures |errs| + (if built then 1 else 0) <= maxRetries + 1
    ensures built <==> Succeeds(p, env, maxRetries)
  {
    errs := [];
    var i := 0;
    while i <= maxRetries && env.Alive(i)
      invariant 0 <= i <= maxRetries + 1
      invariant RecordedSoFar(p, env, maxRetries, i, errs)
      decreases maxRetries + 1 - i
    {
      var err := env.Attempt(p, i);
      if err.None? {
        RecordNoMore(p, env, maxRetries, i, errs);
        SucceededNow(p, env, maxRetries, i);
        return errs, true;
      }
      RecordOneMore(p, env, maxRetries, i, errs);
      errs := errs + [err.value];
      i := i + 1;
    }
    built := false;
    RecordNoMore(p, env, maxRetries, i, errs);
    StoppedWithoutSuccess(p, env, maxRetries, i);
  }

  lemma SucceededNow(p: Params, env: BuildEnv, maxRetries: nat, i: nat)
    requires i <= maxRetries && env.Alive(i) && env.Attempt(p, i).None?
    requires FailedBefore(p, env, i)
    ensures Succeeds(p, env, maxRetries)
  {
    assert SucceedsAt(p, env, maxRetries, i);
  }

  lemma StoppedWithoutSuccess(p: Params, env: BuildEnv, maxRetries: nat, i: nat)
    requires FailedBefore(p, env, i)
    requires i > maxRetries || !env.Alive(i)
    ensures !Succeeds(p, env, maxRetries)
  {
  }

  method Build(p: Params, env: BuildEnv, maxRetries: nat) returns (err: Option<Err>)
    ensures err == BuildOutcome(p, env, maxRetries)
  {
    var errs, built := Retry(p, env, maxRetries);
    if built {
      return None;
    }
    var i := 0;
    while i < |errs|
      invariant 0 <= i <= |errs|
      invariant forall j :: 0 <= j < i ==> Inexcusable(errs[j])
    {
      var se := AsStatus(errs[i]);
      if se.None? || se.value.status == Errored {
        assert errs[i] in errs && !Inexcusable(errs[i]);
        return Some(BUILDING_ERRORED);
      }
      i := i + 1;
    }
    err := Some(Rejected(false, Some(BUILDING_FAILED)));
  }

  // The verdict over a failed build does not depend on the order in which attempts failed.
  lemma OrderDoesNotMatter(errs: seq<Err>, errs': seq<Err>)
    requires multiset(errs) == multiset(errs')
    ensures Aggregate(errs) == Aggregate(errs')
  {
    assert forall e :: e in errs <==> e in multiset(errs);
    assert forall e :: e in errs' <==> e in multiset(errs');
  }

  // Attempt i was made and failed.
  predicate FailedAttempt(p: Params, env: BuildEnv, maxRetries: nat, i: nat) {
    && i <= maxRetries && env.Alive(i)
    && forall j :: 0 <= j <= i ==> env.Alive(j) && env.Attempt(p, j).Some?
  }

  lemma {:induction false} RecordedAttempts(p: Params, env: BuildEnv, maxRetries: nat, i: nat)
    requires i <= maxRetries
    requires forall j :: 0 <= j < i ==> env.Alive(j) && env.Attempt(p, j).Some?
    ensures forall k :: i <= k < i + |Recorded(p, env, maxRetries, i)| ==>
              FailedAttempt(p, env, maxRetries, k) && Recorded(p, env, maxRetries, i)[k - i] == env.Attempt(p, k).value
    ensures forall k :: k >= i && FailedAttempt(p, env, maxRetries, k) ==> k < i + |Recorded(p, env, maxRetries, i)|
    decreases maxRetries - i
  {
    if env.Alive(i) && env.Attempt(p, i).Some? && i < maxRetries {
      RecordedAttempts(p, env, maxRetries, i + 1);
    } else if !(env.Alive(i) && env.Attempt(p, i).Some?) {
      assert forall k :: k >= i ==> !FailedAttempt(p, env, maxRetries, k);
    }
  }

  // Every attempt made was refused by the build script itself.
  predicate AllRefused(p: Params, env: BuildEnv, maxRetries: nat) {
    forall i | 0 <= i <= maxRetries && FailedAttempt(p, env, maxRetries, i) ::
      env.AttemptClass(p, i) == Bad(false)
  }

  function BuildClass(p: Params, env: BuildEnv, maxRetries: nat): Class {
    if Succeeds(p, env, maxRetries) then Good
    else if AllRefused(p, env, maxRetries) then Bad(false)
    else Broken
  }

  // A build succeeds iff some attempt does; otherwise it is failed iff every attempt made was
  // refused with the mismatch code and no network excuse, and errored in every other case.
  lemma BuildClassified(p: Params, env: BuildEnv, maxRetries: nat)
    ensures BuildOutcome(p, env, maxRetries).None? <==> BuildClass(p, env, maxRetries) == Good
    ensures Reported(BuildOutcome(p, env, maxRetries)) == ClassReport(BuildClass(p, env, maxRetries))
  {
    if !Succeeds(p, env, maxRetries) {
      var errs := Recorded(p, env, maxRetries, 0);
      RecordedAttempts(p, env, maxRetries, 0);
      forall i | 0 <= i < |errs|
        ensures FailedAttempt(p, env, maxRetries, i) && errs[i] == env.Attempt(p, i).value
        ensures Inexcusable(errs[i]) <==> env.AttemptClass(p, i) == Bad(false)
      {
        assert FailedAttempt(p, env, maxRetries, i);
        InexcusableAttempt(p, env, i);
      }
      if AllRefused(p, env, maxRetries) {
        assert forall e :: e in errs ==> Inexcusable(e);
      } else {
        var i :| 0 <= i <= maxRetries && FailedAttempt(p, env, maxRetries, i) &&
                 env.AttemptClass(p, i) != Bad(false);
        assert errs[i] in errs;
      }
    }
  }

  lemma InexcusableAttempt(p: Params, env: BuildEnv, i: nat)
    requires env.Alive(i) && env.Attempt(p, i).Some?
    ensures Inexcusable(env.Attempt(p, i).value) <==>
            env.AttemptClass(p, i) == Bad(false)
  {
    BuildOnceClassified(p, env.tries[i].tooling, env.tries[i].exec);
    var e := env.Attempt(p, i).value;
    if Foreign(e) {
      ForeignHasNoStatus(e);
    }
  }

  // Every attempt the retrying gets to finds the context alive.
  predicate NeverCutShort(p: Params, env: BuildEnv, maxRetries: nat) {
    forall i :: 0 <= i <= maxRetries && FailedBefore(p, env, i) ==> env.Alive(i)
  }

  // While the context is alive, a build reported failed had its first attempt refused.
  lemma RefusedBuildWasAttempted(p: Params, env: BuildEnv, maxRetries: nat)
    requires env.Alive(0) && BuildClass(p, env, maxRetries) == Bad(false)
    ensures env.AttemptClass(p, 0) == Bad(false)
  {
    if env.Attempt(p, 0).None? {
      assert SucceedsAt(p, env, maxRetries, 0);
    } else {
      assert FailedAttempt(p, env, maxRetries, 0);
    }
  }

  // A context that was dead before the first attempt leaves nothing recorded, and the build is
  // reported failed although no attempt was made.
  lemma DeadContextReportsFailed(p: Params, env: BuildEnv, maxRetries: nat)
    requires !env.Alive(0)
    ensures Recorded(p, env, maxRetries, 0) == []
    ensures Reported(BuildOutcome(p, env, maxRetries)) == (Failed, false)
  {
    StoppedWithoutSuccess(p, env, maxRetries, 0);
  }

  // With the default number of retries a build is attempted at most four times: four failures end it, and only an
  // attempt among the first four can make it succeed.
  lemma AtMostFourAttempts(p: Params, env: BuildEnv)
    ensures |Recorded(p, env, DEFAULT_MAX_RETRIES, 0)| <= 4
    ensures |Recorded(p, env, DEFAULT_MAX_RETRIES, 0)| == 4 <==> FailedBefore(p, env, 4)
    ensures Succeeds(p, env, DEFAULT_MAX_RETRIES) <==>
              exists k :: 0 <= k < 4 && FailedBefore(p, env, k) && env.Alive(k) && env.Attempt(p, k).None?
  {
    RecordedAttempts(p, env, DEFAULT_MAX_RETRIES, 0);
    var n := |Recorded(p, env, DEFAULT_MAX_RETRIES, 0)|;
    if n > 3 {
      assert FailedAttempt(p, env, DEFAULT_MAX_RETRIES, 3);
      assert n > 4 ==> FailedAttempt(p, env, DEFAULT_MAX_RETRIES, 4);
    }
    if FailedBefore(p, env, 4) {
      assert FailedAttempt(p, env, DEFAULT_MAX_RETRIES, 3);
    }
    if k :| 0 <= k < 4 && FailedBefore(p, env, k) && env.Alive(k) && env.Attempt(p, k).None? {
      SucceededNow(p, env, DEFAULT_MAX_RETRIES, k);
    }
    if Succeeds(p, env, DEFAULT_MAX_RETRIES) {
      var k :| 0 <= k <= DEFAULT_MAX_RETRIES && SucceedsAt(p, env, DEFAULT_MAX_RETRIES, k);
      assert FailedBefore(p, env, k);
    }
  }
}

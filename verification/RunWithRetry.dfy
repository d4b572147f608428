/** Retrying a sub-task on its runner: which status and which payload the scheduler gets in the end. */
module RunWithRetry {
  import opened Common
  import opened RunResults

  datatype Attempt<B> =
    | Returned(status: Status, payload: seq<Exp<B>>)
    | TimedOut(message: string)
    | Broke(message: string)
    | Cancelled

  /** run_task: completed runs without a single experience are an error; evaluation keeps no experiences. */
  function RunTask<B>(status: Status, exps: seq<Exp<B>>, isEval: bool): (a: Attempt<B>)
    ensures a.Returned?
    ensures status.completedRuns == 0 && exps == [] ==> a.payload == []
    ensures a.status.completedRuns > 0 ==> a.status == status && exps != []
    ensures a.payload == if isEval then [] else exps
    ensures a.status.totalRuns == status.totalRuns
    ensures a.status != status <==> status.completedRuns > 0 && exps == []
    ensures a.status != status ==> !a.status.Ok() || a.status.totalRuns == 0
  {
    if status.completedRuns > 0 && exps == []
        then Returned(Status(0, status.totalRuns, Some("An empty experience is generated")), [])
    else Returned(status, if isEval then [] else exps)
  }

  /** No run completed, no experience: true of everything run_task returns for an aggregate of run results. */
  predicate Faithful<B>(a: Attempt<B>) {
    a.Returned? && a.status.completedRuns == 0 ==> a.payload == []
  }

  lemma {:induction false} NothingCompletedNothingKept<B>(base: nat, rs: seq<RunResult<B>>)
    ensures Completed(rs) == 0 ==> Experiences(base, rs) == []
  {
    if rs != [] { NothingCompletedNothingKept(base, rs[..|rs| - 1]); }
  }

  lemma AggregatesAreFaithful<B>(total: nat, base: nat, rs: seq<RunResult<B>>, say: (nat, string) -> string,
                                 isEval: bool)
    ensures Faithful(RunTask(StatusOf(total, rs, say), Experiences(base, rs), isEval))
  {
    NothingCompletedNothingKept(base, rs);
  }

  predicate Ends<B>(a: Attempt<B>, collectPartialRuns: bool) {
    a.Returned? && (a.status.Ok() || (collectPartialRuns && a.status.completedRuns > 0))
  }

  /** The outcome of the attempts that remain, given the status and payload kept so far; None when cancelled. */
  function Retry<B>(attempts: seq<Attempt<B>>, status: Status, payload: seq<Exp<B>>,
                    collectPartialRuns: bool): Option<(Status, seq<Exp<B>>)> {
    if attempts == [] then Some((status, payload))
    else
      var a, rest := attempts[0], attempts[1..];
      match a
      case Cancelled => None
      case TimedOut(m) => Retry(rest, Status(0, status.totalRuns, Some(m)), payload, collectPartialRuns)
      case Broke(m) => Retry(rest, Status(0, status.totalRuns, Some(m)), payload, collectPartialRuns)
      case Returned(s, p) => if Ends(a, collectPartialRuns) then Some((s, p)) else Retry(rest, s, p, collectPartialRuns)
  }

  // ---- what settles the matter --------------------------------------------------------------

  /** All runs completed, or some when partial results are kept. */
  predicate Settles<B>(a: Attempt<B>, collect: bool) {
    && a.Returned?
    && (a.status.completedRuns == a.status.totalRuns || (collect && a.status.completedRuns > 0))
  }

  /** The first n attempts neither succeed nor are cancelled. */
  predicate Undecided<B>(attempts: seq<Attempt<B>>, collect: bool, n: nat)
    requires n <= |attempts|
  {
    forall i :: 0 <= i < n ==> !attempts[i].Cancelled? && !Settles(attempts[i], collect)
  }

  predicate FirstSuccess<B>(attempts: seq<Attempt<B>>, collect: bool, k: int) {
    0 <= k < |attempts| && Undecided(attempts, collect, k) && Settles(attempts[k], collect)
  }

  predicate FirstCancelled<B>(attempts: seq<Attempt<B>>, collect: bool, k: int) {
    0 <= k < |attempts| && Undecided(attempts, collect, k) && attempts[k].Cancelled?
  }

  predicate NeverSettled<B>(attempts: seq<Attempt<B>>, collect: bool) {
    Undecided(attempts, collect, |attempts|)
  }

  /** The status after the last attempt; nothing is completed when it timed out or broke down. */
  function LastStatus<B>(attempts: seq<Attempt<B>>, repeatTimes: nat): Status {
    if attempts == [] then Status(0, repeatTimes, None)
    else
      match attempts[|attempts| - 1]
      case Returned(s, _) => s
      case TimedOut(m) => Status(0, repeatTimes, Some(m))
      case Broke(m) => Status(0, repeatTimes, Some(m))
      case Cancelled => Status(0, repeatTimes, None)
  }

  /** The payload of the last attempt that returned, or none. */
  predicate IsLastPayload<B(==)>(attempts: seq<Attempt<B>>, payload: seq<Exp<B>>) {
    || ((forall i :: 0 <= i < |attempts| ==> !attempts[i].Returned?) && payload == [])
    || exists i :: 0 <= i < |attempts| && attempts[i].Returned? && attempts[i].payload == payload
                && forall j :: i < j < |attempts| ==> !attempts[j].Returned?
  }

  lemma {:induction false} SuccessSettles<B>(attempts: seq<Attempt<B>>, status: Status, payload: seq<Exp<B>>,
                                             collect: bool, k: nat)
    requires FirstSuccess(attempts, collect, k)
    ensures Retry(attempts, status, payload, collect) == Some((attempts[k].status, attempts[k].payload))
    decreases k
  {
    if k > 0 {
      var a := attempts[0];
      assert !a.Cancelled? && !Settles(a, collect);
      assert forall i :: 0 <= i < |attempts| - 1 ==> attempts[1..][i] == attempts[i + 1];
      SuccessSettles(attempts[1..], if a.Returned? then a.status else Status(0, status.totalRuns, Some(a.message)),
                     if a.Returned? then a.payload else payload, collect, k - 1);
    }
  }

  lemma {:induction false} CancellationSettles<B>(attempts: seq<Attempt<B>>, status: Status, payload: seq<Exp<B>>,
                                                  collect: bool, k: nat)
    requires FirstCancelled(attempts, collect, k)
    ensures Retry(attempts, status, payload, collect) == None
    decreases k
  {
    if k > 0 {
      var a := attempts[0];
      assert !a.Cancelled? && !Settles(a, collect);
      assert forall i :: 0 <= i < |attempts| - 1 ==> attempts[1..][i] == attempts[i + 1];
      CancellationSettles(attempts[1..], if a.Returned? then a.status else Status(0, status.totalRuns, Some(a.message)),
                          if a.Returned? then a.payload else payload, collect, k - 1);
    }
  }

  /** Without a success all attempts are made: the last one's status, the last returned payload. */
  lemma {:induction false} AllAreMade<B>(attempts: seq<Attempt<B>>, status: Status, payload: seq<Exp<B>>, collect: bool)
    requires NeverSettled(attempts, collect)
    requires forall i :: 0 <= i < |attempts| && attempts[i].Returned? ==>
        attempts[i].status.totalRuns == status.totalRuns
    ensures var r := Retry(attempts, status, payload, collect);
            && r.Some?
            && r.value.0 == (if attempts == [] then status else LastStatus(attempts, status.totalRuns))
            && (if forall i :: 0 <= i < |attempts| ==> !attempts[i].Returned? then r.value.1 == payload
                else IsLastPayload(attempts, r.value.1))
    decreases |attempts|
  {
    if attempts != [] {
      var a, rest := attempts[0], attempts[1..];
      assert !a.Cancelled? && !Settles(a, collect);
      assert forall i :: 0 <= i < |rest| ==> rest[i] == attempts[i + 1];
      var s := if a.Returned? then a.status else Status(0, status.totalRuns, Some(a.message));
      AllAreMade(rest, s, if a.Returned? then a.payload else payload, collect);
      var p := Retry(attempts, status, payload, collect).value.1;
      if forall i :: 0 <= i < |rest| ==> !rest[i].Returned? {
        assert forall j :: 0 < j < |attempts| ==> attempts[j] == rest[j - 1];
      } else {
        var i :| 0 <= i < |rest| && rest[i].Returned? && rest[i].payload == p
            && forall j :: i < j < |rest| ==> !rest[j].Returned?;
        assert attempts[i + 1].Returned? && attempts[i + 1].payload == p;
        assert forall j :: i + 1 < j < |attempts| ==> attempts[j] == rest[j - 1];
      }
    }
  }

  /**
   What the first successful attempt of a train sub-task collected is handed over whole: under each run's id exactly
   what that run returned, and as many completed runs as finished.
   */
  lemma SuccessDelivers<B>(attempts: seq<Attempt<B>>, collect: bool, k: nat, total: nat, base: nat,
                           rs: seq<RunResult<B>>, say: (nat, string) -> string, i: nat)
    requires FirstSuccess(attempts, collect, k) && OnlyOne(rs, i) && |rs| <= total
    requires attempts[k] == RunTask(StatusOf(total, rs, say), Experiences(base, rs), false)
    ensures var r := Retry(attempts, Status(0, total, None), [], collect);
            && r.Some?
            && BodiesOf(r.value.1, base + rs[i].index)
               == (if rs[i].outcome.Finished? then rs[i].outcome.bodies else [])
            && |r.value.1| == SizeOfAll(rs)
            && r.value.0.completedRuns == |FinishedAt(rs)|
  {
    SuccessSettles(attempts, Status(0, total, None), [], collect, k);
    EachRunsBodies(base, rs, i);
    ExperiencesCount(base, rs);
    CompletedCounts(rs);
  }

  /** `attempts` holds what each of the retry_times + 1 attempts would do. */
  method RunWithRetry<B>(attempts: seq<Attempt<B>>, repeatTimes: nat, collectPartialRuns: bool)
    returns (r: Option<(Status, seq<Exp<B>>)>)
    requires forall i :: 0 <= i < |attempts| && attempts[i].Returned? ==> attempts[i].status.totalRuns == repeatTimes
    ensures r == Retry(attempts, Status(0, repeatTimes, None), [], collectPartialRuns)
    ensures forall k :: FirstSuccess(attempts, collectPartialRuns, k) ==>
              r == Some((attempts[k].status, attempts[k].payload))
    ensures forall k :: FirstCancelled(attempts, collectPartialRuns, k) ==> r == None
    ensures NeverSettled(attempts, collectPartialRuns) ==>
              && r.Some?
              && r.value.0 == LastStatus(attempts, repeatTimes)
              && IsLastPayload(attempts, r.value.1)
  {
    forall k | FirstSuccess(attempts, collectPartialRuns, k) {
      SuccessSettles(attempts, Status(0, repeatTimes, None), [], collectPartialRuns, k);
    }
    forall k | FirstCancelled(attempts, collectPartialRuns, k) {
      CancellationSettles(attempts, Status(0, repeatTimes, None), [], collectPartialRuns, k);
    }
    if NeverSettled(attempts, collectPartialRuns) {
      AllAreMade(attempts, Status(0, repeatTimes, None), [], collectPartialRuns);
    }
    var status, expPayload := Status(0, repeatTimes, None), [];
    for attempt := 0 to |attempts|
      invariant status.totalRuns == repeatTimes
      invariant Retry(attempts[attempt..], status, expPayload, collectPartialRuns)
             == Retry(attempts, Status(0, repeatTimes, None), [], collectPartialRuns)
    {
      assert attempts[attempt..][1..] == attempts[attempt + 1..];
      match attempts[attempt] {
        case Cancelled => return None;
        case TimedOut(m) => status := Status(0, repeatTimes, Some(m));
        case Broke(m) => status := Status(0, repeatTimes, Some(m));
        case Returned(s, p) =>
          status, expPayload := s, p;
          if status.Ok() || (collectPartialRuns && status.completedRuns > 0) { return Some((status, expPayload)); }
      }
    }
    return Some((status, expPayload));
  }

  // ---- does the payload belong to the status? -----------------------------------------------

  /** How many attempts are made. */
  function Used<B>(attempts: seq<Attempt<B>>, collectPartialRuns: bool): (n: nat)
    ensures n <= |attempts| && (attempts != [] ==> n > 0)
  {
    if attempts == [] then 0
    else if attempts[0].Cancelled? || Ends(attempts[0], collectPartialRuns) then 1
    else 1 + Used(attempts[1..], collectPartialRuns)
  }

  /** The payload of the last attempt that returned at all. */
  function LastPayload<B>(attempts: seq<Attempt<B>>, before: seq<Exp<B>>): seq<Exp<B>> {
    if attempts == [] then before
    else LastPayload(attempts[1..], if attempts[0].Returned? then attempts[0].payload else before)
  }

  /** The last attempt made timed out or broke down after an earlier one had returned experiences. */
  predicate Stale<B>(attempts: seq<Attempt<B>>, collectPartialRuns: bool) {
    var n := Used(attempts, collectPartialRuns);
    n > 0 && !attempts[n - 1].Returned? && LastPayload(attempts[..n], []) != []
  }

  predicate AllFaithful<B>(attempts: seq<Attempt<B>>) {
    forall i :: 0 <= i < |attempts| ==> Faithful(attempts[i]) && !attempts[i].Cancelled?
  }

  /** The status is that of the last attempt made, the payload that of the last one that returned. */
  lemma {:induction false} RetryResult<B>(attempts: seq<Attempt<B>>, status: Status, payload: seq<Exp<B>>,
                                          collect: bool)
    requires AllFaithful(attempts)
    ensures var r, n := Retry(attempts, status, payload, collect), Used(attempts, collect);
            && r.Some? && r.value.1 == LastPayload(attempts[..n], payload)
            && (if n == 0 then r.value.0 == status
                else if attempts[n - 1].Returned? then r.value == (attempts[n - 1].status, attempts[n - 1].payload)
                else r.value.0.completedRuns == 0)
    decreases |attempts|
  {
    if attempts == [] {
      assert attempts[..0] == [];
    } else {
      var a, rest, n := attempts[0], attempts[1..], Used(attempts, collect);
      assert Faithful(a) && !a.Cancelled?;
      if Ends(a, collect) {
        assert attempts[..1] == [a] && [a][1..] == [];
      } else {
        var kept := if a.Returned? then a.payload else payload;
        var s := if a.Returned? then a.status else Status(0, status.totalRuns, Some(a.message));
        assert forall i :: 0 <= i < |rest| ==> rest[i] == attempts[i + 1];
        RetryResult(rest, s, kept, collect);
        assert attempts[..n][1..] == rest[..n - 1] && attempts[..n][0] == a;
        assert n > 1 ==> attempts[n - 1] == rest[n - 2];
        if n == 1 { assert rest == []; }
      }
    }
  }

  /** A status that reports no completed run comes with no experiences, exactly when the payload is not stale. */
  lemma PayloadMatchesStatusIff<B>(attempts: seq<Attempt<B>>, repeatTimes: nat, collect: bool)
    requires AllFaithful(attempts)
    ensures var r := Retry(attempts, Status(0, repeatTimes, None), [], collect);
            && r.Some?
            && ((r.value.0.completedRuns == 0 ==> r.value.1 == []) <==> !Stale(attempts, collect))
  {
    RetryResult(attempts, Status(0, repeatTimes, None), [], collect);
    var n := Used(attempts, collect);
    if n > 0 && attempts[n - 1].Returned? {
      assert Faithful(attempts[n - 1]);
    } else if n == 0 {
      assert attempts[..0] == [];
    }
  }

  /**
   What a sub-task hands over is the payload of a single attempt, with that attempt's run ids, or what was kept before.
   */
  lemma {:induction false} OneAttemptDelivers<B>(attempts: seq<Attempt<B>>, status: Status, payload: seq<Exp<B>>,
                                                 collect: bool)
    ensures var r := Retry(attempts, status, payload, collect);
            r.Some? ==>
              || r.value.1 == payload
              || exists i :: 0 <= i < |attempts| && attempts[i].Returned? && attempts[i].payload == r.value.1
    decreases |attempts|
  {
    if attempts != [] && !attempts[0].Cancelled? && !Ends(attempts[0], collect) {
      var a, rest := attempts[0], attempts[1..];
      var kept := if a.Returned? then a.payload else payload;
      var s := if a.Returned? then a.status else Status(0, status.totalRuns, Some(a.message));
      OneAttemptDelivers(rest, s, kept, collect);
      var r := Retry(rest, s, kept, collect);
      if i :| 0 <= i < |rest| && rest[i].Returned? && r.Some? && rest[i].payload == r.value.1 {
        assert attempts[i + 1].payload == r.value.1;
      }
    }
  }

  lemma {:induction false} LastPayloadEmpty<B>(attempts: seq<Attempt<B>>)
    requires forall i :: 0 <= i < |attempts| && attempts[i].Returned? ==> attempts[i].payload == []
    ensures LastPayload(attempts, []) == []
  {
    if attempts != [] {
      assert attempts[0].Returned? ==> attempts[0].payload == [];
      LastPayloadEmpty(attempts[1..]);
    }
  }

  lemma {:induction false} EarlierAttemptsDoNotEnd<B>(attempts: seq<Attempt<B>>, collect: bool, i: nat)
    requires i < Used(attempts, collect) - 1
    ensures !Ends(attempts[i], collect)
    decreases |attempts|
  {
    if i > 0 { EarlierAttemptsDoNotEnd(attempts[1..], collect, i - 1); }
  }

  /** When partial successes are kept, the payload is never stale. */
  lemma PartialCollectionIsNeverStale<B>(attempts: seq<Attempt<B>>)
    requires AllFaithful(attempts)
    ensures !Stale(attempts, true)
  {
    var n := Used(attempts, true);
    if n > 0 && !attempts[n - 1].Returned? {
      forall i | 0 <= i < n && attempts[..n][i].Returned? ensures attempts[..n][i].payload == [] {
        EarlierAttemptsDoNotEnd(attempts, true, i);
        assert Faithful(attempts[i]);
      }
      LastPayloadEmpty(attempts[..n]);
    }
  }

  /** Without it, a timeout after a partial success reports nothing completed and still hands over experiences. */
  lemma TimeoutAfterPartialSuccess<B>(e: Exp<B>)
    ensures var attempts := [Returned(Status(1, 2, Some("one run failed")), [e]), TimedOut("too slow")];
            && AllFaithful(attempts) && Stale(attempts, false)
            && Retry(attempts, Status(0, 2, None), [], false) == Some((Status(0, 2, Some("too slow")), [e]))
  {
    var attempts: seq<Attempt<B>> := [Returned(Status(1, 2, Some("one run failed")), [e]), TimedOut("too slow")];
    assert attempts[1..] == [TimedOut("too slow")] && attempts[1..][1..] == [];
    var first := Status(1, 2, Some("one run failed"));
    assert Retry(attempts[1..], first, [e], false)
        == Retry(attempts[1..][1..], Status(0, 2, Some("too slow")), [e], false);
    assert Retry(attempts, Status(0, 2, None), [], false) == Retry(attempts[1..], first, [e], false);
    assert Used(attempts[1..], false) == 1;
    assert attempts[..2] == attempts;
    assert LastPayload(attempts[1..], [e]) == LastPayload(attempts[1..][1..], [e]);
  }
}

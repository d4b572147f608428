/** What a workflow runner makes of the results of single runs, and of several attempts. */
module RunResults {
  import opened Common
  import opened SubTasks

  /** What one run of the workflow does: return experiences or raise. */
  datatype Outcome<B> = Finished(bodies: seq<B>) | Raised(error: string)

  /** An experience with the run id it is given. */
  datatype Exp<B> = Exp(run: nat, body: B)

  datatype RunResult<B> = RunResult(index: nat, outcome: Outcome<B>)

  datatype Status = Status(completedRuns: nat, totalRuns: nat, message: Option<string>) {
    predicate Ok() { completedRuns == totalRuns }
  }

  function Label<B>(base: nat, r: RunResult<B>): (exps: seq<Exp<B>>)
    ensures forall i :: 0 <= i < |exps| ==> exps[i].run == base + r.index
  {
    match r.outcome
    case Raised(_) => []
    case Finished(bodies) => seq(|bodies|, i requires 0 <= i < |bodies| => Exp(base + r.index, bodies[i]))
  }

  function Experiences<B>(base: nat, rs: seq<RunResult<B>>): seq<Exp<B>> {
    if rs == [] then [] else Experiences(base, rs[..|rs| - 1]) + Label(base, rs[|rs| - 1])
  }

  function Completed<B>(rs: seq<RunResult<B>>): (n: nat)
    ensures n <= |rs|
  {
    if rs == [] then 0 else Completed(rs[..|rs| - 1]) + if rs[|rs| - 1].outcome.Finished? then 1 else 0
  }

  function FirstError<B>(rs: seq<RunResult<B>>): Option<string> {
    if rs == [] then None
    else
      match FirstError(rs[..|rs| - 1])
      case Some(e) => Some(e)
      case None => match rs[|rs| - 1].outcome case Raised(e) => Some(e) case Finished(_) => None
  }

  /** The status message; `say` is the text for a partial success. */
  function Message(completed: nat, firstError: Option<string>, say: (nat, string) -> string): Option<string> {
    match firstError
    case None => None
    case Some(e) => Some(if completed > 0 then say(completed, e) else e)
  }

  function StatusOf<B>(total: nat, rs: seq<RunResult<B>>, say: (nat, string) -> string): Status {
    Status(Completed(rs), total, Message(Completed(rs), FirstError(rs), say))
  }

  /** Results of different runs out of `outcomes`, in any order. */
  ghost predicate ResultsOf<B>(outcomes: seq<Outcome<B>>, rs: seq<RunResult<B>>) {
    && (forall i :: 0 <= i < |rs| ==> rs[i].index < |outcomes| && rs[i].outcome == outcomes[rs[i].index])
    && (forall i, j :: 0 <= i < j < |rs| ==> rs[i].index != rs[j].index)
  }

  function InOrder<B>(outcomes: seq<Outcome<B>>, n: nat): (rs: seq<RunResult<B>>)
    requires n <= |outcomes|
    ensures |rs| == n && forall i :: 0 <= i < n ==> rs[i] == RunResult(i, outcomes[i])
  {
    seq(n, i requires 0 <= i < n => RunResult(i, outcomes[i]))
  }

  /** How many runs a sequential execution makes: without partial collection it stops behind the first failure. */
  function Executed<B>(outcomes: seq<Outcome<B>>, collectPartialRuns: bool): (n: nat)
    ensures n <= |outcomes|
  {
    if collectPartialRuns || outcomes == [] then |outcomes|
    else
      var n := Executed(outcomes[..|outcomes| - 1], false);
      if n > 0 && outcomes[n - 1].Raised? then n else |outcomes|
  }

  // ---- lemmas -------------------------------------------------------------------------------

  ghost predicate ComesFrom<B>(e: Exp<B>, base: nat, r: RunResult<B>) {
    r.outcome.Finished? && e.body in r.outcome.bodies && e.run == base + r.index
  }

  /** Every experience of the aggregate comes from a finished run and carries that run's id. */
  lemma {:induction false} ExperienceOrigin<B>(base: nat, rs: seq<RunResult<B>>, e: Exp<B>)
    requires e in Experiences(base, rs)
    ensures exists i :: 0 <= i < |rs| && ComesFrom(e, base, rs[i])
  {
    var n := |rs| - 1;
    if e in Experiences(base, rs[..n]) {
      ExperienceOrigin(base, rs[..n], e);
      var i :| 0 <= i < n && ComesFrom(e, base, rs[..n][i]);
      assert ComesFrom(e, base, rs[i]);
    } else {
      assert e in Label(base, rs[n]);
      assert ComesFrom(e, base, rs[n]);
    }
  }

  /** And none is lost: a finished run's experiences are all there. */
  lemma {:induction false} ExperienceKept<B>(base: nat, rs: seq<RunResult<B>>, i: nat, b: B)
    requires i < |rs| && rs[i].outcome.Finished? && b in rs[i].outcome.bodies
    ensures Exp(base + rs[i].index, b) in Experiences(base, rs)
  {
    var n := |rs| - 1;
    if i < n {
      ExperienceKept(base, rs[..n], i, b);
    } else {
      var k :| 0 <= k < |rs[i].outcome.bodies| && rs[i].outcome.bodies[k] == b;
      assert Label(base, rs[n])[k] == Exp(base + rs[i].index, b);
    }
  }

  /** How many experiences a result brings. */
  function SizeOf<B>(r: RunResult<B>): nat {
    match r.outcome
    case Raised(_) => 0
    case Finished(bodies) => |bodies|
  }

  function SizeOfAll<B>(rs: seq<RunResult<B>>): nat {
    if rs == [] then 0 else SizeOfAll(rs[..|rs| - 1]) + SizeOf(rs[|rs| - 1])
  }

  lemma ExperiencesSnoc<B>(base: nat, rs: seq<RunResult<B>>, r: RunResult<B>)
    ensures Experiences(base, rs + [r]) == Experiences(base, rs) + Label(base, r)
  {
    assert (rs + [r])[..|rs|] == rs;
  }

  lemma {:induction false} ExperiencesConcat<B>(base: nat, a: seq<RunResult<B>>, b: seq<RunResult<B>>)
    ensures Experiences(base, a + b) == Experiences(base, a) + Experiences(base, b)
    decreases |b|
  {
    if b == [] {
      assert a + b == a;
    } else {
      var c, r := b[..|b| - 1], b[|b| - 1];
      assert b == c + [r];
      ConcatAssociates(a, c, [r]);
      ExperiencesSnoc(base, a + c, r);
      ExperiencesConcat(base, a, c);
      ConcatAssociates(Experiences(base, a), Experiences(base, c), Label(base, r));
    }
  }

  /** What lies before a result's experiences and what lies behind them. */
  lemma Around<B>(base: nat, rs: seq<RunResult<B>>, i: nat)
    requires i < |rs|
    ensures Experiences(base, rs)
         == Experiences(base, rs[..i]) + Label(base, rs[i]) + Experiences(base, rs[i + 1..])
  {
    assert rs[..i + 1][..i] == rs[..i] && rs == rs[..i + 1] + rs[i + 1..];
    ExperiencesConcat(base, rs[..i + 1], rs[i + 1..]);
  }

  lemma {:induction false} ExperiencesCount<B>(base: nat, rs: seq<RunResult<B>>)
    ensures |Experiences(base, rs)| == SizeOfAll(rs)
  {
    if rs != [] { ExperiencesCount(base, rs[..|rs| - 1]); }
  }

  /**
   The experiences lie result by result in the order of the results, each finished run's bodies in their order and
   once each under that run's id, and there is nothing else.
   */
  lemma ExperiencesLaidOut<B>(base: nat, rs: seq<RunResult<B>>, i: nat, k: nat)
    requires i < |rs| && k < SizeOf(rs[i])
    ensures var exps, at := Experiences(base, rs), SizeOfAll(rs[..i]) + k;
            at < |exps| == SizeOfAll(rs) && exps[at] == Exp(base + rs[i].index, rs[i].outcome.bodies[k])
  {
    Around(base, rs, i);
    ExperiencesCount(base, rs);
    ExperiencesCount(base, rs[..i]);
  }

  /** The bodies that carry a run id, in order. */
  function BodiesOf<B>(exps: seq<Exp<B>>, run: nat): seq<B> {
    if exps == [] then []
    else
      var e := exps[|exps| - 1];
      BodiesOf(exps[..|exps| - 1], run) + if e.run == run then [e.body] else []
  }

  lemma {:induction false} BodiesConcat<B>(a: seq<Exp<B>>, b: seq<Exp<B>>, run: nat)
    ensures BodiesOf(a + b, run) == BodiesOf(a, run) + BodiesOf(b, run)
    decreases |b|
  {
    if b == [] {
      assert a + b == a;
    } else {
      var n := |b| - 1;
      assert (a + b)[..|a| + n] == a + b[..n] && (a + b)[|a| + n] == b[n];
      BodiesConcat(a, b[..n], run);
    }
  }

  lemma {:induction false} BodiesUnderOneId<B>(exps: seq<Exp<B>>, id: nat, run: nat)
    requires forall i :: 0 <= i < |exps| ==> exps[i].run == id
    ensures |BodiesOf(exps, run)| == if id == run then |exps| else 0
    ensures id == run ==> forall i :: 0 <= i < |exps| ==> BodiesOf(exps, run)[i] == exps[i].body
  {
    if exps != [] { BodiesUnderOneId(exps[..|exps| - 1], id, run); }
  }

  lemma LabelBodies<B>(base: nat, r: RunResult<B>, run: nat)
    ensures BodiesOf(Label(base, r), run)
         == if r.outcome.Finished? && run == base + r.index then r.outcome.bodies else []
  {
    BodiesUnderOneId(Label(base, r), base + r.index, run);
  }

  lemma {:induction false} NoBodies<B>(base: nat, rs: seq<RunResult<B>>, run: nat)
    requires forall i :: 0 <= i < |rs| ==> base + rs[i].index != run
    ensures BodiesOf(Experiences(base, rs), run) == []
  {
    if rs != [] {
      var n := |rs| - 1;
      NoBodies(base, rs[..n], run);
      assert Experiences(base, rs) == Experiences(base, rs[..n]) + Label(base, rs[n]);
      BodiesConcat(Experiences(base, rs[..n]), Label(base, rs[n]), run);
      LabelBodies(base, rs[n], run);
    }
  }

  /** No other result has the index of this one. */
  predicate OnlyOne<B>(rs: seq<RunResult<B>>, i: int) {
    0 <= i < |rs| && forall j :: 0 <= j < |rs| && j != i ==> rs[j].index != rs[i].index
  }

  lemma NoBodiesElsewhere<B>(base: nat, rs: seq<RunResult<B>>, i: nat)
    requires OnlyOne(rs, i)
    ensures BodiesOf(Experiences(base, rs[..i]), base + rs[i].index) == []
    ensures BodiesOf(Experiences(base, rs[i + 1..]), base + rs[i].index) == []
  {
    NoBodies(base, rs[..i], base + rs[i].index);
    NoBodies(base, rs[i + 1..], base + rs[i].index);
  }

  lemma BodiesBetween<B>(before: seq<Exp<B>>, own: seq<Exp<B>>, behind: seq<Exp<B>>, run: nat)
    requires BodiesOf(before, run) == BodiesOf(behind, run) == []
    ensures BodiesOf(before + own + behind, run) == BodiesOf(own, run)
  {
    BodiesConcat(before + own, behind, run);
    BodiesConcat(before, own, run);
  }

  lemma BodiesAround<B>(base: nat, rs: seq<RunResult<B>>, i: nat)
    requires OnlyOne(rs, i)
    ensures BodiesOf(Experiences(base, rs), base + rs[i].index)
         == BodiesOf(Label(base, rs[i]), base + rs[i].index)
  {
    Around(base, rs, i);
    NoBodiesElsewhere(base, rs, i);
    BodiesBetween(Experiences(base, rs[..i]), Label(base, rs[i]), Experiences(base, rs[i + 1..]), base + rs[i].index);
  }

  /** Under each run's id lies exactly what that run returned: in order, nothing twice, nothing lost. */
  lemma EachRunsBodies<B>(base: nat, rs: seq<RunResult<B>>, i: nat)
    requires OnlyOne(rs, i)
    ensures BodiesOf(Experiences(base, rs), base + rs[i].index)
         == if rs[i].outcome.Finished? then rs[i].outcome.bodies else []
  {
    BodiesAround(base, rs, i);
    LabelBodies(base, rs[i], base + rs[i].index);
  }

  /** Which of the results are finished runs. */
  function FinishedAt<B>(rs: seq<RunResult<B>>): set<nat> {
    set i: nat | i < |rs| && rs[i].outcome.Finished?
  }

  /** The first failed result. */
  predicate FirstRaised<B>(rs: seq<RunResult<B>>, i: int) {
    0 <= i < |rs| && rs[i].outcome.Raised? && forall j :: 0 <= j < i ==> rs[j].outcome.Finished?
  }

  /** The completed runs of a status are the finished ones. */
  lemma {:induction false} CompletedCounts<B>(rs: seq<RunResult<B>>)
    ensures Completed(rs) == |FinishedAt(rs)|
  {
    if rs != [] {
      var n := |rs| - 1;
      CompletedCounts(rs[..n]);
      assert FinishedAt(rs) == FinishedAt(rs[..n]) + if rs[n].outcome.Finished? then {n} else {};
    }
  }

  /** The error a status tells is that of the first failed result. */
  lemma {:induction false} FirstErrorIsFirst<B>(rs: seq<RunResult<B>>, i: nat)
    requires FirstRaised(rs, i)
    ensures FirstError(rs) == Some(rs[i].outcome.error)
  {
    var n := |rs| - 1;
    if i < n {
      FirstErrorIsFirst(rs[..n], i);
    } else {
      AllCompleted(rs[..n]);
    }
  }

  /** The message of a status: the first error, put as a partial success when some runs finished. */
  lemma StatusMessage<B>(total: nat, rs: seq<RunResult<B>>, say: (nat, string) -> string, i: nat)
    requires FirstRaised(rs, i)
    ensures var error := rs[i].outcome.error;
            StatusOf(total, rs, say).message
            == Some(if FinishedAt(rs) != {} then say(|FinishedAt(rs)|, error) else error)
  {
    CompletedCounts(rs);
    FirstErrorIsFirst(rs, i);
  }

  ghost function IndexSet<B>(rs: seq<RunResult<B>>): set<nat> {
    set r | r in rs :: r.index
  }

  lemma IndicesCount<B>(outcomes: seq<Outcome<B>>, rs: seq<RunResult<B>>)
    requires ResultsOf(outcomes, rs)
    ensures |IndexSet(rs)| == |rs| <= |outcomes|
    ensures |rs| == |outcomes| ==> forall i: nat :: i < |outcomes| ==> i in IndexSet(rs)
  {
    IndexSetSize(rs);
    assert forall x :: x in IndexSet(rs) ==> x < |outcomes|;
    FullBelow(IndexSet(rs), |outcomes|);
  }

  lemma {:induction false} IndexSetSize<B>(rs: seq<RunResult<B>>)
    requires forall i, j :: 0 <= i < j < |rs| ==> rs[i].index != rs[j].index
    ensures |IndexSet(rs)| == |rs|
  {
    if rs != [] {
      var n := |rs| - 1;
      IndexSetSize(rs[..n]);
      assert rs[n].index !in IndexSet(rs[..n]);
      assert IndexSet(rs) == IndexSet(rs[..n]) + {rs[n].index};
    }
  }

  lemma {:induction false} AllCompleted<B>(rs: seq<RunResult<B>>)
    ensures Completed(rs) == |rs| <==> forall i :: 0 <= i < |rs| ==> rs[i].outcome.Finished?
    ensures FirstError(rs).None? <==> forall i :: 0 <= i < |rs| ==> rs[i].outcome.Finished?
  {
    if rs != [] {
      var n := |rs| - 1;
      AllCompleted(rs[..n]);
      assert forall i :: 0 <= i < n ==> rs[..n][i] == rs[i];
    }
  }

  /**
   A sub-task never reports more completed runs than it has, and reports success exactly when every run
   was made and finished; without an error message nothing failed.
   */
  lemma StatusIsHonest<B>(outcomes: seq<Outcome<B>>, rs: seq<RunResult<B>>, say: (nat, string) -> string)
    requires ResultsOf(outcomes, rs)
    ensures var s := StatusOf(|outcomes|, rs, say);
            && s.completedRuns == |FinishedAt(rs)| <= s.totalRuns == |outcomes|
            && (s.Ok() <==> |rs| == |outcomes| && forall i :: 0 <= i < |outcomes| ==> outcomes[i].Finished?)
            && (s.message.None? <==> forall i :: 0 <= i < |rs| ==> rs[i].outcome.Finished?)
  {
    IndicesCount(outcomes, rs);
    AllCompleted(rs);
    CompletedCounts(rs);
    if |rs| == |outcomes| && Completed(rs) == |rs| {
      forall i | 0 <= i < |outcomes| ensures outcomes[i].Finished? {
        assert i in IndexSet(rs);
        var k :| 0 <= k < |rs| && rs[k].index == i;
      }
    }
  }

  /**
   Run ids of one task: whatever happened in whichever sub-tasks, all delivered experiences carry ids
   below their task's repeat count, and two of them share an id only if they come from the same run.
   */
  lemma RunIdsIdentifyRuns<B>(total: nat, limit: Option<nat>, wrapper: nat, p: Piece, outs1: seq<Outcome<B>>,
                              rs1: seq<RunResult<B>>, e1: Exp<B>, q: Piece, outs2: seq<Outcome<B>>,
                              rs2: seq<RunResult<B>>, e2: Exp<B>)
    requires limit.Some? ==> limit.value > 0
    requires p in Split(wrapper, total, limit) && |outs1| == p.runs && ResultsOf(outs1, rs1)
        && e1 in Experiences(p.base, rs1)
    requires q in Split(wrapper, total, limit) && |outs2| == q.runs && ResultsOf(outs2, rs2)
        && e2 in Experiences(q.base, rs2)
    ensures e1.run < total
    ensures e1.run == e2.run ==>
              p == q && exists i, j ::
                && 0 <= i < |rs1| && ComesFrom(e1, p.base, rs1[i])
                && 0 <= j < |rs2| && ComesFrom(e2, q.base, rs2[j])
                && rs1[i].index == rs2[j].index
  {
    ExperienceOrigin(p.base, rs1, e1);
    ExperienceOrigin(q.base, rs2, e2);
    var i :| 0 <= i < |rs1| && ComesFrom(e1, p.base, rs1[i]);
    var j :| 0 <= j < |rs2| && ComesFrom(e2, q.base, rs2[j]);
    RunIdsAreUnique(wrapper, total, limit, p, rs1[i].index, q, rs2[j].index);
  }

  lemma {:induction false} ExecutedStopsAtFailure<B>(outcomes: seq<Outcome<B>>)
    ensures var n := Executed(outcomes, false);
            && (forall i :: 0 <= i < n - 1 ==> outcomes[i].Finished?)
            && (n < |outcomes| ==> n > 0 && outcomes[n - 1].Raised?)
    ensures Executed(outcomes, true) == |outcomes|
  {
    if outcomes != [] {
      var k := |outcomes| - 1;
      ExecutedStopsAtFailure(outcomes[..k]);
      assert forall i :: 0 <= i < k ==> outcomes[..k][i] == outcomes[i];
    }
  }
}

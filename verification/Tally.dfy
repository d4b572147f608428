/** Counting the sub-tasks of one task by where they are. */
module Tally {
  import opened Common
  import opened SubTasks
  import opened SchedulerMachine

  datatype Kind = AtQueue | AtRunner | AtEnd | Lost

  function KindOf(p: Place): Kind {
    match p
    case Queued => AtQueue
    case Running(_) => AtRunner
    case Finished => AtEnd
    case Dropped => Lost
  }

  predicate Placed(ps: seq<Piece>, place: map<Piece, Place>) {
    forall i :: 0 <= i < |ps| ==> ps[i] in place
  }

  function Count(ps: seq<Piece>, place: map<Piece, Place>, k: Kind): nat
    requires Placed(ps, place)
  {
    if ps == [] then 0
    else (if KindOf(place[ps[0]]) == k then 1 else 0) + Count(ps[1..], place, k)
  }

  /** The runs of the finished sub-tasks. */
  function FinishedRuns(ps: seq<Piece>, place: map<Piece, Place>): nat
    requires Placed(ps, place)
  {
    if ps == [] then 0
    else (if place[ps[0]] == Finished then ps[0].runs else 0) + FinishedRuns(ps[1..], place)
  }

  lemma {:induction false} CountsAddUp(ps: seq<Piece>, place: map<Piece, Place>)
    requires Placed(ps, place)
    ensures Count(ps, place, AtQueue) + Count(ps, place, AtRunner) + Count(ps, place, AtEnd) + Count(ps, place, Lost)
        == |ps|
    ensures FinishedRuns(ps, place) <= RunsOf(ps)
  {
    if ps != [] { CountsAddUp(ps[1..], place); }
  }

  /** A count only depends on which of the sub-tasks are of that kind. */
  lemma {:induction false} CountAgrees(ps: seq<Piece>, a: map<Piece, Place>, b: map<Piece, Place>, k: Kind)
    requires Placed(ps, a) && Placed(ps, b)
    requires forall i :: 0 <= i < |ps| ==> (KindOf(a[ps[i]]) == k <==> KindOf(b[ps[i]]) == k)
    ensures Count(ps, a, k) == Count(ps, b, k)
    ensures k == AtEnd ==> FinishedRuns(ps, a) == FinishedRuns(ps, b)
  {
    if ps != [] { CountAgrees(ps[1..], a, b, k); }
  }

  lemma {:induction false} CountFinish(ps: seq<Piece>, place: map<Piece, Place>, p: Piece)
    requires Placed(ps, place) && NoDup(ps) && p in ps && place[p] != Finished
    ensures Count(ps, place[p := Finished], AtEnd) == Count(ps, place, AtEnd) + 1
    ensures FinishedRuns(ps, place[p := Finished]) == FinishedRuns(ps, place) + p.runs
  {
    var place' := place[p := Finished];
    if ps[0] == p {
      CountAgrees(ps[1..], place, place', AtEnd);
    } else {
      CountFinish(ps[1..], place, p);
    }
  }

  ghost function OfKind(ps: seq<Piece>, place: map<Piece, Place>, k: Kind): set<Piece> {
    set p | p in ps && p in place && KindOf(place[p]) == k
  }

  lemma OfKindFirst(ps: seq<Piece>, place: map<Piece, Place>, k: Kind)
    requires Placed(ps, place) && NoDup(ps) && ps != []
    ensures ps[0] !in OfKind(ps[1..], place, k)
    ensures OfKind(ps, place, k) == OfKind(ps[1..], place, k) + if KindOf(place[ps[0]]) == k then {ps[0]} else {}
  {
    assert ps == [ps[0]] + ps[1..];
    assert ps[0] !in ps[1..];
  }

  lemma {:induction false} CountIsCardinality(ps: seq<Piece>, place: map<Piece, Place>, k: Kind)
    requires Placed(ps, place) && NoDup(ps)
    ensures Count(ps, place, k) == |OfKind(ps, place, k)|
  {
    if ps != [] {
      CountIsCardinality(ps[1..], place, k);
      OfKindFirst(ps, place, k);
    } else {
      assert OfKind(ps, place, k) == {};
    }
  }
}

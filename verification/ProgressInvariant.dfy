/** The counters of every task wrapper agree with where its sub-tasks are. */
module ProgressInvariant {
  import opened Common
  import opened BatchOrder
  import opened SubTasks
  import opened SchedulerModel
  import opened SchedulerMachine
  import opened Tally
  import opened PlaceInvariant

  function PiecesOf(limit: Option<nat>, ws: seq<Wrapper>, w: nat): seq<Piece>
    requires GoodLimit(limit) && w < |ws|
  {
    Split(w, ws[w].totalRuns, limit)
  }

  ghost predicate ProgressAt(limit: Option<nat>, ws: seq<Wrapper>, place: map<Piece, Place>, w: nat)
    requires GoodLimit(limit) && w < |ws|
  {
    var ps := PiecesOf(limit, ws, w);
    && Placed(ps, place)
    && ws[w].subTaskNum == |ps|
    && ws[w].finished == Count(ps, place, AtEnd)
    && ws[w].completedRuns <= FinishedRuns(ps, place)
  }

  ghost predicate ProgressOk(limit: Option<nat>, ws: seq<Wrapper>, place: map<Piece, Place>) {
    GoodLimit(limit) && forall w :: 0 <= w < |ws| ==> ProgressAt(limit, ws, place, w)
  }

  ghost predicate ProgressInv(t: State) {
    ProgressOk(t.s.limit, t.s.wrappers, t.h.place)
  }

  /** Progress is unaffected by moves that finish no sub-task. */
  lemma ProgressAgrees(limit: Option<nat>, ws: seq<Wrapper>, ws': seq<Wrapper>, place: map<Piece, Place>,
                       place': map<Piece, Place>, w: nat)
    requires GoodLimit(limit) && w < |ws| && w < |ws'| && ProgressAt(limit, ws, place, w)
    requires ws'[w].totalRuns == ws[w].totalRuns && ws'[w].subTaskNum == ws[w].subTaskNum
    requires ws'[w].finished == ws[w].finished && ws'[w].completedRuns == ws[w].completedRuns
    requires forall p :: p in place && p.wrapper == w ==>
        p in place' && (place'[p] == Finished <==> place[p] == Finished)
    ensures ProgressAt(limit, ws', place', w)
  {
    var ps := PiecesOf(limit, ws, w);
    SplitOwners(w, ws[w].totalRuns, limit);
    assert forall i :: 0 <= i < |ps| ==> ps[i] in place';
    CountAgrees(ps, place, place', AtEnd);
  }

  lemma {:induction false} NoneFinished(ps: seq<Piece>, place: map<Piece, Place>)
    requires Placed(ps, place) && forall i :: 0 <= i < |ps| ==> place[ps[i]] != Finished
    ensures Count(ps, place, AtEnd) == 0
  {
    if ps != [] { NoneFinished(ps[1..], place); }
  }

  lemma AddTaskKeepsProgress(t: State, b: BatchId, i: nat, task: Task)
    requires PlaceInv(t) && ProgressInv(t)
    ensures ProgressInv(AddTaskStep(t, b, i, task))
  {
    var n := |t.s.wrappers|;
    var pieces := Split(n, task.runs, t.s.limit);
    SplitOwners(n, task.runs, t.s.limit);
    AddKeepsProgress(t.s.limit, t.s.wrappers, Wrapper(b, i, task.isEval, |pieces|, 0, 0, task.runs, [], None, false),
                     t.h.place, AddWrapper(t.h, b, i, n, pieces).place);
  }

  /** A new wrapper none of whose sub-tasks has finished. */
  lemma AddKeepsProgress(limit: Option<nat>, ws: seq<Wrapper>, w: Wrapper, place: map<Piece, Place>,
                         place': map<Piece, Place>)
    requires ProgressOk(limit, ws, place)
    requires w.finished == 0 && w.completedRuns == 0 && w.subTaskNum == |Split(|ws|, w.totalRuns, limit)|
    requires forall p :: p in place && p.wrapper < |ws| ==> p in place' && place'[p] == place[p]
    requires forall k :: 0 <= k < |Split(|ws|, w.totalRuns, limit)| ==>
               Split(|ws|, w.totalRuns, limit)[k] in place' && place'[Split(|ws|, w.totalRuns, limit)[k]] == Queued
    ensures ProgressOk(limit, ws + [w], place')
  {
    var ws' := ws + [w];
    forall v | 0 <= v < |ws'| ensures ProgressAt(limit, ws', place', v) {
      if v < |ws| {
        ProgressAgrees(limit, ws, ws', place, place', v);
      } else {
        NoneFinished(Split(|ws|, w.totalRuns, limit), place');
      }
    }
  }

  /** Moving one unfinished sub-task elsewhere, other than to the end. */
  lemma MoveKeepsProgress(limit: Option<nat>, ws: seq<Wrapper>, ws': seq<Wrapper>, place: map<Piece, Place>,
                          place': map<Piece, Place>)
    requires ProgressOk(limit, ws, place) && |ws'| == |ws|
    requires forall w :: 0 <= w < |ws| ==>
               && ws'[w].totalRuns == ws[w].totalRuns && ws'[w].subTaskNum == ws[w].subTaskNum
               && ws'[w].finished == ws[w].finished && ws'[w].completedRuns == ws[w].completedRuns
    requires forall p :: p in place ==> p in place' && (place'[p] == Finished <==> place[p] == Finished)
    ensures ProgressOk(limit, ws', place')
  {
    forall w | 0 <= w < |ws'| ensures ProgressAt(limit, ws', place', w) {
      ProgressAgrees(limit, ws, ws', place, place', w);
    }
  }

  /** The wrapper whose sub-task finishes. */
  lemma FinishedWrapper(limit: Option<nat>, ws: seq<Wrapper>, place: map<Piece, Place>, p: Piece, o: Outcome)
    requires BooksOk(limit, ws, place) && ProgressOk(limit, ws, place)
    requires p in place && p.wrapper < |ws| && place[p] != Finished && o.Completed? && o.runs <= p.runs
    ensures var w := Accumulate(ws[p.wrapper], p, o);
            && ProgressAt(limit, ws[p.wrapper := w], place[p := Finished], p.wrapper)
            && w.finished <= w.subTaskNum && w.completedRuns <= w.totalRuns
  {
    var i := p.wrapper;
    assert Created(limit, ws, p);
    SplitOwners(i, ws[i].totalRuns, limit);
    assert ProgressAt(limit, ws, place, i);
    FinishedCounts(PiecesOf(limit, ws, i), place, p, ws[i].completedRuns, o.runs);
  }

  lemma FinishedCounts(ps: seq<Piece>, place: map<Piece, Place>, p: Piece, completed: nat, runs: nat)
    requires Placed(ps, place) && NoDup(ps) && p in ps && place[p] != Finished
    requires completed <= FinishedRuns(ps, place) && runs <= p.runs
    ensures var place' := place[p := Finished];
            && Count(ps, place', AtEnd) == Count(ps, place, AtEnd) + 1 <= |ps|
            && completed + runs <= FinishedRuns(ps, place') <= RunsOf(ps)
  {
    CountFinish(ps, place, p);
    CountsAddUp(ps, place[p := Finished]);
  }

  /** One sub-task finishes: both counters move, and stay within what was planned. */
  lemma FinishKeepsProgress(limit: Option<nat>, ws: seq<Wrapper>, place: map<Piece, Place>, p: Piece, o: Outcome)
    requires BooksOk(limit, ws, place) && ProgressOk(limit, ws, place)
    requires p in place && p.wrapper < |ws| && place[p] != Finished && o.Completed? && o.runs <= p.runs
    ensures var w := Accumulate(ws[p.wrapper], p, o);
            && ProgressOk(limit, ws[p.wrapper := w], place[p := Finished])
            && w.finished <= w.subTaskNum && w.completedRuns <= w.totalRuns
  {
    var i := p.wrapper;
    var ws' := ws[i := Accumulate(ws[i], p, o)];
    var place' := place[p := Finished];
    FinishedWrapper(limit, ws, place, p, o);
    OneWrapperChanges(limit, ws, ws', place, place', i);
  }

  lemma OneWrapperChanges(limit: Option<nat>, ws: seq<Wrapper>, ws': seq<Wrapper>, place: map<Piece, Place>,
                          place': map<Piece, Place>, i: nat)
    requires ProgressOk(limit, ws, place) && |ws'| == |ws| && i < |ws|
    requires forall w :: 0 <= w < |ws| && w != i ==> ws'[w] == ws[w]
    requires forall p :: p in place && p.wrapper != i ==> p in place' && place'[p] == place[p]
    requires ProgressAt(limit, ws', place', i)
    ensures ProgressOk(limit, ws', place')
  {
    forall w | 0 <= w < |ws'| ensures ProgressAt(limit, ws', place', w) {
      if w != i { ProgressAgrees(limit, ws, ws', place, place', w); }
    }
  }

  /** A finished sub-task, and the emission it may cause. */
  lemma CompletionKeepsProgress(limit: Option<nat>, ws: seq<Wrapper>, ws': seq<Wrapper>, place: map<Piece, Place>,
                                p: Piece, o: Outcome)
    requires BooksOk(limit, ws, place) && ProgressOk(limit, ws, place)
    requires p in place && p.wrapper < |ws| && place[p] != Finished && o.Completed? && o.runs <= p.runs
    requires var w := Accumulate(ws[p.wrapper], p, o);
             ws' == ws[p.wrapper := w] || ws' == ws[p.wrapper := w.(emitted := true)]
    ensures ProgressOk(limit, ws', place[p := Finished])
  {
    FinishKeepsProgress(limit, ws, place, p, o);
    EmissionKeepsProgress(limit, ws[p.wrapper := Accumulate(ws[p.wrapper], p, o)], ws', place[p := Finished]);
  }

  lemma DoneKeepsProgress(t: State, f: nat, o: Outcome)
    requires PlaceInv(t) && ProgressInv(t) && f in t.s.live && t.s.live[f].piece.wrapper < |t.s.wrappers|
    requires o.Completed? ==> o.runs <= t.s.live[f].piece.runs
    ensures ProgressInv(DoneStep(t, f, o))
  {
    var p := t.s.live[f].piece;
    assert t.h.place[p] == Running(f);
    DonePlaceParts(t.s, f, o);
    if o.Completed? {
      CompletionKeepsProgress(t.s.limit, t.s.wrappers, Done(t.s, f, o).wrappers, t.h.place, p, o);
    } else {
      MoveKeepsProgress(t.s.limit, t.s.wrappers, t.s.wrappers, t.h.place, t.h.place[p := Dropped]);
    }
  }

  /** Setting emission flags changes no counter. */
  lemma EmissionKeepsProgress(limit: Option<nat>, ws: seq<Wrapper>, ws': seq<Wrapper>, place: map<Piece, Place>)
    requires ProgressOk(limit, ws, place) && |ws'| == |ws|
    requires forall w :: 0 <= w < |ws| ==> ws'[w] == ws[w] || ws'[w] == ws[w].(emitted := true)
    ensures ProgressOk(limit, ws', place)
  {
    MoveKeepsProgress(limit, ws, ws', place, place);
  }

  lemma CleanupKeepsProgress(t: State, b: BatchId, order: seq<nat>, restart: bool)
    requires PlaceInv(t) && ProgressInv(t) && forall k :: 0 <= k < |order| ==> order[k] < |t.s.wrappers|
    ensures ProgressInv(CleanupStep(t, b, order, restart))
  {
    CleanupParts(t.s, b, order, restart);
    EmitPartialParts(t.s, order);
    MoveKeepsProgress(t.s.limit, t.s.wrappers, Cleanup(t.s, b, order, restart).wrappers,
      t.h.place, DropAll(t.h.place, QueueOf(t.s, b)));
  }

  // ---- the conservation law ---------------------------------------------------------------------

  ghost function QueuedOf(t: State, w: nat): set<Piece> requires w < |t.s.wrappers| {
    set p | p in QueueOf(t.s, t.s.wrappers[w].batch) && p.wrapper == w
  }

  ghost function LiveOf(t: State, w: nat): set<nat> {
    set f | f in t.s.live && t.s.live[f].piece.wrapper == w
  }

  ghost function DroppedOf(t: State, w: nat): set<Piece> {
    set p | p in t.h.place && t.h.place[p] == Dropped && p.wrapper == w
  }

  /** Distinct futures run distinct sub-tasks. */
  lemma {:induction false} LiveCardinality(live: map<nat, RunState>, fs: set<nat>)
    requires forall f :: f in fs ==> f in live
    requires forall f, g :: f in live && g in live && f != g ==> live[f].piece != live[g].piece
    ensures |set f | f in fs && f in live :: live[f].piece| == |fs|
    decreases fs
  {
    if f :| f in fs {
      LiveCardinality(live, fs - {f});
      var rest := set g | g in fs - {f} && g in live :: live[g].piece;
      assert live[f].piece !in rest;
      assert (set g | g in fs && g in live :: live[g].piece) == rest + {live[f].piece};
    }
  }

  lemma PiecesOfTask(limit: Option<nat>, ws: seq<Wrapper>, place: map<Piece, Place>, w: nat, p: Piece)
    requires BooksOk(limit, ws, place) && w < |ws|
    ensures p in PiecesOf(limit, ws, w) <==> p in place && p.wrapper == w
  {
    SplitTiles(w, ws[w].totalRuns, limit);
    assert p in place <==> Created(limit, ws, p);
  }

  lemma LiveCountsRunning(live: map<nat, RunState>, place: map<Piece, Place>, fs: set<nat>, ps: set<Piece>, w: nat)
    requires LiveOk(live, place)
    requires fs == set f | f in live && live[f].piece.wrapper == w
    requires forall p :: p in ps <==> p in place && place[p].Running? && p.wrapper == w
    ensures |fs| == |ps|
  {
    LiveCardinality(live, fs);
    var image := set f | f in fs && f in live :: live[f].piece;
    forall p ensures p in image <==> p in ps {
      if p in ps { assert place[p].future in fs; }
    }
    assert image == ps;
  }

  /** `ps` lists the sub-tasks of wrapper w. */
  ghost predicate Lists(ps: seq<Piece>, place: map<Piece, Place>, w: nat) {
    NoDup(ps) && Placed(ps, place) && forall p :: p in ps <==> p in place && p.wrapper == w
  }

  lemma QueuedCount(t: State, w: nat, ps: seq<Piece>)
    requires w < |t.s.wrappers| && InRange(t.s.wrappers, t.h.place)
    requires QueuesOk(t.s.wrappers, t.s.pending, t.h.place) && Lists(ps, t.h.place, w)
    ensures Count(ps, t.h.place, AtQueue) == |QueuedOf(t, w)|
  {
    CountIsCardinality(ps, t.h.place, AtQueue);
    assert OfKind(ps, t.h.place, AtQueue) == QueuedOf(t, w);
  }

  lemma LiveCount(t: State, w: nat, ps: seq<Piece>)
    requires LiveOk(t.s.live, t.h.place) && Lists(ps, t.h.place, w)
    ensures Count(ps, t.h.place, AtRunner) == |LiveOf(t, w)|
  {
    CountIsCardinality(ps, t.h.place, AtRunner);
    LiveCountsRunning(t.s.live, t.h.place, LiveOf(t, w), OfKind(ps, t.h.place, AtRunner), w);
  }

  lemma DroppedCount(t: State, w: nat, ps: seq<Piece>)
    requires Lists(ps, t.h.place, w)
    ensures Count(ps, t.h.place, Lost) == |DroppedOf(t, w)|
  {
    CountIsCardinality(ps, t.h.place, Lost);
    assert OfKind(ps, t.h.place, Lost) == DroppedOf(t, w);
  }

  /** Finished, queued, live and dropped sub-tasks of a task always add up to what it was split into. */
  lemma SubTaskConservation(t: State, w: nat)
    requires PlaceInv(t) && ProgressInv(t) && w < |t.s.wrappers|
    ensures var x := t.s.wrappers[w];
            && x.finished + |QueuedOf(t, w)| + |LiveOf(t, w)| + |DroppedOf(t, w)| == x.subTaskNum
            && x.completedRuns <= x.totalRuns
  {
    var ps := PiecesOf(t.s.limit, t.s.wrappers, w);
    SplitTiles(w, t.s.wrappers[w].totalRuns, t.s.limit);
    assert ProgressAt(t.s.limit, t.s.wrappers, t.h.place, w);
    forall p ensures p in ps <==> p in t.h.place && p.wrapper == w {
      PiecesOfTask(t.s.limit, t.s.wrappers, t.h.place, w, p);
    }
    CountsAddUp(ps, t.h.place);
    QueuedCount(t, w, ps);
    LiveCount(t, w, ps);
    DroppedCount(t, w, ps);
  }
}

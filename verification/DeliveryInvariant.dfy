/** Results are emitted once per task, and every payload leaves the scheduler at most once. */
module DeliveryInvariant {
  import opened Common
  import opened BatchOrder
  import opened SubTasks
  import opened SchedulerModel
  import opened SchedulerMachine
  import opened TrackingInvariant

  ghost predicate PayloadsOk(ws: seq<Wrapper>, place: map<Piece, Place>, bearing: set<Piece>, partial: set<nat>) {
    && (forall p :: p in bearing ==>
          p in place && place[p] == Finished && p.wrapper < |ws| && p in ws[p.wrapper].payloads)
    && (forall w :: 0 <= w < |ws| ==>
          && NoDup(ws[w].payloads)
          && (forall p :: p in ws[w].payloads ==> p in bearing && p.wrapper == w)
          && (ws[w].emitted && w !in partial ==> ws[w].finished == ws[w].subTaskNum))
  }

  ghost predicate DrainedOk(ws: seq<Wrapper>, bearing: set<Piece>, drained: Handed) {
    && NoDup(drained.payloads)
    && (forall p :: p in drained.payloads ==> p in bearing && p.wrapper < |ws| && ws[p.wrapper].emitted)
    && (forall w :: w in drained.tasks ==> w < |ws| && ws[w].emitted)
  }

  /** A cached result belongs to the wrapper its task id names; unless partial, it is that wrapper's final state. */
  ghost predicate ResultOk(ws: seq<Wrapper>, ids: seq<nat>, partial: set<nat>, drained: Handed, r: TaskResult) {
    && r.taskId < |ids| && ids[r.taskId] < |ws|
    && var w := ids[r.taskId];
       && ws[w].emitted && ws[w].taskId == r.taskId && w !in drained.tasks
       && NoDup(r.payloads)
       && (forall p :: p in r.payloads ==> p in ws[w].payloads && p !in drained.payloads)
       && (w !in partial ==> r == ResultFor(ws[w]))
  }

  ghost predicate ResultsOk(ws: seq<Wrapper>, roster: map<BatchId, seq<nat>>, partial: set<nat>,
                            completed: map<BatchId, seq<TaskResult>>, drained: Handed) {
    forall b :: b in completed ==>
      && b in roster && completed[b] != []
      && (forall i, j :: 0 <= i < j < |completed[b]| ==> completed[b][i].taskId != completed[b][j].taskId)
      && (forall i :: 0 <= i < |completed[b]| ==> ResultOk(ws, roster[b], partial, drained, completed[b][i]))
  }

  ghost predicate DeliveryInv(t: State) {
    && PayloadsOk(t.s.wrappers, t.h.place, t.h.bearing, t.h.partial)
    && DrainedOk(t.s.wrappers, t.h.bearing, t.h.drained)
    && ResultsOk(t.s.wrappers, t.h.roster, t.h.partial, t.s.completed, t.h.drained)
  }

  // ---- new tasks ----------------------------------------------------------------------------

  lemma AddKeepsDelivery(ws: seq<Wrapper>, w: Wrapper, place: map<Piece, Place>, place': map<Piece, Place>,
                         bearing: set<Piece>, partial: set<nat>, drained: Handed, roster: map<BatchId, seq<nat>>,
                         ids: seq<nat>, completed: map<BatchId, seq<TaskResult>>)
    requires PayloadsOk(ws, place, bearing, partial) && DrainedOk(ws, bearing, drained)
    requires ResultsOk(ws, roster, partial, completed, drained)
    requires w.payloads == [] && !w.emitted && w.batch !in completed
    requires forall p :: p in place && p.wrapper < |ws| ==> p in place' && place'[p] == place[p]
    ensures PayloadsOk(ws + [w], place', bearing, partial) && DrainedOk(ws + [w], bearing, drained)
    ensures ResultsOk(ws + [w], roster[w.batch := ids], partial, completed, drained)
  {
    var ws' := ws + [w];
    forall b, i | b in completed && 0 <= i < |completed[b]|
      ensures ResultOk(ws', roster[w.batch := ids][b], partial, drained, completed[b][i])
    {
      assert ResultOk(ws, roster[b], partial, drained, completed[b][i]);
    }
  }

  // ---- finishing ----------------------------------------------------------------------------

  lemma MoveKeepsPayloads(ws: seq<Wrapper>, place: map<Piece, Place>, place': map<Piece, Place>, bearing: set<Piece>,
                          partial: set<nat>)
    requires PayloadsOk(ws, place, bearing, partial)
    requires forall p :: p in place && place[p] == Finished ==> p in place' && place'[p] == Finished
    ensures PayloadsOk(ws, place', bearing, partial)
  {
  }

  ghost function Bear(bearing: set<Piece>, p: Piece, o: Outcome): set<Piece>
    requires o.Completed?
  {
    if o.hasPayload then bearing + {p} else bearing
  }

  lemma FinishKeepsPayloads(ws: seq<Wrapper>, place: map<Piece, Place>, bearing: set<Piece>, partial: set<nat>,
                            p: Piece, o: Outcome)
    requires PayloadsOk(ws, place, bearing, partial)
    requires o.Completed? && p in place && place[p] != Finished && p.wrapper < |ws|
    requires ws[p.wrapper].finished < ws[p.wrapper].subTaskNum
    ensures PayloadsOk(ws[p.wrapper := Accumulate(ws[p.wrapper], p, o)], place[p := Finished], Bear(bearing, p, o),
                       partial)
  {
    assert p !in bearing;
    assert p !in ws[p.wrapper].payloads;
  }

  lemma FinishKeepsResults(ws: seq<Wrapper>, place: map<Piece, Place>, bearing: set<Piece>, partial: set<nat>,
                           drained: Handed, roster: map<BatchId, seq<nat>>, completed: map<BatchId, seq<TaskResult>>,
                           p: Piece, o: Outcome)
    requires PayloadsOk(ws, place, bearing, partial)
    requires DrainedOk(ws, bearing, drained) && ResultsOk(ws, roster, partial, completed, drained)
    requires o.Completed? && p.wrapper < |ws| && ws[p.wrapper].finished < ws[p.wrapper].subTaskNum
    ensures var ws' := ws[p.wrapper := Accumulate(ws[p.wrapper], p, o)];
            DrainedOk(ws', Bear(bearing, p, o), drained) && ResultsOk(ws', roster, partial, completed, drained)
  {
    var ws' := ws[p.wrapper := Accumulate(ws[p.wrapper], p, o)];
    forall b, i | b in completed && 0 <= i < |completed[b]|
      ensures ResultOk(ws', roster[b], partial, drained, completed[b][i])
    {
      assert ResultOk(ws, roster[b], partial, drained, completed[b][i]);
    }
  }

  // ---- emitting -----------------------------------------------------------------------------

  lemma {:induction false} PutAppends(rs: seq<TaskResult>, r: TaskResult)
    requires forall i :: 0 <= i < |rs| ==> rs[i].taskId != r.taskId
    ensures PutResult(rs, r) == rs + [r]
  {
    if rs != [] { PutAppends(rs[1..], r); }
  }

  ghost predicate EmittedOnce(partial: set<nat>, partial': set<nat>, w: Wrapper, i: nat) {
    (partial' == partial && w.finished == w.subTaskNum) || partial' == partial + {i}
  }

  lemma EmitKeepsPayloads(ws: seq<Wrapper>, place: map<Piece, Place>, bearing: set<Piece>, partial: set<nat>,
                          partial': set<nat>, drained: Handed, i: nat)
    requires PayloadsOk(ws, place, bearing, partial) && DrainedOk(ws, bearing, drained)
    requires i < |ws| && EmittedOnce(partial, partial', ws[i], i)
    ensures var ws' := ws[i := ws[i].(emitted := true)];
            PayloadsOk(ws', place, bearing, partial') && DrainedOk(ws', bearing, drained)
  {
  }

  /** The new result is the only one for its task, and none of its payloads was handed out before. */
  lemma EmitKeepsResults(ws: seq<Wrapper>, place: map<Piece, Place>, bearing: set<Piece>, partial: set<nat>,
                         partial': set<nat>, drained: Handed, roster: map<BatchId, seq<nat>>,
                         completed: map<BatchId, seq<TaskResult>>, i: nat)
    requires PayloadsOk(ws, place, bearing, partial) && DrainedOk(ws, bearing, drained)
    requires ResultsOk(ws, roster, partial, completed, drained)
    requires i < |ws| && OnRoster(ws, roster, i) && !ws[i].emitted && EmittedOnce(partial, partial', ws[i], i)
    ensures var w := ws[i];
            var rs := if w.batch in completed then completed[w.batch] else [];
            ResultsOk(ws[i := w.(emitted := true)], roster, partial', completed[w.batch := PutResult(rs, ResultFor(w))],
                      drained)
  {
    var w := ws[i];
    var ws' := ws[i := w.(emitted := true)];
    var rs := if w.batch in completed then completed[w.batch] else [];
    forall k | 0 <= k < |rs| ensures rs[k].taskId != w.taskId {
      assert ResultOk(ws, roster[w.batch], partial, drained, rs[k]);
    }
    PutAppends(rs, ResultFor(w));
    assert ResultOk(ws', roster[w.batch], partial', drained, ResultFor(w));
    var completed' := completed[w.batch := rs + [ResultFor(w)]];
    forall b, k | b in completed' && 0 <= k < |completed'[b]|
      ensures ResultOk(ws', roster[b], partial', drained, completed'[b][k])
    {
      if b in completed && k < |completed[b]| {
        assert completed'[b][k] == completed[b][k];
        assert ResultOk(ws, roster[b], partial, drained, completed[b][k]);
      }
    }
  }

  // ---- draining -----------------------------------------------------------------------------

  function PayloadLists(rs: seq<TaskResult>): seq<seq<Piece>> {
    seq(|rs|, i requires 0 <= i < |rs| => rs[i].payloads)
  }

  /** The drained chunk has no repetitions and nothing of it was handed out before. */
  lemma ChunkIsNew(ws: seq<Wrapper>, ids: seq<nat>, place: map<Piece, Place>, bearing: set<Piece>, partial: set<nat>,
                   drained: Handed, rs: seq<TaskResult>)
    requires PayloadsOk(ws, place, bearing, partial) && DrainedOk(ws, bearing, drained)
    requires forall i, j :: 0 <= i < j < |rs| ==> rs[i].taskId != rs[j].taskId
    requires forall i :: 0 <= i < |rs| ==> ResultOk(ws, ids, partial, drained, rs[i])
    ensures NoDup(Payloads(rs))
    ensures forall p :: p in Payloads(rs) ==>
              p !in drained.payloads && p in bearing && p.wrapper < |ws| && p.wrapper in ids && ws[p.wrapper].emitted
  {
    var lists := PayloadLists(rs);
    assert Payloads(rs) == Flatten(lists);
    forall i, j, p | 0 <= i < j < |lists| && p in lists[i] ensures p !in lists[j] {
      assert ResultOk(ws, ids, partial, drained, rs[i]) && ResultOk(ws, ids, partial, drained, rs[j]);
      assert ids[rs[i].taskId] != ids[rs[j].taskId];
    }
    NoDupFlatten(lists);
    forall p | p in Payloads(rs)
      ensures p !in drained.payloads && p in bearing && p.wrapper < |ws| && p.wrapper in ids && ws[p.wrapper].emitted
    {
      InFlatten(lists, p);
      var i :| 0 <= i < |lists| && p in lists[i];
      assert ResultOk(ws, ids, partial, drained, rs[i]);
    }
  }

  lemma DrainKeepsDelivery(t: State, b: BatchId)
    requires DeliveryInv(t) && RosterInv(t)
    ensures DeliveryInv(Next(t, DrainEv(b)))
  {
    var rs := ResultsOf(t.s, b);
    var drained' := HandOut(t.h.drained, RosterOf(t.h, b), rs);
    if b in t.s.completed {
      ChunkIsNew(t.s.wrappers, t.h.roster[b], t.h.place, t.h.bearing, t.h.partial, t.h.drained, rs);
      NoDupConcat(t.h.drained.payloads, Payloads(rs));
      assert DrainedOk(t.s.wrappers, t.h.bearing, drained') by {
        forall i | 0 <= i < |rs| ensures ResultOk(t.s.wrappers, t.h.roster[b], t.h.partial, t.h.drained, rs[i]) {}
      }
      DrainKeepsOtherResults(t.s.wrappers, t.h.roster, t.h.place, t.h.bearing, t.h.partial, t.s.completed, t.h.drained,
                             b);
    } else {
      assert Payloads(rs) == [];
      assert drained'.payloads == t.h.drained.payloads && drained'.tasks == t.h.drained.tasks;
      assert t.s.completed - {b} == t.s.completed;
    }
  }

  lemma DrainKeepsOtherResults(ws: seq<Wrapper>, roster: map<BatchId, seq<nat>>, place: map<Piece, Place>,
                               bearing: set<Piece>, partial: set<nat>, completed: map<BatchId, seq<TaskResult>>,
                               drained: Handed, b: BatchId)
    requires PayloadsOk(ws, place, bearing, partial) && DrainedOk(ws, bearing, drained)
    requires ResultsOk(ws, roster, partial, completed, drained) && RosterOk(ws, roster, place) && b in completed
    ensures ResultsOk(ws, roster, partial, completed - {b}, HandOut(drained, roster[b], completed[b]))
  {
    ChunkIsNew(ws, roster[b], place, bearing, partial, drained, completed[b]);
    forall c, i | c in completed && c != b && 0 <= i < |completed[c]|
      ensures ResultOk(ws, roster[c], partial, HandOut(drained, roster[b], completed[b]), completed[c][i])
    {
      var r := completed[c][i];
      assert ResultOk(ws, roster[c], partial, drained, r);
      forall p | p in r.payloads ensures p !in Payloads(completed[b]) {
        assert ws[p.wrapper].batch == c;
      }
    }
  }

  /** A task whose result was handed out has none cached any more, so its batch cannot be complete again. */
  lemma HandedTaskIsMissing(t: State, b: BatchId, k: nat)
    requires DeliveryInv(t) && b in t.h.roster && k < |t.h.roster[b]| && t.h.roster[b][k] in t.h.drained.tasks
    ensures |ResultsOf(t.s, b)| < |t.h.roster[b]|
  {
    var rs, ids := ResultsOf(t.s, b), t.h.roster[b];
    if b in t.s.completed {
      var taskIds := seq(|rs|, i requires 0 <= i < |rs| => rs[i].taskId);
      assert forall i :: 0 <= i < |rs| ==> ResultOk(t.s.wrappers, ids, t.h.partial, t.h.drained, rs[i]);
      NoDupCardinality(taskIds);
      assert k !in Elements(taskIds);
      FullBelow(Elements(taskIds), |ids|);
      assert k in Below(|ids|);
    }
  }

  /** When every task of the batch has a full result, the chunk holds every payload the batch produced. */
  lemma FullChunkIsComplete(t: State, b: BatchId, p: Piece)
    requires DeliveryInv(t) && b in t.s.completed && b in t.h.roster
    requires |t.s.completed[b]| == |t.h.roster[b]|
    requires forall i :: 0 <= i < |t.h.roster[b]| ==> t.h.roster[b][i] !in t.h.partial
    requires p in t.h.bearing && p.wrapper in t.h.roster[b]
    ensures p in Payloads(t.s.completed[b])
  {
    var rs, ids := t.s.completed[b], t.h.roster[b];
    var taskIds := seq(|rs|, i requires 0 <= i < |rs| => rs[i].taskId);
    assert forall i :: 0 <= i < |rs| ==> ResultOk(t.s.wrappers, ids, t.h.partial, t.h.drained, rs[i]);
    NoDupCardinality(taskIds);
    FullBelow(Elements(taskIds), |ids|);
    var k :| 0 <= k < |ids| && ids[k] == p.wrapper;
    assert k in Below(|ids|);
    var i :| 0 <= i < |taskIds| && taskIds[i] == k;
    assert rs[i] == ResultFor(t.s.wrappers[p.wrapper]);
    InFlatten(PayloadLists(rs), p);
    assert p in PayloadLists(rs)[i];
    assert Payloads(rs) == Flatten(PayloadLists(rs));
  }
}

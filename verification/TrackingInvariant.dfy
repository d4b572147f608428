/** The per-batch indexes: which futures a batch lists as running, and which wrappers it consists of. */
module TrackingInvariant {
  import opened BatchOrder
  import opened SubTasks
  import opened SchedulerModel
  import opened SchedulerMachine
  import opened PlaceInvariant

  ghost predicate LiveInRange(ws: seq<Wrapper>, live: map<nat, RunState>) {
    forall f :: f in live ==> live[f].piece.wrapper < |ws|
  }

  function BatchOf(ws: seq<Wrapper>, st: RunState): BatchId
    requires st.piece.wrapper < |ws|
  {
    ws[st.piece.wrapper].batch
  }

  /** A batch's running set lists its live futures, all of them unless the batch was cleared. */
  ghost predicate RunningOk(
    ws: seq<Wrapper>, pending: map<BatchId, seq<Piece>>, running: map<BatchId, set<nat>>, live: map<nat, RunState>)
  {
    && LiveInRange(ws, live)
    && (forall b, f :: b in running && f in running[b] ==> f in live && BatchOf(ws, live[f]) == b)
    && (forall f :: f in live && (BatchOf(ws, live[f]) in running || BatchOf(ws, live[f]) in pending) ==>
          BatchOf(ws, live[f]) in running && f in running[BatchOf(ws, live[f])])
  }

  ghost predicate RunningInv(t: State) {
    RunningOk(t.s.wrappers, t.s.pending, t.s.running, t.s.live)
  }

  /** set.remove in the done-callback finds its element: the callback cannot fail there. */
  lemma CallbackFindsItsFuture(t: State, f: nat)
    requires RunningInv(t) && f in t.s.live
    ensures var b := BatchOf(t.s.wrappers, t.s.live[f]);
            b in t.s.running ==> f in t.s.running[b]
  {
  }

  lemma RunningDependsOnTasks(ws: seq<Wrapper>, ws': seq<Wrapper>, pending: map<BatchId, seq<Piece>>,
                              running: map<BatchId, set<nat>>, live: map<nat, RunState>, live': map<nat, RunState>)
    requires RunningOk(ws, pending, running, live) && SameTasks(ws, ws')
    requires live'.Keys == live.Keys && forall f :: f in live ==> live'[f].piece == live[f].piece
    ensures RunningOk(ws', pending, running, live')
  {
  }

  lemma AddKeepsRunning(ws: seq<Wrapper>, w: Wrapper, pending: map<BatchId, seq<Piece>>, q: seq<Piece>,
                        running: map<BatchId, set<nat>>, live: map<nat, RunState>)
    requires RunningOk(ws, pending, running, live)
    requires forall f :: f in live ==> BatchOf(ws, live[f]) != w.batch
    ensures RunningOk(ws + [w], pending[w.batch := q], running, live)
  {
  }

  lemma StartKeepsRunning(ws: seq<Wrapper>, b: BatchId, pending: map<BatchId, seq<Piece>>, q: seq<Piece>,
                          running: map<BatchId, set<nat>>, live: map<nat, RunState>, st: RunState)
    requires RunningOk(ws, pending, running, live) && b in pending && st.future !in live
    requires st.piece.wrapper < |ws| && BatchOf(ws, st) == b
    ensures RunningOk(ws, pending[b := q],
              running[b := (if b in running then running[b] else {}) + {st.future}], live[st.future := st])
  {
  }

  lemma LeaveKeepsRunning(ws: seq<Wrapper>, pending: map<BatchId, seq<Piece>>, running: map<BatchId, set<nat>>,
                          running': map<BatchId, set<nat>>, live: map<nat, RunState>, f: nat)
    requires RunningOk(ws, pending, running, live) && f in live
    requires var b := BatchOf(ws, live[f]);
             running' == if b !in running then running
                         else if running[b] - {f} == {} then running - {b}
                         else running[b := running[b] - {f}]
    ensures RunningOk(ws, pending, running', live - {f})
  {
    var b := BatchOf(ws, live[f]);
    forall g | g in live - {f} && (BatchOf(ws, live[g]) in running' || BatchOf(ws, live[g]) in pending)
      ensures BatchOf(ws, live[g]) in running' && g in running'[BatchOf(ws, live[g])]
    {
      var c := BatchOf(ws, live[g]);
      assert c in running && g in running[c];
      if c == b { assert g in running[b] - {f}; }
    }
  }

  // ---- rosters ------------------------------------------------------------------------------

  /** A roster lists the wrappers of a batch by task id, and every unfinished sub-task is on one. */
  ghost predicate RosterOk(ws: seq<Wrapper>, roster: map<BatchId, seq<nat>>, place: map<Piece, Place>) {
    && (forall b, i :: b in roster && 0 <= i < |roster[b]| ==>
          roster[b][i] < |ws| && ws[roster[b][i]].batch == b && ws[roster[b][i]].taskId == i)
    && (forall p :: p in place && (place[p] == Queued || place[p].Running?) ==> OnRoster(ws, roster, p.wrapper))
  }

  ghost predicate OnRoster(ws: seq<Wrapper>, roster: map<BatchId, seq<nat>>, w: nat) {
    && w < |ws| && ws[w].batch in roster && ws[w].taskId < |roster[ws[w].batch]|
    && roster[ws[w].batch][ws[w].taskId] == w
  }

  ghost predicate RosterInv(t: State) {
    RosterOk(t.s.wrappers, t.h.roster, t.h.place)
  }

  lemma AddKeepsRoster(ws: seq<Wrapper>, w: Wrapper, roster: map<BatchId, seq<nat>>, old_: seq<nat>,
                       place: map<Piece, Place>, place': map<Piece, Place>)
    requires RosterOk(ws, roster, place)
    requires old_ == (if w.taskId == 0 || w.batch !in roster then [] else roster[w.batch]) && |old_| == w.taskId
    requires w.taskId == 0 ==>
        forall p :: p in place && (place[p] == Queued || place[p].Running?) && p.wrapper < |ws| ==>
               ws[p.wrapper].batch != w.batch
    requires forall p :: p in place' ==> (p in place && place'[p] == place[p]) || p.wrapper == |ws|
    ensures RosterOk(ws + [w], roster[w.batch := old_ + [|ws|]], place')
  {
    var ws', roster' := ws + [w], roster[w.batch := old_ + [|ws|]];
    forall b, i | b in roster' && 0 <= i < |roster'[b]|
      ensures roster'[b][i] < |ws'| && ws'[roster'[b][i]].batch == b && ws'[roster'[b][i]].taskId == i
    {
      if b == w.batch {
        if i < |old_| { assert roster'[b][i] == roster[b][i]; }
      }
    }
    forall p | p in place' && (place'[p] == Queued || place'[p].Running?)
      ensures OnRoster(ws', roster', p.wrapper)
    {
      if p.wrapper != |ws| {
        assert OnRoster(ws, roster, p.wrapper);
        var v := ws[p.wrapper];
        if v.batch == w.batch {
          assert roster'[v.batch][v.taskId] == old_[v.taskId];
        }
      }
    }
  }

  lemma RosterDependsOnTasks(ws: seq<Wrapper>, ws': seq<Wrapper>, roster: map<BatchId, seq<nat>>,
                             place: map<Piece, Place>, place': map<Piece, Place>)
    requires RosterOk(ws, roster, place) && SameTasks(ws, ws')
    requires forall p :: p in place' && (place'[p] == Queued || place'[p].Running?) ==>
               p in place && (place[p] == Queued || place[p].Running?)
    ensures RosterOk(ws', roster, place')
  {
    forall p | p in place' && (place'[p] == Queued || place'[p].Running?)
      ensures OnRoster(ws', roster, p.wrapper)
    {
      assert OnRoster(ws, roster, p.wrapper);
    }
  }
}

/** Sub-task conservation: each sub-task is queued, running, finished or dropped, and the counters agree. */
module PlaceInvariant {
  import opened Common
  import opened BatchOrder
  import opened SubTasks
  import opened SchedulerModel
  import opened SchedulerMachine

  ghost predicate GoodLimit(limit: Option<nat>) { limit.Some? ==> limit.value > 0 }

  /** p is one of the pieces its wrapper was split into. */
  ghost predicate Created(limit: Option<nat>, ws: seq<Wrapper>, p: Piece)
    requires GoodLimit(limit)
  {
    p.wrapper < |ws| && p in Split(p.wrapper, ws[p.wrapper].totalRuns, limit)
  }

  ghost predicate BooksOk(limit: Option<nat>, ws: seq<Wrapper>, place: map<Piece, Place>) {
    GoodLimit(limit) && forall p :: p in place <==> Created(limit, ws, p)
  }

  ghost predicate InRange(ws: seq<Wrapper>, place: map<Piece, Place>) {
    forall p :: p in place ==> p.wrapper < |ws|
  }

  /** The queues hold exactly the sub-tasks recorded as queued, each once and under its own batch. */
  ghost predicate QueuesOk(ws: seq<Wrapper>, pending: map<BatchId, seq<Piece>>, place: map<Piece, Place>)
    requires InRange(ws, place)
  {
    && (forall b :: b in pending ==> NoDup(pending[b]))
    && (forall b, p :: b in pending && p in pending[b] ==> p in place && place[p] == Queued && ws[p.wrapper].batch == b)
    && (forall p :: p in place && place[p] == Queued ==>
          ws[p.wrapper].batch in pending && p in pending[ws[p.wrapper].batch])
  }

  /** The tracked futures run exactly the sub-tasks recorded as running. */
  ghost predicate LiveOk(live: map<nat, RunState>, place: map<Piece, Place>) {
    && (forall f :: f in live ==> live[f].piece in place && place[live[f].piece] == Running(f))
    && (forall p :: p in place && place[p].Running? ==>
          place[p].future in live && live[place[p].future].piece == p)
  }

  ghost predicate PlacesOk(
    limit: Option<nat>, ws: seq<Wrapper>, pending: map<BatchId, seq<Piece>>,
    live: map<nat, RunState>, place: map<Piece, Place>)
  {
    BooksOk(limit, ws, place) && InRange(ws, place) && QueuesOk(ws, pending, place) && LiveOk(live, place)
  }

  ghost predicate PlaceInv(t: State) {
    PlacesOk(t.s.limit, t.s.wrappers, t.s.pending, t.s.live, t.h.place)
  }

  /** Two wrapper tables that differ only in progress fields. */
  ghost predicate SameTasks(a: seq<Wrapper>, b: seq<Wrapper>) {
    && |a| == |b|
    && forall i :: 0 <= i < |a| ==>
         && a[i].batch == b[i].batch && a[i].taskId == b[i].taskId
         && a[i].totalRuns == b[i].totalRuns && a[i].subTaskNum == b[i].subTaskNum
  }

  lemma PlacesOkDependsOnTasks(
    limit: Option<nat>, ws: seq<Wrapper>, ws': seq<Wrapper>, pending: map<BatchId, seq<Piece>>,
    live: map<nat, RunState>, place: map<Piece, Place>)
    requires PlacesOk(limit, ws, pending, live, place) && SameTasks(ws, ws')
    ensures PlacesOk(limit, ws', pending, live, place)
  {
    assert forall p :: Created(limit, ws, p) <==> Created(limit, ws', p);
  }

  lemma AddWrapperKeepsBooks(limit: Option<nat>, ws: seq<Wrapper>, w: Wrapper, place: map<Piece, Place>,
                             place': map<Piece, Place>)
    requires BooksOk(limit, ws, place)
    requires var pieces := Split(|ws|, w.totalRuns, limit);
             forall p :: p in place' <==> p in place || p in pieces
    ensures BooksOk(limit, ws + [w], place')
  {
    SplitTiles(|ws|, w.totalRuns, limit);
    forall p ensures p in place' <==> Created(limit, ws + [w], p) {
      if p.wrapper != |ws| {
        assert Created(limit, ws + [w], p) <==> Created(limit, ws, p);
      }
    }
  }

  /** A batch of new sub-tasks in front of a queue. */
  lemma AddPiecesKeepsQueues(
    ws: seq<Wrapper>, w: Wrapper, pieces: seq<Piece>, pending: map<BatchId, seq<Piece>>, q: seq<Piece>,
    place: map<Piece, Place>, place': map<Piece, Place>)
    requires InRange(ws, place) && QueuesOk(ws, pending, place)
    requires NoDup(pieces) && forall p :: p in pieces ==> p.wrapper == |ws|
    requires q == if w.batch in pending then pending[w.batch] else []
    requires place'.Keys == place.Keys + Elements(pieces)
    requires forall p :: p in place' ==> place'[p] == if p in pieces then Queued else place[p]
    ensures InRange(ws + [w], place') && QueuesOk(ws + [w], pending[w.batch := pieces + q], place')
  {
    var pending' := pending[w.batch := pieces + q];
    assert forall p :: p in q ==> p in place;
    NoDupConcat(pieces, q);
    forall b, p | b in pending' && p in pending'[b]
      ensures p in place' && place'[p] == Queued && (ws + [w])[p.wrapper].batch == b
    {
      assert p in pieces || (b in pending && p in pending[b]);
      assert b in pending && p in pending[b] ==> p in place;
    }
    forall p | p in place' && place'[p] == Queued
      ensures (ws + [w])[p.wrapper].batch in pending' && p in pending'[(ws + [w])[p.wrapper].batch]
    {
      if p !in pieces {
        assert place[p] == Queued;
      }
    }
  }

  lemma ReverseElements<T>(s: seq<T>)
    ensures forall x :: x in Reverse(s) <==> x in s
    ensures NoDup(s) ==> NoDup(Reverse(s))
  {
    forall x | x in s ensures x in Reverse(s) {
      var k :| 0 <= k < |s| && s[k] == x;
      assert Reverse(s)[|s| - 1 - k] == x;
    }
  }

  lemma NewPieces(w: nat, total: nat, limit: Option<nat>)
    requires GoodLimit(limit)
    ensures var q := Reverse(Split(w, total, limit));
            && NoDup(q) && Elements(q) == Elements(Split(w, total, limit))
            && forall p :: p in q ==> p.wrapper == w
  {
    SplitTiles(w, total, limit);
    ReverseElements(Split(w, total, limit));
  }

  lemma LiveIgnoresNewPieces(live: map<nat, RunState>, place: map<Piece, Place>, place': map<Piece, Place>, n: nat)
    requires LiveOk(live, place) && forall p :: p in place ==> p.wrapper < n
    requires forall p :: p in place && p.wrapper < n ==> p in place' && place'[p] == place[p]
    requires forall p :: p in place' && p !in place ==> place'[p] == Queued
    ensures LiveOk(live, place')
  {
    forall p | p in place' && place'[p].Running?
      ensures place'[p].future in live && live[place'[p].future].piece == p
    {
      assert p in place;
    }
  }

  lemma AddTaskKeepsPlaces(t: State, b: BatchId, i: nat, task: Task)
    requires PlaceInv(t)
    ensures PlaceInv(AddTaskStep(t, b, i, task))
  {
    var n := |t.s.wrappers|;
    var pieces := Split(n, task.runs, t.s.limit);
    NewPieces(n, task.runs, t.s.limit);
    var w := Wrapper(b, i, task.isEval, |pieces|, 0, 0, task.runs, [], None, false);
    var place' := AddWrapper(t.h, b, i, n, pieces).place;
    assert place'.Keys == t.h.place.Keys + Elements(Reverse(pieces));
    AddWrapperKeepsBooks(t.s.limit, t.s.wrappers, w, t.h.place, place');
    AddPiecesKeepsQueues(t.s.wrappers, w, Reverse(pieces), t.s.pending, QueueOf(t.s, b), t.h.place, place');
    LiveIgnoresNewPieces(t.s.live, t.h.place, place', n);
  }

  /** Taking the last element off a queue. */
  lemma TakeKeepsQueues(ws: seq<Wrapper>, b: BatchId, pending: map<BatchId, seq<Piece>>, place: map<Piece, Place>,
                        f: nat)
    requires InRange(ws, place) && QueuesOk(ws, pending, place)
    requires b in pending && pending[b] != []
    ensures var n := |pending[b]| - 1;
            && InRange(ws, place[pending[b][n] := Running(f)])
            && QueuesOk(ws, pending[b := pending[b][..n]], place[pending[b][n] := Running(f)])
  {
    var q := pending[b];
    var n := |q| - 1;
    assert q[n] in q;
    assert forall x :: x in q <==> x in q[..n] || x == q[n];
    var pending', place' := pending[b := q[..n]], place[q[n] := Running(f)];
    forall c, p | c in pending' && p in pending'[c]
      ensures p in place' && place'[p] == Queued && ws[p.wrapper].batch == c
    {
      assert c in pending && p in pending[c];
    }
    forall p | p in place' && place'[p] == Queued
      ensures ws[p.wrapper].batch in pending' && p in pending'[ws[p.wrapper].batch]
    {
      assert place[p] == Queued;
    }
  }

  lemma StartKeepsLive(live: map<nat, RunState>, place: map<Piece, Place>, st: RunState)
    requires LiveOk(live, place) && st.future !in live
    requires st.piece in place && place[st.piece] == Queued
    ensures LiveOk(live[st.future := st], place[st.piece := Running(st.future)])
  {
  }

  lemma MoveKeepsBooks(limit: Option<nat>, ws: seq<Wrapper>, place: map<Piece, Place>, p: Piece, to: Place)
    requires BooksOk(limit, ws, place) && p in place
    ensures BooksOk(limit, ws, place[p := to])
  {
  }

  lemma DispatchKeepsPlaces(t: State, b: BatchId, r: nat)
    requires PlaceInv(t) && QueueOf(t.s, b) != [] && r in t.s.idle && t.s.futures !in t.s.live
    ensures PlaceInv(DispatchStep(t, b, r))
  {
    var q := t.s.pending[b];
    var p := q[|q| - 1];
    assert p in q;
    TakeKeepsQueues(t.s.wrappers, b, t.s.pending, t.h.place, t.s.futures);
    MoveKeepsBooks(t.s.limit, t.s.wrappers, t.h.place, p, Running(t.s.futures));
    StartKeepsLive(t.s.live, t.h.place, RunState(t.s.futures, p, r, true));
  }

  lemma EndKeepsQueues(ws: seq<Wrapper>, pending: map<BatchId, seq<Piece>>, place: map<Piece, Place>, p: Piece,
                       end: Place)
    requires InRange(ws, place) && QueuesOk(ws, pending, place)
    requires p in place && place[p] != Queued && end != Queued
    ensures InRange(ws, place[p := end]) && QueuesOk(ws, pending, place[p := end])
  {
  }

  lemma EndKeepsLive(live: map<nat, RunState>, place: map<Piece, Place>, f: nat, end: Place)
    requires LiveOk(live, place) && f in live && !end.Running?
    ensures LiveOk(live - {f}, place[live[f].piece := end])
  {
  }

  /** A future that ends moves its sub-task from running to finished or dropped. */
  lemma EndKeepsPlaces(limit: Option<nat>, ws: seq<Wrapper>, pending: map<BatchId, seq<Piece>>,
                       live: map<nat, RunState>, place: map<Piece, Place>, f: nat, end: Place)
    requires PlacesOk(limit, ws, pending, live, place) && f in live && (end == Finished || end == Dropped)
    ensures PlacesOk(limit, ws, pending, live - {f}, place[live[f].piece := end])
  {
    var p := live[f].piece;
    assert place[p] == Running(f);
    MoveKeepsBooks(limit, ws, place, p, end);
    EndKeepsQueues(ws, pending, place, p, end);
    EndKeepsLive(live, place, f, end);
  }

  lemma DoneKeepsPlaces(t: State, f: nat, o: Outcome)
    requires PlaceInv(t) && f in t.s.live
    ensures PlaceInv(DoneStep(t, f, o))
  {
    var end := if o.Completed? then Finished else Dropped;
    EndKeepsPlaces(t.s.limit, t.s.wrappers, t.s.pending, t.s.live, t.h.place, f, end);
    DonePlaceParts(t.s, f, o);
    PlacesOkDependsOnTasks(t.s.limit, t.s.wrappers, Done(t.s, f, o).wrappers, t.s.pending,
      t.s.live - {f}, t.h.place[t.s.live[f].piece := end]);
  }

  lemma CompletePlaceParts(s: Sched, st: RunState, o: Outcome)
    requires o.Completed? && st.piece.wrapper < |s.wrappers|
    ensures var s', i := Complete(s, st, o), st.piece.wrapper;
            var w := Accumulate(s.wrappers[i], st.piece, o);
            && s'.limit == s.limit && s'.pending == s.pending && s'.live == s.live && s'.taskNum == s.taskNum
            && (if w.finished == w.subTaskNum && !w.emitted
                then && s'.wrappers == s.wrappers[i := w.(emitted := true)]
                     && s'.completed == s.completed[w.batch := PutResult(ResultsOf(s, w.batch), ResultFor(w))]
                else s'.wrappers == s.wrappers[i := w] && s'.completed == s.completed)
  {
    var i := st.piece.wrapper;
    var w := Accumulate(s.wrappers[i], st.piece, o);
    assert s.wrappers[i := w][i := w.(emitted := true)] == s.wrappers[i := w.(emitted := true)];
  }

  /** What Done leaves alone, and how it rewrites the wrapper table. */
  lemma DonePlaceParts(s: Sched, f: nat, o: Outcome)
    requires f in s.live && s.live[f].piece.wrapper < |s.wrappers|
    ensures var s', i := Done(s, f, o), s.live[f].piece.wrapper;
            && s'.limit == s.limit && s'.pending == s.pending && s'.live == s.live - {f} && s'.taskNum == s.taskNum
            && SameTasks(s.wrappers, s'.wrappers)
            && (if !o.Completed? then s'.wrappers == s.wrappers && s'.completed == s.completed
                else
                  var w := Accumulate(s.wrappers[i], s.live[f].piece, o);
                  if w.finished == w.subTaskNum && !w.emitted
                  then && s'.wrappers == s.wrappers[i := w.(emitted := true)]
                       && s'.completed == s.completed[w.batch := PutResult(ResultsOf(s, w.batch), ResultFor(w))]
                  else s'.wrappers == s.wrappers[i := w] && s'.completed == s.completed)
  {
    var st := s.live[f];
    var b := s.wrappers[st.piece.wrapper].batch;
    var s1 := s.(live := s.live - {f});
    match o {
      case Cancelled => LeaveRunningKeepsPlaces(if st.restartOnCancel then s1 else Free(s1, st.runner), b, f);
      case Failed => LeaveRunningKeepsPlaces(s1, b, f);
      case Completed(_, _, _) =>
        CompletePlaceParts(s1, st, o);
        LeaveRunningKeepsPlaces(Complete(s1, st, o), b, f);
    }
  }

  lemma LeaveRunningKeepsPlaces(s: Sched, b: BatchId, f: nat)
    ensures LeaveRunning(s, b, f) == s.(running := LeaveRunning(s, b, f).running)
  {
  }

  lemma EmitPartialOneParts(s: Sched, i: nat)
    requires i < |s.wrappers|
    ensures var s' := EmitPartialOne(s, i);
            && s' == s.(wrappers := s'.wrappers, completed := s'.completed)
            && s'.wrappers == (if s.wrappers[i].completedRuns > 0
                               then s.wrappers[i := s.wrappers[i].(emitted := true)] else s.wrappers)
  {
  }

  /** The listed wrappers with a completed run count as emitted; nothing else changes. */
  ghost predicate MarkedEmitted(ws: seq<Wrapper>, ws': seq<Wrapper>, order: seq<nat>) {
    && |ws'| == |ws|
    && forall i :: 0 <= i < |ws| ==>
         ws'[i] == if i in order && ws[i].completedRuns > 0 then ws[i].(emitted := true) else ws[i]
  }

  lemma MarkOneMore(ws: seq<Wrapper>, ws1: seq<Wrapper>, ws2: seq<Wrapper>, order: seq<nat>, i: nat)
    requires MarkedEmitted(ws, ws1, order) && i < |ws|
    requires ws2 == if ws1[i].completedRuns > 0 then ws1[i := ws1[i].(emitted := true)] else ws1
    ensures MarkedEmitted(ws, ws2, order + [i])
  {
  }

  lemma {:induction false} EmitPartialTouches(s: Sched, order: seq<nat>)
    requires forall k :: 0 <= k < |order| ==> order[k] < |s.wrappers|
    ensures var s' := EmitPartial(s, order); s' == s.(wrappers := s'.wrappers, completed := s'.completed)
  {
    if order != [] {
      var n := |order| - 1;
      EmitPartialTouches(s, order[..n]);
      EmitPartialOneParts(EmitPartial(s, order[..n]), order[n]);
    }
  }

  lemma {:induction false} EmitPartialMarks(s: Sched, order: seq<nat>)
    requires forall k :: 0 <= k < |order| ==> order[k] < |s.wrappers|
    ensures MarkedEmitted(s.wrappers, EmitPartial(s, order).wrappers, order)
  {
    if order != [] {
      var n := |order| - 1;
      var s1 := EmitPartial(s, order[..n]);
      EmitPartialMarks(s, order[..n]);
      EmitPartialOneParts(s1, order[n]);
      MarkOneMore(s.wrappers, s1.wrappers, EmitPartialOne(s1, order[n]).wrappers, order[..n], order[n]);
      assert order[..n] + [order[n]] == order;
    }
  }

  lemma EmitPartialParts(s: Sched, order: seq<nat>)
    requires forall k :: 0 <= k < |order| ==> order[k] < |s.wrappers|
    ensures var s' := EmitPartial(s, order);
            && s' == s.(wrappers := s'.wrappers, completed := s'.completed)
            && MarkedEmitted(s.wrappers, s'.wrappers, order)
  {
    EmitPartialTouches(s, order);
    EmitPartialMarks(s, order);
  }

  /** Clearing a batch drops its queue. */
  lemma ClearKeepsQueues(ws: seq<Wrapper>, b: BatchId, pending: map<BatchId, seq<Piece>>, place: map<Piece, Place>,
                         place': map<Piece, Place>)
    requires InRange(ws, place) && QueuesOk(ws, pending, place)
    requires place'.Keys == place.Keys
    requires forall p :: p in place ==> place'[p] == if b in pending && p in pending[b] then Dropped else place[p]
    ensures InRange(ws, place') && QueuesOk(ws, pending - {b}, place')
  {
  }

  lemma ClearKeepsLive(live: map<nat, RunState>, live': map<nat, RunState>, place: map<Piece, Place>,
                       place': map<Piece, Place>)
    requires LiveOk(live, place) && live'.Keys == live.Keys && place'.Keys == place.Keys
    requires forall f :: f in live ==> live'[f].piece == live[f].piece
    requires forall p :: p in place ==> place'[p] == place[p] || (place[p] == Queued && place'[p] == Dropped)
    ensures LiveOk(live', place')
  {
  }

  lemma RelabelKeepsBooks(limit: Option<nat>, ws: seq<Wrapper>, place: map<Piece, Place>, place': map<Piece, Place>)
    requires BooksOk(limit, ws, place) && place'.Keys == place.Keys
    ensures BooksOk(limit, ws, place')
  {
    assert forall p :: p in place' <==> p in place;
  }

  /** What a cleanup does to the parts that place sub-tasks. */
  lemma CleanupParts(s: Sched, b: BatchId, order: seq<nat>, restart: bool)
    requires forall k :: 0 <= k < |order| ==> order[k] < |s.wrappers|
    ensures var s' := Cleanup(s, b, order, restart);
            && s'.limit == s.limit && s'.pending == s.pending - {b} && s'.running == s.running - {b}
            && s'.wrappers == EmitPartial(s, order).wrappers && s'.completed == EmitPartial(s, order).completed
            && s'.live.Keys == s.live.Keys
            && (forall f :: f in s.live ==>
                s'.live[f].piece == s.live[f].piece && s'.live[f].runner == s.live[f].runner)
            && SameTasks(s.wrappers, s'.wrappers)
  {
    EmitPartialParts(s, order);
  }

  lemma CleanupKeepsPlaces(t: State, b: BatchId, order: seq<nat>, restart: bool)
    requires PlaceInv(t) && forall k :: 0 <= k < |order| ==> order[k] < |t.s.wrappers|
    ensures PlaceInv(CleanupStep(t, b, order, restart))
  {
    var s' := Cleanup(t.s, b, order, restart);
    CleanupParts(t.s, b, order, restart);
    var place := DropAll(t.h.place, QueueOf(t.s, b));
    ClearKeepsQueues(t.s.wrappers, b, t.s.pending, t.h.place, place);
    ClearKeepsLive(t.s.live, s'.live, t.h.place, place);
    RelabelKeepsBooks(t.s.limit, t.s.wrappers, t.h.place, place);
    PlacesOkDependsOnTasks(t.s.limit, t.s.wrappers, s'.wrappers, s'.pending, s'.live, place);
  }
}

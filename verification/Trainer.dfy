/** The training loop's bookkeeping: at which steps weights are synchronized and checkpoints saved. */
module Trainer {
  import opened Common

  datatype SyncMethod = NCCL | Checkpoint | Memory

  /** The multiples of k among a + 1 .. b, in order. */
  function Multiples(a: nat, b: nat, k: nat): seq<nat>
    requires k > 0 && a <= b
    decreases b - a
  {
    if a == b then [] else Multiples(a, b - 1, k) + Due(b, k)
  }

  /** Exactly the multiples are there, in increasing order and so none twice. */
  lemma {:induction false} MultiplesComplete(a: nat, b: nat, k: nat)
    requires k > 0 && a <= b
    ensures Increasing(Multiples(a, b, k))
    ensures forall n: nat :: n in Multiples(a, b, k) <==> a < n <= b && n % k == 0
    decreases b - a
  {
    if a < b {
      MultiplesComplete(a, b - 1, k);
      var m := Multiples(a, b - 1, k);
      assert forall i :: 0 <= i < |m| ==> m[i] in m;
    }
  }

  ghost predicate Increasing(s: seq<nat>) {
    forall i, j :: 0 <= i < j < |s| ==> s[i] < s[j]
  }

  /** One synchronization of the weights of a step; a collective one is skipped when the synchronizer answers None. */
  datatype Attempt = Attempt(step: nat, taken: bool)

  function StepsOf(attempts: seq<Attempt>): (steps: seq<nat>)
    ensures |steps| == |attempts|
  {
    seq(|attempts|, i requires 0 <= i < |attempts| => attempts[i].step)
  }

  /** Whatever is not collective is never skipped. */
  ghost predicate AllTaken(attempts: seq<Attempt>) {
    forall i :: 0 <= i < |attempts| ==> attempts[i].taken
  }

  ghost predicate InStepOrder(attempts: seq<Attempt>) {
    forall i, j :: 0 <= i < j < |attempts| ==> attempts[i].step < attempts[j].step
  }

  lemma StepsOfSnoc(attempts: seq<Attempt>, a: Attempt)
    ensures StepsOf(attempts + [a]) == StepsOf(attempts) + [a.step]
  {
  }

  /** `stepDriven` stands for FIXED, TRAINER_DRIVEN and FULLY_ASYNC; otherwise the style is EXPLORER_DRIVEN. */
  datatype Style = Style(stepDriven: bool, syncMethod: SyncMethod, syncInterval: nat) {
    predicate Valid() { stepDriven ==> syncInterval > 0 }
  }

  /** What explorer_requires_sync and ready_to_nccl_sync would answer; the latter answers None only to a lost peer. */
  datatype Answer = Answer(asks: bool, ready: bool)

  /** The answers during the wait for one batch and the one after the step that trains on it. */
  datatype Turn = Turn(waits: seq<Answer>, after: Answer)

  /** An answer and the step the engine is at when it is given. */
  datatype Heard = Heard(step: nat, answer: Answer)

  /** The synchronizations in order, and the step that counts as synchronized. */
  datatype Books = Books(syncs: seq<Attempt>, last: nat)

  predicate Wants(c: Style, last: nat, h: Heard)
    requires c.Valid()
  {
    if c.stepDriven then last != h.step && h.step % c.syncInterval == 0
    else h.answer.asks && (last != h.step || c.syncMethod == NCCL)
  }

  /** What a synchronization leaves behind. */
  function Recorded(m: SyncMethod, h: Heard): seq<Attempt> {
    if m == NCCL then [Attempt(h.step, h.answer.ready)]
    else if h.step > 0 then [Attempt(h.step, true)]
    else []
  }

  function Heed(c: Style, b: Books, h: Heard): Books
    requires c.Valid()
  {
    if Wants(c, b.last, h) then Books(b.syncs + Recorded(c.syncMethod, h), h.step) else b
  }

  /** The books after the first `k` answers of a wait at `step`. */
  function AfterWait(c: Style, b: Books, step: nat, answers: seq<Answer>, k: nat): Books
    requires c.Valid() && k <= |answers|
  {
    if k == 0 then b else Heed(c, AfterWait(c, b, step, answers, k - 1), Heard(step, answers[k - 1]))
  }

  /** The books of a trainer started at step `first` after `k` turns. */
  function AfterTurns(c: Style, first: nat, turns: seq<Turn>, k: nat): Books
    requires c.Valid() && k <= |turns|
  {
    if k == 0 then Books([], first)
    else
      var waits := turns[k - 1].waits;
      var b := AfterWait(c, AfterTurns(c, first, turns, k - 1), first + k - 1, waits, |waits|);
      Heed(c, b, Heard(first + k, turns[k - 1].after))
  }

  /** After a whole run: the turns it makes, and the last wait unless the total was reached. */
  function AfterRun(c: Style, totalSteps: Option<nat>, first: nat, turns: seq<Turn>, lastWait: seq<Answer>): Books
    requires c.Valid()
  {
    var k := Steps(totalSteps, first, |turns|);
    var b := AfterTurns(c, first, turns, k);
    if Reached(totalSteps, first + k) then b else AfterWait(c, b, first + k, lastWait, |lastWait|)
  }

  predicate Reached(totalSteps: Option<nat>, step: nat) {
    totalSteps.Some? && totalSteps.value <= step
  }

  class Trainer {
    const stepDriven: bool
    const syncMethod: SyncMethod
    const syncInterval: nat
    const saveInterval: nat
    var trainStepNum: nat         // the engine's step counter
    var lastSyncStep: nat
    ghost var syncs: seq<Attempt> // the synchronizations, in order
    ghost var saved: seq<nat>     // steps at which save_checkpoint was called, in order

    ghost function Config(): Style { Style(stepDriven, syncMethod, syncInterval) }

    ghost function View(): Books
      reads this
    {
      Books(syncs, lastSyncStep)
    }

    /** After prepare(): the engine is at `step` and counts as synchronized there. */
    constructor (stepDriven: bool, syncMethod: SyncMethod, syncInterval: nat, saveInterval: nat, step: nat)
      ensures Config() == Style(stepDriven, syncMethod, syncInterval) && this.saveInterval == saveInterval
      ensures trainStepNum == lastSyncStep == step && syncs == [] && saved == []
    {
      this.stepDriven, this.syncMethod, this.syncInterval, this.saveInterval :=
          stepDriven, syncMethod, syncInterval, saveInterval;
      trainStepNum, lastSyncStep, syncs, saved := step, step, [], [];
    }

    /** `explorerAsks` is what explorer_requires_sync would answer. */
    method NeedSync(explorerAsks: bool) returns (sync: bool)
      requires Config().Valid()
      ensures stepDriven ==> (sync <==> lastSyncStep != trainStepNum && trainStepNum % syncInterval == 0)
      ensures !stepDriven ==> (sync <==> explorerAsks && (lastSyncStep != trainStepNum || syncMethod == NCCL))
    {
      if stepDriven {
        return lastSyncStep != trainStepNum && trainStepNum % syncInterval == 0;
      }
      if lastSyncStep == trainStepNum && syncMethod != NCCL { return false; }
      return explorerAsks;
    }

    method NeedSave() returns (save: bool)
      ensures save <==> saveInterval > 0 && trainStepNum % saveInterval == 0
    {
      return saveInterval > 0 && trainStepNum % saveInterval == 0;
    }

    /** `ready` is whether ready_to_nccl_sync answers with a version, which it does unless the explorer has stopped. */
    method SyncWeight(ready: bool)
      modifies this`lastSyncStep, this`syncs
      ensures lastSyncStep == trainStepNum
      ensures syncs == old(syncs) + if syncMethod == NCCL then [Attempt(trainStepNum, ready)]
                                    else if trainStepNum > 0 then [Attempt(trainStepNum, true)] else []
    {
      if syncMethod == NCCL {
        syncs := syncs + [Attempt(trainStepNum, ready)];
      } else if trainStepNum > 0 {
        syncs := syncs + [Attempt(trainStepNum, true)];
      }
      lastSyncStep := trainStepNum;
    }

    method SaveCheckpoint()
      modifies this`saved
      ensures saved == old(saved) + [trainStepNum]
    {
      saved := saved + [trainStepNum];
    }

    /** One turn of the waiting loop. */
    method Poll(answer: Answer)
      requires Config().Valid()
      modifies this`lastSyncStep, this`syncs
      ensures View() == Heed(Config(), old(View()), Heard(trainStepNum, answer))
    {
      var sync := NeedSync(answer.asks);
      if sync { SyncWeight(answer.ready); }
    }

    /** Waiting for samples: the loop keeps checking whether to synchronize. */
    method WaitForSamples(answers: seq<Answer>)
      requires Config().Valid()
      modifies this`lastSyncStep, this`syncs
      ensures View() == AfterWait(Config(), old(View()), trainStepNum, answers, |answers|)
    {
      for k := 0 to |answers|
        invariant View() == AfterWait(Config(), old(View()), trainStepNum, answers, k)
      {
        Poll(answers[k]);
      }
    }

    /** After a train step: synchronize, or let the checkpoint that is due anyway stand in for it. */
    method FinishStep(answer: Answer)
      requires Config().Valid()
      requires trainStepNum > 0
      modifies this`lastSyncStep, this`syncs, this`saved
      ensures if if stepDriven then old(lastSyncStep) != trainStepNum && trainStepNum % syncInterval == 0
                 else answer.asks && (old(lastSyncStep) != trainStepNum || syncMethod == NCCL)
              then && lastSyncStep == trainStepNum
                   && syncs == old(syncs) + [Attempt(trainStepNum, syncMethod == NCCL ==> answer.ready)]
              else lastSyncStep == old(lastSyncStep) && syncs == old(syncs)
      ensures saved == old(saved) + if saveInterval > 0 then Due(trainStepNum, saveInterval) else []
    {
      var needSync := NeedSync(answer.asks);
      var needSave := NeedSave();
      if needSync && !(needSave && syncMethod == Checkpoint) {
        SyncWeight(answer.ready);
      }
      if needSave {
        SaveCheckpoint();
        if needSync {
          if syncMethod == Checkpoint {
            syncs := syncs + [Attempt(trainStepNum, true)];
          }
          lastSyncStep := trainStepNum;
        }
      }
    }

    /** One turn of the loop: wait for the samples, train on them, synchronize and save. */
    method OneStep(turn: Turn)
      requires Config().Valid()
      modifies this
      ensures trainStepNum == old(trainStepNum) + 1
      ensures var b := AfterWait(Config(), old(View()), old(trainStepNum), turn.waits, |turn.waits|);
              View() == Heed(Config(), b, Heard(trainStepNum, turn.after))
      ensures saved == old(saved) + if saveInterval > 0 then Due(trainStepNum, saveInterval) else []
    {
      WaitForSamples(turn.waits);
      trainStepNum := trainStepNum + 1;
      FinishStep(turn.after);
    }

    /**
     The loop over the train steps: one turn for every batch the buffer gives, and `lastWait` for the wait that
     finds it exhausted.
     */
    method Train(totalSteps: Option<nat>, turns: seq<Turn>, lastWait: seq<Answer>)
      requires Config().Valid()
      requires lastSyncStep == trainStepNum && syncs == [] && saved == []
      modifies this
      ensures trainStepNum == old(trainStepNum) + Steps(totalSteps, old(trainStepNum), |turns|)
      ensures View() == AfterRun(Config(), totalSteps, old(trainStepNum), turns, lastWait)
      ensures stepDriven ==> StepsOf(syncs) == Multiples(old(trainStepNum), trainStepNum, syncInterval)
      ensures !stepDriven ==> Served(syncMethod, View(), old(trainStepNum), trainStepNum,
                                     AllHeard(totalSteps, old(trainStepNum), turns, lastWait))
      ensures saved == Saves(old(trainStepNum), trainStepNum, saveInterval) + [trainStepNum]
    {
      ghost var first := trainStepNum;
      var k := 0;
      while (totalSteps.None? || trainStepNum < totalSteps.value) && k < |turns|
        invariant k <= Steps(totalSteps, first, |turns|) && trainStepNum == first + k
        invariant View() == AfterTurns(Config(), first, turns, k)
        invariant saved == Saves(first, trainStepNum, saveInterval)
        decreases |turns| - k
      {
        OneStep(turns[k]);
        k := k + 1;
      }
      if totalSteps.None? || trainStepNum < totalSteps.value {
        WaitForSamples(lastWait);
      }
      SaveCheckpoint();
      if stepDriven {
        StepDrivenSyncs(Config(), totalSteps, first, turns, lastWait);
      } else {
        ExplorerDrivenSyncs(Config(), totalSteps, first, turns, lastWait);
      }
    }
  }

  function Due(step: nat, k: nat): seq<nat>
    requires k > 0
  {
    if step % k == 0 then [step] else []
  }

  /** The saves inside the loop; an interval of 0 means none. */
  function Saves(a: nat, b: nat, k: nat): seq<nat>
    requires a <= b
  {
    if k == 0 then [] else Multiples(a, b, k)
  }

  /** How many train steps are made. */
  function Steps(totalSteps: Option<nat>, from: nat, batches: nat): (n: nat)
    ensures n <= batches
  {
    match totalSteps
    case None => batches
    case Some(total) => if total <= from then 0 else if total - from < batches then total - from else batches
  }

  // ---- step-driven --------------------------------------------------------------------------

  /** A collective synchronization behind one of the first `k` turns is taken when the synchronizer is ready then. */
  ghost predicate TakenWhenReady(m: SyncMethod, attempts: seq<Attempt>, first: nat, turns: seq<Turn>, k: nat)
    requires k <= |turns|
  {
    forall i :: 0 <= i < |attempts| ==>
      var at := attempts[i].step - first;
      0 < at <= k && attempts[i].taken == (m == NCCL ==> turns[at - 1].after.ready)
  }

  lemma {:induction false} WaitsIgnored(c: Style, b: Books, step: nat, answers: seq<Answer>, k: nat)
    requires c.stepDriven && c.Valid() && k <= |answers|
    requires step % c.syncInterval == 0 ==> b.last == step
    ensures AfterWait(c, b, step, answers, k) == b
  {
    if k > 0 { WaitsIgnored(c, b, step, answers, k - 1); }
  }

  /** One turn from where a step at a multiple of the interval counts as synchronized. */
  lemma TurnAtMultiple(c: Style, was: Books, step: nat, turn: Turn)
    requires c.stepDriven && c.Valid()
    requires was.last <= step && (step % c.syncInterval == 0 ==> was.last == step)
    ensures var h := Heard(step + 1, turn.after);
            Heed(c, AfterWait(c, was, step, turn.waits, |turn.waits|), h)
            == if h.step % c.syncInterval == 0
               then Books(was.syncs + [Attempt(h.step, c.syncMethod == NCCL ==> turn.after.ready)], h.step)
               else was
  {
    WaitsIgnored(c, was, step, turn.waits, |turn.waits|);
  }

  lemma TakenNext(m: SyncMethod, was: seq<Attempt>, first: nat, turns: seq<Turn>, k: nat)
    requires k < |turns| && TakenWhenReady(m, was, first, turns, k)
    ensures TakenWhenReady(m, was, first, turns, k + 1)
    ensures TakenWhenReady(m, was + [Attempt(first + k + 1, m == NCCL ==> turns[k].after.ready)], first, turns, k + 1)
  {
  }

  /** A step-driven trainer synchronizes behind exactly the steps at multiples of its interval, once each. */
  lemma {:induction false} TurnsAtMultiples(c: Style, first: nat, turns: seq<Turn>, k: nat)
    requires c.stepDriven && c.Valid() && k <= |turns|
    ensures var b, step := AfterTurns(c, first, turns, k), first + k;
            && b.last <= step && (step % c.syncInterval == 0 ==> b.last == step)
            && StepsOf(b.syncs) == Multiples(first, step, c.syncInterval)
            && TakenWhenReady(c.syncMethod, b.syncs, first, turns, k)
  {
    if k > 0 {
      var was, turn := AfterTurns(c, first, turns, k - 1), turns[k - 1];
      TurnsAtMultiples(c, first, turns, k - 1);
      TurnAtMultiple(c, was, first + k - 1, turn);
      TakenNext(c.syncMethod, was.syncs, first, turns, k - 1);
      StepsOfSnoc(was.syncs, Attempt(first + k, c.syncMethod == NCCL ==> turn.after.ready));
    }
  }

  /** The same over a whole run: whatever was answered, nothing else is synchronized. */
  lemma StepDrivenSyncs(c: Style, totalSteps: Option<nat>, first: nat, turns: seq<Turn>, lastWait: seq<Answer>)
    requires c.stepDriven && c.Valid()
    ensures var k := Steps(totalSteps, first, |turns|);
            var syncs := AfterRun(c, totalSteps, first, turns, lastWait).syncs;
            && StepsOf(syncs) == Multiples(first, first + k, c.syncInterval)
            && TakenWhenReady(c.syncMethod, syncs, first, turns, k)
  {
    var k := Steps(totalSteps, first, |turns|);
    TurnsAtMultiples(c, first, turns, k);
    WaitsIgnored(c, AfterTurns(c, first, turns, k), first + k, lastWait, |lastWait|);
  }

  // ---- explorer-driven ----------------------------------------------------------------------

  /** The first `k` answers of a wait. */
  function HeardAt(step: nat, answers: seq<Answer>, k: nat): seq<Heard>
    requires k <= |answers|
  {
    if k == 0 then [] else HeardAt(step, answers, k - 1) + [Heard(step, answers[k - 1])]
  }

  /** The answers of the first `k` turns. */
  function HeardIn(first: nat, turns: seq<Turn>, k: nat): seq<Heard>
    requires k <= |turns|
  {
    if k == 0 then []
    else
      var waits := turns[k - 1].waits;
      HeardIn(first, turns, k - 1) + HeardAt(first + k - 1, waits, |waits|) + [Heard(first + k, turns[k - 1].after)]
  }

  /** The answers of a whole run. */
  function AllHeard(totalSteps: Option<nat>, first: nat, turns: seq<Turn>, lastWait: seq<Answer>): seq<Heard> {
    var k := Steps(totalSteps, first, |turns|);
    if Reached(totalSteps, first + k) then HeardIn(first, turns, k)
    else HeardIn(first, turns, k) + HeardAt(first + k, lastWait, |lastWait|)
  }

  /** The steps behind `first` at which the explorer asks for weights. */
  ghost function AskedBehind(first: nat, heard: seq<Heard>): set<nat> {
    set i | 0 <= i < |heard| && heard[i].answer.asks && heard[i].step > first :: heard[i].step
  }

  ghost function SyncedSteps(attempts: seq<Attempt>): set<nat> {
    set i | 0 <= i < |attempts| :: attempts[i].step
  }

  /** One attempt for every positive answer. */
  function Positives(heard: seq<Heard>): seq<Attempt> {
    if heard == [] then []
    else
      var h := heard[|heard| - 1];
      Positives(heard[..|heard| - 1]) + if h.answer.asks then [Attempt(h.step, h.answer.ready)] else []
  }

  /**
   What an explorer-driven trainer has done when the engine is at `step`: a collective synchronization for every
   positive answer, otherwise exactly one for every later step the explorer asked at.
   */
  ghost predicate Served(m: SyncMethod, b: Books, first: nat, step: nat, heard: seq<Heard>) {
    && first <= b.last <= step
    && b.last == (if b.syncs == [] then first else b.syncs[|b.syncs| - 1].step)
    && (m == NCCL ==> b.syncs == Positives(heard))
    && (m != NCCL ==>
          && InStepOrder(b.syncs) && AllTaken(b.syncs)
          && SyncedSteps(b.syncs) == AskedBehind(first, heard))
  }

  lemma AskedNext(first: nat, heard: seq<Heard>, h: Heard)
    ensures AskedBehind(first, heard + [h])
         == AskedBehind(first, heard) + if h.answer.asks && h.step > first then {h.step} else {}
  {
    var next, asked := heard + [h], AskedBehind(first, heard + [h]);
    forall n | n in AskedBehind(first, heard) ensures n in asked {
      var i :| 0 <= i < |heard| && heard[i].answer.asks && heard[i].step > first && heard[i].step == n;
      assert next[i] == heard[i];
    }
    assert next[|heard|] == h;
  }

  lemma SyncedNext(attempts: seq<Attempt>, a: Attempt)
    ensures SyncedSteps(attempts + [a]) == SyncedSteps(attempts) + {a.step}
  {
    var next := attempts + [a];
    forall n | n in SyncedSteps(attempts) ensures n in SyncedSteps(next) {
      var i :| 0 <= i < |attempts| && attempts[i].step == n;
      assert next[i] == attempts[i];
    }
    assert next[|attempts|] == a;
  }

  lemma RequestIsServed(c: Style, b: Books, first: nat, step: nat, heard: seq<Heard>, h: Heard)
    requires !c.stepDriven && c.syncMethod != NCCL && h.step >= step
    requires Served(c.syncMethod, b, first, step, heard)
    ensures var b' := Heed(c, b, h);
            InStepOrder(b'.syncs) && AllTaken(b'.syncs) && SyncedSteps(b'.syncs) == AskedBehind(first, heard + [h])
  {
    AskedNext(first, heard, h);
    SyncedNext(b.syncs, Attempt(h.step, true));
    assert b.last > first ==> b.syncs[|b.syncs| - 1].step in SyncedSteps(b.syncs);
  }

  /** One more answer is served by one more synchronization when it asks for one that is not there yet. */
  lemma ServedNext(c: Style, b: Books, first: nat, step: nat, heard: seq<Heard>, h: Heard)
    requires !c.stepDriven && h.step >= step
    requires Served(c.syncMethod, b, first, step, heard)
    ensures Served(c.syncMethod, Heed(c, b, h), first, h.step, heard + [h])
  {
    if c.syncMethod == NCCL {
      assert (heard + [h])[..|heard|] == heard;
    } else {
      RequestIsServed(c, b, first, step, heard, h);
    }
  }

  lemma {:induction false} WaitIsServed(c: Style, b: Books, first: nat, step: nat, heard: seq<Heard>,
                                        answers: seq<Answer>, k: nat)
    requires !c.stepDriven && k <= |answers|
    requires Served(c.syncMethod, b, first, step, heard)
    ensures Served(c.syncMethod, AfterWait(c, b, step, answers, k), first, step, heard + HeardAt(step, answers, k))
  {
    if k == 0 {
      assert heard + HeardAt(step, answers, k) == heard;
    } else {
      var log, h := HeardAt(step, answers, k - 1), Heard(step, answers[k - 1]);
      WaitIsServed(c, b, first, step, heard, answers, k - 1);
      ServedNext(c, AfterWait(c, b, step, answers, k - 1), first, step, heard + log, h);
      ConcatAssociates(heard, log, [h]);
    }
  }

  /** Whatever the explorer answers, an explorer-driven trainer serves exactly its requests. */
  lemma {:induction false} TurnsAreServed(c: Style, first: nat, turns: seq<Turn>, k: nat)
    requires !c.stepDriven && k <= |turns|
    ensures Served(c.syncMethod, AfterTurns(c, first, turns, k), first, first + k, HeardIn(first, turns, k))
  {
    if k > 0 {
      var was, heard, waits := AfterTurns(c, first, turns, k - 1), HeardIn(first, turns, k - 1), turns[k - 1].waits;
      TurnsAreServed(c, first, turns, k - 1);
      WaitIsServed(c, was, first, first + k - 1, heard, waits, |waits|);
      ServedNext(c, AfterWait(c, was, first + k - 1, waits, |waits|), first, first + k - 1,
                 heard + HeardAt(first + k - 1, waits, |waits|), Heard(first + k, turns[k - 1].after));
    }
  }

  /** The same over a whole run. */
  lemma ExplorerDrivenSyncs(c: Style, totalSteps: Option<nat>, first: nat, turns: seq<Turn>, lastWait: seq<Answer>)
    requires !c.stepDriven
    ensures Served(c.syncMethod, AfterRun(c, totalSteps, first, turns, lastWait), first,
                   first + Steps(totalSteps, first, |turns|), AllHeard(totalSteps, first, turns, lastWait))
  {
    var k := Steps(totalSteps, first, |turns|);
    TurnsAreServed(c, first, turns, k);
    WaitIsServed(c, AfterTurns(c, first, turns, k), first, first + k, HeardIn(first, turns, k), lastWait, |lastWait|);
  }
}

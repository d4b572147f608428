/** The synchronizer as the object both sides call; one method per stretch that runs under the lock. */
module Synchronizer {
  import opened Common
  import opened Rendezvous
  import opened PullSync

  class Synchronizer {
    var trainerStatus: Status
    var explorerStatusCounts: map<Status, int>
    var modelVersion: int
    var notified: bool           // notify_all was called in the current stretch

    function View(): Sync
      reads this
    {
      Sync(trainerStatus, explorerStatusCounts, modelVersion)
    }

    constructor ()
      ensures View() == Sync(Stopped, map[], 0)
    {
      trainerStatus, explorerStatusCounts, modelVersion, notified := Stopped, map[], 0, false;
    }

    /** `ok` is false when an assertion fails. */
    method SetExplorerStatus(status: Status, oldStatus: Option<Status>) returns (ok: bool)
      modifies this`explorerStatusCounts, this`notified
      ensures oldStatus.None? ==>
                && ok
                && explorerStatusCounts
                   == old(explorerStatusCounts)[status := CountOf(old(explorerStatusCounts), status) + 1]
      ensures oldStatus.Some? ==>
                var moved := MoveExplorer(old(explorerStatusCounts), oldStatus.value, status);
                ok == moved.Some? && (ok ==> explorerStatusCounts == moved.value)
      ensures notified == (old(notified) || (ok && status == Stopped))
    {
      if oldStatus.Some? {
        if oldStatus.value !in explorerStatusCounts || oldStatus.value == status { return false; }
        explorerStatusCounts := explorerStatusCounts[oldStatus.value := explorerStatusCounts[oldStatus.value] - 1];
        if explorerStatusCounts[oldStatus.value] < 0 { return false; }
      }
      if status !in explorerStatusCounts {
        explorerStatusCounts := explorerStatusCounts[status := 0];
      }
      explorerStatusCounts := explorerStatusCounts[status := explorerStatusCounts[status] + 1];
      if status == Stopped { notified := true; }
      ok := true;
    }

    method SetTrainerStatus(status: Status)
      modifies this`trainerStatus, this`notified
      ensures trainerStatus == status && notified == (old(notified) || status == Stopped)
    {
      trainerStatus := status;
      if status == Stopped { notified := true; }
    }

    method SyncFailed(isTrainer: bool) returns (o: Outcome)
      modifies this
      ensures o == if isTrainer then FailTrainer(old(View())) else FailExplorer(old(View()))
      ensures notified == old(notified)
      ensures !o.Raises? ==> View() == o.sync
    {
      if isTrainer {
        trainerStatus := Running;
      } else {
        var ok := SetExplorerStatus(Running, Some(RequireSync));
        if !ok { return Raises; }
      }
      o := Returns(View(), None);
    }

    /** ready_to_nccl_sync("trainer", step) from taking the lock to its wait or return. */
    method TrainerReady(step: int) returns (o: Outcome)
      modifies this
      ensures o == TrainerEnters(old(View()), step)
      ensures !o.Raises? ==> View() == o.sync
      ensures notified
    {
      modelVersion := step;
      trainerStatus := RequireSync;
      notified := true;
      if CountOf(explorerStatusCounts, RequireSync) != 1 {
        if CountOf(explorerStatusCounts, RequireSync) + CountOf(explorerStatusCounts, Stopped) != 1 {
          return Waits(View());
        }
        o := TrainerResumes();
        return;
      }
      var ok := SetExplorerStatus(Running, Some(RequireSync));
      o := if ok then Returns(View(), Some(modelVersion)) else Raises;
    }

    /** The trainer's call after its wait, the awaited condition holding. */
    method TrainerResumes() returns (o: Outcome)
      modifies this
      ensures o == TrainerProceeds(old(View()))
      ensures !o.Raises? ==> View() == o.sync
      ensures old(notified) ==> notified
    {
      if CountOf(explorerStatusCounts, Stopped) == 1 {
        trainerStatus := Running;
        return Returns(View(), None);
      }
      var ok := SetExplorerStatus(Running, Some(RequireSync));
      o := if ok then Returns(View(), Some(modelVersion)) else Raises;
    }

    /** ready_to_nccl_sync("explorer", ...) from taking the lock to its wait or return. */
    method ExplorerReady() returns (o: Outcome)
      modifies this
      ensures o == ExplorerEnters(old(View()))
      ensures !o.Raises? ==> View() == o.sync && notified
    {
      var ok := SetExplorerStatus(RequireSync, Some(Running));
      if !ok { return Raises; }
      notified := true;
      if trainerStatus != RequireSync {
        if trainerStatus != Stopped {
          return Waits(View());
        }
        o := ExplorerResumes();
        return;
      }
      trainerStatus := Running;
      o := Returns(View(), Some(modelVersion));
    }

    /** The explorer's call after its wait, the awaited condition holding. */
    method ExplorerResumes() returns (o: Outcome)
      modifies this
      ensures o == ExplorerProceeds(old(View()))
      ensures !o.Raises? ==> View() == o.sync && (old(notified) ==> notified)
    {
      if trainerStatus == Stopped {
        o := SyncFailed(false);
        return;
      }
      trainerStatus := Running;
      o := Returns(View(), Some(modelVersion));
    }

    method TrainerRequiresWeightSync() returns (r: Option<bool>)
      ensures r == if trainerStatus == Stopped then None else Some(trainerStatus == RequireSync)
    {
      if trainerStatus == Stopped { return None; }
      r := Some(trainerStatus == RequireSync);
    }

    method ExplorerRequiresSync() returns (r: bool)
      ensures r == RequiresSync(explorerStatusCounts)
    {
      r := RequireSync in explorerStatusCounts && explorerStatusCounts[RequireSync] > 0;
    }

    method SetModelStateDict(trainerStep: int)
      modifies this`modelVersion, this`notified
      ensures modelVersion == trainerStep && notified
    {
      modelVersion := trainerStep;
      notified := true;
    }

    /** wait_new_model_state_dict(currentVersion) from taking the lock to its wait or return. */
    method WaitNewModelStateDict(currentVersion: int) returns (o: Outcome)
      modifies this
      ensures o == PullEnters(old(View()), currentVersion)
      ensures !o.Raises? ==> View() == o.sync
      ensures notified == old(notified)
    {
      if modelVersion < currentVersion { return Raises; }
      var ok := SetExplorerStatus(RequireSync, Some(Running));
      if !ok { return Raises; }
      if modelVersion == currentVersion {
        if trainerStatus != Stopped {
          return Waits(View());
        }
      }
      o := NewModelStateDict();
    }

    /** The same call after its wait, whatever woke it. */
    method NewModelStateDict() returns (o: Outcome)
      modifies this
      ensures o == PullProceeds(old(View()))
      ensures !o.Raises? ==> View() == o.sync
      ensures notified == old(notified)
    {
      var ok := SetExplorerStatus(Running, Some(RequireSync));
      o := if ok then Returns(View(), Some(modelVersion)) else Raises;
    }
  }
}

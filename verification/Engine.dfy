/** The worker's load engine: stage execution and the order in which a test is closed. */
module Engine {
  import opened PlanDistributor

  /** How many virtual users a stage starts: its target, capped by the worker's assignment. */
  function Started(target: int, assignedVUs: int): int {
    Min(target, assignedVUs)
  }

  lemma StartedIsCapped(target: int, assignedVUs: int)
    ensures Started(target, assignedVUs) <= target && Started(target, assignedVUs) <= assignedVUs
    ensures Started(target, assignedVUs) in {target, assignedVUs}
  {
  }

  /** What the engine does, in order, as the other components can observe it. */
  datatype Action =
    | Activated(testID: string)
    | ReporterStarted(testID: string)
    | StageRan(index: nat, started: int)
    | Deactivated
    | BatchSent(testID: string, active: bool)

  /** The stages that run when cancellation is noticed at the end of stage `cancelAt`. */
  function StageActions(stages: seq<Stage>, assignedVUs: int, cancelAt: nat): seq<Action> {
    seq(Min(|stages|, cancelAt + 1), i requires 0 <= i < Min(|stages|, cancelAt + 1) =>
      StageRan(i, Started(stages[i].targetVUs, assignedVUs)))
  }

  class Engine {
    var currentTestID: string
    var testActive: bool
    var virtualUsers: nat
    var activeVUs: int
    var reporterTestID: string
    ghost var actions: seq<Action>

    constructor ()
      ensures !testActive && activeVUs == 0 && actions == []
    {
      currentTestID, testActive, virtualUsers, activeVUs, reporterTestID, actions := "", false, 0, 0, "", [];
    }

    /**
     Runs a whole test. The active flag falls only after the stage loop was left, and
     the final "finished" batch goes out only after the flag has fallen.
     */
    method RunTest(testID: string, stages: seq<Stage>, assignedVUs: nat, cancelAt: nat) returns (ok: bool)
      requires forall i :: 0 <= i < |stages| ==> stages[i].targetVUs >= 0
      modifies this
      ensures ok == (cancelAt >= |stages|)
      ensures currentTestID == testID && !testActive && activeVUs == old(activeVUs)
      ensures actions == old(actions) + [Activated(testID), ReporterStarted(testID)]
                         + StageActions(stages, assignedVUs, cancelAt)
                         + [Deactivated, BatchSent(testID, false)]
    {
      currentTestID, testActive := testID, true;
      actions := actions + [Activated(testID)];
      reporterTestID := testID;
      actions := actions + [ReporterStarted(testID)];
      virtualUsers := assignedVUs;

      ghost var prologue := actions;
      ok := true;
      var i := 0;
      while i < |stages| && ok
        invariant 0 <= i <= |stages|
        invariant ok ==> i <= cancelAt
        invariant !ok ==> i == cancelAt + 1
        invariant currentTestID == reporterTestID == testID
        invariant virtualUsers == assignedVUs && activeVUs == old(activeVUs)
        invariant actions == prologue + StageActions(stages, assignedVUs, cancelAt)[..i]
      {
        var started := RunStage(stages[i].targetVUs, assignedVUs);
        actions := actions + [StageRan(i, started)];
        ok := i != cancelAt;
        i := i + 1;
      }
      assert StageActions(stages, assignedVUs, cancelAt)[..i] == StageActions(stages, assignedVUs, cancelAt);

      testActive := false;
      actions := actions + [Deactivated];
      actions := actions + [BatchSent(reporterTestID, false)];
    }

    /** Starts the stage's virtual users, one by one, and waits for all of them. */
    method RunStage(target: int, totalVUs: int) returns (started: int)
      requires 0 <= target && 0 <= totalVUs == virtualUsers
      modifies this`activeVUs
      ensures started == Started(target, totalVUs) && activeVUs == old(activeVUs)
    {
      var active := target;
      if active > totalVUs {
        active := totalVUs;
      }
      if active > virtualUsers {
        active := virtualUsers;
      }
      started := 0;
      while started < active
        invariant 0 <= started <= active
        invariant activeVUs == old(activeVUs) + started
      {
        activeVUs := activeVUs + 1;
        started := started + 1;
      }
      for i := 0 to started
        invariant activeVUs == old(activeVUs) + started - i
      {
        activeVUs := activeVUs - 1;
      }
    }
  }
}

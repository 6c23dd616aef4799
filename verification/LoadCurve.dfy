/** Dispatch of per-worker plans, and the load curve the fleet runs together. */
module LoadCurve {
  import opened Sums
  import opened HashRing
  import opened PlanDistributor
  import SA = StageAllocation
  import opened Engine

  datatype ProtoPlan = ProtoPlan(id: string, totalVirtualUsers: int, stages: seq<Stage>)

  datatype RunRequest = RunRequest(testID: string, plan: ProtoPlan, assignedVUs: int, workerID: string)

  /** The plan with every stage target replaced by the worker's share of it. */
  ghost function PlanFor(plan: ProtoPlan, dist: map<string, int>, workerID: string): ProtoPlan {
    plan.(totalVirtualUsers := Get(dist, workerID),
          stages := seq(|plan.stages|, i requires 0 <= i < |plan.stages| =>
            plan.stages[i].(targetVUs := Get(SA.StageSplit(dist, plan.stages[i].targetVUs), workerID))))
  }

  /** A stage without an allocation keeps its target. */
  function TargetFor(stage: Stage, i: nat, workerID: string, allocations: seq<map<string, int>>): Stage {
    if i < |allocations| then stage.(targetVUs := Get(allocations[i], workerID)) else stage
  }

  method PlanForWorker(plan: ProtoPlan, workerID: string, assignedVUs: int, allocations: seq<map<string, int>>)
    returns (workerPlan: ProtoPlan)
    ensures workerPlan == plan.(totalVirtualUsers := assignedVUs, stages := workerPlan.stages)
    ensures |workerPlan.stages| == |plan.stages|
    ensures forall i :: 0 <= i < |plan.stages| ==>
      workerPlan.stages[i] == TargetFor(plan.stages[i], i, workerID, allocations)
  {
    var stages := plan.stages;
    for i := 0 to |stages|
      invariant |stages| == |plan.stages|
      invariant forall k :: 0 <= k < i ==> stages[k] == TargetFor(plan.stages[k], k, workerID, allocations)
      invariant forall k :: i <= k < |stages| ==> stages[k] == plan.stages[k]
    {
      if i < |allocations| {
        stages := stages[i := stages[i].(targetVUs := Get(allocations[i], workerID))];
      }
    }
    workerPlan := plan.(totalVirtualUsers := assignedVUs, stages := stages);
  }

  /** One run request per assigned worker that is still registered. */
  method DispatchToWorkers(plan: ProtoPlan, dist: map<string, int>, registered: set<string>)
    returns (sent: map<string, RunRequest>)
    requires NonNegative(dist)
    ensures Dispatched(plan, dist, registered, sent)
  {
    var allocations: seq<map<string, int>> := [];
    for i := 0 to |plan.stages|
      invariant |allocations| == i
      invariant forall k :: 0 <= k < i ==> allocations[k] == SA.StageSplit(dist, plan.stages[k].targetVUs)
    {
      var allocation := SA.AllocateStageVUs(dist, plan.stages[i].targetVUs);
      allocations := allocations + [allocation];
    }
    sent := map[];
    var rest := dist.Keys;
    while rest != {}
      invariant rest <= dist.Keys
      invariant sent.Keys == (dist.Keys - rest) * registered
      invariant forall w :: w in sent ==> sent[w] == RunRequest(plan.id, PlanFor(plan, dist, w), dist[w], w)
      decreases |rest|
    {
      var w :| w in rest;
      if w in registered {
        var workerPlan := PlanForWorker(plan, w, dist[w], allocations);
        assert workerPlan.stages == PlanFor(plan, dist, w).stages;
        sent := sent[w := RunRequest(plan.id, workerPlan, dist[w], w)];
      }
      rest := rest - {w};
    }
  }

  ghost predicate Dispatched(plan: ProtoPlan, dist: map<string, int>, registered: set<string>,
      sent: map<string, RunRequest>) {
    && sent.Keys == dist.Keys * registered
    && forall w :: w in sent ==> sent[w] == RunRequest(plan.id, PlanFor(plan, dist, w), dist[w], w)
  }

  /** A request names its worker, the test and the assignment, and has the plan's stages but for their targets. */
  lemma RequestFields(plan: ProtoPlan, dist: map<string, int>, registered: set<string>, sent: map<string, RunRequest>,
                      w: string)
    requires Dispatched(plan, dist, registered, sent) && w in sent
    ensures sent[w].workerID == w && sent[w].testID == plan.id == sent[w].plan.id
    ensures w in dist && w in registered && sent[w].assignedVUs == dist[w] == sent[w].plan.totalVirtualUsers
    ensures |sent[w].plan.stages| == |plan.stages|
    ensures forall k :: 0 <= k < |plan.stages| ==>
      && sent[w].plan.stages[k].duration == plan.stages[k].duration
      && sent[w].plan.stages[k].rampUp == plan.stages[k].rampUp
  {
  }

  /** Virtual users each dispatched worker starts in stage `k`. */
  ghost function StartedIn(sent: map<string, RunRequest>, k: nat): string -> int {
    w =>
      if w in sent && k < |sent[w].plan.stages|
      then Started(sent[w].plan.stages[k].targetVUs, sent[w].assignedVUs)
      else 0
  }

  ghost function StageTotal(sent: map<string, RunRequest>, k: nat): int {
    Sum(sent.Keys, StartedIn(sent, k))
  }

  /** The cap on the worker never bites: what a worker starts is what the orchestrator allocated to it. */
  lemma CapNeverBites(fleet: map<string, WorkerNode>, plan: ProtoPlan, dist: map<string, int>, k: nat, w: string)
    requires IsAssignment(fleet, PeakTarget(plan.stages), dist) && k < |plan.stages| && w in dist
    ensures var target := PlanFor(plan, dist, w).stages[k].targetVUs;
            0 <= target <= dist[w] && Started(target, dist[w]) == target
  {
    var target := plan.stages[k].targetVUs;
    if target > 0 {
      SA.SplitIsExact(dist, target);
    }
  }

  /**
   The load curve: whatever fleet the plan was accepted on, the virtual users started
   in a stage add up to the stage's target, less the shares of assigned workers that
   were no longer registered when the plan was dispatched.
   */
  lemma LoadCurveReproduced(fleet: map<string, WorkerNode>, plan: ProtoPlan, dist: map<string, int>,
                            registered: set<string>, sent: map<string, RunRequest>, k: nat)
    requires IsAssignment(fleet, PeakTarget(plan.stages), dist) && k < |plan.stages|
    requires Dispatched(plan, dist, registered, sent)
    ensures StageTotal(sent, k)
            == Max(0, plan.stages[k].targetVUs)
               - Sum(dist.Keys - registered, Values(SA.StageSplit(dist, plan.stages[k].targetVUs)))
    ensures dist.Keys <= registered ==> StageTotal(sent, k) == Max(0, plan.stages[k].targetVUs)
  {
    var target := plan.stages[k].targetVUs;
    var split := SA.StageSplit(dist, target);
    forall w | w in sent ensures StartedIn(sent, k)(w) == Get(split, w) {
      CapNeverBites(fleet, plan, dist, k, w);
    }
    SumCong(sent.Keys, StartedIn(sent, k), Values(split));
    SumPartition(dist.Keys, registered, Values(split));
    SplitTotal(fleet, plan.stages, dist, target);
    SumSuperset(dist.Keys, split);
    if dist.Keys <= registered {
      assert dist.Keys - registered == {};
    }
  }

  /** Over the whole distribution a stage's shares add up to its target. */
  lemma SplitTotal(fleet: map<string, WorkerNode>, stages: seq<Stage>, dist: map<string, int>, target: int)
    requires IsAssignment(fleet, PeakTarget(stages), dist) && target <= PeakTarget(stages)
    ensures SumMap(SA.StageSplit(dist, target)) == Max(0, target)
    ensures SA.StageSplit(dist, target).Keys <= dist.Keys
  {
    if target > 0 {
      SA.SplitIsExact(dist, target);
    } else {
      SumMapEmpty();
    }
  }
}

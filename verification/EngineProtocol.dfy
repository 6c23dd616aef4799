/** What the engine does in RunTest, in its order, is what the completion protocol lets a worker do. */
module EngineProtocol {
  import E = Engine
  import PD = PlanDistributor
  import opened Completion
  import opened Lists

  /** The protocol steps of one engine action; the stage loop is left before the active flag falls. */
  function Observed(s: State, w: string, a: E.Action): State {
    match a
    case Activated(t) => Apply(s, BeginTest(w, t))
    case ReporterStarted(_) => Apply(s, StartReporter(w))
    case StageRan(_, _) => s
    case Deactivated => Apply(Apply(s, LeaveStages(w)), ClearActive(w))
    case BatchSent(_, active) => Apply(s, if active then ReportTick(w) else SendFinal(w))
  }

  function AfterActions(s: State, w: string, actions: seq<E.Action>): State {
    if actions == [] then s
    else Observed(AfterActions(s, w, actions[..|actions| - 1]), w, actions[|actions| - 1])
  }

  lemma {:induction false} ActionsCompose(s: State, w: string, a: seq<E.Action>, b: seq<E.Action>)
    ensures AfterActions(s, w, a + b) == AfterActions(AfterActions(s, w, a), w, b)
  {
    if b == [] {
      assert a + b == a;
    } else {
      ConcatSnoc(a, b);
      ActionsCompose(s, w, a, b[..|b| - 1]);
    }
  }

  lemma {:induction false} StagesAreSilent(s: State, w: string, actions: seq<E.Action>)
    requires forall i :: 0 <= i < |actions| ==> actions[i].StageRan?
    ensures AfterActions(s, w, actions) == s
  {
    if actions != [] {
      StagesAreSilent(s, w, actions[..|actions| - 1]);
    }
  }

  lemma TwoActions(s: State, w: string, a: E.Action, b: E.Action)
    ensures AfterActions(s, w, [a, b]) == Observed(Observed(s, w, a), w, b)
  {
    ActionsCompose(s, w, [a], [b]);
    assert [a, b] == [a] + [b];
    OneAction(s, w, a);
    OneAction(Observed(s, w, a), w, b);
  }

  lemma OneAction(s: State, w: string, a: E.Action)
    ensures AfterActions(s, w, [a]) == Observed(s, w, a)
  {
    assert [a][..0] == [];
  }

  lemma Opening(s: State, w: string, t: string)
    requires Worker(s, w).phase == Idle && (w, t) in s.dispatched && (w, t) !in s.started
    ensures var s' := AfterActions(s, w, [E.Activated(t), E.ReporterStarted(t)]);
      Worker(s', w) == WorkerState(t, true, t, InStages) && s'.left == s.left && s'.sent == s.sent
  {
    TwoActions(s, w, E.Activated(t), E.ReporterStarted(t));
  }

  lemma Closing(s: State, w: string, t: string)
    requires Worker(s, w) == WorkerState(t, true, t, InStages)
    ensures var s' := AfterActions(s, w, [E.Deactivated, E.BatchSent(t, false)]);
      && Worker(s', w) == WorkerState(t, false, t, Idle)
      && s'.left == s.left + {(w, t)} && s'.sent == s.sent + {Batch(w, t, false)}
  {
    TwoActions(s, w, E.Deactivated, E.BatchSent(t, false));
  }

  /** However many stages run before a cancellation, the worker ends idle, has left the test's stages, and says so. */
  lemma RunTestFollowsProtocol(s: State, w: string, t: string, stages: seq<PD.Stage>, assignedVUs: int, cancelAt: nat)
    requires Worker(s, w).phase == Idle && (w, t) in s.dispatched && (w, t) !in s.started
    ensures var s' := AfterActions(s, w, [E.Activated(t), E.ReporterStarted(t)]
                                         + E.StageActions(stages, assignedVUs, cancelAt)
                                         + [E.Deactivated, E.BatchSent(t, false)]);
      && Worker(s', w) == WorkerState(t, false, t, Idle)
      && s'.left == s.left + {(w, t)} && s'.sent == s.sent + {Batch(w, t, false)}
  {
    var opening, ran := [E.Activated(t), E.ReporterStarted(t)], E.StageActions(stages, assignedVUs, cancelAt);
    var open := AfterActions(s, w, opening);
    Opening(s, w, t);
    ActionsCompose(s, w, opening, ran);
    StagesAreSilent(open, w, ran);
    Closing(open, w, t);
    ActionsCompose(s, w, opening + ran, [E.Deactivated, E.BatchSent(t, false)]);
  }
}

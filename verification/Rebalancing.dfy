/**
 Rebalancing a test while it runs. A rebalance takes the failed worker out of the assignment but
 leaves it in the done set, and it adds workers that are never sent the test, so completion may
 fire while an assigned worker still runs, or before it ever does. Here is the exact condition,
 checkable before a rebalance, under which it cannot.
 */
module Rebalancing {
  import opened Orders
  import opened TestState
  import opened Completion

  // ---------- the condition ----------

  /** The worker was sent the test, and that request may still arrive, or it is about to be sent one. */
  predicate CanRun(s: State, t: string, w: string) {
    (w, t) in s.started || (w, t) in s.dispatched || t in s.unsent
  }

  /** The assigned workers that have reported the test or still can. */
  function Reporters(s: State, t: string, view: TestView): set<string> {
    set w | w in view.workers.Keys && CanRun(s, t, w)
  }

  /** All workers but `u` can bring the test to completion. */
  predicate CompletesWithout(s: State, t: string, view: TestView, u: string) {
    Reporters(s, t, view) - {u} != {} && |view.done + (Reporters(s, t, view) - {u})| >= |view.workers|
  }

  /**
   No later completion can come too early. A test that is completed, or has a completion on its
   way, needs all its workers to have left; one that still runs must not be completed without any
   worker that has not.
   */
  ghost predicate CompletesLate(s: State, t: string, view: TestView) {
    && (view.status == Completed || t in s.completions ==> AllLeft(s, t, view.workers.Keys))
    && (view.status == Running ==>
        forall u :: u in view.workers && (u, t) !in s.left ==> !CompletesWithout(s, t, view, u))
  }

  /** The test as a rebalance to `shares` would leave it. */
  function Rebalanced(s: State, t: string, shares: map<string, int>): TestView
    requires t in s.tests
  {
    s.tests[t].(workers := shares)
  }

  /** An enabled rebalance meets the condition, which can be checked beforehand. */
  ghost predicate RebalanceGuard(s: State, step: Step) {
    step.Rebalance? && CanRebalance(s, step.test, step.failed, step.shares) ==>
      CompletesLate(s, step.test, Rebalanced(s, step.test, step.shares))
  }

  ghost predicate GuardedRebalances(s: State, steps: seq<Step>) {
    forall i :: 0 <= i < |steps| ==> RebalanceGuard(RunFrom(s, steps[..i]), steps[i])
  }

  ghost predicate SafeInv(s: State) {
    Base(s) && forall t :: t in s.tests ==> CompletesLate(s, t, s.tests[t])
  }

  lemma AllLeftGrows(s: State, step: Step, t: string, workers: set<string>)
    requires AllLeft(s, t, workers)
    ensures AllLeft(Apply(s, step), t, workers)
  {
    forall w | w in workers ensures (w, t) in Apply(s, step).left { SentAndLeftGrow(s, step, w, t); }
  }

  /** Fewer who can still report, more done who could, and more who have left: the condition stays. */
  lemma LateStays(s: State, s': State, t: string, view: TestView, view': TestView, u: string)
    requires view'.workers == view.workers && view.done <= view'.done <= view.done + Reporters(s, t, view)
    requires u !in view'.done && Reporters(s', t, view') <= Reporters(s, t, view)
    requires !CompletesWithout(s, t, view, u)
    ensures !CompletesWithout(s', t, view', u)
  {
    var before, after := Reporters(s, t, view) - {u}, Reporters(s', t, view') - {u};
    assert view'.done + after <= view.done + before;
    SubsetSize(view'.done + after, view.done + before);
  }

  /** If the condition holds, a worker that reports completes the test only as the last one. */
  lemma MarkedWithout(s: State, s': State, t: string, view: TestView, w: string, u: string)
    requires s'.started == s.started && s'.dispatched == s.dispatched && s'.unsent == s.unsent
    requires w in view.workers && CanRun(s, t, w) && u in view.workers && u != w && u !in view.done
    requires !CompletesWithout(s, t, view, u)
    ensures !CompletesWithout(s', t, MarkDone(view, w), u) && !FiresCompletion(view, w)
  {
    assert w in Reporters(s, t, view) - {u};
    LateStays(s, s', t, view, MarkDone(view, w), u);
    SubsetSize(view.done + {w}, view.done + (Reporters(s, t, view) - {u}));
  }

  lemma DeliverCompletesLate(s: State, b: Batch, t: string)
    requires b in s.sent && BatchOk(s, b) && t in s.tests && DoneOk(s, t) && CompletesLate(s, t, s.tests[t])
    requires Traced(s, b.worker, t)
    ensures CompletesLate(Delivered(s, b), t, Delivered(s, b).tests[t])
  {
    var s' := Delivered(s, b);
    assert s' == s.(tests := s'.tests, completions := s'.completions);
    if t == b.test && !b.active && b.worker in s.tests[t].workers {
      assert s'.tests[t] == MarkDone(s.tests[t], b.worker);
      MarkedLate(s, s', t, b.worker);
    } else {
      assert s'.tests[t] == s.tests[t] && (t in s'.completions <==> t in s.completions);
      WithoutFrame(s, s', t, s.tests[t], s'.tests[t]);
    }
  }

  lemma MarkedLate(s: State, s': State, t: string, w: string)
    requires t in s.tests && DoneOk(s, t) && CompletesLate(s, t, s.tests[t])
    requires w in s.tests[t].workers && (w, t) in s.left && (w, t) in s.started
    requires s' == s.(tests := s'.tests, completions := s'.completions)
    requires t in s'.completions ==> t in s.completions || FiresCompletion(s.tests[t], w)
    ensures CompletesLate(s', t, MarkDone(s.tests[t], w))
  {
    var view := s.tests[t];
    forall u | u in view.workers && (u, t) !in s.left && view.status == Running
      ensures !CompletesWithout(s', t, MarkDone(view, w), u) && !FiresCompletion(view, w)
    {
      MarkedWithout(s, s', t, view, w, u);
    }
  }

  lemma WithoutFrame(s: State, s': State, t: string, view: TestView, view': TestView)
    requires s'.started == s.started && s'.dispatched == s.dispatched && (t in s'.unsent <==> t in s.unsent)
    requires view'.workers == view.workers && view'.done == view.done
    ensures forall u :: CompletesWithout(s', t, view', u) == CompletesWithout(s, t, view, u)
  {
    assert Reporters(s', t, view') == Reporters(s, t, view);
  }

  /** The condition reads nothing else of a state. */
  lemma LateFrame(s: State, s': State, t: string, view: TestView)
    requires s'.left == s.left && s'.started == s.started && s'.dispatched == s.dispatched && s'.unsent == s.unsent
    requires s'.completions == s.completions
    ensures CompletesLate(s', t, view) <==> CompletesLate(s, t, view)
  {
    WithoutFrame(s, s', t, view, view);
  }

  lemma RebalanceCompletesLate(s: State, u: string, failed: string, shares: map<string, int>, t: string)
    requires RebalanceGuard(s, Rebalance(u, failed, shares)) && t in s.tests && CompletesLate(s, t, s.tests[t])
    ensures var s' := Apply(s, Rebalance(u, failed, shares)); t in s'.tests && CompletesLate(s', t, s'.tests[t])
  {
    var s' := Apply(s, Rebalance(u, failed, shares));
    assert s' == s.(tests := s'.tests);
    LateFrame(s, s', t, s'.tests[t]);
  }

  lemma StatusLate(s: State, s': State, t: string, view: TestView, view': TestView)
    requires CompletesLate(s, t, view) && view'.workers == view.workers && view'.done == view.done
    requires s' == s.(tests := s'.tests, completions := s'.completions, stops := s'.stops)
    requires t in s'.completions ==> t in s.completions
    requires view'.status == Running ==> view.status == Running
    requires view'.status == Completed ==> view.status == Completed || t in s.completions
    ensures CompletesLate(s', t, view')
  {
    WithoutFrame(s, s', t, view, view');
  }

  lemma SetCompletedLate(s: State, x: string, t: string)
    requires t in s.tests && CompletesLate(s, t, s.tests[t])
    ensures t in Apply(s, SetCompleted(x)).tests
    ensures CompletesLate(Apply(s, SetCompleted(x)), t, Apply(s, SetCompleted(x)).tests[t])
  {
    if x in s.completions && x in s.tests {
      var s' := WithTest(s, x, WithStatus(s.tests[x], Completed)).(completions := s.completions - multiset{x});
      StatusLate(s, s', t, s.tests[t], s'.tests[t]);
      assert Apply(s, SetCompleted(x)) == s';
    }
  }

  lemma SetStoppedLate(s: State, x: string, t: string)
    requires t in s.tests && CompletesLate(s, t, s.tests[t])
    ensures t in Apply(s, SetStopped(x)).tests
    ensures CompletesLate(Apply(s, SetStopped(x)), t, Apply(s, SetStopped(x)).tests[t])
  {
    if x in s.stops && x in s.tests {
      var s' := WithTest(s, x, WithStatus(s.tests[x], Stopped)).(stops := s.stops - multiset{x});
      StatusLate(s, s', t, s.tests[t], s'.tests[t]);
      assert Apply(s, SetStopped(x)) == s';
    }
  }

  lemma DistributeCompletesLate(s: State, x: string, shares: map<string, int>, t: string)
    requires t in Apply(s, Distribute(x, shares)).tests && (t in s.completions ==> t in s.tests)
    requires t in s.tests ==> CompletesLate(s, t, s.tests[t])
    ensures CompletesLate(Apply(s, Distribute(x, shares)), t, Apply(s, Distribute(x, shares)).tests[t])
  {
    var s' := Apply(s, Distribute(x, shares));
    var view := s'.tests[t];
    assert s' == s.(tests := s'.tests, unsent := s'.unsent);
    if t in s.tests {
      WithoutFrame(s, s', t, view, view);
    } else {
      forall u | u in view.workers ensures !CompletesWithout(s', t, view, u) { NobodyDone(s', t, view, u); }
    }
  }

  /** Before anybody is done all workers are needed. */
  lemma NobodyDone(s: State, t: string, view: TestView, u: string)
    requires view.done == {} && u in view.workers
    ensures !CompletesWithout(s, t, view, u)
  {
    var others := Reporters(s, t, view) - {u};
    assert view.done + others == others && |view.workers| == |view.workers.Keys|;
    SubsetSize(others, view.workers.Keys);
    assert u in view.workers.Keys && u !in others;
  }

  lemma ReportersShrink(s: State, step: Step, t: string, view: TestView)
    requires t in s.tests && view == s.tests[t] && !WritesTests(step)
    ensures Reporters(Apply(s, step), t, view) <= Reporters(s, t, view)
  {
  }

  lemma OthersCompleteLate(s: State, step: Step, t: string)
    requires !WritesTests(step) && t in s.tests && DoneOk(s, t) && CompletesLate(s, t, s.tests[t])
    ensures t in Apply(s, step).tests && CompletesLate(Apply(s, step), t, s.tests[t])
  {
    var s', view := Apply(s, step), s.tests[t];
    OthersKeepTests(s, step);
    OthersKeepCompletions(s, step);
    ReportersShrink(s, step, t, view);
    if AllLeft(s, t, view.workers.Keys) {
      AllLeftGrows(s, step, t, view.workers.Keys);
    }
    forall u | u in view.workers && (u, t) !in s'.left && view.status == Running
      ensures !CompletesWithout(s', t, view, u)
    {
      SentAndLeftGrow(s, step, u, t);
      LateStays(s, s', t, view, view, u);
    }
  }

  lemma StepCompletesLate(s: State, step: Step, t: string)
    requires RebalanceGuard(s, step) && HandlersOk(s, t) && t in Apply(s, step).tests
    requires t in s.tests ==> DoneOk(s, t) && CompletesLate(s, t, s.tests[t])
    requires step.Deliver? && step.batch in s.sent ==> BatchOk(s, step.batch) && Traced(s, step.batch.worker, t)
    ensures CompletesLate(Apply(s, step), t, Apply(s, step).tests[t])
  {
    if step.Deliver? {
      if step.batch in s.sent {
        DeliverCompletesLate(s, step.batch, t);
      }
    } else if step.Distribute? {
      DistributeCompletesLate(s, step.test, step.shares, t);
    } else if step.Rebalance? {
      RebalanceCompletesLate(s, step.test, step.failed, step.shares, t);
    } else if step.SetCompleted? {
      SetCompletedLate(s, step.test, t);
    } else if step.SetStopped? {
      SetStoppedLate(s, step.test, t);
    } else {
      OthersKeepTests(s, step);
      OthersCompleteLate(s, step, t);
    }
  }

  lemma {:induction false} RunKeepsSafe(s: State, steps: seq<Step>)
    requires SafeInv(s) && GuardedRebalances(s, steps)
    ensures SafeInv(RunFrom(s, steps))
  {
    if steps != [] {
      var init, last := steps[..|steps| - 1], steps[|steps| - 1];
      forall i | 0 <= i < |init| ensures RebalanceGuard(RunFrom(s, init[..i]), init[i]) {
        assert init[..i] == steps[..i] && RebalanceGuard(RunFrom(s, steps[..i]), steps[i]);
      }
      RunKeepsSafe(s, init);
      assert RebalanceGuard(RunFrom(s, init), last);
      StepKeepsBase(RunFrom(s, init), last);
      forall t | t in Apply(RunFrom(s, init), last).tests
        ensures CompletesLate(Apply(RunFrom(s, init), last), t, Apply(RunFrom(s, init), last).tests[t])
      {
        StepCompletesLate(RunFrom(s, init), last, t);
      }
    }
  }

  lemma InitSafe()
    ensures SafeInv(INIT)
  {
  }

  /** With rebalances, as long as each meets the condition: a COMPLETED test's assigned workers have all left. */
  lemma GuardedRebalancesAreSafe(steps: seq<Step>, t: string)
    requires GuardedRebalances(INIT, steps) && t in Run(steps).tests
    ensures Run(steps).tests[t].status == Completed ==> AllLeft(Run(steps), t, Run(steps).tests[t].workers.Keys)
    ensures AllLeft(Run(steps), t, Run(steps).tests[t].done)
  {
    InitSafe();
    RunKeepsSafe(INIT, steps);
    assert DoneOk(Run(steps), t) && CompletesLate(Run(steps), t, Run(steps).tests[t]);
  }

  // ---------- without the condition ----------

  /** The next thing worker `w` does on the way to reporting that it finished `t`. */
  function NextOf(ws: WorkerState, w: string, t: string): Step {
    match ws.phase
    case Idle => BeginTest(w, t)
    case Entered => StartReporter(w)
    case InStages => LeaveStages(w)
    case LoopLeft => ClearActive(w)
    case FlagCleared => SendFinal(w)
  }

  /** How many such things there are to do: first the rest of another test, if it is in one. */
  function Distance(ws: WorkerState, t: string): nat {
    var left :=
      match ws.phase case Idle => 5 case Entered => 4 case InStages => 3 case LoopLeft => 2 case FlagCleared => 1;
    if ws.phase == Idle || ws.currentTest == t then left else left + 5
  }

  lemma Advances(s: State, w: string, t: string)
    requires WorkerOk(s, w) && Traced(s, w, t) && ((w, t) in s.dispatched || (w, t) in s.started)
    requires Batch(w, t, false) !in s.sent
    ensures var s' := Apply(s, NextOf(Worker(s, w), w, t));
      && s' == s.(workers := s'.workers, sent := s'.sent, started := s'.started, left := s'.left)
      && s.started <= s'.started
      && (Batch(w, t, false) in s'.sent || Distance(Worker(s', w), t) < Distance(Worker(s, w), t))
  {
    match Worker(s, w).phase
    case Idle =>
    case Entered =>
    case InStages =>
    case LoopLeft =>
    case FlagCleared =>
  }

  lemma OnlyOwnLeft(s: State, ws: WorkerState, w: string, t: string, v: string, x: string)
    requires v != w
    ensures (v, x) in Apply(s, NextOf(ws, w, t)).left <==> (v, x) in s.left
  {
  }

  /** Any worker whose request was sent, and not lost, can come to report that it finished, and nothing else changes. */
  lemma {:induction false} Reported(o: State, steps: seq<Step>, s: State, w: string, t: string)
    returns (steps': seq<Step>, s': State)
    requires Leads(o, steps, s) && Base(s) && ((w, t) in s.dispatched || (w, t) in s.started)
    ensures Leads(o, steps', s') && Base(s') && Batch(w, t, false) in s'.sent
    ensures s'.tests == s.tests && s'.completions == s.completions
    ensures s'.dispatched == s.dispatched && s'.unsent == s.unsent && s.started <= s'.started
    ensures forall v, x :: v != w ==> ((v, x) in s'.left <==> (v, x) in s.left)
    decreases Distance(Worker(s, w), t)
  {
    steps', s' := steps, s;
    if Batch(w, t, false) !in s.sent {
      var step := NextOf(Worker(s, w), w, t);
      assert WorkerOk(s, w) && Traced(s, w, t);
      Advances(s, w, t);
      StepKeepsBase(s, step);
      forall v, x | v != w ensures (v, x) in Apply(s, step).left <==> (v, x) in s.left {
        OnlyOwnLeft(s, Worker(s, w), w, t, v, x);
      }
      steps', s' := Then(o, steps, s, step);
      if Batch(w, t, false) !in s'.sent {
        steps', s' := Reported(o, steps', s', w, t);
      }
    }
  }

  /** A running test with an assigned worker `u` that has not left, and `others` enough to complete it. */
  ghost predicate AtRisk(s: State, t: string, u: string, others: set<string>) {
    && t in s.tests && s.tests[t].status == Running && t !in s.completions
    && u in s.tests[t].workers && (u, t) !in s.left
    && others != {} && u !in others && others <= s.tests[t].workers.Keys
    && (forall w :: w in others ==> (w, t) in s.dispatched || (w, t) in s.started)
    && |s.tests[t].done + others| >= |s.tests[t].workers|
  }

  /** A test completed although `u` has not left it. */
  ghost predicate CompletedEarly(s: State, t: string, u: string) {
    t in s.tests && s.tests[t].status == Completed && u in s.tests[t].workers && (u, t) !in s.left
  }

  lemma Marked(o: State, steps: seq<Step>, s: State, t: string, w: string) returns (steps': seq<Step>, s': State)
    requires Leads(o, steps, s) && Base(s) && t in s.tests && t != "" && Batch(w, t, false) in s.sent
    ensures Leads(o, steps', s') && Base(s')
    ensures s' == s.(tests := s.tests[t := MarkDone(s.tests[t], w)], completions := s'.completions)
    ensures s'.completions == if FiresCompletion(s.tests[t], w) then s.completions + multiset{t} else s.completions
  {
    StepKeepsBase(s, Deliver(Batch(w, t, false)));
    steps', s' := Then(o, steps, s, Deliver(Batch(w, t, false)));
  }

  /** A reported worker is counted done, which completes the test or leaves one worker fewer to count. */
  lemma Counted(o: State, steps: seq<Step>, s: State, t: string, w: string, u: string, others: set<string>)
    returns (steps': seq<Step>, s': State)
    requires Leads(o, steps, s) && Base(s) && AtRisk(s, t, u, others) && t != ""
    requires w in others && Batch(w, t, false) in s.sent
    ensures Leads(o, steps', s') && Base(s')
    ensures if FiresCompletion(s.tests[t], w) then CompletedEarly(s', t, u)
            else AtRisk(s', t, u, others) && s'.tests[t] == MarkDone(s.tests[t], w)
  {
    steps', s' := Marked(o, steps, s, t, w);
    assert s.tests[t].done + {w} + others == s.tests[t].done + others;
    if FiresCompletion(s.tests[t], w) {
      steps', s' := SetOn(o, steps', s', t);
    }
  }

  lemma SetOn(o: State, steps: seq<Step>, s: State, t: string) returns (steps': seq<Step>, s': State)
    requires Leads(o, steps, s) && Base(s) && t in s.tests && t in s.completions
    ensures Leads(o, steps', s') && Base(s') && s'.left == s.left
    ensures t in s'.tests && s'.tests[t] == WithStatus(s.tests[t], Completed)
  {
    StepKeepsBase(s, SetCompleted(t));
    steps', s' := Then(o, steps, s, SetCompleted(t));
  }

  /** The others can all finish, and then the test completes without `u`. */
  lemma {:induction false} CompletesEarly(o: State, steps: seq<Step>, s: State, t: string, u: string,
                                          others: set<string>)
    returns (steps': seq<Step>, s': State)
    requires Leads(o, steps, s) && Base(s) && AtRisk(s, t, u, others)
    ensures Leads(o, steps', s') && CompletedEarly(s', t, u)
    decreases |others - s.tests[t].done|
  {
    var view := s.tests[t];
    assert DoneOk(s, t);
    if w :| w in others - view.done {
      steps', s' := Reported(o, steps, s, w, t);
      steps', s' := Counted(o, steps', s', t, w, u, others);
      if !FiresCompletion(view, w) {
        OneFewer(view, w, others);
        steps', s' := CompletesEarly(o, steps', s', t, u, others);
      }
    } else {
      var w :| w in others;
      assert others <= view.done by {
        forall v | v in others ensures v in view.done { assert v !in others - view.done; }
      }
      assert view.done + {w} == view.done == view.done + others;
      steps', s' := Counted(o, steps, s, t, w, u, others);
    }
  }

  lemma OneFewer(view: TestView, w: string, others: set<string>)
    requires w in view.workers && w in others && w !in view.done
    ensures |others - MarkDone(view, w).done| < |others - view.done|
  {
    assert others - MarkDone(view, w).done == others - view.done - {w};
  }

  // ---------- the theorem ----------

  /** No COMPLETED test has an assigned worker still in its stages. */
  ghost predicate NotEarly(s: State, t: string) {
    t in s.tests && s.tests[t].status == Completed ==> AllLeft(s, t, s.tests[t].workers.Keys)
  }

  lemma {:induction false} RunKeepsLate(s: State, more: seq<Step>, t: string)
    requires Base(s) && t in s.tests && CompletesLate(s, t, s.tests[t]) && NoRebalance(more)
    ensures Base(RunFrom(s, more)) && t in RunFrom(s, more).tests
    ensures CompletesLate(RunFrom(s, more), t, RunFrom(s, more).tests[t])
  {
    if more != [] {
      var init, last := more[..|more| - 1], more[|more| - 1];
      RunKeepsLate(s, init, t);
      StepKeepsBase(RunFrom(s, init), last);
      TestsStay(RunFrom(s, init), last, t);
      StepCompletesLate(RunFrom(s, init), last, t);
    }
  }

  /** Before the requests are sent nobody is done. */
  lemma UnsentIsSafe(s: State, t: string, u: string)
    requires Base(s) && t in s.tests && t in s.unsent && u in s.tests[t].workers
    ensures !CompletesWithout(s, t, s.tests[t], u)
  {
    assert DoneOk(s, t);
    forall w ensures w !in s.tests[t].done { assert Traced(s, w, t) && SendsOk(s, w, t); }
    NobodyDone(s, t, s.tests[t], u);
  }

  lemma PendingFails(s: State, t: string) returns (more: seq<Step>)
    requires t in s.tests && t in s.completions && !AllLeft(s, t, s.tests[t].workers.Keys)
    ensures NoRebalance(more) && !NotEarly(RunFrom(s, more), t)
  {
    var s';
    assert Leads(s, [], s);
    more, s' := Then(s, [], s, SetCompleted(t));
    assert s'.left == s.left;
  }

  lemma RunningFails(s: State, t: string, u: string) returns (more: seq<Step>)
    requires Base(s) && t in s.tests && s.tests[t].status == Running && t !in s.completions
    requires u in s.tests[t].workers && (u, t) !in s.left && CompletesWithout(s, t, s.tests[t], u)
    ensures NoRebalance(more) && !NotEarly(RunFrom(s, more), t)
  {
    if t in s.unsent { UnsentIsSafe(s, t, u); }
    assert DoneOk(s, t) && Leads(s, [], s);
    var s';
    more, s' := CompletesEarly(s, [], s, t, u, Reporters(s, t, s.tests[t]) - {u});
  }

  /** Where the condition fails some continuation without a rebalance completes the test early. */
  lemma LateFails(s: State, t: string) returns (more: seq<Step>)
    requires Base(s) && t in s.tests && !CompletesLate(s, t, s.tests[t])
    ensures NoRebalance(more) && !NotEarly(RunFrom(s, more), t)
  {
    var view := s.tests[t];
    if t in s.completions && !AllLeft(s, t, view.workers.Keys) {
      more := PendingFails(s, t);
    } else if view.status == Completed {
      more := [];
    } else {
      var u :| u in view.workers && (u, t) !in s.left && CompletesWithout(s, t, view, u);
      assert u in view.workers.Keys;
      more := RunningFails(s, t, u);
    }
  }

  /**
   A rebalance is safe exactly when the condition holds of what it leaves: every later run without
   a rebalance then keeps COMPLETED tests from having a worker in their stages, and otherwise some
   run does not.
   */
  lemma RebalanceIsSafeIff(steps: seq<Step>, t: string, failed: string, shares: map<string, int>)
    requires GuardedRebalances(INIT, steps) && CanRebalance(Run(steps), t, failed, shares)
    ensures CompletesLate(Run(steps), t, Rebalanced(Run(steps), t, shares)) <==>
      forall more :: NoRebalance(more) ==>
        NotEarly(RunFrom(Apply(Run(steps), Rebalance(t, failed, shares)), more), t)
  {
    InitSafe();
    RunKeepsSafe(INIT, steps);
    var s := Apply(Run(steps), Rebalance(t, failed, shares));
    RebalancedAs(Run(steps), t, failed, shares);
    if CompletesLate(s, t, s.tests[t]) {
      forall more | NoRebalance(more) ensures NotEarly(RunFrom(s, more), t) { RunKeepsLate(s, more, t); }
    } else {
      var more := LateFails(s, t);
      assert NoRebalance(more) && !NotEarly(RunFrom(s, more), t);
    }
  }

  lemma RebalancedAs(s: State, t: string, failed: string, shares: map<string, int>)
    requires Base(s) && CanRebalance(s, t, failed, shares)
    ensures var s' := Apply(s, Rebalance(t, failed, shares));
      && Base(s') && t in s'.tests && s'.tests[t] == Rebalanced(s, t, shares)
      && (CompletesLate(s', t, s'.tests[t]) <==> CompletesLate(s, t, Rebalanced(s, t, shares)))
  {
    StepKeepsBase(s, Rebalance(t, failed, shares));
    LateFrame(s, Apply(s, Rebalance(t, failed, shares)), t, Rebalanced(s, t, shares));
  }

  /** While nobody was rebalanced, the test is sent to assigned workers only. */
  lemma {:induction false} SentToAssigned(steps: seq<Step>, t: string, w: string)
    requires NoRebalance(steps) && ((w, t) in Run(steps).dispatched || (w, t) in Run(steps).started)
    ensures t in Run(steps).tests && w in Run(steps).tests[t].workers
  {
    var init, last := steps[..|steps| - 1], steps[|steps| - 1];
    SentNow(Run(init), last, t, w);
    if last != Send(t) || (w, t) in Run(init).dispatched || (w, t) in Run(init).started {
      SentToAssigned(init, t, w);
    }
    AssignmentStays(Run(init), last, t);
  }

  lemma SentNow(s: State, step: Step, t: string, w: string)
    requires (w, t) in Apply(s, step).dispatched || (w, t) in Apply(s, step).started
    ensures (w, t) in s.dispatched || (w, t) in s.started
            || (step == Send(t) && t in s.tests && w in s.tests[t].workers)
  {
  }

  lemma DeliverKeepsAssignment(s: State, b: Batch, t: string)
    requires t in s.tests
    ensures t in Delivered(s, b).tests && Delivered(s, b).tests[t].workers == s.tests[t].workers
  {
  }

  lemma SetKeepsAssignment(s: State, step: Step, t: string)
    requires t in s.tests && (step.SetCompleted? || step.SetStopped?)
    ensures t in Apply(s, step).tests && Apply(s, step).tests[t].workers == s.tests[t].workers
  {
    match step
    case SetCompleted(_) =>
    case SetStopped(_) =>
  }

  lemma DistributeKeepsAssignment(s: State, x: string, shares: map<string, int>, t: string)
    requires t in s.tests
    ensures t in Apply(s, Distribute(x, shares)).tests
    ensures Apply(s, Distribute(x, shares)).tests[t].workers == s.tests[t].workers
  {
  }

  lemma AssignmentStays(s: State, step: Step, t: string)
    requires t in s.tests && !step.Rebalance?
    ensures t in Apply(s, step).tests && Apply(s, step).tests[t].workers == s.tests[t].workers
  {
    if step.Distribute? {
      DistributeKeepsAssignment(s, step.test, step.shares, t);
    } else if step.Deliver? {
      DeliverKeepsAssignment(s, step.batch, t);
    } else if WritesTests(step) {
      SetKeepsAssignment(s, step, t);
    } else {
      OthersKeepTests(s, step);
    }
  }

  /** Everybody else of the old assignment is done or can still report, and that is enough for the new one. */
  ghost predicate OthersSuffice(s: State, t: string, shares: map<string, int>, u: string)
    requires t in s.tests
  {
    var before, reporters := s.tests[t].workers.Keys, Reporters(s, t, Rebalanced(s, t, shares));
    reporters - {u} != {} && before - {u} <= s.tests[t].done + reporters && |shares| <= |before - {u}|
  }

  /**
   The first rebalance of a running test is unsafe only if the failed worker was counted done, and
   some worker of the new assignment has not left and is not needed. Two added workers make it safe.
   */
  lemma RunningConditionIs(steps: seq<Step>, t: string, failed: string, shares: map<string, int>)
    requires NoRebalance(steps) && CanRebalance(Run(steps), t, failed, shares)
    requires Run(steps).tests[t].status == Running && t !in Run(steps).completions
    ensures CompletesLate(Run(steps), t, Rebalanced(Run(steps), t, shares)) <==>
      failed !in Run(steps).tests[t].done ||
      forall u :: u in shares && (u, t) !in Run(steps).left ==> !OthersSuffice(Run(steps), t, shares, u)
    ensures |shares| > |Run(steps).tests[t].workers| ==>
      CompletesLate(Run(steps), t, Rebalanced(Run(steps), t, shares))
  {
    var s := Run(steps);
    InvHolds(steps);
    assert TestSafe(s, t) && DoneOk(s, t);
    forall u | u in shares && (u, t) !in s.left
      ensures CompletesWithout(s, t, Rebalanced(s, t, shares), u)
              <==> failed in s.tests[t].done && OthersSuffice(s, t, shares, u)
      ensures OthersSuffice(s, t, shares, u) ==> |shares| <= |s.tests[t].workers|
    {
      forall w | w in Reporters(s, t, Rebalanced(s, t, shares)) && t !in s.unsent ensures w in s.tests[t].workers {
        SentToAssigned(steps, t, w);
      }
      if t in s.unsent {
        forall w ensures w !in s.tests[t].done { assert Traced(s, w, t) && SendsOk(s, w, t); }
        NobodyDone(s, t, Rebalanced(s, t, shares), u);
      } else {
        CountOthers(s, t, failed, shares, u);
      }
      SubsetSize(s.tests[t].workers.Keys - {u}, s.tests[t].workers.Keys);
    }
  }

  lemma CountOthers(s: State, t: string, failed: string, shares: map<string, int>, u: string)
    requires CanRebalance(s, t, failed, shares) && s.tests[t].done <= s.tests[t].workers.Keys
    requires u in shares && u !in s.tests[t].done
    requires Reporters(s, t, Rebalanced(s, t, shares)) <= s.tests[t].workers.Keys
    ensures CompletesWithout(s, t, Rebalanced(s, t, shares), u)
            <==> failed in s.tests[t].done && OthersSuffice(s, t, shares, u)
  {
    var before, done, reporters := s.tests[t].workers.Keys, s.tests[t].done, Reporters(s, t, Rebalanced(s, t, shares));
    var heard := done + (reporters - {u});
    assert |shares| == |shares.Keys| && heard <= before - {u};
    SubsetSize(heard, before - {u});
    SurvivorsCount(before, failed, shares.Keys, u);
    if failed !in done {
      assert heard <= before - {u} - {failed};
      SubsetSize(heard, before - {u} - {failed});
    }
  }

  /** A rebalance that loses `failed` keeps the survivors, so the assignment shrinks by one at most. */
  lemma SurvivorsCount(before: set<string>, failed: string, now: set<string>, u: string)
    requires failed !in now && before - {failed} <= now && u in now
    ensures |before - {u} - {failed}| < |now|
    ensures |before - {u}| <= |now|
  {
    SubsetSize(before - {failed} + {u}, now);
    assert before - {u} - {failed} == before - {failed} + {u} - {u};
    assert before - {u} <= (before - {u} - {failed}) + {failed};
    SubsetSize(before - {u}, (before - {u} - {failed}) + {failed});
  }

  /** Three workers hold a test; the first has finished, the third is still in its stage loop. */
  lemma OneOfThreeDone(shares: map<string, int>) returns (steps: seq<Step>, s: State)
    requires shares.Keys == {"a", "b", "c"}
    ensures Leads(INIT, steps, s) && s.tests == map["t" := TestView(shares, Running, {"a"})]
    ensures s.completions == multiset{} && s.left == {("a", "t")} && ("c", "t") in s.started
    ensures ("b", "t") in s.dispatched
  {
    assert |shares| == |shares.Keys| == 3;
    assert Leads(INIT, [], INIT);
    steps, s := SentOn(INIT, [], INIT, "t", shares);
    steps, s := BeginOn(INIT, steps, s, "c", "t");
    steps, s := FinishOn(INIT, steps, s, "a", "t");
  }

  /** Taking out the finished worker then lets completion fire while another still runs. */
  lemma RebalanceCompletesEarly(before: map<string, int>, after: map<string, int>)
    returns (steps: seq<Step>, more: seq<Step>)
    requires before.Keys == {"a", "b", "c"} && after.Keys == {"b", "c"}
    ensures NoRebalance(steps) && NoRebalance(more) && CanRebalance(Run(steps), "t", "a", after)
    ensures !NotEarly(RunFrom(Apply(Run(steps), Rebalance("t", "a", after)), more), "t")
  {
    var s;
    steps, s := OneOfThreeDone(before);
    InvHolds(steps);
    var view := Rebalanced(s, "t", after);
    assert |after| == |after.Keys| == 2;
    assert "b" in Reporters(s, "t", view) - {"c"};
    SubsetSize({"a", "b"}, view.done + (Reporters(s, "t", view) - {"c"}));
    assert CompletesWithout(s, "t", view, "c");
    RebalancedAs(s, "t", "a", after);
    more := LateFails(Apply(s, Rebalance("t", "a", after)), "t");
  }
}

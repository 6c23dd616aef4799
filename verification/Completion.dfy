/**
 How a test comes to be COMPLETED: worker engines, their reporters and keep-alives,
 a network that delays, reorders, duplicates and loses batches, and the two separate
 atomic steps by which the orchestrator marks a worker and sets a status.

 `Step` is total: a step that is not enabled leaves the state as it is, so a run is
 any list of steps.
 */
module Completion {
  import opened Lists
  import opened TestState

  datatype Batch = Batch(worker: string, test: string, active: bool)

  /** Where a worker's RunTest stands; `Idle` also before the first test. */
  datatype Phase = Idle | Entered | InStages | LoopLeft | FlagCleared

  datatype WorkerState = WorkerState(currentTest: string, testActive: bool, reporterTest: string, phase: Phase)

  datatype State = State(
    tests: map<string, TestView>,
    workers: map<string, WorkerState>,
    sent: set<Batch>,                 // every batch ever sent; any of them may arrive, any number of times
    completions: multiset<string>,    // handlers that were told to complete a test and have not set the status yet
    stops: multiset<string>,          // StopTest handlers that have not set the status yet
    unsent: set<string>,              // stored tests whose RunTest requests are still to be sent
    dispatched: set<(string, string)>, // (worker, test) pairs whose RunTest request was sent and may still arrive
    started: set<(string, string)>,   // (worker, test) pairs whose RunTest began
    left: set<(string, string)>,      // (worker, test) pairs whose stage loop was left
    stopRequested: set<string>)       // tests StopTest was called for

  datatype Step =
    | Distribute(test: string, shares: map<string, int>)
    | Send(test: string)
    | SendFails(worker: string, test: string)
    | BeginTest(worker: string, test: string)
    | StartReporter(worker: string)
    | LeaveStages(worker: string)
    | ClearActive(worker: string)
    | SendFinal(worker: string)
    | ReportTick(worker: string)
    | KeepAlive(worker: string)
    | Deliver(batch: Batch)
    | SetCompleted(test: string)
    | StopRequest(test: string)
    | SetStopped(test: string)
    | Rebalance(test: string, failed: string, shares: map<string, int>)

  function Worker(s: State, w: string): WorkerState {
    if w in s.workers then s.workers[w] else WorkerState("", false, "", Idle)
  }

  function Moved(s: State, w: string, ws: WorkerState): State {
    s.(workers := s.workers[w := ws])
  }

  function WithTest(s: State, t: string, view: TestView): State {
    s.(tests := s.tests[t := view])
  }

  /** `ReportMetrics` up to and including MarkWorkerDone. */
  function Delivered(s: State, b: Batch): State {
    if b.test == "" || b.active || b.test !in s.tests then s
    else
      var view := s.tests[b.test];
      var marked := WithTest(s, b.test, MarkDone(view, b.worker));
      if FiresCompletion(view, b.worker) then marked.(completions := s.completions + multiset{b.test}) else marked
  }

  predicate CanRebalance(s: State, t: string, failed: string, shares: map<string, int>) {
    t in s.tests && failed !in shares && s.tests[t].workers.Keys - {failed} <= shares.Keys
  }

  /** `dispatchToWorkers` reads the stored assignment itself, once, so it also reaches who was added meanwhile. */
  function Sent(s: State, t: string): set<(string, string)>
    requires t in s.tests
  {
    set w | w in s.tests[t].workers.Keys :: (w, t)
  }

  function Apply(s: State, step: Step): State {
    match step
    case Distribute(t, shares) =>
      if t == "" || t in s.tests then s
      else WithTest(s, t, TestView(shares, Running, {})).(unsent := s.unsent + {t})
    case Send(t) =>
      if t !in s.unsent || t !in s.tests then s
      else s.(unsent := s.unsent - {t}, dispatched := s.dispatched + Sent(s, t))
    case SendFails(w, t) => s.(dispatched := s.dispatched - {(w, t)})
    case BeginTest(w, t) =>
      if Worker(s, w).phase != Idle || (w, t) in s.started || (w, t) !in s.dispatched then s
      else Moved(s, w, Worker(s, w).(currentTest := t, testActive := true, phase := Entered))
           .(started := s.started + {(w, t)})
    case StartReporter(w) =>
      if Worker(s, w).phase != Entered then s
      else Moved(s, w, Worker(s, w).(reporterTest := Worker(s, w).currentTest, phase := InStages))
    case LeaveStages(w) =>
      if Worker(s, w).phase != InStages then s
      else Moved(s, w, Worker(s, w).(phase := LoopLeft)).(left := s.left + {(w, Worker(s, w).currentTest)})
    case ClearActive(w) =>
      if Worker(s, w).phase != LoopLeft then s
      else Moved(s, w, Worker(s, w).(testActive := false, phase := FlagCleared))
    case SendFinal(w) =>
      if Worker(s, w).phase != FlagCleared then s
      else Moved(s, w, Worker(s, w).(phase := Idle)).(sent := s.sent + {Batch(w, Worker(s, w).reporterTest, false)})
    case ReportTick(w) => s.(sent := s.sent + {Batch(w, Worker(s, w).reporterTest, true)})
    case KeepAlive(w) => s.(sent := s.sent + {Batch(w, Worker(s, w).currentTest, Worker(s, w).testActive)})
    case Deliver(b) => if b !in s.sent then s else Delivered(s, b)
    case SetCompleted(t) =>
      if t !in s.completions || t !in s.tests then s
      else WithTest(s, t, WithStatus(s.tests[t], Completed)).(completions := s.completions - multiset{t})
    case StopRequest(t) =>
      if t !in s.tests then s
      else s.(stops := s.stops + multiset{t}, stopRequested := s.stopRequested + {t})
    case SetStopped(t) =>
      if t !in s.stops || t !in s.tests then s
      else WithTest(s, t, WithStatus(s.tests[t], Stopped)).(stops := s.stops - multiset{t})
    case Rebalance(t, failed, shares) =>
      if !CanRebalance(s, t, failed, shares) then s
      else WithTest(s, t, s.tests[t].(workers := shares))
  }

  const INIT := State(map[], map[], {}, multiset{}, multiset{}, {}, {}, {}, {}, {})

  function RunFrom(s: State, steps: seq<Step>): State {
    if steps == [] then s else Apply(RunFrom(s, steps[..|steps| - 1]), steps[|steps| - 1])
  }

  function Run(steps: seq<Step>): State {
    RunFrom(INIT, steps)
  }

  lemma RunMore(s: State, steps: seq<Step>, last: Step)
    ensures RunFrom(s, steps + [last]) == Apply(RunFrom(s, steps), last)
  {
    Snoc(steps, last);
  }

  // ---------- the invariant ----------

  ghost predicate WorkerOk(s: State, w: string) {
    var ws := Worker(s, w);
    && (ws.phase != Idle ==> (w, ws.currentTest) in s.started)
    && match ws.phase
    case Idle => !ws.testActive && (ws.currentTest == "" || (w, ws.currentTest) in s.left)
    case Entered => ws.testActive
    case InStages => ws.testActive && ws.reporterTest == ws.currentTest
    case LoopLeft => ws.testActive && ws.reporterTest == ws.currentTest && (w, ws.currentTest) in s.left
    case FlagCleared => !ws.testActive && ws.reporterTest == ws.currentTest && (w, ws.currentTest) in s.left
  }

  /** A "finished" batch is sent only by a worker that has left the test's stage loop. */
  ghost predicate BatchOk(s: State, b: Batch) {
    b.active || b.test == "" || (b.worker, b.test) in s.left
  }

  /** A worker that has left a test has reported it, or is about to; one that began it and has not left is in it. */
  ghost predicate Traced(s: State, w: string, t: string) {
    var ws := Worker(s, w);
    && ((w, t) in s.left ==> (w, t) in s.started)
    && ((w, t) in s.left ==>
        Batch(w, t, false) in s.sent || ((ws.phase.LoopLeft? || ws.phase.FlagCleared?) && ws.currentTest == t))
    && ((w, t) in s.started && (w, t) !in s.left ==>
        (ws.phase.Entered? || ws.phase.InStages?) && ws.currentTest == t)
  }

  /** RunTest requests are for stored tests, and none was sent while they are still to be sent. */
  ghost predicate SendsOk(s: State, w: string, t: string) {
    && (t in s.unsent || (w, t) in s.dispatched || (w, t) in s.started ==> t in s.tests)
    && (t in s.unsent ==> (w, t) !in s.dispatched && (w, t) !in s.started)
  }

  ghost predicate HandlersOk(s: State, t: string) {
    && (t in s.completions || t in s.stopRequested ==> t in s.tests)
    && (t in s.stops ==> t in s.stopRequested)
  }

  /** What holds of every run, rebalances included. */
  ghost predicate Base(s: State) {
    && (forall w :: WorkerOk(s, w))
    && (forall b :: b in s.sent ==> BatchOk(s, b))
    && (forall w, t :: Traced(s, w, t))
    && (forall w, t :: SendsOk(s, w, t))
    && (forall t :: HandlersOk(s, t))
    && (forall t :: t in s.tests ==> DoneOk(s, t))
  }

  /** Whoever is counted done has left the test and reported it. */
  ghost predicate DoneOk(s: State, t: string)
    requires t in s.tests
  {
    t != "" && forall w :: w in s.tests[t].done ==> (w, t) in s.left && Batch(w, t, false) in s.sent
  }

  ghost predicate AllLeft(s: State, t: string, workers: set<string>) {
    forall w :: w in workers ==> (w, t) in s.left
  }

  ghost predicate AllDone(view: TestView) {
    view.workers.Keys != {} && view.done == view.workers.Keys
  }

  /** Without rebalances: only assigned workers are done, and completion needs all of them. */
  ghost predicate TestSafe(s: State, t: string)
    requires t in s.tests
  {
    var view := s.tests[t];
    && view.done <= view.workers.Keys
    && (view.status == Completed || t in s.completions ==> AllDone(view))
    && (t !in s.stopRequested ==> view.status in {Running, Completed})
  }

  /** A test whose workers are all done is completed or about to be. */
  ghost predicate TestLive(s: State, t: string)
    requires t in s.tests
  {
    t !in s.stopRequested && AllDone(s.tests[t]) ==> s.tests[t].status == Completed || t in s.completions
  }

  ghost predicate Inv(s: State) {
    Base(s) && forall t :: t in s.tests ==> TestSafe(s, t)
  }

  lemma StepKeepsWorker(s: State, step: Step, w: string)
    requires WorkerOk(s, w)
    ensures WorkerOk(Apply(s, step), w)
  {
  }

  /** What a worker sends about a test it is no longer running is true. */
  lemma StepKeepsBatch(s: State, step: Step, b: Batch)
    requires (forall w :: WorkerOk(s, w)) && (b in s.sent ==> BatchOk(s, b)) && b in Apply(s, step).sent
    ensures BatchOk(Apply(s, step), b)
  {
    if b !in s.sent {
      assert WorkerOk(s, step.worker);
    }
  }

  lemma StepKeepsTraced(s: State, step: Step, w: string, t: string)
    requires WorkerOk(s, w) && Traced(s, w, t)
    ensures Traced(Apply(s, step), w, t)
  {
  }

  lemma StepKeepsSends(s: State, step: Step, w: string, t: string)
    requires SendsOk(s, w, t) && (step.Send? ==> SendsOk(s, w, step.test))
    ensures SendsOk(Apply(s, step), w, t)
  {
  }

  lemma StepKeepsHandlers(s: State, step: Step, t: string)
    requires HandlersOk(s, t)
    ensures HandlersOk(Apply(s, step), t)
  {
  }

  /** The steps that write the orchestrator's test table. */
  predicate WritesTests(step: Step) {
    step.Distribute? || step.Deliver? || step.SetCompleted? || step.SetStopped? || step.Rebalance?
  }

  lemma OthersKeepTests(s: State, step: Step)
    requires !WritesTests(step)
    ensures Apply(s, step).tests == s.tests
  {
  }

  lemma SentAndLeftGrow(s: State, step: Step, w: string, t: string)
    ensures (w, t) in s.left ==> (w, t) in Apply(s, step).left
    ensures Batch(w, t, false) in s.sent ==> Batch(w, t, false) in Apply(s, step).sent
  {
  }

  lemma DeliverKeepsDone(s: State, b: Batch, t: string)
    requires b in s.sent && BatchOk(s, b) && t in s.tests && DoneOk(s, t)
    ensures DoneOk(Delivered(s, b), t)
  {
  }

  /** Only a delivery adds to a test's done set. */
  lemma DoneBefore(s: State, step: Step, t: string)
    requires t in Apply(s, step).tests && !step.Deliver?
    ensures t in s.tests || t != ""
    ensures forall w :: w in Apply(s, step).tests[t].done ==> t in s.tests && w in s.tests[t].done
  {
    if !WritesTests(step) {
      OthersKeepTests(s, step);
    } else if step.Distribute? {
      DistributedDone(s, step.test, step.shares, t);
    }
  }

  lemma DistributedDone(s: State, u: string, shares: map<string, int>, t: string)
    requires t in Apply(s, Distribute(u, shares)).tests
    ensures t in s.tests || t != ""
    ensures Apply(s, Distribute(u, shares)).tests[t].done == if t in s.tests then s.tests[t].done else {}
  {
  }

  lemma StepKeepsDone(s: State, step: Step, t: string)
    requires t in Apply(s, step).tests && (t in s.tests ==> DoneOk(s, t))
    requires step.Deliver? && step.batch in s.sent ==> BatchOk(s, step.batch)
    ensures DoneOk(Apply(s, step), t)
  {
    if step.Deliver? {
      if step.batch in s.sent {
        DeliverKeepsDone(s, step.batch, t);
      }
    } else {
      DoneBefore(s, step, t);
      forall w | w in Apply(s, step).tests[t].done
        ensures (w, t) in Apply(s, step).left && Batch(w, t, false) in Apply(s, step).sent
      {
        SentAndLeftGrow(s, step, w, t);
      }
    }
  }

  lemma StepKeepsBase(s: State, step: Step)
    requires Base(s)
    ensures Base(Apply(s, step))
  {
    var s' := Apply(s, step);
    forall t ensures HandlersOk(s', t) { StepKeepsHandlers(s, step, t); }
    forall w ensures WorkerOk(s', w) { StepKeepsWorker(s, step, w); }
    forall b | b in s'.sent ensures BatchOk(s', b) { StepKeepsBatch(s, step, b); }
    forall w, t ensures Traced(s', w, t) { StepKeepsTraced(s, step, w, t); }
    forall w, t ensures SendsOk(s', w, t) { StepKeepsSends(s, step, w, t); }
    forall t | t in s'.tests ensures DoneOk(s', t) { StepKeepsDone(s, step, t); }
  }

  lemma DeliverKeepsTest(s: State, b: Batch, t: string)
    requires t in s.tests && TestSafe(s, t)
    ensures TestSafe(Delivered(s, b), t)
    ensures TestLive(s, t) ==> TestLive(Delivered(s, b), t)
  {
    FiresIffAllDone(s.tests[t], b.worker);
  }

  lemma DistributeKeepsTest(s: State, u: string, shares: map<string, int>, t: string)
    requires HandlersOk(s, t) && t in Apply(s, Distribute(u, shares)).tests && (t in s.tests ==> TestSafe(s, t))
    ensures TestSafe(Apply(s, Distribute(u, shares)), t)
  {
  }

  lemma StatusKeepsTest(s: State, step: Step, t: string)
    requires (step.SetCompleted? || step.SetStopped?) && HandlersOk(s, t) && t in s.tests && TestSafe(s, t)
    ensures t in Apply(s, step).tests && TestSafe(Apply(s, step), t)
  {
  }

  lemma OthersKeepCompletions(s: State, step: Step)
    requires !WritesTests(step)
    ensures Apply(s, step).completions == s.completions && s.stopRequested <= Apply(s, step).stopRequested
  {
  }

  lemma StepKeepsTest(s: State, step: Step, t: string)
    requires !step.Rebalance? && HandlersOk(s, t) && t in Apply(s, step).tests
    requires t in s.tests ==> TestSafe(s, t)
    ensures TestSafe(Apply(s, step), t)
  {
    if step.Deliver? {
      if step.batch in s.sent {
        DeliverKeepsTest(s, step.batch, t);
      }
    } else if step.Distribute? {
      DistributeKeepsTest(s, step.test, step.shares, t);
    } else if WritesTests(step) {
      StatusKeepsTest(s, step, t);
    } else {
      OthersKeepTests(s, step);
      OthersKeepCompletions(s, step);
    }
  }

  lemma DistributeKeepsLive(s: State, u: string, shares: map<string, int>, t: string)
    requires HandlersOk(s, t) && t in Apply(s, Distribute(u, shares)).tests && (t in s.tests ==> TestLive(s, t))
    ensures TestLive(Apply(s, Distribute(u, shares)), t)
  {
  }

  lemma StatusKeepsLive(s: State, step: Step, t: string)
    requires (step.SetCompleted? || step.SetStopped?) && HandlersOk(s, t) && t in s.tests && TestLive(s, t)
    ensures t in Apply(s, step).tests && TestLive(Apply(s, step), t)
  {
  }

  lemma StepKeepsLive(s: State, step: Step, t: string)
    requires !step.Rebalance? && HandlersOk(s, t) && t in Apply(s, step).tests
    requires t in s.tests ==> TestSafe(s, t) && TestLive(s, t)
    ensures TestLive(Apply(s, step), t)
  {
    if step.Deliver? {
      if step.batch in s.sent {
        DeliverKeepsTest(s, step.batch, t);
      }
    } else if step.Distribute? {
      DistributeKeepsLive(s, step.test, step.shares, t);
    } else if WritesTests(step) {
      StatusKeepsLive(s, step, t);
    } else {
      OthersKeepTests(s, step);
      OthersKeepCompletions(s, step);
    }
  }

  ghost predicate NoRebalance(steps: seq<Step>) {
    forall i :: 0 <= i < |steps| ==> !steps[i].Rebalance?
  }

  lemma {:induction false} InvHolds(steps: seq<Step>)
    requires NoRebalance(steps)
    ensures Inv(Run(steps))
  {
    if steps != [] {
      var init, last := steps[..|steps| - 1], steps[|steps| - 1];
      InvHolds(init);
      StepKeepsBase(Run(init), last);
      forall t | t in Apply(Run(init), last).tests ensures TestSafe(Apply(Run(init), last), t) {
        StepKeepsTest(Run(init), last, t);
      }
    }
  }

  lemma {:induction false} LiveHolds(steps: seq<Step>, t: string)
    requires NoRebalance(steps) && t in Run(steps).tests
    ensures TestLive(Run(steps), t)
  {
    var init, last := steps[..|steps| - 1], steps[|steps| - 1];
    InvHolds(init);
    if t in Run(init).tests {
      LiveHolds(init, t);
    }
    StepKeepsLive(Run(init), last, t);
  }

  // ---------- the theorems ----------

  /**
   Safety, for every interleaving, delay, duplication and loss: without rebalances a COMPLETED
   test's assigned workers have all left its stage loop; and whoever is counted done is assigned
   and has left.
   */
  lemma CompletedMeansEveryWorkerLeft(steps: seq<Step>, t: string)
    requires NoRebalance(steps) && t in Run(steps).tests
    ensures Run(steps).tests[t].status == Completed ==> AllLeft(Run(steps), t, Run(steps).tests[t].workers.Keys)
    ensures Run(steps).tests[t].done <= Run(steps).tests[t].workers.Keys
    ensures AllLeft(Run(steps), t, Run(steps).tests[t].done)
  {
    InvHolds(steps);
    assert TestSafe(Run(steps), t) && DoneOk(Run(steps), t);
  }

  /**
   Once no handler is still about to set a status, a test that was never asked to stop is COMPLETED
   exactly when it has workers and all of them are done; otherwise it is RUNNING.
   */
  lemma QuiescentCompletedIff(steps: seq<Step>, t: string)
    requires NoRebalance(steps) && t in Run(steps).tests
    requires t !in Run(steps).stopRequested && t !in Run(steps).completions
    ensures Run(steps).tests[t].status == Completed <==> AllDone(Run(steps).tests[t])
    ensures Run(steps).tests[t].status in {Running, Completed}
  {
    InvHolds(steps);
    LiveHolds(steps, t);
    assert TestSafe(Run(steps), t);
  }

  ghost predicate NotRunning(s: State, t: string) {
    t in s.tests && s.tests[t].status != Running
  }

  lemma StepKeepsTerminal(s: State, step: Step, t: string)
    requires NotRunning(s, t)
    ensures NotRunning(Apply(s, step), t)
  {
    if step.Deliver? && step.batch in s.sent {
      DeliverKeepsTerminal(s, step.batch, t);
    } else if !WritesTests(step) {
      OthersKeepTests(s, step);
    }
  }

  lemma DeliverKeepsTerminal(s: State, b: Batch, t: string)
    requires NotRunning(s, t)
    ensures NotRunning(Delivered(s, b), t)
  {
  }

  /** A test that has stopped running is never running again; holds with rebalancing too. */
  lemma {:induction false} RunningIsNeverReentered(s: State, more: seq<Step>, t: string)
    requires NotRunning(s, t)
    ensures NotRunning(RunFrom(s, more), t)
  {
    if more != [] {
      RunningIsNeverReentered(s, more[..|more| - 1], t);
      StepKeepsTerminal(RunFrom(s, more[..|more| - 1]), more[|more| - 1], t);
    }
  }

  /** A handler that was told to set a status sets it once. */
  lemma HandlersWriteOnce(s: State, t: string)
    requires t in s.tests
    ensures Apply(s, SetCompleted(t)).completions[t] == if t in s.completions then s.completions[t] - 1 else 0
    ensures Apply(s, SetStopped(t)).stops[t] == if t in s.stops then s.stops[t] - 1 else 0
    ensures Apply(s, StopRequest(t)).stops[t] == s.stops[t] + 1
  {
  }

  // ---------- keep-alives ----------

  /** Two steps in a row. */
  lemma TwoSteps(s: State, first: Step, second: Step)
    ensures RunFrom(s, [first, second]) == Apply(Apply(s, first), second)
  {
    OneStep(s, first);
    assert [first, second][..1] == [first];
  }

  lemma OneStep(s: State, step: Step)
    ensures RunFrom(s, [step]) == Apply(s, step)
  {
    assert [step][..0] == [];
  }

  /** A worker that has cleared its flag is counted done by a keep-alive alone, without its final batch. */
  lemma KeepAliveCountsDone(s: State, w: string, t: string)
    requires Worker(s, w).currentTest == t && !Worker(s, w).testActive
    requires t != "" && t in s.tests && w in s.tests[t].workers
    ensures var s' := RunFrom(s, [KeepAlive(w), Deliver(Batch(w, t, false))]);
      t in s'.tests && s'.tests[t] == MarkDone(s.tests[t], w) && w in s'.tests[t].done
  {
    TwoSteps(s, KeepAlive(w), Deliver(Batch(w, t, false)));
  }

  /** While the worker runs the test, neither a keep-alive nor a report changes the orchestrator's view. */
  lemma ActiveReportsChangeNothing(s: State, w: string, t: string)
    requires Worker(s, w).testActive && Worker(s, w).currentTest == Worker(s, w).reporterTest == t
    ensures Batch(w, t, true) in Apply(s, KeepAlive(w)).sent && Batch(w, t, true) in Apply(s, ReportTick(w)).sent
    ensures RunFrom(s, [KeepAlive(w), Deliver(Batch(w, t, true))]).tests == s.tests
    ensures RunFrom(s, [ReportTick(w), Deliver(Batch(w, t, true))]).tests == s.tests
  {
    TwoSteps(s, KeepAlive(w), Deliver(Batch(w, t, true)));
    TwoSteps(s, ReportTick(w), Deliver(Batch(w, t, true)));
  }

  // ---------- lost requests ----------

  /** The worker has not begun the test and no request for it is on its way or still to be sent. */
  predicate NeverSent(s: State, w: string, t: string) {
    t in s.tests && (w, t) !in s.started && (w, t) !in s.dispatched && t !in s.unsent
  }

  lemma StepKeepsNeverSent(s: State, step: Step, w: string, t: string)
    requires NeverSent(s, w, t)
    ensures NeverSent(Apply(s, step), w, t)
  {
    TestsStay(s, step, t);
  }

  lemma TestsStay(s: State, step: Step, t: string)
    requires t in s.tests
    ensures t in Apply(s, step).tests
  {
    if !WritesTests(step) {
      OthersKeepTests(s, step);
    }
  }

  /** A request that is lost is not sent again: the worker never begins the test. */
  lemma {:induction false} LostRequestNeverRuns(s: State, w: string, t: string, more: seq<Step>)
    requires t in s.tests && (w, t) !in s.started && t !in s.unsent
    ensures NeverSent(RunFrom(Apply(s, SendFails(w, t)), more), w, t)
  {
    if more != [] {
      LostRequestNeverRuns(s, w, t, more[..|more| - 1]);
      StepKeepsNeverSent(RunFrom(Apply(s, SendFails(w, t)), more[..|more| - 1]), more[|more| - 1], w, t);
    }
  }

  // ---------- when a status is final ----------

  /** Nobody is about to overwrite the test's terminal status. */
  predicate NoOverwrite(s: State, t: string)
    requires t in s.tests
  {
    && (s.tests[t].status == Completed ==> t !in s.stops)
    && (s.tests[t].status == Stopped ==> t !in s.completions)
  }

  predicate SameStatus(s: State, s': State, t: string)
    requires t in s.tests
  {
    t in s'.tests && s'.tests[t].status == s.tests[t].status
  }

  predicate Ended(s: State, t: string) {
    t in s.tests && (s.tests[t].status == Completed || s.tests[t].status == Stopped)
  }

  ghost predicate NoStopRequest(steps: seq<Step>, t: string) {
    forall i :: 0 <= i < |steps| ==> steps[i] != StopRequest(t)
  }

  lemma DeliverKeepsFinal(s: State, b: Batch, t: string)
    requires Ended(s, t) && NoOverwrite(s, t)
    ensures SameStatus(s, Delivered(s, b), t) && NoOverwrite(Delivered(s, b), t)
  {
  }

  lemma StopRequestKeepsFinal(s: State, asked: string, t: string)
    requires Ended(s, t) && NoOverwrite(s, t) && (asked != t || s.tests[t].status == Stopped)
    ensures SameStatus(s, Apply(s, StopRequest(asked)), t) && NoOverwrite(Apply(s, StopRequest(asked)), t)
  {
  }

  lemma OthersKeepHandlers(s: State, step: Step)
    requires !WritesTests(step) && !step.StopRequest?
    ensures Apply(s, step).completions == s.completions && Apply(s, step).stops == s.stops
  {
  }

  lemma SetKeepsFinal(s: State, step: Step, t: string)
    requires (step.SetCompleted? || step.SetStopped?) && Ended(s, t) && NoOverwrite(s, t)
    ensures SameStatus(s, Apply(s, step), t) && NoOverwrite(Apply(s, step), t)
  {
  }

  lemma AssignKeepsFinal(s: State, step: Step, t: string)
    requires (step.Distribute? || step.Rebalance?) && Ended(s, t) && NoOverwrite(s, t)
    ensures SameStatus(s, Apply(s, step), t) && NoOverwrite(Apply(s, step), t)
  {
  }

  lemma StepKeepsFinal(s: State, step: Step, t: string)
    requires Ended(s, t) && NoOverwrite(s, t) && (step != StopRequest(t) || s.tests[t].status == Stopped)
    ensures SameStatus(s, Apply(s, step), t) && NoOverwrite(Apply(s, step), t)
  {
    if step.Deliver? {
      if step.batch in s.sent { DeliverKeepsFinal(s, step.batch, t); }
    } else if step.StopRequest? {
      StopRequestKeepsFinal(s, step.test, t);
    } else if step.SetCompleted? || step.SetStopped? {
      SetKeepsFinal(s, step, t);
    } else if WritesTests(step) {
      AssignKeepsFinal(s, step, t);
    } else {
      OthersKeepTests(s, step);
      OthersKeepHandlers(s, step);
    }
  }

  lemma {:induction false} FinalStatusStays(s: State, more: seq<Step>, t: string)
    requires Ended(s, t) && NoOverwrite(s, t) && (NoStopRequest(more, t) || s.tests[t].status == Stopped)
    ensures SameStatus(s, RunFrom(s, more), t) && NoOverwrite(RunFrom(s, more), t)
  {
    if more != [] {
      FinalStatusStays(s, more[..|more| - 1], t);
      StepKeepsFinal(RunFrom(s, more[..|more| - 1]), more[|more| - 1], t);
    }
  }

  /**
   A terminal status stays in every continuation without a further stop exactly when no handler is
   about to overwrite it.
   */
  lemma StatusIsFinalIff(s: State, t: string)
    requires Ended(s, t)
    ensures NoOverwrite(s, t) <==> forall more :: NoStopRequest(more, t) ==> SameStatus(s, RunFrom(s, more), t)
  {
    if NoOverwrite(s, t) {
      forall more | NoStopRequest(more, t) ensures SameStatus(s, RunFrom(s, more), t) { FinalStatusStays(s, more, t); }
    } else {
      var step := if s.tests[t].status == Completed then SetStopped(t) else SetCompleted(t);
      OneStep(s, step);
      assert NoStopRequest([step], t) && !SameStatus(s, RunFrom(s, [step]), t);
    }
  }

  /** A plain stop request after completion overwrites COMPLETED; no race is needed. */
  lemma StopOverwritesCompleted(s: State, t: string)
    requires t in s.tests
    ensures t in RunFrom(s, [StopRequest(t), SetStopped(t)]).tests
    ensures RunFrom(s, [StopRequest(t), SetStopped(t)]).tests[t].status == Stopped
  {
    TwoSteps(s, StopRequest(t), SetStopped(t));
  }

  lemma StatusChanges(s: State, t: string) returns (more: seq<Step>)
    requires Ended(s, t) && (s.tests[t].status == Completed || t in s.completions)
    ensures !SameStatus(s, RunFrom(s, more), t)
  {
    if s.tests[t].status == Completed {
      more := [StopRequest(t), SetStopped(t)];
      StopOverwritesCompleted(s, t);
    } else {
      more := [SetCompleted(t)];
      OneStep(s, SetCompleted(t));
    }
  }

  /** So with stop requests allowed only STOPPED is ever final, and only without a pending completion. */
  lemma StatusIsFinalWhateverHappensIff(s: State, t: string)
    requires Ended(s, t)
    ensures s.tests[t].status == Stopped && t !in s.completions <==> forall more :: SameStatus(s, RunFrom(s, more), t)
  {
    if s.tests[t].status == Completed || t in s.completions {
      var more := StatusChanges(s, t);
      assert !SameStatus(s, RunFrom(s, more), t);
    } else {
      forall more ensures SameStatus(s, RunFrom(s, more), t) { FinalStatusStays(s, more, t); }
    }
  }

  // ---------- runs, step by step ----------

  /** `steps` lead from `o` to `s` without a rebalance. */
  ghost predicate Leads(o: State, steps: seq<Step>, s: State) {
    RunFrom(o, steps) == s && NoRebalance(steps)
  }

  lemma Then(o: State, steps: seq<Step>, s: State, step: Step) returns (steps': seq<Step>, s': State)
    requires Leads(o, steps, s) && !step.Rebalance?
    ensures Leads(o, steps', s') && s' == Apply(s, step)
  {
    steps', s' := steps + [step], Apply(s, step);
    RunMore(o, steps, step);
  }

  lemma BeginOn(o: State, steps: seq<Step>, s: State, w: string, t: string) returns (steps': seq<Step>, s': State)
    requires Leads(o, steps, s) && Worker(s, w).phase == Idle && (w, t) in s.dispatched && (w, t) !in s.started
    ensures Leads(o, steps', s')
    ensures s' == s.(workers := s'.workers, started := s.started + {(w, t)})
    ensures Worker(s', w) == WorkerState(t, true, t, InStages) && forall v :: v != w ==> Worker(s', v) == Worker(s, v)
  {
    steps', s' := Then(o, steps, s, BeginTest(w, t));
    steps', s' := Then(o, steps', s', StartReporter(w));
  }

  lemma LeaveOn(o: State, steps: seq<Step>, s: State, w: string, t: string) returns (steps': seq<Step>, s': State)
    requires Leads(o, steps, s) && Worker(s, w) == WorkerState(t, true, t, InStages)
    ensures Leads(o, steps', s')
    ensures s' == s.(workers := s'.workers, left := s.left + {(w, t)})
    ensures Worker(s', w) == WorkerState(t, false, t, FlagCleared)
    ensures forall v :: v != w ==> Worker(s', v) == Worker(s, v)
  {
    steps', s' := Then(o, steps, s, LeaveStages(w));
    steps', s' := Then(o, steps', s', ClearActive(w));
  }

  lemma SendOn(o: State, steps: seq<Step>, s: State, w: string, t: string) returns (steps': seq<Step>, s': State)
    requires Leads(o, steps, s) && Worker(s, w) == WorkerState(t, false, t, FlagCleared)
    ensures Leads(o, steps', s')
    ensures s' == s.(workers := s'.workers, sent := s.sent + {Batch(w, t, false)})
    ensures forall v :: v != w ==> Worker(s', v) == Worker(s, v)
  {
    steps', s' := Then(o, steps, s, SendFinal(w));
  }

  lemma DeliverOn(o: State, steps: seq<Step>, s: State, w: string, t: string) returns (steps': seq<Step>, s': State)
    requires Leads(o, steps, s) && Batch(w, t, false) in s.sent
    requires t in s.tests && w in s.tests[t].workers && t != ""
    ensures Leads(o, steps', s')
    ensures s' == s.(tests := s.tests[t := MarkDone(s.tests[t], w)], completions := s'.completions)
    ensures s'.completions == if FiresCompletion(s.tests[t], w) then s.completions + multiset{t} else s.completions
  {
    steps', s' := Then(o, steps, s, Deliver(Batch(w, t, false)));
  }

  /** One worker goes through a whole test, and its final batch is delivered. */
  lemma FinishOn(o: State, steps: seq<Step>, s: State, w: string, t: string) returns (steps': seq<Step>, s': State)
    requires Leads(o, steps, s) && t in s.tests && w in s.tests[t].workers && t != ""
    requires Worker(s, w).phase == Idle && (w, t) in s.dispatched && (w, t) !in s.started
    ensures Leads(o, steps', s') && s'.dispatched == s.dispatched
    ensures s'.tests == s.tests[t := MarkDone(s.tests[t], w)] && s'.stops == s.stops
    ensures s'.completions == if FiresCompletion(s.tests[t], w) then s.completions + multiset{t} else s.completions
    ensures s'.started == s.started + {(w, t)} && s'.left == s.left + {(w, t)}
    ensures forall v :: v != w ==> Worker(s', v) == Worker(s, v)
  {
    steps', s' := BeginOn(o, steps, s, w, t);
    steps', s' := LeaveOn(o, steps', s', w, t);
    steps', s' := SendOn(o, steps', s', w, t);
    steps', s' := DeliverOn(o, steps', s', w, t);
  }

  // ---------- stopping and completing ----------

  /** A test is stored and its RunTest requests are sent. */
  lemma SentOn(o: State, steps: seq<Step>, s: State, t: string, shares: map<string, int>)
    returns (steps': seq<Step>, s': State)
    requires Leads(o, steps, s) && t != "" && t !in s.tests && t !in s.unsent
    ensures Leads(o, steps', s')
    ensures s' == s.(tests := s.tests[t := TestView(shares, Running, {})], dispatched := s'.dispatched)
    ensures forall w :: w in shares ==> (w, t) in s'.dispatched
  {
    steps', s' := Then(o, steps, s, Distribute(t, shares));
    steps', s' := Then(o, steps', s', Send(t));
    assert s.unsent + {t} - {t} == s.unsent;
  }

  /** One worker holds the test. */
  lemma OneWorker() returns (steps: seq<Step>, s: State)
    ensures Leads(INIT, steps, s) && ("a", "t") in s.dispatched
    ensures s == INIT.(tests := map["t" := TestView(map["a" := 1], Running, {})], dispatched := s.dispatched)
    ensures FiresCompletion(s.tests["t"], "a")
  {
    assert Leads(INIT, [], INIT);
    steps, s := SentOn(INIT, [], INIT, "t", map["a" := 1]);
    FiresIffAllDone(s.tests["t"], "a");
  }

  lemma StopOn(o: State, steps: seq<Step>, s: State, t: string) returns (steps': seq<Step>, s': State)
    requires Leads(o, steps, s) && t in s.tests
    ensures Leads(o, steps', s')
    ensures s' == s.(stops := s.stops + multiset{t}, stopRequested := s.stopRequested + {t})
  {
    steps', s' := Then(o, steps, s, StopRequest(t));
  }

  /** A stop can race with the completion of the same test ... */
  lemma StopRacesCompletion() returns (steps: seq<Step>, s: State)
    ensures Leads(INIT, steps, s)
    ensures "t" in s.tests && "t" in s.completions && "t" in s.stops
  {
    steps, s := OneWorker();
    steps, s := FinishOn(INIT, steps, s, "a", "t");
    steps, s := StopOn(INIT, steps, s, "t");
  }

  /** ... and then whichever handler sets its status last decides it, in either order. */
  lemma LastHandlerDecides(s: State, t: string)
    requires t in s.tests && t in s.completions && t in s.stops
    ensures Apply(Apply(s, SetStopped(t)), SetCompleted(t)).tests[t].status == Completed
    ensures Apply(Apply(s, SetCompleted(t)), SetStopped(t)).tests[t].status == Stopped
  {
    assert Apply(s, SetStopped(t)).completions == s.completions;
    assert Apply(s, SetCompleted(t)).stops == s.stops;
  }
}

/**
 What the queue guarantees when, as in the program, one thread dispatches. MarkDispatched
 may always fail, and submissions, cancellations and deletions interleave freely; what
 matters is that FinishRun, and for the bound on calls the write that gives a run up, does
 not fail while the run is still QUEUED.
 */
module SingleDispatcher {
  import opened RunTable
  import opened Dispatcher
  import opened QueueProtocol
  import opened QueueRuns

  /** FinishRun may fail for a run that is not queued any more. */
  predicate FinishGuard(s: State, step: Step) {
    step.Record? && step.record.Finish? && step.record.fails && step.i in s.sessions ==>
      s.sessions[step.i].stage != Recording || !IsQueued(s.rows, s.sessions[step.i].run)
  }

  /** Giving up may fail for a run that is not queued any more. */
  predicate GiveUpGuard(s: State, step: Step) {
    step.Dispatch? && step.dispatch.GiveUp? && step.dispatch.fails && PcOf(s, step.t).Released? ==>
      !IsQueued(s.rows, PcOf(s, step.t).run)
  }

  /** A step of the one dispatching thread, or of somebody else, whose writes fail only within the guards. */
  predicate Guarded(s: State, step: Step, giveUps: bool) {
    (step.Dispatch? ==> step.t == 0) && FinishGuard(s, step) && (giveUps ==> GiveUpGuard(s, step))
  }

  ghost predicate GuardedFrom(s: State, steps: seq<Step>, giveUps: bool) {
    forall i :: 0 <= i < |steps| ==> Guarded(RunFrom(s, steps[..i]), steps[i], giveUps)
  }

  predicate Mine(s: State, run: string) {
    HasRun(PcOf(s, 0)) && PcOf(s, 0).run == run
  }

  predicate BeforeHandOff(pc: Pc) {
    pc.Picked? || pc.Dispatching? || pc.DispatchFailed? || pc.Counted? || pc.Released?
  }

  predicate AfterHandOff(pc: Pc) {
    pc.HandedOff? || pc.Marked? || pc.Started?
  }

  predicate IsRecording(s: State, h: Holder) {
    h.Recorder? && h.i in s.sessions && s.sessions[h.i].stage == Recording
  }

  /** Between seeing a free slot and claiming it, and after giving it up, the slot is free. */
  predicate SoleOk(s: State) {
    var pc := PcOf(s, 0);
    pc.Checked? || pc.Picked? || pc.Released? || pc.GivenUp? ==> s.current == ""
  }

  /** A run is handed over once; if it is still QUEUED after that, it holds the slot and its end is not yet written. */
  predicate HandOffOk(s: State, run: string) {
    var pc := PcOf(s, 0);
    && Tally(s.handOffs, run) <= 1
    && (Mine(s, run) && (BeforeHandOff(pc) || pc.GivenUp?) ==> Tally(s.handOffs, run) == 0)
    && (Mine(s, run) && AfterHandOff(pc) ==> Tally(s.handOffs, run) == 1)
    && (run !in s.submitted ==> Tally(s.handOffs, run) == 0)
    && (IsQueued(s.rows, run) && Tally(s.handOffs, run) == 1 ==>
        s.current == run && (pc.HandedOff? || pc.Marked? || IsRecording(s, s.holder)))
  }

  /** A session records a run that was handed over. */
  predicate SessionHanded(s: State, i: nat) {
    i in s.sessions ==> Tally(s.handOffs, s.sessions[i].run) == 1
  }

  /** The attempts counter of a run that may still be dispatched is the number of its failed calls. */
  predicate CallsOk(s: State, run: string) {
    var pc := PcOf(s, 0);
    && Tally(s.calls, run) <= MAX_DISPATCH_ATTEMPTS
    && (Tally(s.handOffs, run) == 0 && (IsQueued(s.rows, run) || (Mine(s, run) && BeforeHandOff(pc))) ==>
        && Tally(s.calls, run) == Tally(s.attempts, run)
             + (if Mine(s, run) && (pc.Dispatching? || pc.DispatchFailed?) then 1 else 0)
        && ((Mine(s, run) && (pc.Counted? || pc.Released?)) || Tally(s.attempts, run) < MAX_DISPATCH_ATTEMPTS))
    && (Mine(s, run) && pc.Counted? ==> pc.n == Tally(s.attempts, run))
    && (Mine(s, run) && pc.Released? ==> Tally(s.attempts, run) >= MAX_DISPATCH_ATTEMPTS)
    && (Mine(s, run) && pc.GivenUp? ==> !IsQueued(s.rows, run))
    && (run !in s.submitted ==> Tally(s.calls, run) == Tally(s.attempts, run) == 0)
  }

  ghost predicate OnceInv(s: State) {
    && Inv(s) && SoleOk(s)
    && (forall run :: HandOffOk(s, run))
    && (forall i :: SessionHanded(s, i))
  }

  ghost predicate FiveInv(s: State) {
    OnceInv(s) && forall run :: CallsOk(s, run)
  }

  lemma DispatchKeepsSole(s: State, op: DispatchOp)
    requires SoleOk(s) && ThreadOk(s, 0)
    ensures SoleOk(DispatchStep(s, 0, op))
  {
  }

  /** The first half of dispatchNext. */
  predicate UpToDistribute(op: DispatchOp) {
    op.Check? || op.Pick? || op.NothingPicked? || op.Claim? || op.ClaimLost? || op.DistributeOk? || op.DistributeFails?
  }

  lemma EarlyKeepsHandOff(s: State, op: DispatchOp, run: string)
    requires SoleOk(s) && SlotOk(s) && ThreadOk(s, 0) && HandOffOk(s, run) && UpToDistribute(op)
    ensures HandOffOk(DispatchStep(s, 0, op), run)
  {
    match op
    case Check =>
    case Pick(_) =>
    case NothingPicked =>
    case Claim =>
    case ClaimLost =>
    case DistributeOk =>
    case DistributeFails =>
  }

  lemma LateKeepsHandOff(s: State, op: DispatchOp, run: string)
    requires SoleOk(s) && SlotOk(s) && ThreadOk(s, 0) && HandOffOk(s, run) && !UpToDistribute(op)
    ensures HandOffOk(DispatchStep(s, 0, op), run)
  {
    match op
    case Mark(_, _, _) =>
    case StartRecorder(_) =>
    case Count =>
    case ReleaseFailed =>
    case GiveUp(_) =>
    case Forget =>
  }

  lemma EarlyKeepsCalls(s: State, op: DispatchOp, run: string)
    requires SoleOk(s) && SlotOk(s) && ThreadOk(s, 0) && HandOffOk(s, run) && CallsOk(s, run) && UpToDistribute(op)
    ensures CallsOk(DispatchStep(s, 0, op), run)
  {
    match op
    case Check =>
    case Pick(_) =>
    case NothingPicked =>
    case Claim =>
    case ClaimLost =>
    case DistributeOk =>
    case DistributeFails =>
  }

  lemma MarkKeepsCalls(s: State, fails: bool, workers: int, at: int, run: string)
    requires SoleOk(s) && SlotOk(s) && ThreadOk(s, 0) && HandOffOk(s, run) && CallsOk(s, run)
    ensures CallsOk(DispatchStep(s, 0, Mark(fails, workers, at)), run)
  {
  }

  lemma StartKeepsCalls(s: State, i: nat, run: string)
    requires SoleOk(s) && SlotOk(s) && ThreadOk(s, 0) && HandOffOk(s, run) && CallsOk(s, run)
    ensures CallsOk(DispatchStep(s, 0, StartRecorder(i)), run)
  {
  }

  lemma CountKeepsCalls(s: State, run: string)
    requires SoleOk(s) && SlotOk(s) && ThreadOk(s, 0) && HandOffOk(s, run) && CallsOk(s, run)
    ensures CallsOk(DispatchStep(s, 0, Count), run)
  {
  }

  lemma ReleaseKeepsCalls(s: State, run: string)
    requires SoleOk(s) && SlotOk(s) && ThreadOk(s, 0) && HandOffOk(s, run) && CallsOk(s, run)
    ensures CallsOk(DispatchStep(s, 0, ReleaseFailed), run)
  {
  }

  lemma GiveUpKeepsCalls(s: State, fails: bool, run: string)
    requires SoleOk(s) && SlotOk(s) && ThreadOk(s, 0) && HandOffOk(s, run) && CallsOk(s, run)
    requires GiveUpGuard(s, Dispatch(0, GiveUp(fails)))
    ensures CallsOk(DispatchStep(s, 0, GiveUp(fails)), run)
  {
  }

  lemma ForgetKeepsCalls(s: State, run: string)
    requires SoleOk(s) && SlotOk(s) && ThreadOk(s, 0) && HandOffOk(s, run) && CallsOk(s, run)
    ensures CallsOk(DispatchStep(s, 0, Forget), run)
  {
  }

  lemma LateKeepsCalls(s: State, op: DispatchOp, run: string)
    requires SoleOk(s) && SlotOk(s) && ThreadOk(s, 0) && HandOffOk(s, run) && CallsOk(s, run)
    requires GiveUpGuard(s, Dispatch(0, op)) && !UpToDistribute(op)
    ensures CallsOk(DispatchStep(s, 0, op), run)
  {
    match op
    case Mark(fails, workers, at) => MarkKeepsCalls(s, fails, workers, at, run);
    case StartRecorder(i) => StartKeepsCalls(s, i, run);
    case Count => CountKeepsCalls(s, run);
    case ReleaseFailed => ReleaseKeepsCalls(s, run);
    case GiveUp(fails) => GiveUpKeepsCalls(s, fails, run);
    case Forget => ForgetKeepsCalls(s, run);
  }

  lemma DispatchKeepsHandOff(s: State, op: DispatchOp, run: string)
    requires SoleOk(s) && SlotOk(s) && ThreadOk(s, 0) && HandOffOk(s, run)
    ensures HandOffOk(DispatchStep(s, 0, op), run)
  {
    if UpToDistribute(op) { EarlyKeepsHandOff(s, op, run); } else { LateKeepsHandOff(s, op, run); }
  }

  lemma DispatchKeepsCalls(s: State, op: DispatchOp, run: string)
    requires SoleOk(s) && SlotOk(s) && ThreadOk(s, 0) && HandOffOk(s, run) && CallsOk(s, run)
    requires GiveUpGuard(s, Dispatch(0, op))
    ensures CallsOk(DispatchStep(s, 0, op), run)
  {
    if UpToDistribute(op) { EarlyKeepsCalls(s, op, run); } else { LateKeepsCalls(s, op, run); }
  }

  lemma DispatchKeepsHanded(s: State, op: DispatchOp, i: nat)
    requires SessionHanded(s, i) && forall run :: HandOffOk(s, run)
    ensures SessionHanded(DispatchStep(s, 0, op), i)
  {
    assert HasRun(PcOf(s, 0)) ==> HandOffOk(s, PcOf(s, 0).run);
  }

  lemma RecordKeepsHandOff(s: State, i: nat, op: RecordOp, run: string)
    requires SlotOk(s) && ThreadOk(s, 0) && SessionOk(s, i) && HandOffOk(s, run) && FinishGuard(s, Record(i, op))
    ensures HandOffOk(RecordStep(s, i, op), run)
  {
  }

  lemma FinishKeepsCalls(s: State, i: nat, status: RunStatus, at: int, summary: Summary, fails: bool, run: string)
    requires CallsOk(s, run)
    ensures CallsOk(RecordStep(s, i, Finish(status, at, summary, fails)), run)
  {
  }

  lemma CloseKeepsCalls(s: State, i: nat, run: string)
    requires CallsOk(s, run)
    ensures CallsOk(RecordStep(s, i, Close), run)
  {
  }

  lemma FireKeepsCalls(s: State, i: nat, run: string)
    requires CallsOk(s, run)
    ensures CallsOk(RecordStep(s, i, FireDone), run)
  {
    if i in s.sessions && s.sessions[i].stage == Closed && s.current == s.sessions[i].run {
      assert CallsOk(s.(sessions := s.sessions[i := Session(s.current, Fired)], fired := Bump(s.fired, i),
                        current := "", holder := Nobody), run);
    }
  }

  lemma RemoveKeepsCalls(s: State, i: nat, run: string)
    requires CallsOk(s, run)
    ensures CallsOk(RecordStep(s, i, Remove), run)
  {
  }

  lemma RecordKeepsCalls(s: State, i: nat, op: RecordOp, run: string)
    requires CallsOk(s, run)
    ensures CallsOk(RecordStep(s, i, op), run)
  {
    match op
    case Finish(status, at, summary, fails) => FinishKeepsCalls(s, i, status, at, summary, fails, run);
    case Close => CloseKeepsCalls(s, i, run);
    case FireDone => FireKeepsCalls(s, i, run);
    case Remove => RemoveKeepsCalls(s, i, run);
  }

  lemma RecordKeepsSole(s: State, i: nat, op: RecordOp)
    requires SoleOk(s)
    ensures SoleOk(RecordStep(s, i, op))
  {
  }

  lemma RecordKeepsHanded(s: State, i: nat, op: RecordOp, j: nat)
    requires SessionHanded(s, j)
    ensures SessionHanded(RecordStep(s, i, op), j)
  {
  }

  lemma ApiKeepsSole(s: State, op: ApiOp)
    requires SoleOk(s)
    ensures SoleOk(ApiStep(s, op))
  {
    match op
    case Submit(_, _) =>
    case CancelRead(_) =>
    case CancelWrite(_) =>
    case DeleteCheck(_) =>
    case Delete(_) =>
  }

  lemma ApiKeepsHandOff(s: State, op: ApiOp, run: string)
    requires ThreadOk(s, 0) && HandOffOk(s, run)
    ensures HandOffOk(ApiStep(s, op), run)
  {
    match op
    case Submit(_, _) =>
    case CancelRead(_) =>
    case CancelWrite(_) =>
    case DeleteCheck(_) =>
    case Delete(_) =>
  }

  lemma SubmitKeepsCalls(s: State, submitted: string, startedAt: int, run: string)
    requires ThreadOk(s, 0) && CallsOk(s, run)
    ensures CallsOk(ApiStep(s, Submit(submitted, startedAt)), run)
  {
  }

  lemma CancelKeepsCalls(s: State, cancelled: string, run: string)
    requires CallsOk(s, run)
    ensures CallsOk(ApiStep(s, CancelWrite(cancelled)), run)
  {
  }

  lemma DeleteKeepsCalls(s: State, deleted: string, run: string)
    requires CallsOk(s, run)
    ensures CallsOk(ApiStep(s, Delete(deleted)), run)
  {
  }

  lemma CancelReadKeepsCalls(s: State, read: string, run: string)
    requires CallsOk(s, run)
    ensures CallsOk(ApiStep(s, CancelRead(read)), run)
  {
  }

  lemma DeleteCheckKeepsCalls(s: State, checked: string, run: string)
    requires CallsOk(s, run)
    ensures CallsOk(ApiStep(s, DeleteCheck(checked)), run)
  {
  }

  lemma ApiKeepsCalls(s: State, op: ApiOp, run: string)
    requires ThreadOk(s, 0) && CallsOk(s, run)
    ensures CallsOk(ApiStep(s, op), run)
  {
    match op
    case Submit(submitted, startedAt) => SubmitKeepsCalls(s, submitted, startedAt, run);
    case CancelRead(read) => CancelReadKeepsCalls(s, read, run);
    case CancelWrite(cancelled) => CancelKeepsCalls(s, cancelled, run);
    case DeleteCheck(checked) => DeleteCheckKeepsCalls(s, checked, run);
    case Delete(deleted) => DeleteKeepsCalls(s, deleted, run);
  }

  lemma ApiKeepsHanded(s: State, op: ApiOp, i: nat)
    requires SessionHanded(s, i)
    ensures SessionHanded(ApiStep(s, op), i)
  {
  }

  lemma StepKeepsOnce(s: State, step: Step)
    requires OnceInv(s) && Guarded(s, step, false)
    ensures OnceInv(Apply(s, step))
  {
    var s' := Apply(s, step);
    StepKeepsInv(s, step);
    assert ThreadOk(s, 0);
    match step
    case Dispatch(_, op) =>
      DispatchKeepsSole(s, op);
      forall run ensures HandOffOk(s', run) { DispatchKeepsHandOff(s, op, run); }
      forall i ensures SessionHanded(s', i) { DispatchKeepsHanded(s, op, i); }
    case Record(i, op) =>
      assert SessionOk(s, i);
      RecordKeepsSole(s, i, op);
      forall run ensures HandOffOk(s', run) { RecordKeepsHandOff(s, i, op, run); }
      forall j ensures SessionHanded(s', j) { RecordKeepsHanded(s, i, op, j); }
    case Api(op) =>
      ApiKeepsSole(s, op);
      forall run ensures HandOffOk(s', run) { ApiKeepsHandOff(s, op, run); }
      forall i ensures SessionHanded(s', i) { ApiKeepsHanded(s, op, i); }
  }

  lemma StepKeepsFive(s: State, step: Step)
    requires FiveInv(s) && Guarded(s, step, true)
    ensures FiveInv(Apply(s, step))
  {
    var s' := Apply(s, step);
    StepKeepsOnce(s, step);
    assert ThreadOk(s, 0);
    forall run ensures CallsOk(s', run) {
      assert HandOffOk(s, run) && CallsOk(s, run);
      match step
      case Dispatch(_, op) => DispatchKeepsCalls(s, op, run);
      case Record(i, op) => RecordKeepsCalls(s, i, op, run);
      case Api(op) => ApiKeepsCalls(s, op, run);
    }
  }

  lemma GuardedPrefix(s: State, steps: seq<Step>, giveUps: bool)
    requires GuardedFrom(s, steps, giveUps) && steps != []
    ensures GuardedFrom(s, steps[..|steps| - 1], giveUps)
    ensures Guarded(RunFrom(s, steps[..|steps| - 1]), steps[|steps| - 1], giveUps)
  {
    var init := steps[..|steps| - 1];
    forall i | 0 <= i < |init| ensures Guarded(RunFrom(s, init[..i]), init[i], giveUps) {
      assert init[..i] == steps[..i] && Guarded(RunFrom(s, steps[..i]), steps[i], giveUps);
    }
  }

  lemma {:induction false} RunKeepsOnce(s: State, steps: seq<Step>)
    requires OnceInv(s) && GuardedFrom(s, steps, false)
    ensures OnceInv(RunFrom(s, steps))
  {
    if steps != [] {
      GuardedPrefix(s, steps, false);
      RunKeepsOnce(s, steps[..|steps| - 1]);
      StepKeepsOnce(RunFrom(s, steps[..|steps| - 1]), steps[|steps| - 1]);
    }
  }

  lemma {:induction false} RunKeepsFive(s: State, steps: seq<Step>)
    requires FiveInv(s) && GuardedFrom(s, steps, true)
    ensures FiveInv(RunFrom(s, steps))
  {
    if steps != [] {
      GuardedPrefix(s, steps, true);
      RunKeepsFive(s, steps[..|steps| - 1]);
      StepKeepsFive(RunFrom(s, steps[..|steps| - 1]), steps[|steps| - 1]);
    }
  }

  lemma StartFive(rows: Rows)
    requires "" !in rows
    ensures FiveInv(Start(rows))
  {
    StartInv(rows);
  }

  // ---------- the theorems ----------

  /**
   At-most-once dispatch: with one dispatching thread no run is handed to the workers twice, however
   submissions, cancellations and deletions interleave and whichever writes fail, as long as no
   FinishRun fails on a run that is still QUEUED.
   */
  lemma AtMostOnce(rows: Rows, steps: seq<Step>, run: string)
    requires "" !in rows && GuardedFrom(Start(rows), steps, false)
    ensures Tally(RunFrom(Start(rows), steps).handOffs, run) <= 1
  {
    StartFive(rows);
    RunKeepsOnce(Start(rows), steps);
    assert HandOffOk(RunFrom(Start(rows), steps), run);
  }

  /** Once a run was handed over and its slot is free again, it is out of the queue for good. */
  lemma HandedOverRunsAreNotRequeued(rows: Rows, steps: seq<Step>, run: string)
    requires "" !in rows && GuardedFrom(Start(rows), steps, false)
    requires Tally(RunFrom(Start(rows), steps).handOffs, run) == 1 && RunFrom(Start(rows), steps).current != run
    ensures !IsQueued(RunFrom(Start(rows), steps).rows, run)
  {
    StartFive(rows);
    RunKeepsOnce(Start(rows), steps);
    assert HandOffOk(RunFrom(Start(rows), steps), run);
  }

  /** Bounded retry: if giving up does not fail on a queued run either, no run costs more than five dispatch calls. */
  lemma FiveCalls(rows: Rows, steps: seq<Step>, run: string)
    requires "" !in rows && GuardedFrom(Start(rows), steps, true)
    ensures Tally(RunFrom(Start(rows), steps).calls, run) <= MAX_DISPATCH_ATTEMPTS
  {
    StartFive(rows);
    RunKeepsFive(Start(rows), steps);
    assert CallsOk(RunFrom(Start(rows), steps), run);
  }

  // ---------- the guards are exact ----------

  lemma OneThreadIsGuarded(o: State, steps: seq<Step>, s: State, giveUps: bool)
    requires Leads(o, steps, s, 1, false)
    ensures GuardedFrom(o, steps, giveUps)
  {
    forall i | 0 <= i < |steps| ensures Guarded(RunFrom(o, steps[..i]), steps[i], giveUps) {
      assert Allowed(steps[i], 1, false);
    }
  }

  /** An idle thread and a free slot: a queued run can be picked and claimed, and the plan distributed. */
  lemma DispatchedAgain(o: State, steps: seq<Step>, s: State, run: string) returns (steps': seq<Step>, s': State)
    requires Leads(o, steps, s, 1, false) && IsQueued(s.rows, run) && PcOf(s, 0) == Idle && s.current == ""
    ensures Leads(o, steps', s', 1, false)
    ensures Tally(s'.handOffs, run) == Tally(s.handOffs, run) + 1 && Tally(s'.calls, run) == Tally(s.calls, run) + 1
  {
    steps', s' := CancelOthersOn(o, steps, s, 1, false, run);
    steps', s' := PickOn(o, steps', s', 1, false, 0, run);
    steps', s' := ClaimOn(o, steps', s', 1, false, 0, run);
  }

  lemma FailedFinishHandsOffTwice(s: State, i: nat, run: string) returns (more: seq<Step>)
    requires Inv(s) && SoleOk(s) && SessionHanded(s, i)
    requires i in s.sessions && s.sessions[i] == Session(run, Written)
    requires IsQueued(s.rows, run) && s.holder == Recorder(i)
    ensures GuardedFrom(s, more, true) && Tally(RunFrom(s, more).handOffs, run) == 2
  {
    assert SessionOk(s, i) && ThreadOk(s, 0);
    var s';
    more, s' := CloseOn(s, [], s, 1, false, i, run);
    more, s' := FireOn(s, more, s', 1, false, i, run);
    if PcOf(s', 0) != Idle {
      more, s' := ForgetOn(s, more, s', 1, false, 0, PcOf(s', 0).run);
    }
    more, s' := DispatchedAgain(s, more, s', run);
    OneThreadIsGuarded(s, more, s', true);
  }

  /** The state after a failing FinishRun of session `i`. */
  function FinishFailed(s: State, i: nat, status: RunStatus): State {
    Apply(s, Record(i, Finish(status, 2, NO_SUMMARY, true)))
  }

  /**
   A FinishRun that fails leaves at-most-once intact in every guarded continuation exactly when the
   run is not QUEUED.
   */
  lemma FailedFinishIsSafeIff(rows: Rows, steps: seq<Step>, s: State, i: nat, run: string, status: RunStatus)
    requires "" !in rows && GuardedFrom(Start(rows), steps, false) && s == RunFrom(Start(rows), steps)
    requires i in s.sessions && s.sessions[i] == Session(run, Recording) && status != Queued
    ensures !IsQueued(s.rows, run) <==>
      forall more :: GuardedFrom(FinishFailed(s, i, status), more, false) ==>
        Tally(RunFrom(FinishFailed(s, i, status), more).handOffs, run) <= 1
  {
    StartFive(rows);
    RunKeepsOnce(Start(rows), steps);
    var s1 := FinishFailed(s, i, status);
    if IsQueued(s.rows, run) {
      QueuedFinishFails(s, i, run, status);
      var more := FailedFinishHandsOffTwice(s1, i, run);
      assert GuardedFrom(s1, more, false);
      assert Tally(RunFrom(s1, more).handOffs, run) == 2;
    } else {
      StepKeepsOnce(s, Record(i, Finish(status, 2, NO_SUMMARY, true)));
      forall more | GuardedFrom(s1, more, false) ensures Tally(RunFrom(s1, more).handOffs, run) <= 1 {
        RunKeepsOnce(s1, more);
        assert HandOffOk(RunFrom(s1, more), run);
      }
    }
  }

  lemma QueuedFinishFails(s: State, i: nat, run: string, status: RunStatus)
    requires OnceInv(s) && IsQueued(s.rows, run) && status != Queued
    requires i in s.sessions && s.sessions[i] == Session(run, Recording)
    ensures var s' := FinishFailed(s, i, status);
      && Inv(s') && SoleOk(s') && SessionHanded(s', i)
      && i in s'.sessions && s'.sessions[i] == Session(run, Written)
      && IsQueued(s'.rows, run) && s'.holder == Recorder(i)
  {
    var op := Finish(status, 2, NO_SUMMARY, true);
    assert SessionOk(s, i) && SessionHanded(s, i);
    StepKeepsInv(s, Record(i, op));
    RecordKeepsSole(s, i, op);
    RecordKeepsHanded(s, i, op, i);
  }

  lemma FailedGiveUpCallsSixTimes(s: State, run: string) returns (more: seq<Step>)
    requires Inv(s) && SoleOk(s) && PcOf(s, 0) == GivenUp(run)
    requires IsQueued(s.rows, run) && Tally(s.calls, run) == MAX_DISPATCH_ATTEMPTS
    ensures GuardedFrom(s, more, true) && Tally(RunFrom(s, more).calls, run) > MAX_DISPATCH_ATTEMPTS
  {
    var s';
    assert Leads(s, [], s, 1, false);
    more, s' := ForgetOn(s, [], s, 1, false, 0, run);
    more, s' := DispatchedAgain(s, more, s', run);
    OneThreadIsGuarded(s, more, s', true);
  }

  function GiveUpFailed(s: State): State {
    Apply(s, Dispatch(0, GiveUp(true)))
  }

  lemma QueuedGiveUpFails(s: State, run: string) returns (more: seq<Step>)
    requires FiveInv(s) && PcOf(s, 0) == Released(run) && IsQueued(s.rows, run)
    ensures GuardedFrom(GiveUpFailed(s), more, true)
    ensures Tally(RunFrom(GiveUpFailed(s), more).calls, run) > MAX_DISPATCH_ATTEMPTS
  {
    assert ThreadOk(s, 0) && HandOffOk(s, run) && CallsOk(s, run);
    StepKeepsInv(s, Dispatch(0, GiveUp(true)));
    DispatchKeepsSole(s, GiveUp(true));
    more := FailedGiveUpCallsSixTimes(GiveUpFailed(s), run);
  }

  lemma LeftGiveUpFails(s: State, run: string, more: seq<Step>)
    requires FiveInv(s) && PcOf(s, 0) == Released(run) && !IsQueued(s.rows, run)
    requires GuardedFrom(GiveUpFailed(s), more, true)
    ensures Tally(RunFrom(GiveUpFailed(s), more).calls, run) <= MAX_DISPATCH_ATTEMPTS
  {
    StepKeepsFive(s, Dispatch(0, GiveUp(true)));
    RunKeepsFive(GiveUpFailed(s), more);
    assert CallsOk(RunFrom(GiveUpFailed(s), more), run);
  }

  /** A failing write that gives a run up leaves the bound of five calls intact exactly when the run is not QUEUED. */
  lemma FailedGiveUpIsSafeIff(rows: Rows, steps: seq<Step>, s: State, run: string)
    requires "" !in rows && GuardedFrom(Start(rows), steps, true) && s == RunFrom(Start(rows), steps)
    requires PcOf(s, 0) == Released(run)
    ensures !IsQueued(s.rows, run) <==>
      forall more :: GuardedFrom(GiveUpFailed(s), more, true) ==>
        Tally(RunFrom(GiveUpFailed(s), more).calls, run) <= MAX_DISPATCH_ATTEMPTS
  {
    StartFive(rows);
    RunKeepsFive(Start(rows), steps);
    if IsQueued(s.rows, run) {
      var more := QueuedGiveUpFails(s, run);
      assert GuardedFrom(GiveUpFailed(s), more, true);
    } else {
      forall more | GuardedFrom(GiveUpFailed(s), more, true)
        ensures Tally(RunFrom(GiveUpFailed(s), more).calls, run) <= MAX_DISPATCH_ATTEMPTS
      {
        LeftGiveUpFails(s, run, more);
      }
    }
  }
}

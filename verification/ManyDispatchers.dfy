/**
 What the queue guarantees when any number of threads dispatch. A thread may claim a run that it
 picked a while ago; runs are still handed over at most once as long as no claim is stale, and a
 stale claim can always hand its run over again.
 */
module ManyDispatchers {
  import opened RunTable
  import opened Dispatcher
  import opened QueueProtocol
  import QR = QueueRuns
  import SD = SingleDispatcher
  import SM = SessionMap

  /** The run about to be claimed is still QUEUED, or left the queue by a cancel or a deletion before any hand-over. */
  predicate FreshPick(s: State, run: string) {
    IsQueued(s.rows, run) || Tally(s.handOffs, run) == 0
  }

  predicate ClaimGuard(s: State, step: Step) {
    step.Dispatch? && step.dispatch.Claim? && PcOf(s, step.t).Picked? && s.current == "" ==>
      FreshPick(s, PcOf(s, step.t).run)
  }

  predicate Guarded(s: State, step: Step) {
    SD.FinishGuard(s, step) && ClaimGuard(s, step)
  }

  ghost predicate GuardedFrom(s: State, steps: seq<Step>) {
    forall i :: 0 <= i < |steps| ==> Guarded(RunFrom(s, steps[..i]), steps[i])
  }

  /** Where the thread that holds the slot stands. */
  function HolderPc(s: State): Pc {
    if s.holder.Thread? then PcOf(s, s.holder.t) else Idle
  }

  /** A run is handed over once; if it is still QUEUED after that, it holds the slot and its end is not yet written. */
  predicate OnceOk(s: State, run: string) {
    && Tally(s.handOffs, run) <= 1
    && (s.current == run && HolderPc(s).Dispatching? ==> Tally(s.handOffs, run) == 0)
    && (run !in s.submitted ==> Tally(s.handOffs, run) == 0)
    && (IsQueued(s.rows, run) && Tally(s.handOffs, run) == 1 ==>
        s.current == run && (HolderPc(s).HandedOff? || HolderPc(s).Marked? || SD.IsRecording(s, s.holder)))
  }

  ghost predicate ManyInv(s: State) {
    Inv(s) && forall run :: OnceOk(s, run)
  }

  lemma EarlyKeepsOnce(s: State, t: nat, op: DispatchOp, run: string)
    requires SlotOk(s) && ThreadOk(s, t) && OnceOk(s, run) && SD.UpToDistribute(op)
    requires ClaimGuard(s, Dispatch(t, op))
    ensures OnceOk(DispatchStep(s, t, op), run)
  {
    match op
    case Check =>
    case Pick(_) =>
    case NothingPicked =>
    case Claim =>
    case ClaimLost =>
    case DistributeOk =>
    case DistributeFails =>
  }

  lemma LateKeepsOnce(s: State, t: nat, op: DispatchOp, run: string)
    requires SlotOk(s) && ThreadOk(s, t) && OnceOk(s, run) && !SD.UpToDistribute(op)
    ensures OnceOk(DispatchStep(s, t, op), run)
  {
    match op
    case Mark(_, _, _) =>
    case StartRecorder(_) =>
    case Count =>
    case ReleaseFailed =>
    case GiveUp(_) =>
    case Forget =>
  }

  lemma RecordKeepsOnce(s: State, i: nat, op: RecordOp, run: string)
    requires SlotOk(s) && SessionOk(s, i) && OnceOk(s, run) && SD.FinishGuard(s, Record(i, op))
    ensures OnceOk(RecordStep(s, i, op), run)
  {
    match op
    case Finish(_, _, _, _) =>
    case Close =>
    case FireDone =>
    case Remove =>
  }

  lemma SubmitKeepsOnce(s: State, submitted: string, startedAt: int, run: string)
    requires OnceOk(s, run)
    ensures OnceOk(ApiStep(s, Submit(submitted, startedAt)), run)
  {
  }

  lemma CancelKeepsOnce(s: State, cancelled: string, run: string)
    requires OnceOk(s, run)
    ensures OnceOk(ApiStep(s, CancelWrite(cancelled)), run)
  {
  }

  lemma DeleteKeepsOnce(s: State, deleted: string, run: string)
    requires OnceOk(s, run)
    ensures OnceOk(ApiStep(s, Delete(deleted)), run)
  {
  }

  lemma ApiKeepsOnce(s: State, op: ApiOp, run: string)
    requires OnceOk(s, run)
    ensures OnceOk(ApiStep(s, op), run)
  {
    match op
    case Submit(submitted, startedAt) => SubmitKeepsOnce(s, submitted, startedAt, run);
    case CancelRead(_) =>
    case CancelWrite(cancelled) => CancelKeepsOnce(s, cancelled, run);
    case DeleteCheck(_) =>
    case Delete(deleted) => DeleteKeepsOnce(s, deleted, run);
  }

  lemma StepKeepsMany(s: State, step: Step)
    requires ManyInv(s) && Guarded(s, step)
    ensures ManyInv(Apply(s, step))
  {
    StepKeepsInv(s, step);
    forall run ensures OnceOk(Apply(s, step), run) {
      assert OnceOk(s, run);
      match step
      case Dispatch(t, op) =>
        assert ThreadOk(s, t);
        if SD.UpToDistribute(op) { EarlyKeepsOnce(s, t, op, run); } else { LateKeepsOnce(s, t, op, run); }
      case Record(i, op) =>
        assert SessionOk(s, i);
        RecordKeepsOnce(s, i, op, run);
      case Api(op) =>
        ApiKeepsOnce(s, op, run);
    }
  }

  lemma GuardedPrefix(s: State, steps: seq<Step>)
    requires GuardedFrom(s, steps) && steps != []
    ensures GuardedFrom(s, steps[..|steps| - 1])
    ensures Guarded(RunFrom(s, steps[..|steps| - 1]), steps[|steps| - 1])
  {
    var init := steps[..|steps| - 1];
    forall i | 0 <= i < |init| ensures Guarded(RunFrom(s, init[..i]), init[i]) {
      assert init[..i] == steps[..i] && Guarded(RunFrom(s, steps[..i]), steps[i]);
    }
  }

  lemma {:induction false} RunKeepsMany(s: State, steps: seq<Step>)
    requires ManyInv(s) && GuardedFrom(s, steps)
    ensures ManyInv(RunFrom(s, steps))
  {
    if steps != [] {
      GuardedPrefix(s, steps);
      RunKeepsMany(s, steps[..|steps| - 1]);
      StepKeepsMany(RunFrom(s, steps[..|steps| - 1]), steps[|steps| - 1]);
    }
  }

  lemma StartMany(rows: Rows)
    requires "" !in rows
    ensures ManyInv(Start(rows))
  {
    StartInv(rows);
  }

  /** At-most-once dispatch for any number of threads whose claims are fresh. */
  lemma AtMostOnce(rows: Rows, steps: seq<Step>, run: string)
    requires "" !in rows && GuardedFrom(Start(rows), steps)
    ensures Tally(RunFrom(Start(rows), steps).handOffs, run) <= 1
  {
    StartMany(rows);
    RunKeepsMany(Start(rows), steps);
    assert OnceOk(RunFrom(Start(rows), steps), run);
  }

  function Claimed(s: State, t: nat): State {
    Apply(s, Dispatch(t, Claim))
  }

  lemma StaleClaimHandsOffTwice(s: State, t: nat, run: string)
    requires PcOf(s, t) == Picked(run) && s.current == "" && !FreshPick(s, run)
    ensures GuardedFrom(Claimed(s, t), [Dispatch(t, DistributeOk)])
    ensures Tally(RunFrom(Claimed(s, t), [Dispatch(t, DistributeOk)]).handOffs, run) >= 2
  {
    RunMore(Claimed(s, t), [], Dispatch(t, DistributeOk));
    assert [] + [Dispatch(t, DistributeOk)] == [Dispatch(t, DistributeOk)];
  }

  /** A claim leaves at-most-once intact in every guarded continuation exactly when it is fresh. */
  lemma ClaimIsSafeIff(rows: Rows, steps: seq<Step>, s: State, t: nat, run: string)
    requires "" !in rows && GuardedFrom(Start(rows), steps) && s == RunFrom(Start(rows), steps)
    requires PcOf(s, t) == Picked(run) && s.current == ""
    ensures FreshPick(s, run) <==>
      forall more :: GuardedFrom(Claimed(s, t), more) ==> Tally(RunFrom(Claimed(s, t), more).handOffs, run) <= 1
  {
    StartMany(rows);
    RunKeepsMany(Start(rows), steps);
    if FreshPick(s, run) {
      StepKeepsMany(s, Dispatch(t, Claim));
      forall more | GuardedFrom(Claimed(s, t), more) ensures Tally(RunFrom(Claimed(s, t), more).handOffs, run) <= 1 {
        RunKeepsMany(Claimed(s, t), more);
        assert OnceOk(RunFrom(Claimed(s, t), more), run);
      }
    } else {
      StaleClaimHandsOffTwice(s, t, run);
    }
  }

  /** The program's single dispatching thread never makes a stale claim. */
  lemma {:induction false} OneThreadClaimsFresh(rows: Rows, steps: seq<Step>)
    requires "" !in rows && SD.GuardedFrom(Start(rows), steps, false)
    ensures GuardedFrom(Start(rows), steps)
  {
    forall i | 0 <= i < |steps| ensures Guarded(RunFrom(Start(rows), steps[..i]), steps[i]) {
      var before := steps[..i];
      forall j | 0 <= j < i ensures SD.Guarded(RunFrom(Start(rows), before[..j]), before[j], false) {
        assert before[..j] == steps[..j] && SD.Guarded(RunFrom(Start(rows), steps[..j]), steps[j], false);
      }
      SD.StartFive(rows);
      SD.RunKeepsOnce(Start(rows), before);
      var s := RunFrom(Start(rows), before);
      assert SD.Guarded(s, steps[i], false) && SD.HandOffOk(s, if PcOf(s, 0).Picked? then PcOf(s, 0).run else "");
    }
  }

  // ---------- the guard on FinishRun is exact here too ----------

  /** `steps` lead from `o` to `s` within the guards. */
  ghost predicate Leads(o: State, steps: seq<Step>, s: State) {
    RunFrom(o, steps) == s && GuardedFrom(o, steps)
  }

  lemma Then(o: State, steps: seq<Step>, s: State, step: Step) returns (steps': seq<Step>, s': State)
    requires Leads(o, steps, s) && Guarded(s, step)
    ensures Leads(o, steps', s') && s' == Apply(s, step)
  {
    steps', s' := steps + [step], Apply(s, step);
    RunMore(o, steps, step);
    forall i | 0 <= i < |steps'| ensures Guarded(RunFrom(o, steps'[..i]), steps'[i]) {
      if i < |steps| {
        assert steps'[..i] == steps[..i] && Guarded(RunFrom(o, steps[..i]), steps[i]);
      } else {
        assert steps'[..i] == steps;
      }
    }
  }

  lemma ApiIsGuarded(o: State, steps: seq<Step>, cancels: seq<Step>, i: nat)
    requires GuardedFrom(o, steps) && QR.OnlyApi(cancels) && i < |steps + cancels|
    ensures Guarded(RunFrom(o, (steps + cancels)[..i]), (steps + cancels)[i])
  {
    if i < |steps| {
      assert (steps + cancels)[..i] == steps[..i] && Guarded(RunFrom(o, steps[..i]), steps[i]);
    } else {
      assert cancels[i - |steps|].Api?;
    }
  }

  lemma CancelOthersOn(o: State, steps: seq<Step>, s: State, run: string) returns (steps': seq<Step>, s': State)
    requires Leads(o, steps, s) && IsQueued(s.rows, run)
    ensures Leads(o, steps', s') && IsOldest(s'.rows, run)
    ensures s' == s.(rows := s'.rows, cancelling := s'.cancelling)
  {
    var cancels;
    cancels, s' := QR.CancelOthers(s, run);
    RunOn(o, steps, cancels);
    steps' := steps + cancels;
    forall i | 0 <= i < |steps'| ensures Guarded(RunFrom(o, steps'[..i]), steps'[i]) {
      ApiIsGuarded(o, steps, cancels, i);
    }
  }

  /** A number that no thread has used. */
  lemma {:induction false} Unused(ts: set<nat>) returns (t: nat)
    ensures t !in ts && forall u :: u in ts ==> u < t
    decreases |ts|
  {
    if ts == {} {
      t := 0;
    } else {
      var u :| u in ts;
      var rest := Unused(ts - {u});
      t := if rest <= u then u + 1 else rest;
      forall v | v in ts ensures v < t { assert v == u || v in ts - {u}; }
    }
  }

  lemma EndOn(o: State, steps: seq<Step>, s: State, i: nat, run: string) returns (steps': seq<Step>, s': State)
    requires Leads(o, steps, s) && i in s.sessions && s.sessions[i] == Session(run, Written) && s.current == run
    ensures Leads(o, steps', s')
    ensures s' == s.(sessions := s'.sessions, fired := s'.fired, current := "", holder := Nobody)
  {
    steps', s' := Then(o, steps, s, Record(i, Close));
    steps', s' := Then(o, steps', s', Record(i, FireDone));
  }

  lemma PickOn(o: State, steps: seq<Step>, s: State, t: nat, run: string) returns (steps': seq<Step>, s': State)
    requires Leads(o, steps, s) && PcOf(s, t) == Idle && s.current == "" && IsOldest(s.rows, run)
    ensures Leads(o, steps', s') && s' == s.(threads := s'.threads) && PcOf(s', t) == Picked(run)
  {
    steps', s' := Then(o, steps, s, Dispatch(t, Check));
    steps', s' := Then(o, steps', s', Dispatch(t, Pick(run)));
  }

  lemma HandOn(o: State, steps: seq<Step>, s: State, t: nat, run: string) returns (steps': seq<Step>, s': State)
    requires Leads(o, steps, s) && PcOf(s, t) == Picked(run) && s.current == "" && IsQueued(s.rows, run)
    ensures Leads(o, steps', s') && Tally(s'.handOffs, run) == Tally(s.handOffs, run) + 1
  {
    steps', s' := Then(o, steps, s, Dispatch(t, Claim));
    steps', s' := Then(o, steps', s', Dispatch(t, DistributeOk));
  }

  /** A run that is still queued after its recording ended can be picked by a thread that was not there yet. */
  lemma HandedOverAgain(s: State, i: nat, run: string) returns (more: seq<Step>)
    requires i in s.sessions && s.sessions[i] == Session(run, Written) && s.current == run
    requires IsQueued(s.rows, run) && Tally(s.handOffs, run) >= 1
    ensures GuardedFrom(s, more) && Tally(RunFrom(s, more).handOffs, run) >= 2
  {
    var s';
    var t := Unused(s.threads.Keys);
    more, s' := EndOn(s, [], s, i, run);
    more, s' := CancelOthersOn(s, more, s', run);
    more, s' := PickOn(s, more, s', t, run);
    more, s' := HandOn(s, more, s', t, run);
  }

  lemma QueuedFinishFails(s: State, i: nat, run: string, status: RunStatus) returns (more: seq<Step>)
    requires Reachable(s) && ManyInv(s) && IsQueued(s.rows, run) && status != Queued
    requires i in s.sessions && s.sessions[i] == Session(run, Recording)
    ensures GuardedFrom(SD.FinishFailed(s, i, status), more)
    ensures Tally(RunFrom(SD.FinishFailed(s, i, status), more).handOffs, run) >= 2
  {
    assert SessionOk(s, i);
    SM.SessionsAreHandedOver(s, i, i);
    more := HandedOverAgain(SD.FinishFailed(s, i, status), i, run);
  }

  /**
   A FinishRun that fails leaves at-most-once intact in every guarded continuation exactly when its
   run is not QUEUED.
   */
  lemma FailedFinishIsSafeIff(rows: Rows, steps: seq<Step>, s: State, i: nat, run: string, status: RunStatus)
    requires "" !in rows && GuardedFrom(Start(rows), steps) && s == RunFrom(Start(rows), steps)
    requires i in s.sessions && s.sessions[i] == Session(run, Recording) && status != Queued
    ensures !IsQueued(s.rows, run) <==>
      forall more :: GuardedFrom(SD.FinishFailed(s, i, status), more) ==>
        Tally(RunFrom(SD.FinishFailed(s, i, status), more).handOffs, run) <= 1
  {
    StartMany(rows);
    RunKeepsMany(Start(rows), steps);
    var s1 := SD.FinishFailed(s, i, status);
    if IsQueued(s.rows, run) {
      var more := QueuedFinishFails(s, i, run, status);
      assert GuardedFrom(s1, more) && Tally(RunFrom(s1, more).handOffs, run) >= 2;
    } else {
      StepKeepsMany(s, Record(i, Finish(status, 2, QR.NO_SUMMARY, true)));
      forall more | GuardedFrom(s1, more) ensures Tally(RunFrom(s1, more).handOffs, run) <= 1 {
        RunKeepsMany(s1, more);
        assert OnceOk(RunFrom(s1, more), run);
      }
    }
  }
}

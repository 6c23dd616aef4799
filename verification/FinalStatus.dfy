/**
 When a stored run is final. A run that has left the queue can still be written by a Cancel
 handler that read QUEUED in time, by a thread on its way to a recorder or to giving up, and
 by a session that has not written its end. The row stays as it is, until it is deleted,
 exactly when no such writer would change it.
 */
module FinalStatus {
  import opened RunTable
  import opened Dispatcher
  import opened QueueProtocol
  import opened QueueRuns

  /** A thread on its way to starting a recorder, which can write any end. */
  predicate WillHandOff(pc: Pc, run: string) {
    (pc.Picked? || pc.Dispatching? || pc.HandedOff? || pc.Marked?) && pc.run == run
  }

  /** A thread that can no longer avoid writing FAILED, or failing to. */
  predicate WillGiveUp(s: State, pc: Pc, run: string) {
    match pc
    case DispatchFailed(r) => r == run && Tally(s.attempts, run) + 1 >= MAX_DISPATCH_ATTEMPTS
    case Counted(r, n) => r == run && n >= MAX_DISPATCH_ATTEMPTS
    case Released(r) => r == run
    case _ => false
  }

  predicate ThreadQuiet(s: State, t: nat, run: string, status: RunStatus) {
    !WillHandOff(PcOf(s, t), run) && (WillGiveUp(s, PcOf(s, t), run) ==> status == Failed)
  }

  predicate SessionQuiet(s: State, i: nat, run: string) {
    i in s.sessions && s.sessions[i].run == run ==> s.sessions[i].stage != Recording
  }

  predicate CancelsQuiet(s: State, run: string, status: RunStatus) {
    run in s.cancelling ==> status == Cancelled
  }

  /** Nobody is about to give the run a status other than `status`. */
  ghost predicate NoWriter(s: State, run: string, status: RunStatus) {
    && CancelsQuiet(s, run, status)
    && (forall t :: ThreadQuiet(s, t, run, status))
    && (forall i :: SessionQuiet(s, i, run))
  }

  /** The run is known, is not queued, and while it is stored its row is `row`. */
  predicate RowIs(s: State, run: string, row: Row) {
    row.status != Queued && run in s.submitted && (run in s.rows ==> s.rows[run] == row)
  }

  // ---------- without a pending writer the row stays ----------

  lemma DispatchKeepsQuietThread(s: State, t: nat, op: DispatchOp, u: nat, run: string, row: Row)
    requires ThreadOk(s, t) && ThreadOk(s, u) && RowIs(s, run, row)
    requires ThreadQuiet(s, t, run, row.status) && ThreadQuiet(s, u, run, row.status)
    ensures ThreadQuiet(DispatchStep(s, t, op), u, run, row.status)
  {
    match op
    case Check =>
    case Pick(_) =>
    case NothingPicked =>
    case Claim =>
    case ClaimLost =>
    case DistributeOk =>
    case DistributeFails =>
    case Mark(_, _, _) =>
    case StartRecorder(_) =>
    case Count =>
    case ReleaseFailed =>
    case GiveUp(_) =>
    case Forget =>
  }

  lemma DispatchKeepsQuietSession(s: State, t: nat, op: DispatchOp, i: nat, run: string, row: Row)
    requires ThreadQuiet(s, t, run, row.status) && SessionQuiet(s, i, run)
    ensures SessionQuiet(DispatchStep(s, t, op), i, run)
  {
  }

  lemma DispatchKeepsRowAsIs(s: State, t: nat, op: DispatchOp, run: string, row: Row)
    requires RowIs(s, run, row) && ThreadQuiet(s, t, run, row.status)
    ensures RowIs(DispatchStep(s, t, op), run, row)
  {
    match op
    case Check =>
    case Pick(_) =>
    case NothingPicked =>
    case Claim =>
    case ClaimLost =>
    case DistributeOk =>
    case DistributeFails =>
    case Mark(_, _, _) =>
    case StartRecorder(_) =>
    case Count =>
    case ReleaseFailed =>
    case GiveUp(_) =>
    case Forget =>
  }

  lemma DispatchKeepsCancels(s: State, t: nat, op: DispatchOp, run: string, status: RunStatus)
    requires CancelsQuiet(s, run, status)
    ensures CancelsQuiet(DispatchStep(s, t, op), run, status)
  {
  }

  lemma RecordKeepsRowAsIs(s: State, i: nat, op: RecordOp, run: string, row: Row)
    requires RowIs(s, run, row) && SessionQuiet(s, i, run)
    ensures RowIs(RecordStep(s, i, op), run, row)
  {
  }

  lemma RecordKeepsQuiet(s: State, i: nat, op: RecordOp, run: string, status: RunStatus)
    requires NoWriter(s, run, status)
    ensures NoWriter(RecordStep(s, i, op), run, status)
  {
    var s' := RecordStep(s, i, op);
    forall t ensures ThreadQuiet(s', t, run, status) { assert ThreadQuiet(s, t, run, status); }
    forall j ensures SessionQuiet(s', j, run) { assert SessionQuiet(s, j, run) && SessionQuiet(s, i, run); }
  }

  lemma ApiKeepsQuietThread(s: State, op: ApiOp, t: nat, run: string, status: RunStatus)
    requires ThreadQuiet(s, t, run, status)
    ensures ThreadQuiet(ApiStep(s, op), t, run, status)
  {
    match op
    case Submit(_, _) =>
    case CancelRead(_) =>
    case CancelWrite(_) =>
    case DeleteCheck(_) =>
    case Delete(_) =>
  }

  lemma ApiKeepsQuietSession(s: State, op: ApiOp, i: nat, run: string)
    requires SessionQuiet(s, i, run)
    ensures SessionQuiet(ApiStep(s, op), i, run)
  {
  }

  lemma CancelKeepsRowAsIs(s: State, target: string, run: string, row: Row)
    requires RowIs(s, run, row) && CancelsQuiet(s, run, row.status)
    ensures RowIs(ApiStep(s, CancelWrite(target)), run, row)
  {
  }

  lemma ApiKeepsRowAsIs(s: State, op: ApiOp, run: string, row: Row)
    requires RowIs(s, run, row) && CancelsQuiet(s, run, row.status)
    ensures RowIs(ApiStep(s, op), run, row)
  {
    if op.CancelWrite? {
      CancelKeepsRowAsIs(s, op.run, run, row);
    }
  }

  lemma ApiKeepsCancels(s: State, op: ApiOp, run: string, row: Row)
    requires RowIs(s, run, row) && CancelsQuiet(s, run, row.status)
    ensures CancelsQuiet(ApiStep(s, op), run, row.status)
  {
  }

  lemma StepKeepsQuiet(s: State, step: Step, run: string, row: Row)
    requires Inv(s) && RowIs(s, run, row) && NoWriter(s, run, row.status)
    ensures RowIs(Apply(s, step), run, row) && NoWriter(Apply(s, step), run, row.status)
  {
    var s' := Apply(s, step);
    match step
    case Record(i, op) =>
      assert SessionQuiet(s, i, run);
      RecordKeepsRowAsIs(s, i, op, run, row);
      RecordKeepsQuiet(s, i, op, run, row.status);
    case Dispatch(t, op) =>
      assert ThreadOk(s, t) && ThreadQuiet(s, t, run, row.status);
      forall u ensures ThreadQuiet(s', u, run, row.status) {
        assert ThreadOk(s, u) && ThreadQuiet(s, u, run, row.status);
        DispatchKeepsQuietThread(s, t, op, u, run, row);
      }
      forall i ensures SessionQuiet(s', i, run) { DispatchKeepsQuietSession(s, t, op, i, run, row); }
      DispatchKeepsRowAsIs(s, t, op, run, row);
      DispatchKeepsCancels(s, t, op, run, row.status);
    case Api(op) =>
      forall t ensures ThreadQuiet(s', t, run, row.status) { ApiKeepsQuietThread(s, op, t, run, row.status); }
      forall i ensures SessionQuiet(s', i, run) { ApiKeepsQuietSession(s, op, i, run); }
      ApiKeepsRowAsIs(s, op, run, row);
      ApiKeepsCancels(s, op, run, row);
  }

  lemma {:induction false} QuietRowStays(s: State, more: seq<Step>, run: string, row: Row)
    requires Inv(s) && RowIs(s, run, row) && NoWriter(s, run, row.status)
    ensures RowIs(RunFrom(s, more), run, row) && NoWriter(RunFrom(s, more), run, row.status)
  {
    if more != [] {
      var init := more[..|more| - 1];
      QuietRowStays(s, init, run, row);
      RunKeepsInv(s, init);
      StepKeepsQuiet(RunFrom(s, init), more[|more| - 1], run, row);
    }
  }

  // ---------- with one the status can change ----------

  lemma {:induction false} Bound(keys: set<nat>) returns (b: nat)
    ensures forall k :: k in keys ==> k < b
    decreases |keys|
  {
    b := 0;
    if keys != {} {
      var k :| k in keys;
      var rest := Bound(keys - {k});
      b := if k < rest then rest else k + 1;
      forall j | j in keys ensures j < b { assert j == k || j in keys - {k}; }
    }
  }

  lemma ClosedFrees(o: State, steps: seq<Step>, s: State, n: nat, i: nat, run: string)
    returns (steps': seq<Step>, s': State)
    requires Leads(o, steps, s, n, true) && s.current == run
    requires i in s.sessions && s.sessions[i] == Session(run, Closed)
    ensures Leads(o, steps', s', n, true) && s'.current == "" && s'.rows == s.rows && s'.threads == s.threads
  {
    steps', s' := FireOn(o, steps, s, n, true, i, run);
  }

  lemma WrittenFrees(o: State, steps: seq<Step>, s: State, n: nat, i: nat, run: string)
    returns (steps': seq<Step>, s': State)
    requires Leads(o, steps, s, n, true) && s.current == run
    requires i in s.sessions && s.sessions[i] == Session(run, Written)
    ensures Leads(o, steps', s', n, true) && s'.current == "" && s'.rows == s.rows && s'.threads == s.threads
  {
    steps', s' := CloseOn(o, steps, s, n, true, i, run);
    steps', s' := ClosedFrees(o, steps', s', n, i, run);
  }

  lemma RecordingFrees(o: State, steps: seq<Step>, s: State, n: nat, i: nat, run: string)
    returns (steps': seq<Step>, s': State)
    requires Leads(o, steps, s, n, true) && s.current == run
    requires i in s.sessions && s.sessions[i] == Session(run, Recording)
    ensures Leads(o, steps', s', n, true) && s'.current == "" && s'.rows == s.rows && s'.threads == s.threads
  {
    steps', s' := WriteOn(o, steps, s, n, true, i, run, Failed, true);
    steps', s' := WrittenFrees(o, steps', s', n, i, run);
  }

  lemma HandedOffFrees(o: State, steps: seq<Step>, s: State, n: nat, t: nat, run: string)
    returns (steps': seq<Step>, s': State)
    requires Leads(o, steps, s, n, true) && t < n && s.current == run
    requires PcOf(s, t) in {HandedOff(run), Marked(run)}
    ensures Leads(o, steps', s', n, true) && s'.current == "" && s'.rows == s.rows
    ensures forall u :: u != t ==> PcOf(s', u) == PcOf(s, u)
  {
    steps', s' := steps, s;
    if PcOf(s', t) == HandedOff(run) {
      steps', s' := MarkOn(o, steps', s', n, true, t, run, true, 0, 0);
    }
    var i := Bound(s'.sessions.Keys);
    steps', s' := StartOn(o, steps', s', n, true, t, run, i);
    steps', s' := RecordingFrees(o, steps', s', n, i, run);
  }

  lemma CountedFrees(o: State, steps: seq<Step>, s: State, n: nat, t: nat, run: string)
    returns (steps': seq<Step>, s': State)
    requires Leads(o, steps, s, n, true) && t < n && s.current == run && PcOf(s, t).Counted? && PcOf(s, t).run == run
    ensures Leads(o, steps', s', n, true) && s'.current == "" && s'.rows == s.rows
    ensures forall u :: u != t ==> PcOf(s', u) == PcOf(s, u)
  {
    steps', s' := ReleaseOn(o, steps, s, n, true, t, run, PcOf(s, t).n);
  }

  lemma FailedFrees(o: State, steps: seq<Step>, s: State, n: nat, t: nat, run: string)
    returns (steps': seq<Step>, s': State)
    requires Leads(o, steps, s, n, true) && t < n && s.current == run && PcOf(s, t) == DispatchFailed(run)
    ensures Leads(o, steps', s', n, true) && s'.current == "" && s'.rows == s.rows
    ensures forall u :: u != t ==> PcOf(s', u) == PcOf(s, u)
  {
    steps', s' := CountOn(o, steps, s, n, true, t, run);
    steps', s' := CountedFrees(o, steps', s', n, t, run);
  }

  lemma DispatchingFrees(o: State, steps: seq<Step>, s: State, n: nat, t: nat, run: string)
    returns (steps': seq<Step>, s': State)
    requires Leads(o, steps, s, n, true) && t < n && s.current == run && PcOf(s, t) == Dispatching(run)
    ensures Leads(o, steps', s', n, true) && s'.current == "" && s'.rows == s.rows
    ensures forall u :: u != t ==> PcOf(s', u) == PcOf(s, u)
  {
    steps', s' := RefuseOn(o, steps, s, n, true, t, run);
    steps', s' := FailedFrees(o, steps', s', n, t, run);
  }

  /** Whoever holds the slot can release it without writing to the table. */
  lemma FreeSlot(o: State, steps: seq<Step>, s: State, n: nat) returns (steps': seq<Step>, s': State)
    requires Leads(o, steps, s, n, true) && Inv(s) && (s.holder.Thread? ==> s.holder.t < n)
    ensures Leads(o, steps', s', n, true) && s'.current == "" && s'.rows == s.rows
    ensures forall u :: s.holder != Thread(u) ==> PcOf(s', u) == PcOf(s, u)
  {
    match s.holder
    case Nobody => steps', s' := steps, s;
    case Recorder(i) =>
      assert SessionOk(s, i);
      match s.sessions[i].stage {
        case Recording => steps', s' := RecordingFrees(o, steps, s, n, i, s.current);
        case Written => steps', s' := WrittenFrees(o, steps, s, n, i, s.current);
        case _ => steps', s' := ClosedFrees(o, steps, s, n, i, s.current);
      }
    case Thread(t) =>
      assert ThreadOk(s, t);
      if PcOf(s, t).HandedOff? || PcOf(s, t).Marked? {
        steps', s' := HandedOffFrees(o, steps, s, n, t, s.current);
      } else if PcOf(s, t).Dispatching? {
        steps', s' := DispatchingFrees(o, steps, s, n, t, s.current);
      } else if PcOf(s, t).DispatchFailed? {
        steps', s' := FailedFrees(o, steps, s, n, t, s.current);
      } else {
        steps', s' := CountedFrees(o, steps, s, n, t, s.current);
      }
  }

  /** From a state some continuation leads to a stored row of another status. */
  ghost predicate CanChange(o: State, steps: seq<Step>, s: State, n: nat, run: string, status: RunStatus) {
    Leads(o, steps, s, n, true) && run in s.rows && s.rows[run].status != status
  }

  function OtherEnd(status: RunStatus): RunStatus {
    if status == Completed then Failed else Completed
  }

  lemma RecordingChanges(o: State, steps: seq<Step>, s: State, n: nat, i: nat, run: string, status: RunStatus)
    returns (steps': seq<Step>, s': State)
    requires Leads(o, steps, s, n, true) && run in s.rows
    requires i in s.sessions && s.sessions[i] == Session(run, Recording)
    ensures CanChange(o, steps', s', n, run, status)
  {
    steps', s' := WriteOn(o, steps, s, n, true, i, run, OtherEnd(status), false);
  }

  lemma HandOffChanges(o: State, steps: seq<Step>, s: State, n: nat, t: nat, run: string, status: RunStatus)
    returns (steps': seq<Step>, s': State)
    requires Leads(o, steps, s, n, true) && t < n && run in s.rows
    requires PcOf(s, t) in {Dispatching(run), HandedOff(run), Marked(run)}
    ensures CanChange(o, steps', s', n, run, status)
  {
    steps', s' := steps, s;
    if PcOf(s', t) == Dispatching(run) {
      steps', s' := DistributeOn(o, steps', s', n, true, t, run);
    }
    if PcOf(s', t) == HandedOff(run) {
      steps', s' := MarkOn(o, steps', s', n, true, t, run, true, 0, 0);
    }
    var i := Bound(s'.sessions.Keys);
    steps', s' := StartOn(o, steps', s', n, true, t, run, i);
    steps', s' := RecordingChanges(o, steps', s', n, i, run, status);
  }

  /** A stale pick: the slot is freed first, and then the run is dispatched again. */
  lemma PickChanges(o: State, steps: seq<Step>, s: State, n: nat, t: nat, run: string, status: RunStatus)
    returns (steps': seq<Step>, s': State)
    requires Leads(o, steps, s, n, true) && Inv(s) && t < n && (s.holder.Thread? ==> s.holder.t < n)
    requires run in s.rows && PcOf(s, t) == Picked(run)
    ensures CanChange(o, steps', s', n, run, status)
  {
    assert ThreadOk(s, t);
    steps', s' := FreeSlot(o, steps, s, n);
    steps', s' := TakeOn(o, steps', s', n, true, t, run);
    steps', s' := HandOffChanges(o, steps', s', n, t, run, status);
  }

  lemma ReleasedChanges(o: State, steps: seq<Step>, s: State, n: nat, t: nat, run: string, status: RunStatus)
    returns (steps': seq<Step>, s': State)
    requires Leads(o, steps, s, n, true) && t < n && run in s.rows && status != Failed
    requires PcOf(s, t) == Released(run)
    ensures CanChange(o, steps', s', n, run, status)
  {
    steps', s' := GiveUpOn(o, steps, s, n, true, t, run, false);
  }

  lemma CountedChanges(o: State, steps: seq<Step>, s: State, n: nat, t: nat, run: string, status: RunStatus)
    returns (steps': seq<Step>, s': State)
    requires Leads(o, steps, s, n, true) && t < n && run in s.rows && status != Failed
    requires s.current == run && PcOf(s, t).Counted? && WillGiveUp(s, PcOf(s, t), run)
    ensures CanChange(o, steps', s', n, run, status)
  {
    steps', s' := ReleaseOn(o, steps, s, n, true, t, run, PcOf(s, t).n);
    steps', s' := ReleasedChanges(o, steps', s', n, t, run, status);
  }

  lemma FailedChanges(o: State, steps: seq<Step>, s: State, n: nat, t: nat, run: string, status: RunStatus)
    returns (steps': seq<Step>, s': State)
    requires Leads(o, steps, s, n, true) && t < n && run in s.rows && status != Failed
    requires s.current == run && PcOf(s, t).DispatchFailed? && WillGiveUp(s, PcOf(s, t), run)
    ensures CanChange(o, steps', s', n, run, status)
  {
    steps', s' := CountOn(o, steps, s, n, true, t, run);
    steps', s' := CountedChanges(o, steps', s', n, t, run, status);
  }

  lemma ThreadChanges(s: State, t: nat, run: string, status: RunStatus) returns (more: seq<Step>)
    requires Inv(s) && run in s.rows && !ThreadQuiet(s, t, run, status)
    ensures run in RunFrom(s, more).rows && RunFrom(s, more).rows[run].status != status
  {
    var n: nat := if s.holder.Thread? && s.holder.t >= t then s.holder.t + 1 else t + 1;
    var s';
    assert ThreadOk(s, t) && Leads(s, [], s, n, true);
    match PcOf(s, t)
    case Picked(_) => more, s' := PickChanges(s, [], s, n, t, run, status);
    case DispatchFailed(_) => more, s' := FailedChanges(s, [], s, n, t, run, status);
    case Counted(_, _) => more, s' := CountedChanges(s, [], s, n, t, run, status);
    case Released(_) => more, s' := ReleasedChanges(s, [], s, n, t, run, status);
    case _ => more, s' := HandOffChanges(s, [], s, n, t, run, status);
  }

  lemma WriterChanges(s: State, run: string) returns (more: seq<Step>)
    requires Inv(s) && run in s.rows && !NoWriter(s, run, s.rows[run].status)
    ensures run in RunFrom(s, more).rows && RunFrom(s, more).rows[run].status != s.rows[run].status
  {
    var status := s.rows[run].status;
    var s';
    assert Leads(s, [], s, 0, true);
    if !CancelsQuiet(s, run, status) {
      more, s' := Then(s, [], s, 0, true, Api(CancelWrite(run)));
    } else if i: nat :| !SessionQuiet(s, i, run) {
      more, s' := RecordingChanges(s, [], s, 0, i, run, status);
    } else {
      var t: nat :| !ThreadQuiet(s, t, run, status);
      more := ThreadChanges(s, t, run, status);
    }
  }

  // ---------- the theorem ----------

  predicate KeepsStatus(s: State, s': State, run: string)
    requires run in s.rows
  {
    run in s'.rows ==> s'.rows[run].status == s.rows[run].status
  }

  predicate KeepsRow(s: State, s': State, run: string)
    requires run in s.rows
  {
    run in s'.rows ==> s'.rows[run] == s.rows[run]
  }

  /**
   Finality: the stored status of a run that has left the queue stays in every continuation,
   until the row is deleted, exactly when nobody is about to write another; and then the
   whole row stays.
   */
  lemma StatusIsFinalIff(s: State, run: string)
    requires Reachable(s) && run in s.rows && s.rows[run].status != Queued
    ensures NoWriter(s, run, s.rows[run].status) <==> forall more :: KeepsStatus(s, RunFrom(s, more), run)
    ensures NoWriter(s, run, s.rows[run].status) <==> forall more :: KeepsRow(s, RunFrom(s, more), run)
  {
    ReachableInv(s);
    assert RowOk(s, run);
    if NoWriter(s, run, s.rows[run].status) {
      forall more ensures KeepsStatus(s, RunFrom(s, more), run) && KeepsRow(s, RunFrom(s, more), run) {
        QuietRowStays(s, more, run, s.rows[run]);
      }
    } else {
      var more := WriterChanges(s, run);
      assert !KeepsStatus(s, RunFrom(s, more), run) && !KeepsRow(s, RunFrom(s, more), run);
    }
  }
}

/**
 The run queue as an interleaving of atomic steps: any number of threads inside
 dispatchNext, recorder sessions, and the submit, cancel and delete handlers, whose
 checks and writes are separate steps. Each store write and each call to the
 orchestrator may fail. A step that is not enabled changes nothing, so a run is any
 list of steps.
 */
module QueueProtocol {
  import opened RunTable
  import opened Dispatcher
  import opened Lists
  import opened Results

  /** Where a thread stands inside dispatchNext. */
  datatype Pc =
    | Idle
    | Checked                          // saw an empty slot
    | Picked(run: string)              // read the oldest queued run
    | Dispatching(run: string)         // claimed the slot
    | HandedOff(run: string)           // DistributeTestPlan succeeded
    | Marked(run: string)              // MarkDispatched was tried
    | Started(run: string)             // the recorder owns the run
    | DispatchFailed(run: string)
    | Counted(run: string, n: nat)     // the attempt was counted
    | Released(run: string)            // slot released after the last attempt
    | GivenUp(run: string)             // FAILED was written, or should have been

  /** How far a recorder session has got with ending its run. */
  datatype Stage = Recording | Written | Closed | Fired | Gone

  datatype Session = Session(run: string, stage: Stage)

  /** Who has to release the slot. */
  datatype Holder = Nobody | Thread(t: nat) | Recorder(i: nat)

  datatype State = State(
    rows: Rows,
    current: string,
    attempts: map<string, nat>,
    threads: map<nat, Pc>,
    sessions: map<nat, Session>,       // every session ever started
    live: map<string, nat>,            // the recorder's own map of sessions
    cancelling: multiset<string>,      // Cancel handlers that read QUEUED and have not written yet
    deleting: multiset<string>,        // delete handlers that passed the in-flight check
    submitted: set<string>,
    holder: Holder,
    calls: map<string, nat>,           // dispatch calls per run
    handOffs: map<string, nat>,        // successful DistributeTestPlan calls per run
    fired: map<nat, nat>)              // onDone calls per session

  datatype DispatchOp =
    | Check
    | Pick(run: string)
    | NothingPicked
    | Claim
    | ClaimLost                        // another thread took the slot meanwhile
    | DistributeOk
    | DistributeFails
    | Mark(fails: bool, workers: int, at: int)
    | StartRecorder(i: nat)
    | Count
    | ReleaseFailed
    | GiveUp(fails: bool)
    | Forget

  datatype RecordOp =
    | Finish(status: RunStatus, at: int, summary: Summary, fails: bool)
    | Close
    | FireDone
    | Remove

  datatype ApiOp =
    | Submit(run: string, startedAt: int)
    | CancelRead(run: string)
    | CancelWrite(run: string)
    | DeleteCheck(run: string)
    | Delete(run: string)

  datatype Step =
    | Dispatch(t: nat, dispatch: DispatchOp)
    | Record(i: nat, record: RecordOp)
    | Api(api: ApiOp)

  function PcOf(s: State, t: nat): Pc {
    if t in s.threads then s.threads[t] else Idle
  }

  function Goto(s: State, t: nat, pc: Pc): State {
    s.(threads := s.threads[t := pc])
  }

  /** `release`: only the current run is released. */
  function Release(s: State, run: string): State {
    if s.current == run then s.(current := "", holder := Nobody) else s
  }

  function DispatchStep(s: State, t: nat, op: DispatchOp): State {
    var pc := PcOf(s, t);
    match op
    case Check => if pc == Idle && s.current == "" then Goto(s, t, Checked) else s
    case Pick(run) => if pc == Checked && run in s.rows && Oldest(s.rows, run) then Goto(s, t, Picked(run)) else s
    case NothingPicked => if pc == Checked then Goto(s, t, Idle) else s
    case Claim =>
      if !pc.Picked? || s.current != "" then s
      else Goto(s, t, Dispatching(pc.run)).(current := pc.run, holder := Thread(t), calls := Bump(s.calls, pc.run))
    case ClaimLost => if pc.Picked? && s.current != "" then Goto(s, t, Idle) else s
    case DistributeOk =>
      if pc.Dispatching? then Goto(s, t, HandedOff(pc.run)).(handOffs := Bump(s.handOffs, pc.run)) else s
    case DistributeFails => if pc.Dispatching? then Goto(s, t, DispatchFailed(pc.run)) else s
    case Mark(fails, workers, at) =>
      if !pc.HandedOff? then s
      else Goto(s, t, Marked(pc.run)).(rows := if fails then s.rows else Dispatched(s.rows, pc.run, workers, at))
    case StartRecorder(i) =>
      if !pc.Marked? || i in s.sessions then s
      else Goto(s, t, Started(pc.run)).(sessions := s.sessions[i := Session(pc.run, Recording)],
                                        live := s.live[pc.run := i], holder := Recorder(i))
    case Count =>
      if !pc.DispatchFailed? then s
      else Goto(s, t, Counted(pc.run, Tally(s.attempts, pc.run) + 1)).(attempts := Bump(s.attempts, pc.run))
    case ReleaseFailed =>
      if !pc.Counted? then s
      else Release(Goto(s, t, if pc.n < MAX_DISPATCH_ATTEMPTS then Idle else Released(pc.run)), pc.run)
    case GiveUp(fails) =>
      if !pc.Released? then s
      else Goto(s, t, GivenUp(pc.run)).(rows := if fails then s.rows else WithStatus(s.rows, pc.run, Failed))
    case Forget =>
      if pc.Started? || pc.GivenUp? then Goto(s, t, Idle).(attempts := s.attempts - {pc.run}) else s
  }

  /** IsOldest, executably. */
  predicate Oldest(rows: Rows, run: string)
    ensures Oldest(rows, run) <==> IsOldest(rows, run)
  {
    IsQueued(rows, run) && forall o :: o in rows && rows[o].status == Queued ==>
        rows[run].startedAt <= rows[o].startedAt
  }

  /** A run never ends in the status QUEUED: the orchestrator has no such status. */
  function RecordStep(s: State, i: nat, op: RecordOp): State {
    if i !in s.sessions then s
    else
      var Session(run, stage) := s.sessions[i];
      match op
      case Finish(status, at, summary, fails) =>
        if stage != Recording || status == Queued then s
        else s.(sessions := s.sessions[i := Session(run, Written)],
                rows := if fails then s.rows else Finished(s.rows, run, status, at, summary))
      case Close =>
        if stage != Written then s else s.(sessions := s.sessions[i := Session(run, Closed)])
      case FireDone =>
        if stage != Closed then s
        else Release(s.(sessions := s.sessions[i := Session(run, Fired)], fired := Bump(s.fired, i)), run)
      case Remove =>
        if stage != Fired then s
        else s.(sessions := s.sessions[i := Session(run, Gone)], live := s.live - {run})
  }

  function ApiStep(s: State, op: ApiOp): State {
    match op
    case Submit(run, startedAt) =>
      if run == "" || run in s.submitted then s
      else s.(rows := s.rows[run := Row(Queued, startedAt, None, None, 0, None)], submitted := s.submitted + {run})
    case CancelRead(run) =>
      if IsQueued(s.rows, run) then s.(cancelling := s.cancelling + multiset{run}) else s
    case CancelWrite(run) =>
      if run in s.cancelling then
        s.(cancelling := s.cancelling - multiset{run}, rows := WithStatus(s.rows, run, Cancelled))
      else s
    case DeleteCheck(run) =>
      if s.current != run then s.(deleting := s.deleting + multiset{run}) else s
    case Delete(run) =>
      if run in s.deleting then s.(deleting := s.deleting - multiset{run}, rows := s.rows - {run}) else s
  }

  function Apply(s: State, step: Step): State {
    match step
    case Dispatch(t, op) => DispatchStep(s, t, op)
    case Record(i, op) => RecordStep(s, i, op)
    case Api(op) => ApiStep(s, op)
  }

  /** A process starts with whatever table it finds, and nothing else. */
  function Start(rows: Rows): State {
    State(rows, "", map[], map[], map[], map[], multiset{}, multiset{}, rows.Keys, Nobody, map[], map[], map[])
  }

  function RunFrom(s: State, steps: seq<Step>): State {
    if steps == [] then s else Apply(RunFrom(s, steps[..|steps| - 1]), steps[|steps| - 1])
  }

  lemma RunMore(s: State, steps: seq<Step>, last: Step)
    ensures RunFrom(s, steps + [last]) == Apply(RunFrom(s, steps), last)
  {
    Snoc(steps, last);
  }

  lemma {:induction false} RunOn(s: State, steps: seq<Step>, more: seq<Step>)
    ensures RunFrom(s, steps + more) == RunFrom(RunFrom(s, steps), more)
  {
    if more == [] {
      assert steps + more == steps;
    } else {
      ConcatSnoc(steps, more);
      RunOn(s, steps, more[..|more| - 1]);
    }
  }

  /** What a process can get to, from any table of named runs. */
  ghost predicate Reachable(s: State) {
    exists rows, steps :: "" !in rows && RunFrom(Start(rows), steps) == s
  }

  /** A submission is a new row that waits, with its start time and nothing else; an ID that was used is refused. */
  lemma SubmittedRow(s: State, run: string, startedAt: int)
    requires run != ""
    ensures ApiStep(s, Submit(run, startedAt)).rows == if run in s.submitted then s.rows
              else s.rows[run := Row(Queued, startedAt, None, None, 0, None)]
  {
  }

  /** A thread that sees the slot taken, or finds nothing queued, goes back without having changed anything. */
  lemma ThreadGoesBack(s: State, t: nat)
    ensures PcOf(s, t).Picked? && s.current != "" ==> DispatchStep(s, t, ClaimLost) == Goto(s, t, Idle)
    ensures PcOf(s, t).Checked? ==> DispatchStep(s, t, NothingPicked) == Goto(s, t, Idle)
    ensures PcOf(s, t).Idle? && s.current != "" ==> DispatchStep(s, t, Check) == s
  {
  }

  // ---------- the slot ----------

  predicate Claims(pc: Pc) {
    pc.Dispatching? || pc.HandedOff? || pc.Marked? || pc.DispatchFailed? || pc.Counted?
  }

  predicate HasRun(pc: Pc) {
    !pc.Idle? && !pc.Checked?
  }

  predicate NotReleased(stage: Stage) {
    stage.Recording? || stage.Written? || stage.Closed?
  }

  /** A thread has claimed the slot exactly when it is the holder, and then for the current run. */
  ghost predicate ThreadOk(s: State, t: nat) {
    var pc := PcOf(s, t);
    && (Claims(pc) <==> s.holder == Thread(t))
    && (Claims(pc) ==> pc.run == s.current)
    && (HasRun(pc) ==> pc.run != "" && pc.run in s.submitted)
  }

  /** A session that has not released its run is the holder, for the current run; it releases once, after closing. */
  ghost predicate SessionOk(s: State, i: nat) {
    && (i in s.sessions && NotReleased(s.sessions[i].stage) <==> s.holder == Recorder(i))
    && (s.holder == Recorder(i) ==> s.sessions[i].run == s.current)
    && (i in s.sessions ==> s.sessions[i].run != "")
    && Tally(s.fired, i) == if i in s.sessions && !NotReleased(s.sessions[i].stage) then 1 else 0
  }

  predicate SlotOk(s: State) {
    (s.holder == Nobody <==> s.current == "") && "" !in s.submitted
  }

  predicate RowOk(s: State, run: string) {
    run in s.rows ==> run in s.submitted
  }

  ghost predicate Inv(s: State) {
    && (forall t :: ThreadOk(s, t))
    && (forall i :: SessionOk(s, i))
    && SlotOk(s)
    && (forall run :: RowOk(s, run))
  }

  lemma DispatchKeepsThread(s: State, t: nat, op: DispatchOp, u: nat)
    requires ThreadOk(s, t) && ThreadOk(s, u) && SlotOk(s)
    requires op.Pick? ==> RowOk(s, op.run)
    ensures ThreadOk(DispatchStep(s, t, op), u)
  {
    match op
    case Check =>
    case Pick(_) =>
    case NothingPicked =>
    case Claim =>
    case ClaimLost =>
    case DistributeOk =>
    case DistributeFails =>
    case Mark(_, _, _) =>
    case StartRecorder(_) =>
    case Count =>
    case ReleaseFailed =>
    case GiveUp(_) =>
    case Forget =>
  }

  lemma DispatchKeepsSession(s: State, t: nat, op: DispatchOp, i: nat)
    requires ThreadOk(s, t) && SessionOk(s, i) && SlotOk(s)
    ensures SessionOk(DispatchStep(s, t, op), i)
  {
  }

  lemma DispatchKeepsSlot(s: State, t: nat, op: DispatchOp)
    requires SlotOk(s) && ThreadOk(s, t)
    ensures SlotOk(DispatchStep(s, t, op))
  {
  }

  lemma DispatchKeepsRow(s: State, t: nat, op: DispatchOp, run: string)
    requires RowOk(s, run)
    ensures RowOk(DispatchStep(s, t, op), run)
  {
  }

  lemma DispatchKeepsInv(s: State, t: nat, op: DispatchOp)
    requires Inv(s)
    ensures Inv(DispatchStep(s, t, op))
  {
    var s' := DispatchStep(s, t, op);
    assert ThreadOk(s, t) && (op.Pick? ==> RowOk(s, op.run));
    forall u ensures ThreadOk(s', u) { DispatchKeepsThread(s, t, op, u); }
    forall i ensures SessionOk(s', i) { DispatchKeepsSession(s, t, op, i); }
    forall run ensures RowOk(s', run) { DispatchKeepsRow(s, t, op, run); }
    DispatchKeepsSlot(s, t, op);
  }

  lemma RecordKeepsInv(s: State, i: nat, op: RecordOp)
    requires Inv(s)
    ensures Inv(RecordStep(s, i, op))
  {
    var s' := RecordStep(s, i, op);
    assert SessionOk(s, i);
    forall t ensures ThreadOk(s', t) { assert ThreadOk(s, t); }
    forall j ensures SessionOk(s', j) { assert SessionOk(s, j); }
    forall run ensures RowOk(s', run) { assert RowOk(s, run); }
  }

  lemma ApiKeepsThread(s: State, op: ApiOp, t: nat)
    requires ThreadOk(s, t)
    ensures ThreadOk(ApiStep(s, op), t)
  {
    match op
    case Submit(_, _) =>
    case CancelRead(_) =>
    case CancelWrite(_) =>
    case DeleteCheck(_) =>
    case Delete(_) =>
  }

  lemma ApiKeepsSession(s: State, op: ApiOp, i: nat)
    requires SessionOk(s, i)
    ensures SessionOk(ApiStep(s, op), i)
  {
  }

  lemma ApiKeepsSlot(s: State, op: ApiOp)
    requires SlotOk(s)
    ensures SlotOk(ApiStep(s, op))
  {
  }

  lemma ApiKeepsRow(s: State, op: ApiOp, run: string)
    requires RowOk(s, run)
    ensures RowOk(ApiStep(s, op), run)
  {
  }

  lemma ApiKeepsInv(s: State, op: ApiOp)
    requires Inv(s)
    ensures Inv(ApiStep(s, op))
  {
    var s' := ApiStep(s, op);
    ApiKeepsSlot(s, op);
    forall t ensures ThreadOk(s', t) { ApiKeepsThread(s, op, t); }
    forall i ensures SessionOk(s', i) { ApiKeepsSession(s, op, i); }
    forall run ensures RowOk(s', run) { ApiKeepsRow(s, op, run); }
  }

  lemma StepKeepsInv(s: State, step: Step)
    requires Inv(s)
    ensures Inv(Apply(s, step))
  {
    match step
    case Record(i, op) => RecordKeepsInv(s, i, op);
    case Api(op) => ApiKeepsInv(s, op);
    case Dispatch(t, op) => DispatchKeepsInv(s, t, op);
  }

  lemma {:induction false} RunKeepsInv(s: State, steps: seq<Step>)
    requires Inv(s)
    ensures Inv(RunFrom(s, steps))
  {
    if steps != [] {
      RunKeepsInv(s, steps[..|steps| - 1]);
      StepKeepsInv(RunFrom(s, steps[..|steps| - 1]), steps[|steps| - 1]);
    }
  }

  lemma StartInv(rows: Rows)
    requires "" !in rows
    ensures Inv(Start(rows))
  {
  }

  lemma ReachableInv(s: State)
    requires Reachable(s)
    ensures Inv(s)
  {
    var rows, steps :| "" !in rows && RunFrom(Start(rows), steps) == s;
    StartInv(rows);
    RunKeepsInv(Start(rows), steps);
  }

  /** A run that a thread is dispatching, or whose session has not released it. */
  ghost predicate InFlight(s: State, h: Holder, run: string) {
    match h
    case Nobody => false
    case Thread(t) => Claims(PcOf(s, t)) && PcOf(s, t).run == run
    case Recorder(i) => i in s.sessions && NotReleased(s.sessions[i].stage) && s.sessions[i].run == run
  }

  /**
   Mutual exclusion, for any number of dispatching threads and any failures: whatever is in
   flight is the current run and there is only one; and the slot is never taken by nobody.
   */
  lemma SlotIsExclusive(s: State)
    requires Reachable(s)
    ensures forall h, run :: InFlight(s, h, run) ==> h == s.holder && run == s.current != ""
    ensures s.current != "" ==> InFlight(s, s.holder, s.current)
  {
    ReachableInv(s);
    forall h, run | InFlight(s, h, run) ensures h == s.holder && run == s.current != "" {
      if h.Thread? { assert ThreadOk(s, h.t); } else { assert SessionOk(s, h.i); }
    }
    match s.holder
    case Nobody =>
    case Thread(t) => assert ThreadOk(s, t);
    case Recorder(i) => assert SessionOk(s, i);
  }

  /** The session went past its close. */
  ghost predicate HasEnded(s: State, i: nat) {
    i in s.sessions && (s.sessions[i].stage.Fired? || s.sessions[i].stage.Gone?)
  }

  /** onDone is called once per session, after the session was closed and not before. */
  lemma OnDoneFiresOnce(s: State, i: nat)
    requires Reachable(s)
    ensures Tally(s.fired, i) == if HasEnded(s, i) then 1 else 0
  {
    ReachableInv(s);
    assert SessionOk(s, i);
  }

  // ---------- the table ----------

  /** The run was submitted and has left the queue for good. */
  ghost predicate LeftQueue(s: State, run: string) {
    run in s.submitted && !IsQueued(s.rows, run)
  }

  lemma DispatchNeverRequeues(s: State, t: nat, op: DispatchOp, run: string)
    requires LeftQueue(s, run)
    ensures LeftQueue(DispatchStep(s, t, op), run)
  {
  }

  lemma RecordNeverRequeues(s: State, i: nat, op: RecordOp, run: string)
    requires LeftQueue(s, run)
    ensures LeftQueue(RecordStep(s, i, op), run)
  {
  }

  lemma ApiNeverRequeues(s: State, op: ApiOp, run: string)
    requires LeftQueue(s, run)
    ensures LeftQueue(ApiStep(s, op), run)
  {
  }

  lemma StepNeverRequeues(s: State, step: Step, run: string)
    requires LeftQueue(s, run)
    ensures LeftQueue(Apply(s, step), run)
  {
    match step
    case Dispatch(t, op) => DispatchNeverRequeues(s, t, op, run);
    case Record(i, op) => RecordNeverRequeues(s, i, op, run);
    case Api(op) => ApiNeverRequeues(s, op, run);
  }

  /** A run that has left the queue never returns to it: no writer sets QUEUED, and IDs are not reused. */
  lemma {:induction false} NeverRequeued(s: State, more: seq<Step>, run: string)
    requires LeftQueue(s, run)
    ensures LeftQueue(RunFrom(s, more), run)
  {
    if more != [] {
      NeverRequeued(s, more[..|more| - 1], run);
      StepNeverRequeues(RunFrom(s, more[..|more| - 1]), more[|more| - 1], run);
    }
  }

  lemma PickTakesOldest(s: State, t: nat, picked: string, waiting: string)
    requires PcOf(DispatchStep(s, t, Pick(picked)), t) != PcOf(s, t) && IsQueued(s.rows, waiting)
    ensures IsQueued(s.rows, picked) && s.rows[picked].startedAt <= s.rows[waiting].startedAt
  {
    assert IsOldest(s.rows, picked);
  }

  /**
   FIFO over whole runs: while a submitted run waits, and until it leaves the queue, no thread
   picks a run that was submitted later.
   */
  lemma NoOvertaking(s: State, t: nat, picked: string, more: seq<Step>, waiting: string)
    requires waiting in s.submitted && IsQueued(RunFrom(s, [Dispatch(t, Pick(picked))] + more).rows, waiting)
    requires PcOf(DispatchStep(s, t, Pick(picked)), t) != PcOf(s, t)
    ensures IsQueued(s.rows, waiting) && IsQueued(s.rows, picked)
    ensures s.rows[picked].startedAt <= s.rows[waiting].startedAt
  {
    if !IsQueued(s.rows, waiting) {
      NeverRequeued(s, [Dispatch(t, Pick(picked))] + more, waiting);
    }
    PickTakesOldest(s, t, picked, waiting);
  }
}

/**
 Concrete runs of the queue protocol: every call of the sequential DispatchNext is one,
 and others show what the queue does not guarantee.
 */
module QueueRuns {
  import opened Results
  import opened RunTable
  import opened Dispatcher
  import opened Lists
  import opened QueueProtocol

  /** A step of one of `threads` dispatching threads; store writes fail only if `failures` says so. */
  predicate Allowed(step: Step, threads: nat, failures: bool) {
    match step
    case Dispatch(t, op) => t < threads && (failures || !((op.Mark? || op.GiveUp?) && op.fails))
    case Record(_, op) => failures || !(op.Finish? && op.fails)
    case Api(_) => true
  }

  ghost predicate Within(steps: seq<Step>, threads: nat, failures: bool) {
    forall i :: 0 <= i < |steps| ==> Allowed(steps[i], threads, failures)
  }

  /** `steps` lead to `s` and stay within the given bounds. */
  ghost predicate Leads(o: State, steps: seq<Step>, s: State, threads: nat, failures: bool) {
    RunFrom(o, steps) == s && Within(steps, threads, failures)
  }

  const EMPTY := Start(map[])
  const NO_SUMMARY := Summary(0, 0, 0.0, 0.0, 0.0, 0.0, 0.0)
  const QUEUED_ROW := Row(Queued, 0, None, None, 0, None)

  lemma Then(o: State, steps: seq<Step>, s: State, n: nat, f: bool, step: Step) returns (steps': seq<Step>, s': State)
    requires Leads(o, steps, s, n, f) && Allowed(step, n, f)
    ensures Leads(o, steps', s', n, f) && s' == Apply(s, step)
  {
    steps', s' := steps + [step], Apply(s, step);
    RunMore(o, steps, step);
  }

  /** A thread finds the slot free and reads the oldest queued run. */
  lemma PickOn(o: State, steps: seq<Step>, s: State, n: nat, f: bool, t: nat, run: string)
    returns (steps': seq<Step>, s': State)
    requires Leads(o, steps, s, n, f) && t < n
    requires PcOf(s, t) == Idle && s.current == "" && IsOldest(s.rows, run)
    ensures Leads(o, steps', s', n, f)
    ensures s' == s.(threads := s'.threads)
    ensures PcOf(s', t) == Picked(run) && forall u :: u != t ==> PcOf(s', u) == PcOf(s, u)
  {
    steps', s' := Then(o, steps, s, n, f, Dispatch(t, Check));
    steps', s' := Then(o, steps', s', n, f, Dispatch(t, Pick(run)));
  }

  lemma TakeOn(o: State, steps: seq<Step>, s: State, n: nat, f: bool, t: nat, run: string)
    returns (steps': seq<Step>, s': State)
    requires Leads(o, steps, s, n, f) && t < n && PcOf(s, t) == Picked(run) && s.current == ""
    ensures Leads(o, steps', s', n, f)
    ensures s' == s.(threads := s.threads[t := Dispatching(run)], current := run, holder := Thread(t),
                     calls := Bump(s.calls, run))
  {
    steps', s' := Then(o, steps, s, n, f, Dispatch(t, Claim));
  }

  lemma DistributeOn(o: State, steps: seq<Step>, s: State, n: nat, f: bool, t: nat, run: string)
    returns (steps': seq<Step>, s': State)
    requires Leads(o, steps, s, n, f) && t < n && PcOf(s, t) == Dispatching(run)
    ensures Leads(o, steps', s', n, f)
    ensures s' == s.(threads := s.threads[t := HandedOff(run)], handOffs := Bump(s.handOffs, run))
  {
    steps', s' := Then(o, steps, s, n, f, Dispatch(t, DistributeOk));
  }

  /** It claims the slot and distributes the plan. */
  lemma ClaimOn(o: State, steps: seq<Step>, s: State, n: nat, f: bool, t: nat, run: string)
    returns (steps': seq<Step>, s': State)
    requires Leads(o, steps, s, n, f) && t < n && PcOf(s, t) == Picked(run) && s.current == ""
    ensures Leads(o, steps', s', n, f)
    ensures s' == s.(threads := s'.threads, current := run, holder := Thread(t), calls := Bump(s.calls, run),
                     handOffs := Bump(s.handOffs, run))
    ensures PcOf(s', t) == HandedOff(run) && forall u :: u != t ==> PcOf(s', u) == PcOf(s, u)
  {
    steps', s' := TakeOn(o, steps, s, n, f, t, run);
    steps', s' := DistributeOn(o, steps', s', n, f, t, run);
  }

  lemma MarkOn(o: State, steps: seq<Step>, s: State, n: nat, f: bool, t: nat, run: string, fails: bool, workers: int,
               at: int)
    returns (steps': seq<Step>, s': State)
    requires Leads(o, steps, s, n, f) && t < n && PcOf(s, t) == HandedOff(run) && (fails ==> f)
    ensures Leads(o, steps', s', n, f)
    ensures s' == s.(threads := s.threads[t := Marked(run)],
                     rows := if fails then s.rows else Dispatched(s.rows, run, workers, at))
  {
    steps', s' := Then(o, steps, s, n, f, Dispatch(t, Mark(fails, workers, at)));
  }

  lemma StartOn(o: State, steps: seq<Step>, s: State, n: nat, f: bool, t: nat, run: string, i: nat)
    returns (steps': seq<Step>, s': State)
    requires Leads(o, steps, s, n, f) && t < n && PcOf(s, t) == Marked(run) && i !in s.sessions
    ensures Leads(o, steps', s', n, f)
    ensures s' == s.(threads := s.threads[t := Started(run)], sessions := s.sessions[i := Session(run, Recording)],
                     live := s.live[run := i], holder := Recorder(i))
  {
    steps', s' := Then(o, steps, s, n, f, Dispatch(t, StartRecorder(i)));
  }

  /** It forgets the run's attempts and leaves dispatchNext. */
  lemma ForgetOn(o: State, steps: seq<Step>, s: State, n: nat, f: bool, t: nat, run: string)
    returns (steps': seq<Step>, s': State)
    requires Leads(o, steps, s, n, f) && t < n && PcOf(s, t) in {Started(run), GivenUp(run)}
    ensures Leads(o, steps', s', n, f)
    ensures s' == s.(threads := s.threads[t := Idle], attempts := s.attempts - {run})
  {
    steps', s' := Then(o, steps, s, n, f, Dispatch(t, Forget));
  }

  lemma WriteOn(o: State, steps: seq<Step>, s: State, n: nat, f: bool, i: nat, run: string, status: RunStatus,
                fails: bool)
    returns (steps': seq<Step>, s': State)
    requires Leads(o, steps, s, n, f) && (fails ==> f) && status != Queued
    requires i in s.sessions && s.sessions[i] == Session(run, Recording)
    ensures Leads(o, steps', s', n, f)
    ensures s' == s.(rows := if fails then s.rows else Finished(s.rows, run, status, 2, NO_SUMMARY),
                     sessions := s.sessions[i := Session(run, Written)])
  {
    steps', s' := Then(o, steps, s, n, f, Record(i, Finish(status, 2, NO_SUMMARY, fails)));
  }

  lemma CloseOn(o: State, steps: seq<Step>, s: State, n: nat, f: bool, i: nat, run: string)
    returns (steps': seq<Step>, s': State)
    requires Leads(o, steps, s, n, f) && i in s.sessions && s.sessions[i] == Session(run, Written)
    ensures Leads(o, steps', s', n, f) && s' == s.(sessions := s.sessions[i := Session(run, Closed)])
  {
    steps', s' := Then(o, steps, s, n, f, Record(i, Close));
  }

  lemma FireOn(o: State, steps: seq<Step>, s: State, n: nat, f: bool, i: nat, run: string)
    returns (steps': seq<Step>, s': State)
    requires Leads(o, steps, s, n, f) && i in s.sessions && s.sessions[i] == Session(run, Closed) && s.current == run
    ensures Leads(o, steps', s', n, f)
    ensures s' == s.(current := "", holder := Nobody, sessions := s.sessions[i := Session(run, Fired)],
                     fired := s'.fired)
  {
    steps', s' := Then(o, steps, s, n, f, Record(i, FireDone));
  }

  /** The recorder ends the run and releases the slot. */
  lemma EndOn(o: State, steps: seq<Step>, s: State, n: nat, f: bool, i: nat, run: string, status: RunStatus,
              fails: bool)
    returns (steps': seq<Step>, s': State)
    requires Leads(o, steps, s, n, f) && (fails ==> f) && status != Queued
    requires i in s.sessions && s.sessions[i] == Session(run, Recording) && s.current == run
    ensures Leads(o, steps', s', n, f)
    ensures s' == s.(rows := if fails then s.rows else Finished(s.rows, run, status, 2, NO_SUMMARY),
                     current := "", holder := Nobody, sessions := s.sessions[i := Session(run, Fired)],
                     fired := s'.fired)
  {
    steps', s' := WriteOn(o, steps, s, n, f, i, run, status, fails);
    steps', s' := CloseOn(o, steps', s', n, f, i, run);
    steps', s' := FireOn(o, steps', s', n, f, i, run);
    SameKey(s.sessions, i, Session(run, Written), Session(run, Closed), Session(run, Fired));
  }

  lemma RefuseOn(o: State, steps: seq<Step>, s: State, n: nat, f: bool, t: nat, run: string)
    returns (steps': seq<Step>, s': State)
    requires Leads(o, steps, s, n, f) && t < n && PcOf(s, t) == Dispatching(run)
    ensures Leads(o, steps', s', n, f) && s' == s.(threads := s.threads[t := DispatchFailed(run)])
  {
    steps', s' := Then(o, steps, s, n, f, Dispatch(t, DistributeFails));
  }

  lemma CountOn(o: State, steps: seq<Step>, s: State, n: nat, f: bool, t: nat, run: string)
    returns (steps': seq<Step>, s': State)
    requires Leads(o, steps, s, n, f) && t < n && PcOf(s, t) == DispatchFailed(run)
    ensures Leads(o, steps', s', n, f)
    ensures s' == s.(threads := s'.threads, attempts := Bump(s.attempts, run))
    ensures PcOf(s', t) == Counted(run, Tally(s.attempts, run) + 1) && forall u :: u != t ==> PcOf(s', u) == PcOf(s, u)
  {
    steps', s' := Then(o, steps, s, n, f, Dispatch(t, Count));
  }

  lemma ReleaseOn(o: State, steps: seq<Step>, s: State, n: nat, f: bool, t: nat, run: string, count: nat)
    returns (steps': seq<Step>, s': State)
    requires Leads(o, steps, s, n, f) && t < n && PcOf(s, t) == Counted(run, count) && s.current == run
    ensures Leads(o, steps', s', n, f)
    ensures s' == s.(threads := s.threads[t := if count < MAX_DISPATCH_ATTEMPTS then Idle else Released(run)],
                     current := "", holder := Nobody)
  {
    steps', s' := Then(o, steps, s, n, f, Dispatch(t, ReleaseFailed));
  }

  lemma GiveUpOn(o: State, steps: seq<Step>, s: State, n: nat, f: bool, t: nat, run: string, fails: bool)
    returns (steps': seq<Step>, s': State)
    requires Leads(o, steps, s, n, f) && t < n && PcOf(s, t) == Released(run) && (fails ==> f)
    ensures Leads(o, steps', s', n, f)
    ensures s' == s.(threads := s.threads[t := GivenUp(run)],
                     rows := if fails then s.rows else WithStatus(s.rows, run, Failed))
  {
    steps', s' := Then(o, steps, s, n, f, Dispatch(t, GiveUp(fails)));
  }

  // ---------- emptying the queue ----------

  ghost predicate OnlyApi(steps: seq<Step>) {
    forall i :: 0 <= i < |steps| ==> steps[i].Api?
  }

  /** Everybody else in the queue can be cancelled, and then the run is the oldest. */
  lemma {:induction false} CancelOthers(s: State, run: string) returns (cancels: seq<Step>, s': State)
    requires IsQueued(s.rows, run)
    ensures OnlyApi(cancels) && RunFrom(s, cancels) == s' && IsOldest(s'.rows, run)
    ensures s' == s.(rows := s'.rows, cancelling := s'.cancelling)
    decreases |QueuedIds(s.rows)|
  {
    if other :| other in QueuedIds(s.rows) && other != run {
      var read, write := Api(CancelRead(other)), Api(CancelWrite(other));
      var cancelled := CancelOne(s, other);
      assert QueuedIds(cancelled.rows) == QueuedIds(s.rows) - {other};
      cancels, s' := CancelOthers(cancelled, run);
      RunOn(s, [read, write], cancels);
      cancels := [read, write] + cancels;
    } else {
      cancels, s' := [], s;
      forall q | IsQueued(s.rows, q) ensures q == run { assert q in QueuedIds(s.rows); }
    }
  }

  lemma CancelOne(s: State, other: string) returns (s': State)
    requires IsQueued(s.rows, other)
    ensures RunFrom(s, [Api(CancelRead(other)), Api(CancelWrite(other))]) == s'
    ensures s'.rows == WithStatus(s.rows, other, Cancelled)
    ensures s' == s.(rows := s'.rows, cancelling := s'.cancelling)
  {
    var read, write := Api(CancelRead(other)), Api(CancelWrite(other));
    RunMore(s, [], read);
    RunMore(s, [read], write);
    assert [] + [read] == [read] && [read] + [write] == [read, write];
    s' := Apply(Apply(s, read), write);
  }

  lemma CancelOthersOn(o: State, steps: seq<Step>, s: State, n: nat, f: bool, run: string)
    returns (steps': seq<Step>, s': State)
    requires Leads(o, steps, s, n, f) && IsQueued(s.rows, run)
    ensures Leads(o, steps', s', n, f) && IsOldest(s'.rows, run)
    ensures s' == s.(rows := s'.rows, cancelling := s'.cancelling)
  {
    var cancels;
    cancels, s' := CancelOthers(s, run);
    RunOn(o, steps, cancels);
    steps' := steps + cancels;
  }

  // ---------- the sequential call ----------

  function Seen(s: State, handedOff: seq<string>): QueueState {
    QueueState(s.rows, s.current, s.attempts, handedOff)
  }

  lemma SuccessfulCall(o: State, steps: seq<Step>, s: State, run: string, env: Answers, i: nat, handedOff: seq<string>)
    returns (steps': seq<Step>, s': State)
    requires Leads(o, steps, s, 1, true) && PcOf(s, 0) == Picked(run) && s.current == "" && i !in s.sessions
    requires env.distributed.Ok?
    ensures Leads(o, steps', s', 1, true) && PcOf(s', 0) == Idle
    ensures Seen(s', handedOff + [run]) == Selected(Seen(s, handedOff), run, env)
    ensures s'.handOffs == Bump(s.handOffs, run) && s'.calls == Bump(s.calls, run)
  {
    steps', s' := ClaimOn(o, steps, s, 1, true, 0, run);
    steps', s' := MarkOn(o, steps', s', 1, true, 0, run, env.markFails, env.distributed.value, env.at);
    steps', s' := StartOn(o, steps', s', 1, true, 0, run, i);
    steps', s' := ForgetOn(o, steps', s', 1, true, 0, run);
  }

  lemma BumpThenForget(m: map<string, nat>, k: string)
    ensures Bump(m, k) - {k} == m - {k}
  {
  }

  lemma RetriedCall(o: State, steps: seq<Step>, s: State, f: bool, run: string, env: Answers, handedOff: seq<string>)
    returns (steps': seq<Step>, s': State)
    requires Leads(o, steps, s, 1, f) && PcOf(s, 0) == Picked(run) && s.current == ""
    requires env.distributed.Err? && !GivesUp(Seen(s, handedOff), run, env)
    ensures Leads(o, steps', s', 1, f) && PcOf(s', 0) == Idle
    ensures Seen(s', handedOff) == Selected(Seen(s, handedOff), run, env)
    ensures s'.handOffs == s.handOffs && s'.calls == Bump(s.calls, run)
  {
    steps', s' := TakeOn(o, steps, s, 1, f, 0, run);
    steps', s' := RefuseOn(o, steps', s', 1, f, 0, run);
    steps', s' := CountOn(o, steps', s', 1, f, 0, run);
    steps', s' := ReleaseOn(o, steps', s', 1, f, 0, run, Tally(s.attempts, run) + 1);
  }

  lemma LastCall(o: State, steps: seq<Step>, s: State, run: string, env: Answers, handedOff: seq<string>)
    returns (steps': seq<Step>, s': State)
    requires Leads(o, steps, s, 1, true) && PcOf(s, 0) == Picked(run) && s.current == ""
    requires GivesUp(Seen(s, handedOff), run, env)
    ensures Leads(o, steps', s', 1, true) && PcOf(s', 0) == Idle
    ensures Seen(s', handedOff) == Selected(Seen(s, handedOff), run, env)
    ensures s'.handOffs == s.handOffs && s'.calls == Bump(s.calls, run)
  {
    steps', s' := TakeOn(o, steps, s, 1, true, 0, run);
    steps', s' := RefuseOn(o, steps', s', 1, true, 0, run);
    steps', s' := CountOn(o, steps', s', 1, true, 0, run);
    steps', s' := ReleaseOn(o, steps', s', 1, true, 0, run, Tally(s.attempts, run) + 1);
    BumpThenForget(s.attempts, run);
    steps', s' := GiveUpOn(o, steps', s', 1, true, 0, run, env.giveUpFails);
    steps', s' := ForgetOn(o, steps', s', 1, true, 0, run);
  }

  /** A DispatchNext call that selects a run is a run of one thread's steps with the same effect. */
  lemma SequentialCallIsARun(o: State, steps: seq<Step>, s: State, run: string, env: Answers, i: nat,
                             handedOff: seq<string>)
    returns (steps': seq<Step>, s': State)
    requires Leads(o, steps, s, 1, true) && PcOf(s, 0) == Idle && s.current == "" && IsOldest(s.rows, run)
        && i !in s.sessions
    ensures Leads(o, steps', s', 1, true) && PcOf(s', 0) == Idle
    ensures Seen(s', if env.distributed.Ok? then handedOff + [run] else handedOff)
            == Selected(Seen(s, handedOff), run, env)
    ensures s'.handOffs == if env.distributed.Ok? then Bump(s.handOffs, run) else s.handOffs
    ensures s'.calls == Bump(s.calls, run)
  {
    var picked, p := PickOn(o, steps, s, 1, true, 0, run);
    if env.distributed.Ok? {
      steps', s' := SuccessfulCall(o, picked, p, run, env, i, handedOff);
    } else if GivesUp(Seen(s, handedOff), run, env) {
      steps', s' := LastCall(o, picked, p, run, env, handedOff);
    } else {
      steps', s' := RetriedCall(o, picked, p, true, run, env, handedOff);
    }
  }

  // ---------- what does not hold ----------

  /** One run is queued and a Cancel handler has just seen that. */
  lemma Submitted(n: nat, f: bool) returns (steps: seq<Step>, s: State)
    ensures Leads(EMPTY, steps, s, n, f)
    ensures s == EMPTY.(rows := map["r" := QUEUED_ROW], submitted := {"r"}, cancelling := multiset{"r"})
    ensures IsOldest(s.rows, "r")
  {
    steps, s := Then(EMPTY, [], EMPTY, n, f, Api(Submit("r", 0)));
    steps, s := Then(EMPTY, steps, s, n, f, Api(CancelRead("r")));
    assert s.rows == map["r" := QUEUED_ROW] && s.submitted == {"r"} && s.cancelling == multiset{"r"};
  }

  /** One thread dispatches the run and its recorder ends it with `status`. */
  lemma OneRun(status: RunStatus) returns (steps: seq<Step>, s: State)
    requires status != Queued
    ensures Leads(EMPTY, steps, s, 1, false) && s.current == "" && "r" in s.cancelling
    ensures "r" in s.rows && s.rows["r"].status == status
    ensures "r" in s.live && s.live["r"] in s.sessions && s.sessions[s.live["r"]] == Session("r", Fired)
  {
    steps, s := Submitted(1, false);
    steps, s := PickOn(EMPTY, steps, s, 1, false, 0, "r");
    steps, s := ClaimOn(EMPTY, steps, s, 1, false, 0, "r");
    steps, s := MarkOn(EMPTY, steps, s, 1, false, 0, "r", false, 1, 1);
    steps, s := StartOn(EMPTY, steps, s, 1, false, 0, "r", 0);
    steps, s := EndOn(EMPTY, steps, s, 1, false, 0, "r", status, false);
  }

  /** Stored terminal statuses are not final: a cancellation that read QUEUED in time may write much later. */
  lemma CancelOverwritesCompleted() returns (steps: seq<Step>, s: State)
    ensures Leads(EMPTY, steps, s, 1, false) && "r" in s.rows && s.rows["r"].status == Completed
    ensures Apply(s, Api(CancelWrite("r"))).rows == s.rows["r" := s.rows["r"].(status := Cancelled)]
  {
    steps, s := OneRun(Completed);
  }

  /**
   A lost metrics stream ends a run with the last status seen, possibly RUNNING; and the slot is
   released while the recorder's map still lists the closed session.
   */
  lemma EndedRunMayStayRunning() returns (steps: seq<Step>, s: State)
    ensures Leads(EMPTY, steps, s, 1, false) && s.current == "" && "r" in s.rows && s.rows["r"].status == Running
    ensures "r" in s.live && s.live["r"] in s.sessions && s.sessions[s.live["r"]] == Session("r", Fired)
  {
    steps, s := OneRun(Running);
  }

  /**
   With two dispatching threads a run can be handed over twice although every write succeeds: the pick
   may be stale.
   */
  lemma TwoThreadsHandOffTwice() returns (steps: seq<Step>, s: State)
    ensures Leads(EMPTY, steps, s, 2, false) && Tally(s.handOffs, "r") == 2
  {
    steps, s := Submitted(2, false);
    steps, s := PickOn(EMPTY, steps, s, 2, false, 0, "r");
    steps, s := PickOn(EMPTY, steps, s, 2, false, 1, "r");
    steps, s := ClaimOn(EMPTY, steps, s, 2, false, 0, "r");
    steps, s := MarkOn(EMPTY, steps, s, 2, false, 0, "r", false, 1, 1);
    steps, s := StartOn(EMPTY, steps, s, 2, false, 0, "r", 0);
    steps, s := EndOn(EMPTY, steps, s, 2, false, 0, "r", Completed, false);
    steps, s := ClaimOn(EMPTY, steps, s, 2, false, 1, "r");
  }

  /** With one thread it still can when neither write that takes the run out of QUEUED succeeds. */
  lemma TwoFailedWritesHandOffTwice() returns (steps: seq<Step>, s: State)
    ensures Leads(EMPTY, steps, s, 1, true) && Tally(s.handOffs, "r") == 2
  {
    steps, s := Submitted(1, true);
    steps, s := PickOn(EMPTY, steps, s, 1, true, 0, "r");
    steps, s := ClaimOn(EMPTY, steps, s, 1, true, 0, "r");
    steps, s := MarkOn(EMPTY, steps, s, 1, true, 0, "r", true, 1, 1);
    steps, s := StartOn(EMPTY, steps, s, 1, true, 0, "r", 0);
    steps, s := ForgetOn(EMPTY, steps, s, 1, true, 0, "r");
    steps, s := EndOn(EMPTY, steps, s, 1, true, 0, "r", Completed, true);
    steps, s := PickOn(EMPTY, steps, s, 1, true, 0, "r");
    steps, s := ClaimOn(EMPTY, steps, s, 1, true, 0, "r");
  }

  /** Every dispatch is refused. */
  const REFUSED := Answers(false, Err("refused"), 0, false, true)

  /** The run is refused `n` times and still waits. */
  lemma {:induction false} RefusedTimes(f: bool, n: nat) returns (steps: seq<Step>, s: State)
    requires n < MAX_DISPATCH_ATTEMPTS
    ensures Leads(EMPTY, steps, s, 1, f) && PcOf(s, 0) == Idle && s.current == ""
    ensures IsOldest(s.rows, "r") && Tally(s.calls, "r") == n && Tally(s.attempts, "r") == n
  {
    if n == 0 {
      steps, s := Submitted(1, f);
    } else {
      steps, s := RefusedTimes(f, n - 1);
      steps, s := PickOn(EMPTY, steps, s, 1, f, 0, "r");
      ghost var before := Seen(s, []);
      steps, s := RetriedCall(EMPTY, steps, s, f, "r", REFUSED, []);
      assert Seen(s, []).rows == before.rows;
    }
  }

  /** After five refusals a thread is about to give up a run that is still QUEUED. */
  lemma GiveUpIsReached(f: bool) returns (steps: seq<Step>, s: State)
    ensures Leads(EMPTY, steps, s, 1, f) && PcOf(s, 0) == Released("r") && s.current == ""
    ensures IsOldest(s.rows, "r") && Tally(s.calls, "r") == MAX_DISPATCH_ATTEMPTS
  {
    steps, s := RefusedTimes(f, MAX_DISPATCH_ATTEMPTS - 1);
    steps, s := PickOn(EMPTY, steps, s, 1, f, 0, "r");
    steps, s := TakeOn(EMPTY, steps, s, 1, f, 0, "r");
    steps, s := RefuseOn(EMPTY, steps, s, 1, f, 0, "r");
    steps, s := CountOn(EMPTY, steps, s, 1, f, 0, "r");
    steps, s := ReleaseOn(EMPTY, steps, s, 1, f, 0, "r", MAX_DISPATCH_ATTEMPTS);
  }

  /** If the write that gives it up fails, the run is dispatched a sixth time. */
  lemma FailedGiveUpCallsAgain() returns (steps: seq<Step>, s: State)
    ensures Leads(EMPTY, steps, s, 1, true) && Tally(s.calls, "r") == MAX_DISPATCH_ATTEMPTS + 1
  {
    steps, s := GiveUpIsReached(true);
    steps, s := GiveUpOn(EMPTY, steps, s, 1, true, 0, "r", true);
    steps, s := ForgetOn(EMPTY, steps, s, 1, true, 0, "r");
    steps, s := PickOn(EMPTY, steps, s, 1, true, 0, "r");
    steps, s := TakeOn(EMPTY, steps, s, 1, true, 0, "r");
  }
}

/**
 The recorder's own map of sessions, by run. A dashboard that asks for a run gets the session the
 map lists; each recording puts its session in and, at its end, deletes whatever is listed for its
 run. With at most one hand-over per run the map lists exactly the sessions not yet removed.
 */
module SessionMap {
  import opened Dispatcher
  import opened QueueProtocol
  import opened QueueRuns
  import opened RunTable

  /** A thread that has handed the run over and not started its recorder yet. */
  predicate WillStart(pc: Pc, run: string) {
    (pc.HandedOff? || pc.Marked?) && pc.run == run
  }

  /** A session was handed over, and so was a run whose session is about to start. */
  predicate HandedOver(s: State, i: nat) {
    i in s.sessions ==> Tally(s.handOffs, s.sessions[i].run) >= 1
  }

  predicate StartHandedOver(s: State, t: nat, run: string) {
    WillStart(PcOf(s, t), run) ==> Tally(s.handOffs, run) >= 1
  }

  /** Two sessions of one run, or a session and one about to start, are two hand-overs. */
  predicate TwoSessions(s: State, i: nat, j: nat) {
    i in s.sessions && j in s.sessions && i != j && s.sessions[i].run == s.sessions[j].run ==>
      Tally(s.handOffs, s.sessions[i].run) >= 2
  }

  predicate SessionAndStart(s: State, i: nat, t: nat) {
    i in s.sessions && WillStart(PcOf(s, t), s.sessions[i].run) ==> Tally(s.handOffs, s.sessions[i].run) >= 2
  }

  /** What is listed is a session of that run. */
  predicate ListedOk(s: State, run: string) {
    run in s.live ==> s.live[run] in s.sessions && s.sessions[s.live[run]].run == run
  }

  /** The session of a run that was handed over once is listed until it is removed. */
  predicate ListingOk(s: State, i: nat) {
    i in s.sessions && Tally(s.handOffs, s.sessions[i].run) <= 1 ==>
      var Session(run, stage) := s.sessions[i];
      if stage == Gone then run !in s.live else run in s.live && s.live[run] == i
  }

  ghost predicate MapInv(s: State) {
    && Inv(s)
    && (forall i :: HandedOver(s, i) && ListingOk(s, i))
    && (forall t, run :: StartHandedOver(s, t, run))
    && (forall i, j :: TwoSessions(s, i, j))
    && (forall i, t :: SessionAndStart(s, i, t))
    && (forall run :: ListedOk(s, run))
  }

  lemma DispatchKeepsHandedOver(s: State, t: nat, op: DispatchOp, i: nat)
    requires HandedOver(s, i) && forall run :: StartHandedOver(s, t, run)
    ensures HandedOver(DispatchStep(s, t, op), i)
  {
    if PcOf(s, t).Marked? {
      assert StartHandedOver(s, t, PcOf(s, t).run);
    }
  }

  lemma HandOffsGrow(s: State, t: nat, op: DispatchOp, run: string)
    ensures Tally(s.handOffs, run) <= Tally(DispatchStep(s, t, op).handOffs, run)
  {
  }

  lemma OtherThreadsStay(s: State, t: nat, op: DispatchOp, u: nat)
    requires u != t
    ensures PcOf(DispatchStep(s, t, op), u) == PcOf(s, u)
  {
  }

  lemma OnlyDistributeHandsOff(s: State, t: nat, op: DispatchOp, run: string)
    requires !op.DistributeOk? && !WillStart(PcOf(s, t), run)
    ensures !WillStart(PcOf(DispatchStep(s, t, op), t), run)
  {
    match op
    case Check =>
    case Pick(_) =>
    case NothingPicked =>
    case Claim =>
    case ClaimLost =>
    case DistributeFails =>
    case Mark(_, _, _) =>
    case StartRecorder(_) =>
    case Count =>
    case ReleaseFailed =>
    case GiveUp(_) =>
    case Forget =>
  }

  lemma DistributeKeepsStart(s: State, t: nat, run: string)
    requires StartHandedOver(s, t, run)
    ensures StartHandedOver(DispatchStep(s, t, DistributeOk), t, run)
  {
  }

  lemma DispatchKeepsStart(s: State, t: nat, op: DispatchOp, u: nat, run: string)
    requires StartHandedOver(s, t, run) && StartHandedOver(s, u, run)
    ensures StartHandedOver(DispatchStep(s, t, op), u, run)
  {
    HandOffsGrow(s, t, op, run);
    if u != t {
      OtherThreadsStay(s, t, op, u);
    } else if op.DistributeOk? {
      DistributeKeepsStart(s, t, run);
    } else if !WillStart(PcOf(s, t), run) {
      OnlyDistributeHandsOff(s, t, op, run);
    }
  }

  lemma DispatchKeepsTwo(s: State, t: nat, op: DispatchOp, i: nat, j: nat)
    requires TwoSessions(s, i, j) && SessionAndStart(s, i, t) && SessionAndStart(s, j, t)
    ensures TwoSessions(DispatchStep(s, t, op), i, j)
  {
  }

  lemma DispatchKeepsSessionAndStart(s: State, t: nat, op: DispatchOp, i: nat, u: nat)
    requires ThreadOk(s, t) && ThreadOk(s, u) && HandedOver(s, i)
    requires SessionAndStart(s, i, t) && SessionAndStart(s, i, u)
    requires forall run :: StartHandedOver(s, t, run)
    ensures SessionAndStart(DispatchStep(s, t, op), i, u)
  {
    match op
    case Check =>
    case Pick(_) =>
    case NothingPicked =>
    case Claim =>
    case ClaimLost =>
    case DistributeOk =>
    case DistributeFails =>
    case Mark(_, _, _) =>
    case StartRecorder(_) =>
    case Count =>
    case ReleaseFailed =>
    case GiveUp(_) =>
    case Forget =>
  }

  lemma DispatchKeepsListed(s: State, t: nat, op: DispatchOp, run: string)
    requires ListedOk(s, run)
    ensures ListedOk(DispatchStep(s, t, op), run)
  {
  }

  lemma StartKeepsListing(s: State, t: nat, k: nat, i: nat)
    requires ListingOk(s, i) && SessionAndStart(s, i, t)
    ensures ListingOk(DispatchStep(s, t, StartRecorder(k)), i)
  {
  }

  lemma DistributeKeepsListing(s: State, t: nat, i: nat)
    requires ListingOk(s, i) && HandedOver(s, i)
    ensures ListingOk(DispatchStep(s, t, DistributeOk), i)
  {
  }

  lemma DispatchKeepsListing(s: State, t: nat, op: DispatchOp, i: nat)
    requires ListingOk(s, i) && HandedOver(s, i) && SessionAndStart(s, i, t)
    ensures ListingOk(DispatchStep(s, t, op), i)
  {
    match op
    case Check =>
    case Pick(_) =>
    case NothingPicked =>
    case Claim =>
    case ClaimLost =>
    case DistributeOk => DistributeKeepsListing(s, t, i);
    case DistributeFails =>
    case Mark(_, _, _) =>
    case StartRecorder(k) => StartKeepsListing(s, t, k, i);
    case Count =>
    case ReleaseFailed =>
    case GiveUp(_) =>
    case Forget =>
  }

  lemma DispatchKeepsMap(s: State, t: nat, op: DispatchOp)
    requires MapInv(s)
    ensures MapInv(DispatchStep(s, t, op))
  {
    var s' := DispatchStep(s, t, op);
    DispatchKeepsInv(s, t, op);
    assert ThreadOk(s, t) && forall run :: StartHandedOver(s, t, run);
    forall i ensures HandedOver(s', i) && ListingOk(s', i) {
      assert HandedOver(s, i) && SessionAndStart(s, i, t);
      DispatchKeepsHandedOver(s, t, op, i);
      DispatchKeepsListing(s, t, op, i);
    }
    forall u, run ensures StartHandedOver(s', u, run) { DispatchKeepsStart(s, t, op, u, run); }
    forall i, j ensures TwoSessions(s', i, j) {
      assert SessionAndStart(s, i, t) && SessionAndStart(s, j, t);
      DispatchKeepsTwo(s, t, op, i, j);
    }
    forall i, u ensures SessionAndStart(s', i, u) {
      assert ThreadOk(s, u) && HandedOver(s, i) && SessionAndStart(s, i, t);
      DispatchKeepsSessionAndStart(s, t, op, i, u);
    }
    forall run ensures ListedOk(s', run) { DispatchKeepsListed(s, t, op, run); }
  }

  lemma RecordKeepsListing(s: State, i: nat, op: RecordOp, j: nat)
    requires ListingOk(s, j) && TwoSessions(s, i, j)
    ensures ListingOk(RecordStep(s, i, op), j)
  {
    match op
    case Finish(_, _, _, _) =>
    case Close =>
    case FireDone =>
    case Remove =>
  }

  lemma RecordKeepsHandedOver(s: State, i: nat, op: RecordOp, j: nat)
    requires HandedOver(s, j)
    ensures HandedOver(RecordStep(s, i, op), j)
  {
  }

  lemma RecordKeepsStart(s: State, i: nat, op: RecordOp, t: nat, run: string)
    requires StartHandedOver(s, t, run)
    ensures StartHandedOver(RecordStep(s, i, op), t, run)
  {
  }

  lemma RecordKeepsTwo(s: State, i: nat, op: RecordOp, j: nat, k: nat)
    requires TwoSessions(s, j, k)
    ensures TwoSessions(RecordStep(s, i, op), j, k)
  {
  }

  lemma RecordKeepsSessionAndStart(s: State, i: nat, op: RecordOp, j: nat, t: nat)
    requires SessionAndStart(s, j, t)
    ensures SessionAndStart(RecordStep(s, i, op), j, t)
  {
  }

  lemma RecordKeepsListed(s: State, i: nat, op: RecordOp, run: string)
    requires ListedOk(s, run)
    ensures ListedOk(RecordStep(s, i, op), run)
  {
  }

  lemma RecordKeepsMap(s: State, i: nat, op: RecordOp)
    requires MapInv(s)
    ensures MapInv(RecordStep(s, i, op))
  {
    var s' := RecordStep(s, i, op);
    RecordKeepsInv(s, i, op);
    forall j ensures HandedOver(s', j) && ListingOk(s', j) {
      assert HandedOver(s, j) && TwoSessions(s, i, j);
      RecordKeepsHandedOver(s, i, op, j);
      RecordKeepsListing(s, i, op, j);
    }
    forall t, run ensures StartHandedOver(s', t, run) { RecordKeepsStart(s, i, op, t, run); }
    forall j, k ensures TwoSessions(s', j, k) { RecordKeepsTwo(s, i, op, j, k); }
    forall j, t ensures SessionAndStart(s', j, t) { RecordKeepsSessionAndStart(s, i, op, j, t); }
    forall run ensures ListedOk(s', run) { RecordKeepsListed(s, i, op, run); }
  }

  lemma ApiKeepsHandedOver(s: State, op: ApiOp, i: nat)
    requires HandedOver(s, i)
    ensures HandedOver(ApiStep(s, op), i)
  {
  }

  lemma ApiKeepsListing(s: State, op: ApiOp, i: nat)
    requires ListingOk(s, i)
    ensures ListingOk(ApiStep(s, op), i)
  {
  }

  lemma ApiKeepsStart(s: State, op: ApiOp, t: nat, run: string)
    requires StartHandedOver(s, t, run)
    ensures StartHandedOver(ApiStep(s, op), t, run)
  {
  }

  lemma ApiKeepsTwo(s: State, op: ApiOp, i: nat, j: nat)
    requires TwoSessions(s, i, j)
    ensures TwoSessions(ApiStep(s, op), i, j)
  {
  }

  lemma ApiKeepsSessionAndStart(s: State, op: ApiOp, i: nat, t: nat)
    requires SessionAndStart(s, i, t)
    ensures SessionAndStart(ApiStep(s, op), i, t)
  {
  }

  lemma ApiKeepsListed(s: State, op: ApiOp, run: string)
    requires ListedOk(s, run)
    ensures ListedOk(ApiStep(s, op), run)
  {
  }

  lemma ApiKeepsMap(s: State, op: ApiOp)
    requires MapInv(s)
    ensures MapInv(ApiStep(s, op))
  {
    var s' := ApiStep(s, op);
    ApiKeepsInv(s, op);
    forall i ensures HandedOver(s', i) && ListingOk(s', i) {
      ApiKeepsHandedOver(s, op, i);
      ApiKeepsListing(s, op, i);
    }
    forall t, run ensures StartHandedOver(s', t, run) { ApiKeepsStart(s, op, t, run); }
    forall i, j ensures TwoSessions(s', i, j) { ApiKeepsTwo(s, op, i, j); }
    forall i, t ensures SessionAndStart(s', i, t) { ApiKeepsSessionAndStart(s, op, i, t); }
    forall run ensures ListedOk(s', run) { ApiKeepsListed(s, op, run); }
  }

  lemma StepKeepsMap(s: State, step: Step)
    requires MapInv(s)
    ensures MapInv(Apply(s, step))
  {
    match step
    case Dispatch(t, op) => DispatchKeepsMap(s, t, op);
    case Record(i, op) => RecordKeepsMap(s, i, op);
    case Api(op) => ApiKeepsMap(s, op);
  }

  lemma {:induction false} RunKeepsMap(s: State, steps: seq<Step>)
    requires MapInv(s)
    ensures MapInv(RunFrom(s, steps))
  {
    if steps != [] {
      RunKeepsMap(s, steps[..|steps| - 1]);
      StepKeepsMap(RunFrom(s, steps[..|steps| - 1]), steps[|steps| - 1]);
    }
  }

  lemma ReachableMap(s: State)
    requires Reachable(s)
    ensures MapInv(s)
  {
    var rows, steps :| "" !in rows && RunFrom(Start(rows), steps) == s;
    StartInv(rows);
    RunKeepsMap(Start(rows), steps);
  }

  // ---------- the theorems ----------

  /** The session is one of this run, and not removed. */
  predicate Recording(s: State, run: string, i: nat) {
    i in s.sessions && s.sessions[i].run == run && s.sessions[i].stage != Gone
  }

  /** What the map lists for a run that was handed over at most once is the run's session, until that is removed. */
  lemma ListedIff(s: State, run: string, i: nat)
    requires Reachable(s) && Tally(s.handOffs, run) <= 1
    ensures run in s.live && s.live[run] == i <==> Recording(s, run, i)
  {
    ReachableMap(s);
    assert ListedOk(s, run) && ListingOk(s, i);
    if run in s.live {
      assert ListingOk(s, s.live[run]);
    }
  }

  /** A session is there only for a run that was handed over, and each one more for one more hand-over. */
  lemma SessionsAreHandedOver(s: State, i: nat, j: nat)
    requires Reachable(s) && i in s.sessions
    ensures Tally(s.handOffs, s.sessions[i].run) >= 1
    ensures j in s.sessions && i != j && s.sessions[j].run == s.sessions[i].run ==>
      Tally(s.handOffs, s.sessions[i].run) >= 2
  {
    ReachableMap(s);
    assert HandedOver(s, i) && TwoSessions(s, i, j);
  }

  /** After a second hand-over the first session's removal takes the second one, still recording, off the map. */
  lemma RemoveUnlistsAnother() returns (steps: seq<Step>, s: State)
    ensures Leads(EMPTY, steps, s, 1, true) && "r" !in s.live
    ensures 1 in s.sessions && s.sessions[1] == Session("r", Stage.Recording) && s.current == "r"
  {
    steps, s := HandedOverAgain();
    steps, s := MarkOn(EMPTY, steps, s, 1, true, 0, "r", true, 1, 1);
    steps, s := StartOn(EMPTY, steps, s, 1, true, 0, "r", 1);
    assert s.sessions[0] == Session("r", Fired);
    steps, s := Then(EMPTY, steps, s, 1, true, Record(0, Remove));
  }

  lemma HandedOverAgain() returns (steps: seq<Step>, s: State)
    ensures Leads(EMPTY, steps, s, 1, true) && PcOf(s, 0) == HandedOff("r") && s.current == "r"
    ensures s.sessions == map[0 := Session("r", Fired)]
  {
    steps, s := EndedUnwritten();
    steps, s := PickOn(EMPTY, steps, s, 1, true, 0, "r");
    steps, s := ClaimOn(EMPTY, steps, s, 1, true, 0, "r");
  }

  /** Neither MarkDispatched nor FinishRun was recorded, so the run still waits. */
  lemma EndedUnwritten() returns (steps: seq<Step>, s: State)
    ensures Leads(EMPTY, steps, s, 1, true) && PcOf(s, 0) == Idle && s.current == "" && IsOldest(s.rows, "r")
    ensures s.sessions == map[0 := Session("r", Fired)]
  {
    steps, s := Submitted(1, true);
    steps, s := PickOn(EMPTY, steps, s, 1, true, 0, "r");
    steps, s := ClaimOn(EMPTY, steps, s, 1, true, 0, "r");
    steps, s := MarkOn(EMPTY, steps, s, 1, true, 0, "r", true, 1, 1);
    steps, s := StartOn(EMPTY, steps, s, 1, true, 0, "r", 0);
    steps, s := ForgetOn(EMPTY, steps, s, 1, true, 0, "r");
    steps, s := EndOn(EMPTY, steps, s, 1, true, 0, "r", Completed, true);
  }
}

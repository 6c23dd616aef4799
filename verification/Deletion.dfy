/**
 What the delete handler's check is worth. The check and the deletion are separate steps, so a run
 can be deleted in flight by a handler that checked before the run took the slot, and by no other.
 */
module Deletion {
  import opened Dispatcher
  import opened QueueProtocol
  import opened QueueRuns
  import opened RunTable

  /** The run holds the slot, from now on until the end of `more`. */
  ghost predicate InFlightThroughout(s: State, more: seq<Step>, run: string) {
    forall i :: 0 <= i <= |more| ==> RunFrom(s, more[..i]).current == run
  }

  predicate Kept(s: State, run: string) {
    run in s.rows && run !in s.deleting
  }

  lemma DispatchKeepsKept(s: State, t: nat, op: DispatchOp, run: string)
    requires Kept(s, run)
    ensures Kept(DispatchStep(s, t, op), run)
  {
  }

  lemma RecordKeepsKept(s: State, i: nat, op: RecordOp, run: string)
    requires Kept(s, run)
    ensures Kept(RecordStep(s, i, op), run)
  {
  }

  /** The check refuses the run that is in flight, and only a handler that passed it deletes. */
  lemma ApiKeepsKept(s: State, op: ApiOp, run: string)
    requires Kept(s, run) && s.current == run
    ensures Kept(ApiStep(s, op), run)
  {
  }

  lemma StepKeepsKept(s: State, step: Step, run: string)
    requires Kept(s, run) && s.current == run
    ensures Kept(Apply(s, step), run)
  {
    match step
    case Dispatch(t, op) => DispatchKeepsKept(s, t, op, run);
    case Record(i, op) => RecordKeepsKept(s, i, op, run);
    case Api(op) => ApiKeepsKept(s, op, run);
  }

  lemma ThroughoutPrefix(s: State, more: seq<Step>, run: string)
    requires InFlightThroughout(s, more, run) && more != []
    ensures InFlightThroughout(s, more[..|more| - 1], run)
  {
    var init := more[..|more| - 1];
    forall i | 0 <= i <= |init| ensures RunFrom(s, init[..i]).current == run {
      assert init[..i] == more[..i];
    }
  }

  lemma {:induction false} RowStays(s: State, more: seq<Step>, run: string)
    requires Kept(s, run) && InFlightThroughout(s, more, run)
    ensures Kept(RunFrom(s, more), run)
  {
    if more != [] {
      var init := more[..|more| - 1];
      ThroughoutPrefix(s, more, run);
      RowStays(s, init, run);
      assert init[..|init|] == init && more[..|init|] == init;
      StepKeepsKept(RunFrom(s, init), more[|more| - 1], run);
    }
  }

  lemma OneStep(s: State, step: Step)
    ensures RunFrom(s, [step]) == Apply(s, step) && [step][..0] == [] && [step][..1] == [step]
  {
    RunMore(s, [], step);
    assert [] + [step] == [step];
  }

  lemma PendingDeletes(s: State, run: string)
    requires run in s.deleting && s.current == run
    ensures run !in RunFrom(s, [Api(Delete(run))]).rows && InFlightThroughout(s, [Api(Delete(run))], run)
  {
    var more := [Api(Delete(run))];
    OneStep(s, Api(Delete(run)));
    forall i | 0 <= i <= |more| ensures RunFrom(s, more[..i]).current == run {
      assert more[..i] == if i == 0 then [] else more;
    }
  }

  /**
   The row of the run in flight stays as long as it is in flight, whatever else happens, exactly
   when no delete handler passed its check before.
   */
  lemma InFlightIsKeptIff(s: State, run: string)
    requires run in s.rows && s.current == run
    ensures run !in s.deleting <==>
      forall more :: InFlightThroughout(s, more, run) ==> run in RunFrom(s, more).rows
  {
    if run !in s.deleting {
      forall more | InFlightThroughout(s, more, run) ensures run in RunFrom(s, more).rows {
        RowStays(s, more, run);
      }
    } else {
      PendingDeletes(s, run);
      assert InFlightThroughout(s, [Api(Delete(run))], run);
    }
  }

  /** Any run that is not in flight can be deleted. */
  lemma OthersCanBeDeleted(s: State, run: string)
    requires s.current != run
    ensures run !in RunFrom(s, [Api(DeleteCheck(run)), Api(Delete(run))]).rows
  {
    OneStep(s, Api(DeleteCheck(run)));
    RunMore(s, [Api(DeleteCheck(run))], Api(Delete(run)));
    assert [Api(DeleteCheck(run))] + [Api(Delete(run))] == [Api(DeleteCheck(run)), Api(Delete(run))];
  }

  lemma CheckedWaiting() returns (steps: seq<Step>, s: State)
    ensures Leads(EMPTY, steps, s, 1, false) && IsOldest(s.rows, "r") && "r" in s.deleting
    ensures s == EMPTY.(rows := s.rows, submitted := s.submitted, cancelling := s.cancelling, deleting := s.deleting)
  {
    steps, s := Submitted(1, false);
    steps, s := Then(EMPTY, steps, s, 1, false, Api(DeleteCheck("r")));
  }

  /** The exception is real: a handler checks a waiting run, which is then dispatched and deleted in flight. */
  lemma DeletedInFlight() returns (steps: seq<Step>, s: State)
    ensures Leads(EMPTY, steps, s, 1, false) && s.current == "r" && "r" !in s.rows && Tally(s.handOffs, "r") == 1
  {
    steps, s := CheckedWaiting();
    steps, s := PickOn(EMPTY, steps, s, 1, false, 0, "r");
    steps, s := ClaimOn(EMPTY, steps, s, 1, false, 0, "r");
    steps, s := Then(EMPTY, steps, s, 1, false, Api(Delete("r")));
  }
}

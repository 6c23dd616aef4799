/**
 The single-slot dispatcher as one thread runs it, call by call. What the store and
 the orchestrator answer is an input of each call; interleaving with other threads
 is the subject of QueueProtocol.
 */
module Dispatcher {
  import opened Orders
  import opened Results
  import opened RunTable
  import opened Sums

  const MAX_DISPATCH_ATTEMPTS := 5

  /** How one dispatchNext call is answered: the queue read, DistributeTestPlan, and the two writes. */
  datatype Answers = Answers(readFails: bool, distributed: Result<nat, string>, at: int,
                             markFails: bool, giveUpFails: bool)

  datatype QueueState = QueueState(rows: Rows, current: string, attempts: map<string, nat>, handedOff: seq<string>)

  /** A counter that was never written reads as zero. */
  function Tally<K>(m: map<K, nat>, k: K): nat {
    if k in m then m[k] else 0
  }

  function Bump<K>(m: map<K, nat>, k: K): map<K, nat> {
    m[k := Tally(m, k) + 1]
  }

  /** Whether a failed call uses up the last attempt of a run. */
  predicate GivesUp(s: QueueState, id: string, env: Answers) {
    env.distributed.Err? && Tally(s.attempts, id) + 1 >= MAX_DISPATCH_ATTEMPTS
  }

  /** The effect of a call that selected `id`. */
  function Selected(s: QueueState, id: string, env: Answers): QueueState {
    if env.distributed.Ok? then
      QueueState(if env.markFails then s.rows else Dispatched(s.rows, id, env.distributed.value, env.at),
                 id, s.attempts - {id}, s.handedOff + [id])
    else if GivesUp(s, id, env) then
      s.(rows := if env.giveUpFails then s.rows else WithStatus(s.rows, id, Failed), attempts := s.attempts - {id})
    else
      s.(attempts := Bump(s.attempts, id))
  }

  /** Calls the queued runs may still cost together. */
  ghost function Budget(s: QueueState): int {
    Sum(QueuedIds(s.rows), Left(s.attempts))
  }

  function Left(attempts: map<string, nat>): string -> int {
    id => MAX_DISPATCH_ATTEMPTS - Tally(attempts, id)
  }

  /** No run is ever left with its attempts used up. */
  ghost predicate Bounded(s: QueueState) {
    forall id :: id in s.attempts ==> 0 < s.attempts[id] < MAX_DISPATCH_ATTEMPTS
  }

  lemma RetryUsesBudget(s: QueueState, id: string, env: Answers)
    requires IsQueued(s.rows, id) && env.distributed.Err? && !GivesUp(s, id, env)
    ensures Budget(Selected(s, id, env)) == Budget(s) - 1
  {
    var left' := Left(Selected(s, id, env).attempts);
    assert id in QueuedIds(s.rows);
    SumRemove(QueuedIds(s.rows), id, Left(s.attempts));
    SumRemove(QueuedIds(s.rows), id, left');
    SumCong(QueuedIds(s.rows) - {id}, Left(s.attempts), left');
  }

  lemma LeavingUsesBudget(s: QueueState, id: string, after: QueueState)
    requires Leaves(s.rows, after.rows, id) && after.attempts == s.attempts - {id}
    ensures Budget(after) == Budget(s) - Left(s.attempts)(id)
  {
    assert id in QueuedIds(s.rows);
    SumRemove(QueuedIds(s.rows), id, Left(s.attempts));
    SumCong(QueuedIds(after.rows), Left(s.attempts), Left(after.attempts));
  }

  /** Every selecting call whose writes succeed costs the queue at least one of its remaining calls. */
  lemma SelectingUsesBudget(s: QueueState, id: string, env: Answers)
    requires IsQueued(s.rows, id) && Bounded(s) && !env.markFails && !env.giveUpFails
    ensures Bounded(Selected(s, id, env))
    ensures 0 <= Budget(Selected(s, id, env)) < Budget(s)
    ensures env.distributed.Err? ==> Budget(Selected(s, id, env)) == Budget(s) - 1
  {
    var s' := Selected(s, id, env);
    SumNonNegative(QueuedIds(s'.rows), Left(s'.attempts));
    if env.distributed.Err? && !GivesUp(s, id, env) {
      RetryUsesBudget(s, id, env);
    } else {
      LeavingUsesBudget(s, id, s');
    }
  }

  /** A call that asks to be repeated has forgotten a run's attempts, whatever the store did. */
  lemma AgainForgets(s: QueueState, id: string, env: Answers)
    requires GivesUp(s, id, env)
    ensures Selected(s, id, env).attempts.Keys < s.attempts.Keys
  {
    assert id in s.attempts;
  }

  /** FIFO: with distinct submission times a run that fails but has attempts left is the only next choice. */
  lemma FailingHeadBlocks(s: QueueState, id: string, env: Answers, next: string)
    requires DistinctStarts(s.rows) && IsOldest(s.rows, id)
    requires env.distributed.Err? && !GivesUp(s, id, env)
    ensures IsOldest(Selected(s, id, env).rows, next) <==> next == id
  {
  }

  /** The effect of calls that all selected `id`, each with its own answers. */
  function AfterCalls(s: QueueState, id: string, envs: seq<Answers>): QueueState {
    if envs == [] then s else Selected(AfterCalls(s, id, envs[..|envs| - 1]), id, envs[|envs| - 1])
  }

  predicate AllFail(envs: seq<Answers>) {
    forall i :: 0 <= i < |envs| ==> envs[i].distributed.Err?
  }

  lemma {:induction false} FailuresAreCounted(s: QueueState, id: string, envs: seq<Answers>)
    requires envs != [] && AllFail(envs) && Tally(s.attempts, id) + |envs| < MAX_DISPATCH_ATTEMPTS
    ensures AfterCalls(s, id, envs) == s.(attempts := s.attempts[id := Tally(s.attempts, id) + |envs|])
  {
    var n := |envs| - 1;
    if n == 0 {
      assert AfterCalls(s, id, envs[..0]) == s;
    } else {
      FailuresAreCounted(s, id, envs[..n]);
      var count := Tally(s.attempts, id) + n;
      assert s.attempts[id := count][id := count + 1] == s.attempts[id := count + 1];
    }
  }

  /** While it has attempts left a failing head keeps its row and its place. */
  lemma FailuresKeepRows(s: QueueState, id: string, envs: seq<Answers>)
    requires AllFail(envs) && Tally(s.attempts, id) + |envs| < MAX_DISPATCH_ATTEMPTS
    ensures AfterCalls(s, id, envs).rows == s.rows
  {
    if envs != [] {
      FailuresAreCounted(s, id, envs);
    }
  }

  lemma LastFailure(s: QueueState, id: string, envs: seq<Answers>)
    requires envs != [] && AllFail(envs) && Tally(s.attempts, id) + |envs| == MAX_DISPATCH_ATTEMPTS
    ensures AfterCalls(s, id, envs)
            == s.(rows := if envs[|envs| - 1].giveUpFails then s.rows else WithStatus(s.rows, id, Failed),
                  attempts := s.attempts - {id})
  {
    var before := envs[..|envs| - 1];
    if before != [] {
      FailuresAreCounted(s, id, before);
      ForgetAfter(s.attempts, id, MAX_DISPATCH_ATTEMPTS - 1);
    }
  }

  lemma ForgetAfter(m: map<string, nat>, id: string, n: nat)
    ensures m[id := n] - {id} == m - {id}
  {
  }

  /**
   The head of the queue gets exactly five calls, whatever each is answered besides failing: it
   stays first until the last of them, which fails the run unless that write fails too, and then
   starts it afresh.
   */
  lemma FiveFailuresFailTheRun(s: QueueState, id: string, envs: seq<Answers>)
    requires IsOldest(s.rows, id) && envs != [] && AllFail(envs)
    requires Tally(s.attempts, id) + |envs| == MAX_DISPATCH_ATTEMPTS
    ensures forall n :: 0 <= n < |envs| ==> IsOldest(AfterCalls(s, id, envs[..n]).rows, id)
    ensures AfterCalls(s, id, envs)
            == s.(rows := if envs[|envs| - 1].giveUpFails then s.rows else WithStatus(s.rows, id, Failed),
                  attempts := s.attempts - {id})
  {
    forall n | 0 <= n < |envs| ensures IsOldest(AfterCalls(s, id, envs[..n]).rows, id) {
      FailuresKeepRows(s, id, envs[..n]);
    }
    LastFailure(s, id, envs);
  }

  /** From its first call on that is: four failures leave it queued, and the fifth fails it. */
  lemma FifthFailure(s: QueueState, id: string, envs: seq<Answers>)
    requires IsOldest(s.rows, id) && id !in s.attempts && |envs| == 5 && AllFail(envs) && !envs[4].giveUpFails
    ensures AfterCalls(s, id, envs[..4]).rows == s.rows
    ensures id in AfterCalls(s, id, envs).rows && AfterCalls(s, id, envs).rows[id].status == Failed
    ensures id !in AfterCalls(s, id, envs).attempts
  {
    FailuresKeepRows(s, id, envs[..4]);
    FiveFailuresFailTheRun(s, id, envs);
  }

  // ---------- the queue ----------

  class Queue {
    const store: RunTable
    var current: string
    var attempts: map<string, nat>
    ghost var handedOff: seq<string>

    ghost function State(): QueueState
      reads this, store
    {
      QueueState(store.rows, current, attempts, handedOff)
    }

    /** "" stands for an idle slot, so it must not be a run's ID. */
    ghost predicate Valid()
      reads this, store
    {
      "" !in store.rows
    }

    constructor (store: RunTable)
      requires "" !in store.rows
      ensures Valid() && this.store == store && State() == QueueState(store.rows, "", map[], [])
    {
      this.store, current, attempts, handedOff := store, "", map[], [];
    }

    /** Starts the oldest queued run; `again` asks the caller to call once more straight away. */
    method DispatchNext(env: Answers) returns (again: bool, ghost picked: Option<string>)
      requires Valid()
      modifies this, store
      ensures Valid()
      ensures picked.None? ==> State() == old(State()) && !again
      ensures picked.None? <==> old(current) != "" || env.readFails || QueuedIds(old(store.rows)) == {}
      ensures picked.Some? ==> old(current) == "" && IsOldest(old(store.rows), picked.value)
      ensures picked.Some? ==> State() == Selected(old(State()), picked.value, env)
      ensures picked.Some? ==> again == GivesUp(old(State()), picked.value, env)
    {
      picked := None;
      if current != "" {
        return false, None;
      }
      if env.readFails {
        return false, None;
      }
      var next := store.NextQueued();
      if next.Err? {
        return false, None;
      }
      var id := next.value;
      assert id in QueuedIds(store.rows);
      picked := Some(id);
      current := id;
      var ok := Dispatch(id, env);
      if !ok {
        var n := Tally(attempts, id) + 1;
        attempts := attempts[id := n];
        Release(id);
        if n < MAX_DISPATCH_ATTEMPTS {
          return false, picked;
        }
        if !env.giveUpFails {
          var _ := store.SetRunStatus(id, Failed);
        }
        attempts := attempts - {id};
        assert attempts == old(attempts) - {id};
        return true, picked;
      }
      attempts := attempts - {id};
      again := false;
    }

    /** Sends the plan to the workers and hands the run to the recorder. */
    method Dispatch(id: string, env: Answers) returns (ok: bool)
      requires Valid()
      modifies store, this`handedOff
      ensures Valid() && ok == env.distributed.Ok?
      ensures store.rows == if ok && !env.markFails
        then Dispatched(old(store.rows), id, env.distributed.value, env.at)
        else old(store.rows)
      ensures handedOff == if ok then old(handedOff) + [id] else old(handedOff)
    {
      if env.distributed.Err? {
        return false;
      }
      if !env.markFails {
        var _ := store.MarkDispatched(id, env.distributed.value, env.at);
      }
      handedOff := handedOff + [id];
      ok := true;
    }

    method Release(id: string)
      modifies this`current
      ensures current == if old(current) == id then "" else old(current)
    {
      if current == id {
        current := "";
      }
    }

    /**
     The inner loop of the dispatcher. It ends for every behaviour of the store and the
     orchestrator, because each repetition forgets a run's attempts.
     */
    method Drain(env: nat -> Answers) returns (calls: nat)
      requires Valid()
      modifies this, store
      ensures Valid() && 0 < calls <= |old(attempts)| + 1
      ensures |handedOff| <= |old(handedOff)| + 1
      ensures |handedOff| == |old(handedOff)| + 1 ==> current == handedOff[|handedOff| - 1]
    {
      calls := 0;
      var again := true;
      while again
        invariant Valid()
        invariant again ==> calls + |attempts| <= |old(attempts)| && handedOff == old(handedOff)
        invariant !again ==> 0 < calls <= |old(attempts)| + 1
        invariant |handedOff| <= |old(handedOff)| + 1
        invariant |handedOff| == |old(handedOff)| + 1 ==> current == handedOff[|handedOff| - 1]
        decreases again, |attempts|
      {
        ghost var before := State();
        ghost var picked: Option<string>;
        again, picked := DispatchNext(env(calls));
        if again {
          AgainForgets(before, picked.value, env(calls));
          SubsetSize(attempts.Keys, before.attempts.Keys);
        }
        calls := calls + 1;
      }
    }

    /** Cancels a run that has not started; refuses any other. */
    method Cancel(id: string) returns (ok: bool)
      requires Valid()
      modifies store
      ensures Valid() && ok == IsQueued(old(store.rows), id)
      ensures store.rows == if ok then WithStatus(old(store.rows), id, Cancelled) else old(store.rows)
    {
      var run := store.GetRun(id);
      if run.Err? || run.value.status != Queued {
        return false;
      }
      var _ := store.SetRunStatus(id, Cancelled);
      ok := true;
    }
  }
}

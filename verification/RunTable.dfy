/** The table of runs: what each SQL statement does to it, and queue ranks. */
module RunTable {
  import opened Orders
  import opened Results

  /** Queue states, followed by the orchestrator's own. */
  datatype RunStatus = Queued | Cancelled | Running | Failed | Unknown | Pending | Completed | Stopped

  datatype Summary = Summary(totalRequests: int, totalErrors: int, errorPct: real,
                             peakRPS: real, avgRPS: real, p95Ms: real, p99Ms: real)

  datatype Row = Row(status: RunStatus, startedAt: int, finishedAt: Option<int>,
                     dispatchedAt: Option<int>, workers: int, summary: Option<Summary>)

  type Rows = map<string, Row>

  // ---------- what the statements do ----------

  predicate IsQueued(rows: Rows, id: string) {
    id in rows && rows[id].status == Queued
  }

  function WithStatus(rows: Rows, id: string, status: RunStatus): Rows {
    if id in rows then rows[id := rows[id].(status := status)] else rows
  }

  /** Moves a run into execution, unless it is not queued any more. */
  function Dispatched(rows: Rows, id: string, workers: int, at: int): Rows {
    if IsQueued(rows, id) then
      rows[id := rows[id].(status := Running, dispatchedAt := Some(at), workers := workers)]
    else rows
  }

  /** Writes the final row, whatever the run's status was. */
  function Finished(rows: Rows, id: string, status: RunStatus, at: int, summary: Summary): Rows {
    if id in rows then
      rows[id := rows[id].(status := status, finishedAt := Some(at), summary := Some(summary))]
    else rows
  }

  function Interrupted(row: Row, at: int): Row {
    if row.status == Running then row.(status := Failed, finishedAt := Some(at)) else row
  }

  function QueuedIds(rows: Rows): set<string> {
    set id | id in rows && rows[id].status == Queued
  }

  ghost predicate IsOldest(rows: Rows, id: string) {
    IsQueued(rows, id) && forall o :: IsQueued(rows, o) ==> rows[id].startedAt <= rows[o].startedAt
  }

  /** Which columns each write changes, of the one row it is for. */
  lemma WritesColumns(rows: Rows, id: string, status: RunStatus, workers: int, at: int, summary: Summary)
    requires id in rows
    ensures var r := rows[id];
      && WithStatus(rows, id, status)
         == rows[id := Row(status, r.startedAt, r.finishedAt, r.dispatchedAt, r.workers, r.summary)]
      && Finished(rows, id, status, at, summary)
         == rows[id := Row(status, r.startedAt, Some(at), r.dispatchedAt, r.workers, Some(summary))]
      && Dispatched(rows, id, workers, at)
         == (if r.status != Queued then rows
             else rows[id := Row(Running, r.startedAt, r.finishedAt, Some(at), workers, r.summary)])
  {
  }

  /** No write makes a row. */
  lemma WritesMissing(rows: Rows, id: string, status: RunStatus, workers: int, at: int, summary: Summary)
    requires id !in rows
    ensures WithStatus(rows, id, status) == Finished(rows, id, status, at, summary)
            == Dispatched(rows, id, workers, at) == rows
  {
  }

  /** A restart leaves no run RUNNING: those that were are FAILED, at that time, and the rest are as before. */
  lemma RestartEndsRunning(row: Row, at: int)
    ensures Interrupted(row, at).status != Running
    ensures row.status == Running ==>
      Interrupted(row, at) == Row(Failed, row.startedAt, Some(at), row.dispatchedAt, row.workers, row.summary)
    ensures row.status != Running ==> Interrupted(row, at) == row
  {
  }

  // ---------- ranks ----------

  function StartedBefore(rows: Rows): (string, string) -> bool {
    (a, b) => a in rows && b in rows && rows[a].startedAt < rows[b].startedAt
  }

  /** How many queued runs were submitted earlier; an unknown run has none ahead. */
  ghost function Rank(rows: Rows, id: string): nat {
    |Below(QueuedIds(rows), StartedBefore(rows), id)|
  }

  ghost predicate HasRank(rows: Rows, id: string, r: nat) {
    IsQueued(rows, id) && Rank(rows, id) == r
  }

  ghost predicate RankTaken(rows: Rows, r: nat) {
    exists id :: HasRank(rows, id, r)
  }

  ghost predicate DistinctStarts(rows: Rows) {
    forall a, b :: IsQueued(rows, a) && IsQueued(rows, b) && a != b ==> rows[a].startedAt != rows[b].startedAt
  }

  lemma QueueIsOrdered(rows: Rows)
    requires DistinctStarts(rows)
    ensures StrictTotal(QueuedIds(rows), StartedBefore(rows))
  {
    forall a, b | a in QueuedIds(rows) && b in QueuedIds(rows) && a != b
      ensures StartedBefore(rows)(a, b) || StartedBefore(rows)(b, a)
    {
      assert IsQueued(rows, a) && IsQueued(rows, b);
    }
  }

  /** The ranks of n queued runs are 0, 1, .., n - 1, once each. */
  lemma RanksNumberTheQueue(rows: Rows)
    requires DistinctStarts(rows)
    ensures forall id :: id in QueuedIds(rows) ==> Rank(rows, id) < |QueuedIds(rows)|
    ensures forall a, b :: a in QueuedIds(rows) && b in QueuedIds(rows) && Rank(rows, a) == Rank(rows, b) ==> a == b
    ensures forall r :: 0 <= r < |QueuedIds(rows)| ==> RankTaken(rows, r)
  {
    var queued, before := QueuedIds(rows), StartedBefore(rows);
    QueueIsOrdered(rows);
    forall id | id in queued ensures Rank(rows, id) < |queued| { BelowSize(queued, before, id); }
    forall a, b | a in queued && b in queued && Rank(rows, a) == Rank(rows, b) ensures a == b {
      if a != b {
        if before(a, b) { BelowMonotone(queued, before, a, b); } else { BelowMonotone(queued, before, b, a); }
      }
    }
    forall r | 0 <= r < |queued| ensures RankTaken(rows, r) {
      var id := AtRank(queued, before, r);
      assert HasRank(rows, id, r);
    }
  }

  /** Rank zero is exactly what NextQueued may return, ties or not. */
  lemma HeadHasRankZero(rows: Rows, id: string)
    requires IsQueued(rows, id)
    ensures Rank(rows, id) == 0 <==> IsOldest(rows, id)
  {
    var ahead := Below(QueuedIds(rows), StartedBefore(rows), id);
    if ahead == {} {
      forall o | IsQueued(rows, o) ensures rows[id].startedAt <= rows[o].startedAt {
        assert o in QueuedIds(rows) && o !in ahead;
      }
    } else {
      var o :| o in ahead;
      assert IsQueued(rows, o);
    }
  }

  /** `gone` has left the queue and nothing else about the queue has changed. */
  ghost predicate Leaves(rows: Rows, after: Rows, gone: string) {
    && IsQueued(rows, gone) && QueuedIds(after) == QueuedIds(rows) - {gone}
    && forall id :: id in QueuedIds(after) ==> id in after && after[id].startedAt == rows[id].startedAt
  }

  /** A run leaves the queue when it is dispatched, finished, given any other status, or deleted. */
  lemma WaysToLeave(rows: Rows, id: string, workers: int, status: RunStatus, at: int, summary: Summary)
    requires IsQueued(rows, id) && status != Queued
    ensures Leaves(rows, Dispatched(rows, id, workers, at), id)
    ensures Leaves(rows, Finished(rows, id, status, at, summary), id)
    ensures Leaves(rows, WithStatus(rows, id, status), id)
    ensures Leaves(rows, rows - {id}, id)
  {
  }

  /** A run that leaves moves exactly the runs behind it one place forward. */
  lemma LeavingShiftsRanks(rows: Rows, after: Rows, gone: string, id: string)
    requires Leaves(rows, after, gone) && IsQueued(after, id)
    ensures Rank(after, id) == Rank(rows, id) - if rows[gone].startedAt < rows[id].startedAt then 1 else 0
  {
    assert id in QueuedIds(after);
    var ahead := Below(QueuedIds(rows), StartedBefore(rows), id);
    var ahead' := Below(QueuedIds(after), StartedBefore(after), id);
    assert ahead' == ahead - {gone};
    assert gone in ahead <==> rows[gone].startedAt < rows[id].startedAt;
  }

  /** When the head of the queue leaves, every other queued run moves up by one. */
  lemma HeadLeaves(rows: Rows, after: Rows, head: string, id: string)
    requires DistinctStarts(rows) && Leaves(rows, after, head) && IsOldest(rows, head) && IsQueued(after, id)
    ensures Rank(after, id) == Rank(rows, id) - 1
    ensures IsOldest(after, id) <==> Rank(rows, id) == 1
  {
    assert id in QueuedIds(after) && IsQueued(rows, id);
    LeavingShiftsRanks(rows, after, head, id);
    HeadHasRankZero(after, id);
  }

  /** A submission later than everything queued goes last and moves nobody. */
  lemma SubmissionGoesLast(rows: Rows, id: string, row: Row, other: string)
    requires id !in rows && row.status == Queued && IsQueued(rows, other)
    requires forall o :: IsQueued(rows, o) ==> rows[o].startedAt < row.startedAt
    ensures Rank(rows[id := row], id) == |QueuedIds(rows)|
    ensures Rank(rows[id := row], other) == Rank(rows, other)
  {
    var after := rows[id := row];
    assert QueuedIds(after) == QueuedIds(rows) + {id};
    assert Below(QueuedIds(after), StartedBefore(after), id) == QueuedIds(rows) by {
      forall o | o in QueuedIds(rows) ensures StartedBefore(after)(o, id) { assert IsQueued(rows, o); }
    }
    assert Below(QueuedIds(after), StartedBefore(after), other) == Below(QueuedIds(rows), StartedBefore(rows), other);
  }

  // ---------- the table ----------

  datatype StoreError = NotFound | Duplicate

  class RunTable {
    var rows: Rows

    constructor ()
      ensures rows == map[]
    {
      rows := map[];
    }

    method CreateRun(id: string, row: Row) returns (r: Result<(), StoreError>)
      modifies this
      ensures r == if id in old(rows) then Err(Duplicate) else Ok(())
      ensures rows == if id in old(rows) then old(rows) else old(rows)[id := row]
    {
      if id in rows { return Err(Duplicate); }
      rows := rows[id := row];
      r := Ok(());
    }

    method GetRun(id: string) returns (r: Result<Row, StoreError>)
      ensures r == if id in rows then Ok(rows[id]) else Err(NotFound)
    {
      if id in rows { r := Ok(rows[id]); } else { r := Err(NotFound); }
    }

    /** Some run with the smallest `started_at` among the queued ones. */
    method NextQueued() returns (r: Result<string, StoreError>)
      ensures r.Ok? ==> IsOldest(rows, r.value)
      ensures r.Err? ==> r.error == NotFound && QueuedIds(rows) == {}
    {
      var rest := rows.Keys;
      r := Err(NotFound);
      while rest != {}
        invariant rest <= rows.Keys
        invariant r.Err? ==> r.error == NotFound && QueuedIds(rows) <= rest
        invariant r.Ok? ==> IsQueued(rows, r.value)
        invariant r.Ok? ==> forall o :: IsQueued(rows, o) && o !in rest ==> rows[r.value].startedAt <= rows[o].startedAt
        decreases |rest|
      {
        var id :| id in rest;
        rest := rest - {id};
        if rows[id].status == Queued && (r.Err? || rows[id].startedAt < rows[r.value].startedAt) {
          assert r.Err? ==> forall o :: IsQueued(rows, o) && o !in rest ==> o == id by {
            assert forall o :: IsQueued(rows, o) ==> o in QueuedIds(rows);
          }
          r := Ok(id);
        }
      }
    }

    method MarkDispatched(id: string, workers: int, at: int) returns (r: Result<(), StoreError>)
      modifies this
      ensures r == if IsQueued(old(rows), id) then Ok(()) else Err(NotFound)
      ensures rows == Dispatched(old(rows), id, workers, at)
    {
      if id !in rows || rows[id].status != Queued { return Err(NotFound); }
      rows := rows[id := rows[id].(status := Running, dispatchedAt := Some(at), workers := workers)];
      r := Ok(());
    }

    method SetRunStatus(id: string, status: RunStatus) returns (r: Result<(), StoreError>)
      modifies this
      ensures r == if id in old(rows) then Ok(()) else Err(NotFound)
      ensures rows == WithStatus(old(rows), id, status)
    {
      if id !in rows { return Err(NotFound); }
      rows := rows[id := rows[id].(status := status)];
      r := Ok(());
    }

    method FinishRun(id: string, status: RunStatus, at: int, summary: Summary) returns (r: Result<(), StoreError>)
      modifies this
      ensures r == if id in old(rows) then Ok(()) else Err(NotFound)
      ensures rows == Finished(old(rows), id, status, at, summary)
    {
      if id !in rows { return Err(NotFound); }
      rows := rows[id := rows[id].(status := status, finishedAt := Some(at), summary := Some(summary))];
      r := Ok(());
    }

    method DeleteRun(id: string) returns (r: Result<(), StoreError>)
      modifies this
      ensures r == if id in old(rows) then Ok(()) else Err(NotFound)
      ensures rows == old(rows) - {id}
    {
      if id !in rows { return Err(NotFound); }
      rows := rows - {id};
      r := Ok(());
    }

    method CountQueuedBefore(id: string) returns (n: nat)
      ensures n == Rank(rows, id)
    {
      n := 0;
      ghost var ahead := Below(QueuedIds(rows), StartedBefore(rows), id);
      if id !in rows {
        assert ahead == {};
        return;
      }
      var rest := rows.Keys;
      ghost var counted: set<string> := {};
      while rest != {}
        invariant rest <= rows.Keys && n == |counted|
        invariant forall o :: o in counted <==> o in ahead && o !in rest
        decreases |rest|
      {
        var o :| o in rest;
        rest := rest - {o};
        if rows[o].status == Queued && rows[o].startedAt < rows[id].startedAt {
          n, counted := n + 1, counted + {o};
        }
      }
      assert counted == ahead;
    }

    /** What a restart does to the runs the previous process left RUNNING. */
    method FailInterruptedRuns(at: int) returns (n: nat)
      modifies this
      ensures rows == map id | id in old(rows) :: Interrupted(old(rows)[id], at)
      ensures forall id :: id in rows ==> rows[id].status != Running
      ensures n == |set id | id in old(rows) && old(rows)[id].status == Running|
    {
      n := |set id | id in rows && rows[id].status == Running|;
      rows := map id | id in rows :: Interrupted(rows[id], at);
    }
  }
}

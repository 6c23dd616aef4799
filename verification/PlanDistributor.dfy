/** `PlanDistributor`: peak assignment, rebalancing and completion bookkeeping. */
module PlanDistributor {
  import opened Results
  import opened Sums
  import opened HashRing
  import opened TestState

  datatype Stage = Stage(duration: int, targetVUs: int, rampUp: int)

  datatype DistributeError =
    | NoWorkers
    | InsufficientCapacity(need: int, have: int)
    | TestNotFound
    | NoWorkersForRebalancing

  function Max(a: int, b: int): int {
    if a >= b then a else b
  }

  function Min(a: int, b: int): int {
    if a <= b then a else b
  }

  // ---------- pouring an amount over nodes in list order ----------

  /**
   What a node can take: the room it has left, or `int32(share)` for any
   non-negative rounding of its proportional share, cut to its capacity.
   */
  datatype Slot = Room | Share(round: (nat, nat, nat) -> nat, capacity: nat, peak: nat) {
    function Size(held: int, n: WorkerNode): nat {
      match this
      case Room => Max(0, n.maxVUs - held)
      case Share(_, _, _) => Min(round(n.maxVUs, capacity, peak), n.maxVUs)
    }
  }

  function Given(slot: Slot, amount: int, m: map<string, int>, n: WorkerNode): nat {
    Max(0, Min(slot.Size(Get(m, n.id), n), amount))
  }

  function Grant(m: map<string, int>, id: string, given: nat): map<string, int> {
    if given > 0 then m[id := Get(m, id) + given] else m
  }

  /** Each node in turn takes up to its slot of what is left. */
  function Pour(nodes: seq<WorkerNode>, slot: Slot, amount: int, m: map<string, int>): map<string, int> {
    if nodes == [] then m
    else
      var given := Given(slot, amount, m, nodes[0]);
      Pour(nodes[1..], slot, amount - given, Grant(m, nodes[0].id, given))
  }

  /** What the listed nodes actually take. */
  function Taken(nodes: seq<WorkerNode>, slot: Slot, amount: int, m: map<string, int>): int {
    if nodes == [] then 0
    else
      var given := Given(slot, amount, m, nodes[0]);
      given + Taken(nodes[1..], slot, amount - given, Grant(m, nodes[0].id, given))
  }

  /** What the listed nodes can take together. */
  function Slots(nodes: seq<WorkerNode>, slot: Slot, m: map<string, int>): int {
    if nodes == [] then 0 else slot.Size(Get(m, nodes[0].id), nodes[0]) + Slots(nodes[1..], slot, m)
  }

  lemma {:induction false} SlotsFrame(nodes: seq<WorkerNode>, slot: Slot, m: map<string, int>, m': map<string, int>)
    requires forall n :: n in nodes ==> Get(m, n.id) == Get(m', n.id)
    ensures Slots(nodes, slot, m) == Slots(nodes, slot, m')
  {
    if nodes != [] {
      SlotsFrame(nodes[1..], slot, m, m');
    }
  }

  lemma {:induction false} SlotsNonNegative(nodes: seq<WorkerNode>, slot: Slot, m: map<string, int>)
    ensures Slots(nodes, slot, m) >= 0
  {
    if nodes != [] {
      SlotsNonNegative(nodes[1..], slot, m);
    }
  }

  lemma {:induction false} PourNothing(nodes: seq<WorkerNode>, slot: Slot, amount: int, m: map<string, int>)
    requires nodes == [] || amount == 0
    ensures Pour(nodes, slot, amount, m) == m && Taken(nodes, slot, amount, m) == 0
  {
    if nodes != [] {
      PourNothing(nodes[1..], slot, 0, m);
    }
  }

  lemma {:induction false} TakenIsWhatFits(nodes: seq<WorkerNode>, slot: Slot, amount: nat, m: map<string, int>)
    requires IsFleet(nodes)
    ensures Taken(nodes, slot, amount, m) == Min(amount, Slots(nodes, slot, m))
  {
    if nodes != [] {
      var rest, given := nodes[1..], Given(slot, amount, m, nodes[0]);
      SlotsFrame(rest, slot, m, Grant(m, nodes[0].id, given));
      SlotsNonNegative(rest, slot, m);
      TakenIsWhatFits(rest, slot, amount - given, Grant(m, nodes[0].id, given));
    }
  }

  lemma {:induction false} PourAddsTaken(nodes: seq<WorkerNode>, slot: Slot, amount: int, m: map<string, int>)
    ensures SumMap(Pour(nodes, slot, amount, m)) == SumMap(m) + Taken(nodes, slot, amount, m)
  {
    if nodes != [] {
      var id, given := nodes[0].id, Given(slot, amount, m, nodes[0]);
      SumMapUpdate(m, id, Get(m, id) + given);
      PourAddsTaken(nodes[1..], slot, amount - given, Grant(m, id, given));
    }
  }

  /** Nothing is lost and nothing is made: the total grows by what fits. */
  lemma PourConserves(nodes: seq<WorkerNode>, slot: Slot, amount: nat, m: map<string, int>)
    requires IsFleet(nodes)
    ensures SumMap(Pour(nodes, slot, amount, m)) == SumMap(m) + Min(amount, Slots(nodes, slot, m))
  {
    TakenIsWhatFits(nodes, slot, amount, m);
    PourAddsTaken(nodes, slot, amount, m);
  }

  /** Nodes only gain, and at most their slot; everyone else keeps what they had. */
  lemma {:induction false} PourBounds(nodes: seq<WorkerNode>, slot: Slot, amount: nat, m: map<string, int>,
      n: WorkerNode)
    requires IsFleet(nodes) && n in nodes
    ensures Get(m, n.id) <= Get(Pour(nodes, slot, amount, m), n.id) <= Get(m, n.id) + slot.Size(Get(m, n.id), n)
    ensures Slots(nodes, slot, m) <= amount ==>
      Get(Pour(nodes, slot, amount, m), n.id) == Get(m, n.id) + slot.Size(Get(m, n.id), n)
  {
    var rest, given := nodes[1..], Given(slot, amount, m, nodes[0]);
    var m' := Grant(m, nodes[0].id, given);
    SlotsFrame(rest, slot, m, m');
    SlotsNonNegative(rest, slot, m);
    if n == nodes[0] {
      PourFrame(rest, slot, amount - given, m', n.id);
    } else {
      PourBounds(rest, slot, amount - given, m', n);
    }
  }

  lemma {:induction false} PourFrame(nodes: seq<WorkerNode>, slot: Slot, amount: int, m: map<string, int>, id: string)
    requires forall n :: n in nodes ==> n.id != id
    ensures id in Pour(nodes, slot, amount, m) <==> id in m
    ensures id in m ==> Pour(nodes, slot, amount, m)[id] == m[id]
  {
    if nodes != [] {
      var given := Given(slot, amount, m, nodes[0]);
      PourFrame(nodes[1..], slot, amount - given, Grant(m, nodes[0].id, given), id);
    }
  }

  /** Entries appear only for listed nodes that were given something. */
  lemma {:induction false} PourKeys(nodes: seq<WorkerNode>, slot: Slot, amount: int, m: map<string, int>)
    requires forall id :: id in m ==> m[id] >= 0
    ensures forall id :: id in m ==> id in Pour(nodes, slot, amount, m) && Pour(nodes, slot, amount, m)[id] >= m[id]
    ensures forall id :: id in Pour(nodes, slot, amount, m) && id !in m ==>
      Pour(nodes, slot, amount, m)[id] > 0 && exists n :: n in nodes && n.id == id
  {
    if nodes != [] {
      var given := Given(slot, amount, m, nodes[0]);
      PourKeys(nodes[1..], slot, amount - given, Grant(m, nodes[0].id, given));
      assert nodes[0] in nodes;
    }
  }

  /** Listing the nodes of a map in any order adds up the same slots. */
  lemma {:induction false} SlotsIsSum(nodes: seq<WorkerNode>, slot: Slot, m: map<string, int>, keys: set<string>,
      f: string -> int)
    requires IsFleet(nodes)
    requires forall id :: id in keys <==> exists n :: n in nodes && n.id == id
    requires forall n :: n in nodes ==> f(n.id) == slot.Size(Get(m, n.id), n)
    ensures Slots(nodes, slot, m) == Sum(keys, f)
  {
    if nodes == [] {
      assert keys == {};
    } else {
      assert nodes[0] in nodes && forall n :: n in nodes <==> n in nodes[1..] || n == nodes[0];
      SumRemove(keys, nodes[0].id, f);
      SlotsIsSum(nodes[1..], slot, m, keys - {nodes[0].id}, f);
    }
  }

  // ---------- the two passes ----------

  /** Greedy pass over spare capacity, shared by `DistributePlan` and `RebalanceTest`. */
  method FillSpare(nodes: seq<WorkerNode>, m: map<string, int>, amount: nat) returns (filled: map<string, int>)
    ensures filled == Pour(nodes, Room, amount, m)
  {
    filled := m;
    var left: nat, rest := amount, nodes;
    while rest != [] && left > 0
      invariant Pour(rest, Room, left, filled) == Pour(nodes, Room, amount, m)
      decreases |rest|
    {
      var node := rest[0];
      var available := node.maxVUs - Get(filled, node.id);
      if available > 0 {
        var given := left;
        if given > available {
          given := available;
        }
        filled := filled[node.id := Get(filled, node.id) + given];
        left := left - given;
      }
      rest := rest[1..];
    }
    PourNothing(rest, Room, left, filled);
  }

  method AssignProportionally(nodes: seq<WorkerNode>, capacity: nat, peak: nat, round: (nat, nat, nat) -> nat)
    returns (dist: map<string, int>, remaining: nat)
    requires IsFleet(nodes)
    ensures dist == Pour(nodes, Share(round, capacity, peak), peak, map[])
    ensures remaining == peak - SumMap(dist)
  {
    dist, remaining := map[], peak;
    var rest := nodes;
    ghost var slot := Share(round, capacity, peak);
    while rest != [] && remaining > 0
      invariant Pour(rest, slot, remaining, dist) == Pour(nodes, slot, peak, map[])
      invariant remaining - Taken(rest, slot, remaining, dist) == peak - Taken(nodes, slot, peak, map[])
      invariant IsFleet(rest) && forall n :: n in rest ==> n.id !in dist
      decreases |rest|
    {
      var node := rest[0];
      var given := round(node.maxVUs, capacity, peak);
      if given > node.maxVUs {
        given := node.maxVUs;
      }
      if given > remaining {
        given := remaining;
      }
      assert node in rest && Get(dist, node.id) == 0;
      if given > 0 {
        dist := dist[node.id := given];
        remaining := remaining - given;
      }
      rest := rest[1..];
    }
    PourNothing(rest, slot, remaining, dist);
    PourAddsTaken(nodes, slot, peak, map[]);
    SumMapEmpty();
  }

  // ---------- whole-fleet sums ----------

  /** What every node but `except` can take together. */
  ghost function SlotSizes(fleet: map<string, WorkerNode>, slot: Slot, m: map<string, int>): string -> int {
    id => if id in fleet then slot.Size(Get(m, id), fleet[id]) else 0
  }

  ghost function FleetSlots(fleet: map<string, WorkerNode>, except: set<string>, slot: Slot, m: map<string, int>): int {
    Sum(fleet.Keys - except, SlotSizes(fleet, slot, m))
  }

  ghost function Capacities(fleet: map<string, WorkerNode>): string -> int {
    id => if id in fleet then fleet[id].maxVUs else 0
  }

  ghost function FleetCapacity(fleet: map<string, WorkerNode>): int {
    Sum(fleet.Keys, Capacities(fleet))
  }

  lemma ListingSlots(nodes: seq<WorkerNode>, fleet: map<string, WorkerNode>, except: set<string>, slot: Slot,
      m: map<string, int>)
    requires WellKeyed(fleet) && IsListing(nodes, fleet - except)
    ensures Slots(nodes, slot, m) == FleetSlots(fleet, except, slot, m)
  {
    forall id ensures id in fleet.Keys - except <==> exists n :: n in nodes && n.id == id {
      if id in fleet.Keys - except {
        assert fleet[id] in nodes;
      }
    }
    SlotsIsSum(nodes, slot, m, fleet.Keys - except, SlotSizes(fleet, slot, m));
  }

  /** Rounding the exact share down. */
  ghost predicate IsFloor(round: (nat, nat, nat) -> nat) {
    forall m: nat, c: nat, p: nat :: c > 0 ==> round(m, c, p) == m * p / c
  }

  lemma FloorBelow(c: nat, m: nat, p: nat)
    requires c > 0
    ensures c * (m * p / c) <= p * m
  {
  }

  lemma FloorShare(round: (nat, nat, nat) -> nat, n: WorkerNode, c: nat, p: nat)
    requires IsFloor(round) && c > 0
    ensures c * Share(round, c, p).Size(0, n) <= p * n.maxVUs
  {
    assert round(n.maxVUs, c, p) == n.maxVUs * p / c;
    MulOrder(c, Share(round, c, p).Size(0, n), n.maxVUs * p / c);
    FloorBelow(c, n.maxVUs, p);
  }

  lemma FloorSharesScaled(fleet: map<string, WorkerNode>, round: (nat, nat, nat) -> nat, c: nat, peak: nat)
    requires IsFloor(round) && c > 0
    ensures c * Sum(fleet.Keys, SlotSizes(fleet, Share(round, c, peak), map[]))
            <= peak * Sum(fleet.Keys, Capacities(fleet))
  {
    var sizes := SlotSizes(fleet, Share(round, c, peak), map[]);
    forall id | id in fleet.Keys ensures c * sizes(id) <= peak * Capacities(fleet)(id) {
      FloorShare(round, fleet[id], c, peak);
    }
    SumScaledMono(fleet.Keys, c, sizes, peak, Capacities(fleet));
  }

  /** The proportional shares, rounded down, fit into the peak together. */
  lemma FloorSharesFit(fleet: map<string, WorkerNode>, round: (nat, nat, nat) -> nat, peak: nat)
    requires IsFloor(round) && 0 < FleetCapacity(fleet)
    ensures FleetSlots(fleet, {}, Share(round, FleetCapacity(fleet), peak), map[]) <= peak
  {
    var c := FleetCapacity(fleet);
    assert fleet.Keys - {} == fleet.Keys;
    FloorSharesScaled(fleet, round, c, peak);
    MulOrder(c, FleetSlots(fleet, {}, Share(round, c, peak), map[]), peak);
  }

  // ---------- the peak assignment ----------

  /** Positive assignments to registered nodes, within capacity, adding up to the peak. */
  ghost predicate IsAssignment(fleet: map<string, WorkerNode>, peak: int, dist: map<string, int>) {
    && SumMap(dist) == peak
    && forall id :: id in dist ==> id in fleet && 0 < dist[id] <= fleet[id].maxVUs
  }

  /** The spare capacity behind a first pass is at least what the first pass left over. */
  lemma SpareCoversRest(fleet: map<string, WorkerNode>, m: map<string, int>)
    requires m.Keys <= fleet.Keys
    ensures FleetSlots(fleet, {}, Room, m) >= FleetCapacity(fleet) - SumMap(m)
  {
    var keys, spare := fleet.Keys, SlotSizes(fleet, Room, m);
    var atLeast := (id: string) => Capacities(fleet)(id) - Get(m, id);
    assert keys - {} == keys;
    forall id | id in keys ensures atLeast(id) <= spare(id) {
      assert spare(id) == Room.Size(Get(m, id), fleet[id]);
      assert Capacities(fleet)(id) == fleet[id].maxVUs;
    }
    SumMono(keys, atLeast, spare);
    SumAdd(keys, atLeast, Values(m), Capacities(fleet));
    SumSuperset(keys, m);
  }

  /** First pass: every entry is a registered node within capacity. */
  lemma FirstPass(nodes: seq<WorkerNode>, fleet: map<string, WorkerNode>, slot: Slot, peak: nat,
      first: map<string, int>)
    requires WellKeyed(fleet) && IsListing(nodes, fleet) && slot.Share?
    requires first == Pour(nodes, slot, peak, map[])
    ensures SumMap(first) == Min(peak, FleetSlots(fleet, {}, slot, map[]))
    ensures forall id :: id in first ==> id in fleet && 0 < first[id] <= fleet[id].maxVUs
    ensures FleetSlots(fleet, {}, slot, map[]) <= peak ==> CoversShares(fleet, slot, first)
  {
    assert fleet - {} == fleet;
    PourConserves(nodes, slot, peak, map[]);
    ListingSlots(nodes, fleet, {}, slot, map[]);
    PourKeys(nodes, slot, peak, map[]);
    SumMapEmpty();
    forall id | id in fleet
      ensures Get(first, id) <= fleet[id].maxVUs
      ensures FleetSlots(fleet, {}, slot, map[]) <= peak ==> Get(first, id) >= slot.Size(0, fleet[id])
    {
      FirstShare(nodes, fleet, slot, peak, first, id);
    }
  }

  lemma FirstShare(nodes: seq<WorkerNode>, fleet: map<string, WorkerNode>, slot: Slot, peak: nat,
      first: map<string, int>, id: string)
    requires WellKeyed(fleet) && IsListing(nodes, fleet) && slot.Share? && id in fleet
    requires first == Pour(nodes, slot, peak, map[])
    ensures Get(first, id) <= fleet[id].maxVUs
    ensures Slots(nodes, slot, map[]) <= peak ==> Get(first, id) >= slot.Size(0, fleet[id])
  {
    assert fleet[id] in nodes;
    PourBounds(nodes, slot, peak, map[], fleet[id]);
  }

  lemma SumMapEmpty()
    ensures SumMap<string>(map[]) == 0
  {
    var none: map<string, int> := map[];
    assert none.Keys == {};
  }

  /** Second pass: with enough capacity the rest is placed, and no first-pass share shrinks. */
  lemma SecondPass(nodes: seq<WorkerNode>, fleet: map<string, WorkerNode>, first: map<string, int>, peak: nat,
      left: nat, dist: map<string, int>)
    requires WellKeyed(fleet) && IsListing(nodes, fleet) && peak <= FleetCapacity(fleet)
    requires forall id :: id in first ==> id in fleet && 0 < first[id] <= fleet[id].maxVUs
    requires left == peak - SumMap(first) && dist == Pour(nodes, Room, left, first)
    ensures IsAssignment(fleet, peak, dist)
    ensures forall id :: id in fleet ==> Get(dist, id) >= Get(first, id)
  {
    assert fleet - {} == fleet;
    PourConserves(nodes, Room, left, first);
    ListingSlots(nodes, fleet, {}, Room, first);
    SpareCoversRest(fleet, first);
    PourKeys(nodes, Room, left, first);
    forall id | id in dist ensures id in fleet && 0 < dist[id] <= fleet[id].maxVUs {
      RoomStaysWithinCapacity(nodes, fleet, first, left, id);
    }
  }

  lemma RoomStaysWithinCapacity(nodes: seq<WorkerNode>, fleet: map<string, WorkerNode>, m: map<string, int>,
      amount: nat, id: string)
    requires WellKeyed(fleet) && IsListing(nodes, fleet) && id in Pour(nodes, Room, amount, m)
    requires forall j :: j in m ==> j in fleet && 0 < m[j] <= fleet[j].maxVUs
    ensures id in fleet && 0 < Pour(nodes, Room, amount, m)[id] <= fleet[id].maxVUs
  {
    PourKeys(nodes, Room, amount, m);
    if id !in m {
      var n :| n in nodes && n.id == id;
      assert n == fleet[id];
    }
    assert fleet[id] in nodes;
    PourBounds(nodes, Room, amount, m, fleet[id]);
  }

  // ---------- rebalancing ----------

  /** What a greedy pass over the other nodes makes of a test that lost a worker. */
  lemma RebalancePass(nodes: seq<WorkerNode>, fleet: map<string, WorkerNode>, failed: string, workers: map<string, int>,
                      rest: map<string, int>, after: map<string, int>)
    requires WellKeyed(fleet) && IsListing(nodes, fleet - {failed}) && NonNegative(workers)
    requires rest == workers - {failed} && after == Pour(nodes, Room, Get(workers, failed), rest)
    ensures RebalanceFacts(fleet, failed, workers, after) && NonNegative(after)
    ensures nodes == [] ==> after == rest
  {
    var lost := Get(workers, failed);
    RebalanceTotal(nodes, fleet, failed, workers);
    PourKeys(nodes, Room, lost, rest);
    PourFrame(nodes, Room, lost, rest, failed);
    forall id | id in after
      ensures id in rest || id in fleet
      ensures after[id] <= Max(Get(workers, id), if id in fleet then fleet[id].maxVUs else 0)
    {
      RebalanceBound(nodes, fleet, failed, workers, id);
    }
  }

  lemma RebalanceTotal(nodes: seq<WorkerNode>, fleet: map<string, WorkerNode>, failed: string,
      workers: map<string, int>)
    requires WellKeyed(fleet) && IsListing(nodes, fleet - {failed}) && NonNegative(workers)
    ensures SumMap(Pour(nodes, Room, Get(workers, failed), workers - {failed}))
            == SumMap(workers) - Max(0, Get(workers, failed) - FleetSlots(fleet, {failed}, Room, workers))
  {
    SumMapDelete(workers, failed);
    PourConserves(nodes, Room, Get(workers, failed), workers - {failed});
    ListingSlots(nodes, fleet, {failed}, Room, workers - {failed});
    SpareFrame(fleet, failed, workers);
  }

  /** The spare capacity of the other nodes does not depend on the failed worker's entry. */
  lemma SpareFrame(fleet: map<string, WorkerNode>, failed: string, workers: map<string, int>)
    ensures FleetSlots(fleet, {failed}, Room, workers - {failed}) == FleetSlots(fleet, {failed}, Room, workers)
  {
    SumCong(fleet.Keys - {failed}, SlotSizes(fleet, Room, workers - {failed}), SlotSizes(fleet, Room, workers));
  }

  lemma RebalanceBound(nodes: seq<WorkerNode>, fleet: map<string, WorkerNode>, failed: string,
      workers: map<string, int>, id: string)
    requires WellKeyed(fleet) && IsListing(nodes, fleet - {failed})
    requires NonNegative(workers)
    requires id in Pour(nodes, Room, Get(workers, failed), workers - {failed})
    ensures id in workers - {failed} || id in fleet
    ensures Pour(nodes, Room, Get(workers, failed), workers - {failed})[id]
            <= Max(Get(workers, id), if id in fleet then fleet[id].maxVUs else 0)
  {
    var lost, rest := Get(workers, failed), workers - {failed};
    PourKeys(nodes, Room, lost, rest);
    if id in fleet && id != failed {
      assert fleet[id] in nodes;
      PourBounds(nodes, Room, lost, rest, fleet[id]);
    } else {
      assert forall n :: n in nodes ==> n.id != id;
      PourFrame(nodes, Room, lost, rest, id);
    }
  }

  /**
   The failed worker is gone, the total falls by exactly what the other nodes'
   spare capacity cannot absorb, no node is filled beyond its capacity, and no
   survivor loses anything.
   */
  ghost predicate RebalanceFacts(fleet: map<string, WorkerNode>, failed: string, workers: map<string, int>,
      after: map<string, int>) {
    && failed !in after
    && SumMap(after) == SumMap(workers) - Max(0, Get(workers, failed) - FleetSlots(fleet, {failed}, Room, workers))
    && (forall id :: id in workers && id != failed ==> id in after && after[id] >= workers[id])
    && (forall id :: id in after ==> id in workers || id in fleet)
    && (forall id :: id in after ==> after[id] <= Max(Get(workers, id), if id in fleet then fleet[id].maxVUs else 0))
  }

  // ---------- the distributor ----------

  class ActiveTest {
    const plan: seq<Stage>
    var workers: map<string, int>
    var status: TestStatus
    var done: set<string>

    function View(): TestView
      reads this
    {
      TestView(workers, status, done)
    }

    constructor (plan: seq<Stage>, workers: map<string, int>)
      ensures this.plan == plan && View() == TestView(workers, Running, {})
    {
      this.plan, this.workers := plan, workers;
      status, done := Running, {};
    }

    method MarkWorkerDone(workerID: string) returns (fire: bool)
      modifies this
      ensures View() == MarkDone(old(View()), workerID)
      ensures fire == FiresCompletion(old(View()), workerID)
    {
      if workerID !in workers {
        return false;
      }
      done := done + {workerID};
      if status != Running {
        return false;
      }
      fire := |done| >= |workers|;
    }

    /** Takes the failed worker out and pours its virtual users over the other nodes. */
    method Rebalance(nodes: seq<WorkerNode>, ghost fleet: map<string, WorkerNode>, failedWorkerID: string)
      returns (r: Result<(), DistributeError>)
      requires NonNegative(workers) && WellKeyed(fleet) && IsListing(nodes, fleet)
      modifies this
      ensures r == if fleet.Keys <= {failedWorkerID} then Err(NoWorkersForRebalancing) else Ok(())
      ensures View() == old(View()).(workers := workers) && NonNegative(workers)
      ensures RebalanceFacts(fleet, failedWorkerID, old(workers), workers)
    {
      var reassigned := Get(workers, failedWorkerID);
      ghost var before := workers;
      workers := workers - {failedWorkerID};
      var available := OtherNodes(nodes, failedWorkerID);
      OthersListing(nodes, fleet, failedWorkerID, available);
      RebalancePass(available, fleet, failedWorkerID, before, workers, Pour(available, Room, reassigned, workers));
      if |available| == 0 {
        return Err(NoWorkersForRebalancing);
      }
      workers := FillSpare(available, workers, reassigned);
      r := Ok(());
    }
  }

  ghost function PeakTarget(plan: seq<Stage>): (peak: nat)
    ensures forall i :: 0 <= i < |plan| ==> plan[i].targetVUs <= peak
    ensures peak == 0 || exists i :: 0 <= i < |plan| && plan[i].targetVUs == peak
  {
    if plan == [] then 0
    else
      var rest := PeakTarget(plan[..|plan| - 1]);
      var last := plan[|plan| - 1].targetVUs;
      if last > rest then last else rest
  }

  class PlanDistributor {
    const nodeManager: NodeManager
    var activeTests: map<string, ActiveTest>

    ghost predicate Valid()
      reads this, nodeManager, nodeManager.ring, activeTests.Values
    {
      && nodeManager.Valid()
      && (forall id :: id in activeTests ==> NonNegative(activeTests[id].workers))
      && forall a, b :: a in activeTests && b in activeTests && activeTests[a] == activeTests[b] ==> a == b
    }

    /** The state of every stored test. */
    ghost function Tests(): map<string, TestView>
      reads this, activeTests.Values
    {
      map id | id in activeTests :: activeTests[id].View()
    }

    constructor (nodeManager: NodeManager)
      requires nodeManager.Valid()
      ensures Valid() && this.nodeManager == nodeManager && Tests() == map[]
    {
      this.nodeManager := nodeManager;
      activeTests := map[];
    }

    method PlanForFleet(plan: seq<Stage>, round: (nat, nat, nat) -> nat)
      returns (r: Result<map<string, int>, DistributeError>)
      requires Valid()
      ensures Planned(nodeManager.nodes, plan, round, r) && (r.Ok? ==> NonNegative(r.value))
    {
      var nodes := nodeManager.GetNodes();
      r := PlanAssignment(nodes, nodeManager.nodes, plan, round);
    }

    /** For any node order and any non-negative rounding of the proportional share. */
    method DistributePlan(testID: string, plan: seq<Stage>, round: (nat, nat, nat) -> nat)
      returns (r: Result<map<string, int>, DistributeError>)
      requires Valid()
      modifies this
      ensures Valid() && Planned(old(nodeManager.nodes), plan, round, r)
      ensures r.Err? ==> activeTests == old(activeTests)
      ensures r.Ok? ==>
        && Tests() == old(Tests())[testID := TestView(r.value, Running, {})]
        && testID in activeTests && activeTests[testID].plan == plan
    {
      r := PlanForFleet(plan, round);
      if r.Ok? {
        StoreTest(testID, plan, r.value);
      }
    }

    /** Replaces whatever was stored under the test ID. */
    method StoreTest(testID: string, plan: seq<Stage>, dist: map<string, int>)
      requires Valid() && NonNegative(dist)
      modifies this
      ensures Valid()
      ensures Tests() == old(Tests())[testID := TestView(dist, Running, {})]
      ensures testID in activeTests && activeTests[testID].plan == plan
    {
      var test := new ActiveTest(plan, dist);
      activeTests := activeTests[testID := test];
    }

    method SetStatus(testID: string, status: TestStatus)
      requires Valid()
      modifies if testID in activeTests then {activeTests[testID]} else {}
      ensures Valid()
      ensures Tests() == if testID in old(Tests())
        then old(Tests())[testID := WithStatus(old(Tests())[testID], status)]
        else old(Tests())
    {
      if testID !in activeTests {
        return;
      }
      activeTests[testID].status := status;
    }

    /** Whether every assigned worker has now finished; the caller then completes the test. */
    method MarkWorkerDone(testID: string, workerID: string) returns (fire: bool)
      requires Valid()
      modifies if testID in activeTests then {activeTests[testID]} else {}
      ensures Valid()
      ensures fire == (testID in old(Tests()) && FiresCompletion(old(Tests())[testID], workerID))
      ensures Tests() == if testID in old(Tests())
        then old(Tests())[testID := MarkDone(old(Tests())[testID], workerID)]
        else old(Tests())
    {
      if testID !in activeTests {
        return false;
      }
      fire := activeTests[testID].MarkWorkerDone(workerID);
    }

    /** The test loses the failed worker even when no other node is available; status and `done` stay. */
    method RebalanceTest(testID: string, failedWorkerID: string) returns (r: Result<(), DistributeError>)
      requires Valid()
      modifies if testID in activeTests then {activeTests[testID]} else {}
      ensures Valid()
      ensures activeTests == old(activeTests)
      ensures forall id :: id in activeTests && id != testID ==> activeTests[id].View() == old(activeTests[id].View())
      ensures testID !in activeTests ==> r == Err(TestNotFound)
      ensures testID in activeTests ==>
        var test := activeTests[testID];
        && r == (if nodeManager.nodes.Keys <= {failedWorkerID} then Err(NoWorkersForRebalancing) else Ok(()))
        && test.View() == old(test.View()).(workers := test.workers)
        && RebalanceFacts(nodeManager.nodes, failedWorkerID, old(test.workers), test.workers)
    {
      if testID !in activeTests {
        return Err(TestNotFound);
      }
      var nodes := nodeManager.GetNodes();
      r := activeTests[testID].Rebalance(nodes, nodeManager.nodes, failedWorkerID);
    }
  }

  /** The nodes left when one has failed. */
  function OtherNodes(nodes: seq<WorkerNode>, failed: string): seq<WorkerNode> {
    if nodes == [] then []
    else if nodes[0].id != failed then [nodes[0]] + OtherNodes(nodes[1..], failed)
    else OtherNodes(nodes[1..], failed)
  }

  lemma {:induction false} OtherNodesMembers(nodes: seq<WorkerNode>, failed: string)
    requires IsFleet(nodes)
    ensures IsFleet(OtherNodes(nodes, failed))
    ensures forall n :: n in OtherNodes(nodes, failed) <==> n in nodes && n.id != failed
  {
    if nodes != [] {
      OtherNodesMembers(nodes[1..], failed);
      assert nodes == [nodes[0]] + nodes[1..];
    }
  }

  lemma OthersListing(nodes: seq<WorkerNode>, fleet: map<string, WorkerNode>, failed: string, others: seq<WorkerNode>)
    requires WellKeyed(fleet) && IsListing(nodes, fleet) && others == OtherNodes(nodes, failed)
    ensures IsListing(others, fleet - {failed})
    ensures others == [] <==> fleet.Keys <= {failed}
  {
    OtherNodesMembers(nodes, failed);
    if others == [] {
      forall id | id in fleet ensures id == failed {
        assert fleet[id] in nodes;
      }
    } else {
      assert others[0] in others;
    }
  }

  /**
   An error exactly when there is no worker or too little capacity; otherwise the
   peak is assigned in full, and when the rounded shares fit into the peak every
   node gets at least its rounded share.
   */
  ghost predicate Planned(fleet: map<string, WorkerNode>, plan: seq<Stage>, round: (nat, nat, nat) -> nat,
                          r: Result<map<string, int>, DistributeError>)
  {
    var peak, capacity := PeakTarget(plan), FleetCapacity(fleet);
    if fleet.Keys == {} then r == Err(NoWorkers)
    else if capacity < peak then r == Err(InsufficientCapacity(peak, capacity))
    else
      && r.Ok?
      && IsAssignment(fleet, peak, r.value)
      && capacity >= 0
      && (FleetSlots(fleet, {}, Share(round, capacity, peak), map[]) <= peak ==>
            CoversShares(fleet, Share(round, capacity, peak), r.value))
  }

  /** Planning fails only without a worker, or with less capacity than the highest stage needs, and says which. */
  lemma PlanningFails(fleet: map<string, WorkerNode>, plan: seq<Stage>, round: (nat, nat, nat) -> nat,
                      r: Result<map<string, int>, DistributeError>)
    requires Planned(fleet, plan, round, r)
    ensures r == Err(NoWorkers) <==> fleet == map[]
    ensures r.Err? && r.error.InsufficientCapacity? ==>
      fleet != map[] && r.error.need == PeakTarget(plan) > r.error.have == FleetCapacity(fleet)
    ensures fleet != map[] && FleetCapacity(fleet) >= PeakTarget(plan) ==> r.Ok?
  {
    assert fleet.Keys == {} <==> fleet == map[];
  }

  /** When shares are rounded down, every node carries at least its proportional share of the peak, rounded down. */
  lemma FloorPlanIsProportional(fleet: map<string, WorkerNode>, plan: seq<Stage>, round: (nat, nat, nat) -> nat,
                                dist: map<string, int>, id: string)
    requires Planned(fleet, plan, round, Ok(dist)) && IsFloor(round) && id in fleet && FleetCapacity(fleet) > 0
    ensures fleet[id].maxVUs * PeakTarget(plan) / FleetCapacity(fleet) <= Get(dist, id) <= fleet[id].maxVUs
  {
    var c, p, m := FleetCapacity(fleet), PeakTarget(plan), fleet[id].maxVUs;
    FloorSharesFit(fleet, round, p);
    assert Get(dist, id) >= Share(round, c, p).Size(0, fleet[id]);
    assert round(m, c, p) == m * p / c;
    QuotientBound(m, p, c);
  }

  lemma QuotientBound(m: nat, p: nat, c: nat)
    requires 0 < c && p <= c
    ensures m * p / c <= m
  {
    assert m * (c - p) >= 0;
    MulOrder(c, m * p / c, m);
  }

  method PlanAssignment(nodes: seq<WorkerNode>, ghost fleet: map<string, WorkerNode>, plan: seq<Stage>,
      round: (nat, nat, nat) -> nat)
    returns (r: Result<map<string, int>, DistributeError>)
    requires WellKeyed(fleet) && IsListing(nodes, fleet) && |nodes| == |fleet|
    ensures Planned(fleet, plan, round, r)
    ensures r.Ok? ==> NonNegative(r.value)
  {
    if |nodes| == 0 {
      return Err(NoWorkers);
    }
    var peak := Peak(plan);
    var capacity := TotalCapacity(nodes, fleet);
    if capacity < peak {
      return Err(InsufficientCapacity(peak, capacity));
    }
    var dist := Assign(nodes, fleet, capacity, peak, round);
    r := Ok(dist);
  }

  /** The peak assignment for a fleet with enough capacity: proportional shares, then a greedy fill. */
  method Assign(nodes: seq<WorkerNode>, ghost fleet: map<string, WorkerNode>, capacity: nat, peak: nat,
      round: (nat, nat, nat) -> nat)
    returns (dist: map<string, int>)
    requires WellKeyed(fleet) && IsListing(nodes, fleet) && peak <= capacity == FleetCapacity(fleet)
    ensures IsAssignment(fleet, peak, dist)
    ensures FleetSlots(fleet, {}, Share(round, capacity, peak), map[]) <= peak ==>
      CoversShares(fleet, Share(round, capacity, peak), dist)
  {
    var first, remaining := AssignProportionally(nodes, capacity, peak, round);
    dist := FillSpare(nodes, first, remaining);
    TwoPasses(nodes, fleet, Share(round, capacity, peak), peak, first, remaining, dist);
  }

  lemma TwoPasses(nodes: seq<WorkerNode>, fleet: map<string, WorkerNode>, slot: Slot, peak: nat,
                  first: map<string, int>, left: nat, dist: map<string, int>)
    requires WellKeyed(fleet) && IsListing(nodes, fleet) && peak <= FleetCapacity(fleet) && slot.Share?
    requires first == Pour(nodes, slot, peak, map[]) && left == peak - SumMap(first)
    requires dist == Pour(nodes, Room, left, first)
    ensures IsAssignment(fleet, peak, dist)
    ensures FleetSlots(fleet, {}, slot, map[]) <= peak ==> CoversShares(fleet, slot, dist)
  {
    FirstPass(nodes, fleet, slot, peak, first);
    SecondPass(nodes, fleet, first, peak, left, dist);
  }

  ghost predicate CoversShares(fleet: map<string, WorkerNode>, slot: Slot, dist: map<string, int>) {
    forall id :: id in fleet ==> Get(dist, id) >= slot.Size(0, fleet[id])
  }

  /** The highest stage target. */
  method Peak(plan: seq<Stage>) returns (peak: nat)
    ensures peak == PeakTarget(plan)
  {
    peak := 0;
    for i := 0 to |plan|
      invariant peak == PeakTarget(plan[..i])
    {
      assert plan[..i + 1][..i] == plan[..i];
      if plan[i].targetVUs > peak {
        peak := plan[i].targetVUs;
      }
    }
    assert plan[..|plan|] == plan;
  }

  method TotalCapacity(nodes: seq<WorkerNode>, ghost fleet: map<string, WorkerNode>) returns (capacity: nat)
    requires WellKeyed(fleet) && IsListing(nodes, fleet)
    ensures capacity == FleetCapacity(fleet)
  {
    capacity := 0;
    var rest := nodes;
    while rest != []
      invariant IsFleet(rest) && IsFleet(nodes)
      invariant capacity + ListedCapacity(rest) == ListedCapacity(nodes)
      decreases |rest|
    {
      capacity := capacity + rest[0].maxVUs;
      rest := rest[1..];
    }
    ListedCapacityIsFleetCapacity(nodes, fleet);
  }

  function ListedCapacity(nodes: seq<WorkerNode>): nat {
    if nodes == [] then 0 else nodes[0].maxVUs + ListedCapacity(nodes[1..])
  }

  lemma ListedCapacityIsFleetCapacity(nodes: seq<WorkerNode>, fleet: map<string, WorkerNode>)
    requires WellKeyed(fleet) && IsListing(nodes, fleet)
    ensures ListedCapacity(nodes) == FleetCapacity(fleet)
  {
    CapacityIsRoom(nodes);
    assert fleet - {} == fleet && fleet.Keys - {} == fleet.Keys;
    ListingSlots(nodes, fleet, {}, Room, map[]);
    SumCong(fleet.Keys, SlotSizes(fleet, Room, map[]), Capacities(fleet));
  }

  lemma {:induction false} CapacityIsRoom(nodes: seq<WorkerNode>)
    ensures ListedCapacity(nodes) == Slots(nodes, Room, map[])
  {
    if nodes != [] {
      CapacityIsRoom(nodes[1..]);
    }
  }
}

/**
 The consistent hash ring and the node registry built on it. The hash is an
 uninterpreted function, so every theorem allows collisions.
 */
module HashRing {
  import opened Results
  import opened Orders

  type Hash = h: int | 0 <= h < 0x1_0000_0000

  const REPLICAS := 100

  function Itoa(n: nat): string {
    if n < 10 then [('0' as int + n) as char] else Itoa(n / 10) + Itoa(n % 10)
  }

  /** The key of a node's i-th virtual node. */
  function VirtualKey(nodeID: string, i: nat): string {
    nodeID + ":" + Itoa(i)
  }

  predicate Digit(c: char) {
    '0' <= c <= '9'
  }

  predicate Digits(s: string) {
    forall i :: 0 <= i < |s| ==> Digit(s[i])
  }

  /** The number a string of decimal digits denotes. */
  function Denoted(s: string): nat
    requires Digits(s)
  {
    if s == "" then 0 else 10 * Denoted(s[..|s| - 1]) + (s[|s| - 1] as int - '0' as int)
  }

  /** `strconv.Itoa`: decimal digits that denote the number, the first of them not 0 unless it is the only one. */
  lemma {:induction false} ItoaDenotes(n: nat)
    ensures Itoa(n) != "" && Digits(Itoa(n)) && Denoted(Itoa(n)) == n
    ensures Itoa(n)[0] == '0' ==> n == 0 && |Itoa(n)| == 1
  {
    if n >= 10 {
      ItoaDenotes(n / 10);
      var last := Itoa(n % 10);
      assert Itoa(n) == Itoa(n / 10) + last && |last| == 1;
      assert Itoa(n)[..|Itoa(n)| - 1] == Itoa(n / 10);
    } else {
      assert Itoa(n)[..0] == "";
    }
  }

  lemma TwoDigits()
    ensures VirtualKey("node", 0) == "node:0" && VirtualKey("node", 9) == "node:9"
    ensures VirtualKey("node", 99) == "node:99"
  {
  }

  /** After a shorter node ID there is a digit where the longer one's colon is. */
  lemma LengthsDiffer(a: string, i: nat, b: string, j: nat)
    requires |a| < |b|
    ensures VirtualKey(a, i) != VirtualKey(b, j)
  {
    ItoaDenotes(i);
    assert VirtualKey(b, j)[|b|] == ':';
    if |b| < |VirtualKey(a, i)| {
      assert VirtualKey(a, i)[|b|] == Itoa(i)[|b| - |a| - 1];
    }
  }

  /** No two virtual nodes share a key, whatever the node IDs contain. */
  lemma KeysDiffer(a: string, i: nat, b: string, j: nat)
    ensures VirtualKey(a, i) == VirtualKey(b, j) ==> a == b && i == j
  {
    if |a| < |b| {
      LengthsDiffer(a, i, b, j);
    } else if |b| < |a| {
      LengthsDiffer(b, j, a, i);
    } else {
      var x, y := VirtualKey(a, i), VirtualKey(b, j);
      assert a == x[..|a|] && b == y[..|a|];
      assert Itoa(i) == x[|a| + 1..] && Itoa(j) == y[|a| + 1..];
      ItoaDenotes(i);
      ItoaDenotes(j);
    }
  }

  /** The keys of a node's virtual nodes. */
  ghost function KeysUpTo(nodeID: string, n: nat): set<string> {
    set i: nat | i < n :: VirtualKey(nodeID, i)
  }

  /** The hash tells these keys apart. */
  ghost predicate Apart(hash: string -> Hash, keys: set<string>) {
    forall x, y :: x in keys && y in keys && hash(x) == hash(y) ==> x == y
  }

  /** A node has exactly one point for each of its keys if and only if the hash tells them apart. */
  lemma {:induction false} PointsCountIff(hash: string -> Hash, nodeID: string, n: nat)
    ensures |PointsUpTo(hash, nodeID, n)| <= n
    ensures |PointsUpTo(hash, nodeID, n)| == n <==> Apart(hash, KeysUpTo(nodeID, n))
  {
    if n == 0 {
      assert PointsUpTo(hash, nodeID, 0) == {} && KeysUpTo(nodeID, 0) == {};
    } else {
      PointsCountIff(hash, nodeID, n - 1);
      PointsStep(hash, nodeID, n - 1);
      NextKey(hash, nodeID, n - 1);
    }
  }

  lemma NextKey(hash: string -> Hash, nodeID: string, i: nat)
    ensures Apart(hash, KeysUpTo(nodeID, i + 1))
            <==> Apart(hash, KeysUpTo(nodeID, i)) && hash(VirtualKey(nodeID, i)) !in PointsUpTo(hash, nodeID, i)
  {
    var key, keys := VirtualKey(nodeID, i), KeysUpTo(nodeID, i);
    assert KeysUpTo(nodeID, i + 1) == keys + {key};
    assert key !in keys by {
      if key in keys {
        var j: nat :| j < i && VirtualKey(nodeID, j) == key;
        KeysDiffer(nodeID, j, nodeID, i);
      }
    }
    forall p ensures p in PointsUpTo(hash, nodeID, i) <==> exists x :: x in keys && hash(x) == p {
      if p in PointsUpTo(hash, nodeID, i) {
        var j: nat :| j < i && hash(VirtualKey(nodeID, j)) == p;
        assert VirtualKey(nodeID, j) in keys;
      }
    }
  }

  /** So a node contributes a hundred points, and two nodes contribute no common one, unless the hash collides. */
  lemma HundredPoints(hash: string -> Hash, a: string, b: string)
    requires a != b && Apart(hash, KeysUpTo(a, 100) + KeysUpTo(b, 100))
    ensures |Points(hash, a)| == 100 && |Points(hash, b)| == 100 && Points(hash, a) !! Points(hash, b)
  {
    PointsCountIff(hash, a, 100);
    PointsCountIff(hash, b, 100);
    forall p | p in Points(hash, a) && p in Points(hash, b) ensures false {
      var i: nat :| i < 100 && hash(VirtualKey(a, i)) == p;
      var j: nat :| j < 100 && hash(VirtualKey(b, j)) == p;
      assert VirtualKey(a, i) in KeysUpTo(a, 100) && VirtualKey(b, j) in KeysUpTo(b, 100);
      KeysDiffer(a, i, b, j);
    }
  }

  ghost function PointsUpTo(hash: string -> Hash, nodeID: string, n: nat): set<Hash> {
    set i: nat | i < n :: hash(VirtualKey(nodeID, i))
  }

  ghost function Points(hash: string -> Hash, nodeID: string): set<Hash> {
    PointsUpTo(hash, nodeID, REPLICAS)
  }

  // ---------- the ring as a map from points to owners ----------

  /** How far clockwise `to` lies from `from`. */
  function Clockwise(from: Hash, to: Hash): int {
    if to >= from then to - from else to - from + 0x1_0000_0000
  }

  ghost predicate IsSuccessor(points: set<Hash>, h: Hash, p: Hash) {
    p in points && forall q :: q in points ==> Clockwise(h, p) <= Clockwise(h, q)
  }

  lemma {:induction false} SuccessorExists(points: set<Hash>, h: Hash)
    requires points != {}
    ensures exists p :: IsSuccessor(points, h, p)
    decreases |points|
  {
    var p :| p in points;
    var rest := points - {p};
    if rest == {} {
      assert points == {p};
      assert IsSuccessor(points, h, p);
    } else {
      SuccessorExists(rest, h);
      var q :| IsSuccessor(rest, h, q);
      assert IsSuccessor(points, h, if Clockwise(h, p) <= Clockwise(h, q) then p else q);
    }
  }

  ghost function Successor(points: set<Hash>, h: Hash): (p: Hash)
    requires points != {}
    ensures IsSuccessor(points, h, p)
  {
    SuccessorExists(points, h);
    var p :| IsSuccessor(points, h, p);
    p
  }

  lemma SuccessorUnique(points: set<Hash>, h: Hash, p: Hash)
    requires IsSuccessor(points, h, p)
    ensures points != {} && p == Successor(points, h)
  {
    assert Clockwise(h, p) == Clockwise(h, Successor(points, h));
  }

  /** The node that owns hash value `h`: the owner of its clockwise successor. */
  ghost function Owner(ring: map<Hash, string>, h: Hash): string
    requires ring.Keys != {}
  {
    ring[Successor(ring.Keys, h)]
  }

  /** That is the first point at or after `h`, or the first of all when there is none. */
  lemma OwnerIsOfNextPoint(ring: map<Hash, string>, h: Hash, p: Hash)
    requires p in ring
    requires if exists q :: q in ring && q >= h
             then p >= h && forall q :: q in ring && q >= h ==> p <= q
             else forall q :: q in ring ==> p <= q
    ensures ring.Keys != {} && Owner(ring, h) == ring[p]
  {
    assert p in ring.Keys;
    forall q | q in ring.Keys ensures Clockwise(h, p) <= Clockwise(h, q) { assert q in ring; }
    SuccessorUnique(ring.Keys, h, p);
  }

  ghost function WithNode(ring: map<Hash, string>, points: set<Hash>, nodeID: string): map<Hash, string> {
    ring + map p | p in points :: nodeID
  }

  ghost function WithoutNode(ring: map<Hash, string>, nodeID: string): map<Hash, string> {
    map p | p in ring && ring[p] != nodeID :: ring[p]
  }

  // ---------- minimal disruption ----------

  /** Adding a node moves keys to that node only. */
  lemma AddMovesKeysOnlyToNewNode(ring: map<Hash, string>, points: set<Hash>, nodeID: string, h: Hash)
    requires ring.Keys != {}
    ensures WithNode(ring, points, nodeID).Keys != {}
    ensures Owner(WithNode(ring, points, nodeID), h) in {nodeID, Owner(ring, h)}
  {
    var after := WithNode(ring, points, nodeID);
    var p := Successor(after.Keys, h);
    assert after.Keys == ring.Keys + points;
    if p !in points {
      SuccessorUnique(ring.Keys, h, p);
    }
  }

  /** Removing a node moves only the keys that node owned. */
  lemma RemoveMovesOnlyOwnKeys(ring: map<Hash, string>, nodeID: string, h: Hash)
    requires ring.Keys != {} && Owner(ring, h) != nodeID
    ensures WithoutNode(ring, nodeID).Keys != {}
    ensures Owner(WithoutNode(ring, nodeID), h) == Owner(ring, h)
  {
    var p := Successor(ring.Keys, h);
    assert p in WithoutNode(ring, nodeID);
    SuccessorUnique(WithoutNode(ring, nodeID).Keys, h, p);
  }

  /** Adding and then removing a node undoes itself exactly when the node was absent and collides with nobody. */
  lemma AddThenRemoveRestoresIff(ring: map<Hash, string>, points: set<Hash>, nodeID: string)
    ensures WithoutNode(WithNode(ring, points, nodeID), nodeID) == ring
            <==> nodeID !in ring.Values && points !! ring.Keys
  {
    var after := WithoutNode(WithNode(ring, points, nodeID), nodeID);
    if after == ring {
      forall p | p in ring ensures ring[p] != nodeID && p !in points {
        assert p in after;
      }
    }
    if nodeID !in ring.Values && points !! ring.Keys {
      forall p | p in ring ensures p in after && after[p] == ring[p] {
        assert ring[p] in ring.Values;
      }
    }
  }

  lemma WithNodeStep(ring: map<Hash, string>, points: set<Hash>, h: Hash, nodeID: string)
    ensures WithNode(ring, points, nodeID)[h := nodeID] == WithNode(ring, points + {h}, nodeID)
  {
  }

  lemma PointsStep(hash: string -> Hash, nodeID: string, i: nat)
    ensures PointsUpTo(hash, nodeID, i + 1) == PointsUpTo(hash, nodeID, i) + {hash(VirtualKey(nodeID, i))}
  {
  }

  // ---------- the ring as the code keeps it ----------

  predicate Less(a: Hash, b: Hash) { a < b }

  ghost predicate Sorted(keys: seq<Hash>) {
    forall i, j :: 0 <= i < j < |keys| ==> keys[i] <= keys[j]
  }

  /** Sorting a list of the mapped points, each listed once, gives the ring's keys. */
  lemma SortedListing(points: seq<Hash>, owners: map<Hash, string>)
    requires forall i, j :: 0 <= i < j < |points| ==> points[i] != points[j]
    requires forall k :: k in points <==> k in owners
    ensures Sorted(SortBy(points, Less)) && |SortBy(points, Less)| == |owners|
    ensures forall k :: k in SortBy(points, Less) <==> k in owners
  {
    SortedKeys(points);
    SortContents(points, Less);
    ElementsSize(points);
    assert Elements(points) == owners.Keys;
  }

  /** `sort.Slice` on the ring keys. */
  lemma SortedKeys(keys: seq<Hash>)
    ensures Sorted(SortBy(keys, Less)) && multiset(SortBy(keys, Less)) == multiset(keys)
    ensures forall k :: k in SortBy(keys, Less) <==> k in keys
  {
    var le := (a: Hash, b: Hash) => a <= b;
    SortOrdered(keys, Less, le);
    SortContents(keys, Less);
    assert Ordered(SortBy(keys, Less), le);
    forall i, j | 0 <= i < j < |SortBy(keys, Less)| ensures SortBy(keys, Less)[i] <= SortBy(keys, Less)[j] {
      assert le(SortBy(keys, Less)[i], SortBy(keys, Less)[j]);
    }
    forall k ensures k in SortBy(keys, Less) <==> k in keys {
      assert k in multiset(SortBy(keys, Less)) <==> k in multiset(keys);
    }
  }

  /** `sort.Search` for the first key not below `h`. */
  method Search(keys: seq<Hash>, h: Hash) returns (idx: nat)
    requires Sorted(keys)
    ensures idx <= |keys|
    ensures forall i :: 0 <= i < idx ==> keys[i] < h
    ensures forall i :: idx <= i < |keys| ==> keys[i] >= h
  {
    var j: nat;
    idx, j := 0, |keys|;
    while idx < j
      invariant idx <= j <= |keys|
      invariant forall i :: 0 <= i < idx ==> keys[i] < h
      invariant forall i :: j <= i < |keys| ==> keys[i] >= h
    {
      var mid := (idx + j) / 2;
      if keys[mid] >= h {
        j := mid;
      } else {
        idx := mid + 1;
      }
    }
  }

  /** The first key at or after `h`, or the first key of all, is the clockwise successor. */
  lemma FirstKeyIsSuccessor(keys: seq<Hash>, points: set<Hash>, h: Hash, idx: nat)
    requires Sorted(keys) && |keys| > 0 && idx <= |keys|
    requires forall k :: k in keys <==> k in points
    requires forall i :: 0 <= i < idx ==> keys[i] < h
    requires forall i :: idx <= i < |keys| ==> keys[i] >= h
    ensures IsSuccessor(points, h, keys[if idx == |keys| then 0 else idx])
  {
    var first := if idx == |keys| then 0 else idx;
    assert keys[first] in points;
    forall q | q in points ensures Clockwise(h, keys[first]) <= Clockwise(h, q) {
      var i :| 0 <= i < |keys| && keys[i] == q;
    }
  }

  class ConsistentHashRing {
    const hash: string -> Hash
    var keys: seq<Hash>
    var hashMap: map<Hash, string>

    /** The keys are sorted and hold exactly the mapped points; a point may be listed more than once. */
    ghost predicate Valid()
      reads this
    {
      Sorted(keys) && forall k :: k in keys <==> k in hashMap
    }

    constructor (hash: string -> Hash)
      ensures Valid() && this.hash == hash && hashMap == map[]
    {
      this.hash := hash;
      keys, hashMap := [], map[];
    }

    method Add(nodeID: string)
      requires Valid()
      modifies this
      ensures Valid()
      ensures hashMap == WithNode(old(hashMap), Points(hash, nodeID), nodeID)
      ensures |keys| == |old(keys)| + REPLICAS
    {
      ghost var before := hashMap;
      assert hashMap == WithNode(before, PointsUpTo(hash, nodeID, 0), nodeID);
      for i := 0 to REPLICAS
        invariant hashMap == WithNode(before, PointsUpTo(hash, nodeID, i), nodeID)
        invariant |keys| == |old(keys)| + i
        invariant forall k :: k in keys <==> k in hashMap
      {
        var h := hash(VirtualKey(nodeID, i));
        WithNodeStep(before, PointsUpTo(hash, nodeID, i), h, nodeID);
        PointsStep(hash, nodeID, i);
        hashMap := hashMap[h := nodeID];
        keys := keys + [h];
      }
      SortedKeys(keys);
      SortContents(keys, Less);
      keys := SortBy(keys, Less);
    }

    method Remove(nodeID: string)
      requires Valid()
      modifies this
      ensures Valid()
      ensures hashMap == WithoutNode(old(hashMap), nodeID)
      ensures |keys| == |hashMap|
    {
      ghost var before := hashMap;
      var newKeys: seq<Hash>, rest := [], hashMap.Keys;
      while rest != {}
        invariant rest <= before.Keys
        invariant forall p :: p in hashMap <==> p in before && (p in rest || before[p] != nodeID)
        invariant forall p :: p in hashMap ==> hashMap[p] == before[p]
        invariant forall k :: k in newKeys <==> k in before && k !in rest && before[k] != nodeID
        invariant forall i, j :: 0 <= i < j < |newKeys| ==> newKeys[i] != newKeys[j]
        decreases |rest|
      {
        var h :| h in rest;
        if hashMap[h] == nodeID {
          hashMap := hashMap - {h};
        } else {
          newKeys := newKeys + [h];
        }
        rest := rest - {h};
      }
      SortedListing(newKeys, hashMap);
      keys := SortBy(newKeys, Less);
    }

    /** The clockwise owner of a key, or "" when the ring is empty. */
    method Get(key: string) returns (nodeID: string)
      requires Valid()
      ensures hashMap.Keys == {} ==> nodeID == ""
      ensures hashMap.Keys != {} ==> nodeID == Owner(hashMap, hash(key))
    {
      if |keys| == 0 {
        return "";
      }
      var h := hash(key);
      var idx := Search(keys, h);
      FirstKeyIsSuccessor(keys, hashMap.Keys, h, idx);
      if idx == |keys| {
        idx := 0;
      }
      SuccessorUnique(hashMap.Keys, h, keys[idx]);
      nodeID := hashMap[keys[idx]];
    }
  }

  // ---------- node registry ----------

  datatype WorkerNode = WorkerNode(id: string, address: string, maxVUs: nat)

  datatype LookupError = NoNodesAvailable | NodeNotFound

  class NodeManager {
    var nodes: map<string, WorkerNode>
    const ring: ConsistentHashRing

    /** Every ring owner is a registered node. */
    ghost predicate Valid()
      reads this, ring
    {
      && ring.Valid()
      && WellKeyed(nodes)
      && forall p :: p in ring.hashMap ==> ring.hashMap[p] in nodes
    }

    constructor (hash: string -> Hash)
      ensures Valid() && fresh(ring) && nodes == map[] && ring.hashMap == map[] && ring.hash == hash
    {
      nodes := map[];
      ring := new ConsistentHashRing(hash);
    }

    /** The node joins the registry and the ring even when the etcd write fails. */
    method RegisterNode(node: WorkerNode, etcdOk: bool) returns (ok: bool)
      requires Valid()
      modifies this, ring
      ensures Valid() && ok == etcdOk
      ensures nodes == old(nodes)[node.id := node]
      ensures ring.hashMap == WithNode(old(ring.hashMap), Points(ring.hash, node.id), node.id)
    {
      nodes := nodes[node.id := node];
      ring.Add(node.id);
      ok := etcdOk;
    }

    method UnregisterNode(nodeID: string, etcdOk: bool) returns (ok: bool)
      requires Valid()
      modifies this, ring
      ensures Valid() && ok == etcdOk
      ensures nodes == old(nodes) - {nodeID}
      ensures ring.hashMap == WithoutNode(old(ring.hashMap), nodeID)
    {
      nodes := nodes - {nodeID};
      ring.Remove(nodeID);
      ok := etcdOk;
    }

    /** The registered nodes in map order. */
    method GetNodes() returns (list: seq<WorkerNode>)
      requires Valid()
      ensures WellKeyed(nodes) && IsListing(list, nodes) && |list| == |nodes|
    {
      var rest := nodes.Keys;
      list := [];
      while rest != {}
        invariant rest <= nodes.Keys && IsFleet(list) && |list| + |rest| == |nodes|
        invariant forall n :: n in list <==> n.id in nodes.Keys - rest && nodes[n.id] == n
        decreases |rest|
      {
        var id :| id in rest;
        assert forall n :: n in list ==> n.id != id;
        list, rest := list + [nodes[id]], rest - {id};
      }
    }

    /** A ring owner is always registered, so the lookup fails only on an empty ring or a node named "". */
    method GetNodeForKey(key: string) returns (r: Result<WorkerNode, LookupError>)
      requires Valid()
      ensures ring.hashMap.Keys == {} ==> r == Err(NoNodesAvailable)
      ensures ring.hashMap.Keys != {} ==>
        var owner := Owner(ring.hashMap, ring.hash(key));
        owner in nodes && r == if owner == "" then Err(NoNodesAvailable) else Ok(nodes[owner])
    {
      var nodeID := ring.Get(key);
      if nodeID == "" {
        return Err(NoNodesAvailable);
      }
      if nodeID !in nodes {
        return Err(NodeNotFound);
      }
      r := Ok(nodes[nodeID]);
    }
  }

  /** A list of nodes with distinct IDs. */
  predicate IsFleet(nodes: seq<WorkerNode>) {
    forall i, j :: 0 <= i < j < |nodes| ==> nodes[i].id != nodes[j].id
  }

  /** The nodes of a registry, each once, in some order. */
  ghost predicate IsListing(nodes: seq<WorkerNode>, fleet: map<string, WorkerNode>) {
    IsFleet(nodes) && forall n :: n in nodes <==> n.id in fleet && fleet[n.id] == n
  }

  ghost predicate WellKeyed(fleet: map<string, WorkerNode>) {
    forall id :: id in fleet ==> fleet[id].id == id
  }
}

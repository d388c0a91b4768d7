/**
 The consistent-hash ring. Abstractly a ring is a map from points to their
 owners, later additions overwriting earlier ones on a shared point, and a key
 belongs to the owner of the first point clockwise from its hash.
 */
module ConsistentHash {
  import opened Common
  import opened Sorting

  type Word32 = x: int | 0 <= x < 0x1_0000_0000

  type Hash = string -> Word32

  function Itoa(i: nat): string {
    (if i < 10 then [] else Itoa(i / 10)) + ["0123456789"[i % 10]]
  }

  /** The number a decimal text stands for. */
  function Number(s: string): int {
    if s == "" then 0 else 10 * Number(s[..|s| - 1]) + (s[|s| - 1] as int - '0' as int)
  }

  lemma DigitReads(d: nat)
    requires d < 10
    ensures "0123456789"[d] as int == '0' as int + d
  {
  }

  lemma NumberOfLonger(s: string, c: char)
    ensures Number(s + [c]) == 10 * Number(s) + (c as int - '0' as int)
  {
    assert (s + [c])[..|s|] == s;
  }

  /** The text is the number's shortest in decimal digits. */
  lemma {:induction false} ItoaReads(i: nat)
    ensures var s := Itoa(i);
      && Number(s) == i && s != "" && (s[0] == '0' ==> i == 0)
      && forall k :: 0 <= k < |s| ==> '0' <= s[k] <= '9'
  {
    var front: string := if i < 10 then [] else Itoa(i / 10);
    DigitReads(i % 10);
    NumberOfLonger(front, "0123456789"[i % 10]);
    if 10 <= i { ItoaReads(i / 10); }
    assert Itoa(i) == front + ["0123456789"[i % 10]];
  }

  /** The place of replica `i` of a node. */
  function Point(hash: Hash, i: nat, node: string): int {
    hash(Itoa(i) + node)
  }

  // --------------------------------------------------------------- the abstract ring

  type Ring = map<int, string>

  function Placed(n: nat, hash: Hash, ring: Ring, node: string): Ring {
    if n == 0 then ring else Placed(n - 1, hash, ring, node)[Point(hash, n - 1, node) := node]
  }

  function Joined(n: nat, hash: Hash, ring: Ring, nodes: seq<string>): Ring {
    if nodes == [] then ring
    else Placed(n, hash, Joined(n, hash, ring, nodes[..|nodes| - 1]), nodes[|nodes| - 1])
  }

  /** `p` is the first point met going up from `h`, wrapping round at the top. */
  ghost predicate IsSuccessor(points: set<int>, h: int, p: int) {
    && p in points
    && if h <= p then forall q :: q in points && h <= q ==> p <= q
       else forall q :: q in points ==> q < h && p <= q
  }

  lemma SuccessorUnique(points: set<int>, h: int, p: int, q: int)
    requires IsSuccessor(points, h, p) && IsSuccessor(points, h, q)
    ensures p == q
  {
  }

  ghost function Least(points: set<int>): (p: int)
    requires points != {}
    ensures p in points && forall q :: q in points ==> p <= q
  {
    var c := Any(points);
    var rest := points - {c};
    assert forall q :: q in points ==> q == c || q in rest;
    if rest == {} then c else var m := Least(rest); if c <= m then c else m
  }

  ghost function Successor(points: set<int>, h: int): (p: int)
    requires points != {}
    ensures IsSuccessor(points, h, p)
  {
    var above := set q | q in points && h <= q;
    assert forall q :: q in points && h <= q ==> q in above;
    if above != {} then Least(above) else Least(points)
  }

  /** The owner of ring position `h`; an empty ring answers with the empty string. */
  ghost function Owner(ring: Ring, h: int): string {
    if ring.Keys == {} then "" else ring[Successor(ring.Keys, h)]
  }

  lemma OwnerAt(ring: Ring, h: int, p: int)
    requires IsSuccessor(ring.Keys, h, p)
    ensures Owner(ring, h) == ring[p]
  {
    SuccessorUnique(ring.Keys, h, p, Successor(ring.Keys, h));
  }

  /** Whatever point comes first from `h` on, or is the least when none does, is this one. */
  lemma OnlyOwner(ring: Ring, h: int, p: int)
    requires IsSuccessor(ring.Keys, h, p)
    ensures forall q :: q in ring && h <= q && (forall o :: o in ring && h <= o ==> q <= o) ==> ring[q] == ring[p]
    ensures forall q :: q in ring && (forall o :: o in ring ==> o < h && q <= o) ==> ring[q] == ring[p]
  {
    forall q | q in ring && h <= q && (forall o :: o in ring && h <= o ==> q <= o) ensures q == p {
      SuccessorUnique(ring.Keys, h, q, p);
    }
    forall q | q in ring && (forall o :: o in ring ==> o < h && q <= o) ensures q == p {
      SuccessorUnique(ring.Keys, h, q, p);
    }
  }

  // ------------------------------------------------------------------ monotonicity

  /** `p` is a point of `node`. */
  ghost predicate PointOf(n: nat, hash: Hash, node: string, p: int) {
    exists i: nat :: i < n && p == Point(hash, i, node)
  }

  /** A node joining takes exactly its own points and leaves the others alone. */
  lemma {:induction false} PlacedPoints(n: nat, hash: Hash, ring: Ring, node: string, p: int)
    ensures var r := Placed(n, hash, ring, node);
            if PointOf(n, hash, node, p) then p in r && r[p] == node
            else (p in r <==> p in ring) && (p in r ==> r[p] == ring[p])
  {
    if n == 0 {
    } else {
      PlacedPoints(n - 1, hash, ring, node, p);
      if PointOf(n, hash, node, p) && p != Point(hash, n - 1, node) {
        var i: nat :| i < n && p == Point(hash, i, node);
        assert PointOf(n - 1, hash, node, p);
      } else if PointOf(n - 1, hash, node, p) {
        var i: nat :| i < n - 1 && p == Point(hash, i, node);
      }
    }
  }

  /** No point disappears, and one that changes hands goes to a joining node. */
  lemma {:induction false} JoinedOnlyAdds(n: nat, hash: Hash, ring: Ring, nodes: seq<string>, p: int)
    ensures var r := Joined(n, hash, ring, nodes);
            && (p in ring ==> p in r)
            && (p in r ==> (p in ring && r[p] == ring[p]) || r[p] in nodes)
  {
    if nodes == [] {
    } else {
      JoinedOnlyAdds(n, hash, ring, nodes[..|nodes| - 1], p);
      PlacedPoints(n, hash, Joined(n, hash, ring, nodes[..|nodes| - 1]), nodes[|nodes| - 1], p);
    }
  }

  /** Adding nodes moves keys only to the added nodes, hash collisions or not. */
  lemma JoinMovesKeysOnlyToNewNodes(n: nat, hash: Hash, ring: Ring, nodes: seq<string>, key: string)
    ensures var r := Joined(n, hash, ring, nodes);
            Owner(r, hash(key)) == Owner(ring, hash(key)) || Owner(r, hash(key)) in nodes
  {
    var r, h := Joined(n, hash, ring, nodes), hash(key);
    forall p ensures p in ring ==> p in r { JoinedOnlyAdds(n, hash, ring, nodes, p); }
    if r.Keys != {} {
      var p := Successor(r.Keys, h);
      JoinedOnlyAdds(n, hash, ring, nodes, p);
      if p in ring && r[p] == ring[p] {
        StillSuccessor(ring.Keys, r.Keys, h, p);
        OwnerAt(ring, h, p);
      }
    } else {
      assert ring.Keys == {};
    }
  }

  lemma StillSuccessor(fewer: set<int>, points: set<int>, h: int, p: int)
    requires IsSuccessor(points, h, p) && p in fewer
    requires forall q :: q in fewer ==> q in points
    ensures IsSuccessor(fewer, h, p)
  {
  }

  // ------------------------------------------------------------- order independence

  /** Different nodes never share a point. */
  ghost predicate CollisionFree(n: nat, hash: Hash, nodes: seq<string>) {
    forall a, b, p ::
      a in nodes && b in nodes && PointOf(n, hash, a, p) && PointOf(n, hash, b, p) ==> a == b
  }

  predicate Digit(c: char) {
    '0' <= c <= '9'
  }

  /** The name is the other one with one digit more in front. */
  predicate DigitBefore(a: string, b: string) {
    a != [] && Digit(a[0]) && a[1..] == b
  }

  /** The two nodes hash the same text for some of their replicas. */
  ghost predicate ShareLabel(n: nat, a: string, b: string) {
    exists i: nat, j: nat :: i < n && j < n && Itoa(i) + a == Itoa(j) + b
  }

  lemma ShortItoa(i: nat)
    requires i < 100
    ensures i < 10 ==> |Itoa(i)| == 1
    ensures 10 <= i ==> |Itoa(i)| == 2 && Itoa(i)[0] == Itoa(i / 10)[0] && Digit(Itoa(i)[1])
  {
    if 10 <= i { assert |Itoa(i / 10)| == 1; }
  }

  /** Labels of the same length are those of one name; of different lengths, the name with
      the shorter number starts with the other number's last digit. */
  lemma LabelsDiffer(i: nat, j: nat, a: string, b: string)
    requires i < 100 && j < 100 && a != b && Itoa(i) + a == Itoa(j) + b
    ensures DigitBefore(a, b) || DigitBefore(b, a)
  {
    ShortItoa(i);
    ShortItoa(j);
    var x, y, text := Itoa(i), Itoa(j), Itoa(i) + a;
    assert text[|x|..] == a && text[|y|..] == b;
    if |x| < |y| {
      assert b == a[1..] && a[0] == text[1] && text[1] == y[1];
    } else if |y| < |x| {
      assert a == b[1..] && b[0] == text[1] && text[1] == x[1];
    }
  }

  /** A digit in front of a name can also be the last one of the replica number. */
  lemma DigitSharesLabel(n: nat, a: string, b: string)
    requires 20 <= n && DigitBefore(a, b)
    ensures ShareLabel(n, a, b) && ShareLabel(n, b, a)
  {
    var d := (a[0] - '0') as nat;
    assert Itoa(1) == ['1'] && Itoa(10 + d) == ['1', a[0]];
    assert a == [a[0]] + b;
    assert Itoa(1) + a == Itoa(10 + d) + b;
  }

  /** Two names share a label, as the replica number stands directly in front of the name,
      if and only if one is the other with one digit more in front. */
  lemma {:induction false} ShareLabelIff(n: nat, a: string, b: string)
    requires 20 <= n <= 100 && a != b
    ensures ShareLabel(n, a, b) <==> DigitBefore(a, b) || DigitBefore(b, a)
  {
    if ShareLabel(n, a, b) {
      var i: nat, j: nat :| i < n && j < n && Itoa(i) + a == Itoa(j) + b;
      LabelsDiffer(i, j, a, b);
    }
    if DigitBefore(a, b) { DigitSharesLabel(n, a, b); }
    if DigitBefore(b, a) { DigitSharesLabel(n, b, a); }
  }

  /** Such names collide whatever the hash function is. */
  lemma {:induction false} SharedLabelCollides(n: nat, hash: Hash, nodes: seq<string>, a: string, b: string)
    requires a in nodes && b in nodes && a != b && ShareLabel(n, a, b)
    ensures !CollisionFree(n, hash, nodes)
  {
    var i: nat, j: nat :| i < n && j < n && Itoa(i) + a == Itoa(j) + b;
    assert Point(hash, i, a) == Point(hash, j, b);
    assert PointOf(n, hash, a, Point(hash, i, a)) && PointOf(n, hash, b, Point(hash, i, a));
  }

  /** In a ring built from scratch a point is there if it belongs to some node,
      and its owner is one of the nodes it belongs to. */
  lemma {:induction false} RingOfNodes(n: nat, hash: Hash, nodes: seq<string>, p: int)
    ensures var r := Joined(n, hash, map[], nodes);
            && (p in r <==> exists a :: a in nodes && PointOf(n, hash, a, p))
            && (p in r ==> r[p] in nodes && PointOf(n, hash, r[p], p))
  {
    if nodes == [] {
    } else {
      var init, last := nodes[..|nodes| - 1], nodes[|nodes| - 1];
      RingOfNodes(n, hash, init, p);
      PlacedPoints(n, hash, Joined(n, hash, map[], init), last, p);
      assert forall a :: a in nodes <==> a in init || a == last;
    }
  }

  lemma SameNodesSameRing(n: nat, hash: Hash, xs: seq<string>, ys: seq<string>)
    requires CollisionFree(n, hash, xs)
    requires forall a :: a in xs <==> a in ys
    ensures Joined(n, hash, map[], xs) == Joined(n, hash, map[], ys)
  {
    var r, s := Joined(n, hash, map[], xs), Joined(n, hash, map[], ys);
    forall p ensures (p in r <==> p in s) && (p in r ==> s[p] == r[p]) {
      RingOfNodes(n, hash, xs, p);
      RingOfNodes(n, hash, ys, p);
    }
  }

  /** Adding the same nodes in another order gives the same owner everywhere. */
  ghost predicate OrderIrrelevant(n: nat, hash: Hash, nodes: seq<string>) {
    forall other :: multiset(other) == multiset(nodes) ==>
      SameOwners(Joined(n, hash, map[], other), Joined(n, hash, map[], nodes))
  }

  /** The rings agree on the owner of every position. */
  ghost predicate SameOwners(r: Ring, s: Ring) {
    forall h :: Owner(r, h) == Owner(s, h)
  }

  /** All orders of adding the same nodes agree on the owner of every ring position
      if and only if no two different nodes share a point. */
  lemma OrderIrrelevantIffCollisionFree(n: nat, hash: Hash, nodes: seq<string>)
    ensures OrderIrrelevant(n, hash, nodes) <==> CollisionFree(n, hash, nodes)
  {
    if CollisionFree(n, hash, nodes) {
      forall other | multiset(other) == multiset(nodes)
        ensures SameOwners(Joined(n, hash, map[], other), Joined(n, hash, map[], nodes))
      {
        forall a ensures a in nodes <==> a in other { assert a in multiset(nodes) <==> a in multiset(other); }
        SameNodesSameRing(n, hash, nodes, other);
      }
    } else {
      var a, b, p :|
        a in nodes && b in nodes && PointOf(n, hash, a, p) && PointOf(n, hash, b, p) && a != b;
      CollisionShows(n, hash, nodes, a, b, p);
    }
  }

  /** Two nodes on one point: whichever is added last gets it. */
  lemma CollisionShows(n: nat, hash: Hash, nodes: seq<string>, a: string, b: string, p: int)
    requires a in nodes && b in nodes && a != b
    requires PointOf(n, hash, a, p) && PointOf(n, hash, b, p)
    ensures !OrderIrrelevant(n, hash, nodes)
  {
    var rest := TakeOut(nodes, a, b);
    LastAddedOwns(n, hash, rest + [b], a, p);
    LastAddedOwns(n, hash, rest + [a], b, p);
    TwoOrders(nodes, rest, a, b);
    OwnersDiffer(n, hash, nodes, rest + [b] + [a], rest + [a] + [b], p);
  }

  lemma TwoOrders(nodes: seq<string>, rest: seq<string>, a: string, b: string)
    requires multiset(nodes) == multiset(rest) + multiset{a, b}
    ensures multiset(rest + [b] + [a]) == multiset(nodes) == multiset(rest + [a] + [b])
  {
  }

  lemma OwnersDiffer(n: nat, hash: Hash, nodes: seq<string>, xs: seq<string>, ys: seq<string>, p: int)
    requires multiset(xs) == multiset(nodes) == multiset(ys)
    requires Owner(Joined(n, hash, map[], xs), p) != Owner(Joined(n, hash, map[], ys), p)
    ensures !OrderIrrelevant(n, hash, nodes)
  {
  }

  lemma TakeOut(nodes: seq<string>, a: string, b: string) returns (rest: seq<string>)
    requires a in nodes && b in nodes && a != b
    ensures multiset(nodes) == multiset(rest) + multiset{a, b}
  {
    var most := TakeOne(nodes, a);
    assert b in multiset(nodes);
    rest := TakeOne(most, b);
  }

  lemma TakeOne(nodes: seq<string>, a: string) returns (rest: seq<string>)
    requires a in nodes
    ensures multiset(nodes) == multiset(rest) + multiset{a}
  {
    var x :| 0 <= x < |nodes| && nodes[x] == a;
    rest := nodes[..x] + nodes[x + 1..];
    assert nodes == nodes[..x] + [a] + nodes[x + 1..];
  }

  lemma LastAddedOwns(n: nat, hash: Hash, nodes: seq<string>, a: string, p: int)
    requires PointOf(n, hash, a, p)
    ensures Owner(Joined(n, hash, map[], nodes + [a]), p) == a
  {
    var r := Joined(n, hash, map[], nodes + [a]);
    assert (nodes + [a])[..|nodes|] == nodes;
    PlacedPoints(n, hash, Joined(n, hash, map[], nodes), a, p);
    OwnerAt(r, p, p);
  }

  // ------------------------------------------------------------ the implementation

  predicate AtMost(x: int, y: int) {
    x <= y
  }

  lemma AppendedMembers(keys: seq<int>, h: int)
    ensures (set k | k in keys + [h]) == (set k | k in keys) + {h}
  {
  }

  lemma PlacedOne(i: nat, hash: Hash, ring: Ring, node: string, name: string)
    requires name == Itoa(i) + node
    ensures Placed(i + 1, hash, ring, node) == Placed(i, hash, ring, node)[hash(name) := node]
  {
  }

  class Map {
    const n: int
    const hash: Hash
    var keys: seq<int>
    var hashMap: map<int, string>

    ghost predicate Valid()
      reads this
    {
      Sorted(keys, AtMost) && hashMap.Keys == set k | k in keys
    }

    constructor (n: int, hash: Hash)
      ensures Valid() && hashMap == map[] && this.n == n && this.hash == hash
    {
      this.n := n;
      this.hash := hash;
      keys := [];
      hashMap := map[];
    }

    /** The ring gains the points of the nodes, in order. */
    method Add(nodes: seq<string>)
      requires Valid()
      modifies this
      ensures Valid()
      ensures hashMap == Joined(if n < 0 then 0 else n, hash, old(hashMap), nodes)
    {
      for x := 0 to |nodes|
        invariant hashMap.Keys == set k | k in keys
        invariant hashMap == Joined(if n < 0 then 0 else n, hash, old(hashMap), nodes[..x])
      {
        Place(nodes[x]);
        assert nodes[..x + 1][..x] == nodes[..x];
      }
      assert nodes[..|nodes|] == nodes;
      SortSorts(keys, AtMost);
      assert (set k | k in Sort(keys, AtMost)) == set k | k in keys;
      keys := Sort(keys, AtMost);
    }

    /** The inner loop of `Add`: one entry and one owner per replica. */
    method Place(key: string)
      requires hashMap.Keys == set k | k in keys
      modifies this
      ensures hashMap.Keys == set k | k in keys
      ensures hashMap == Placed(if n < 0 then 0 else n, hash, old(hashMap), key)
    {
      ghost var was, total: nat := hashMap, if n < 0 then 0 else n;
      var i: nat := 0;
      while i < n
        invariant i <= total
        invariant hashMap.Keys == set k | k in keys
        invariant hashMap == Placed(i, hash, was, key)
      {
        PlaceReplica(was, i, key);
        i := i + 1;
      }
    }

    method PlaceReplica(ghost was: Ring, i: nat, key: string)
      requires hashMap.Keys == (set k | k in keys) && hashMap == Placed(i, hash, was, key)
      modifies this
      ensures hashMap.Keys == (set k | k in keys) && hashMap == Placed(i + 1, hash, was, key)
    {
      var name := Itoa(i) + key;
      PlacedOne(i, hash, was, key, name);
      PlaceAt(hash(name), key);
    }

    method PlaceAt(h: int, key: string)
      requires hashMap.Keys == set k | k in keys
      modifies this
      ensures hashMap.Keys == set k | k in keys
      ensures keys == old(keys) + [h] && hashMap == old(hashMap)[h := key]
    {
      AppendedMembers(keys, h);
      keys := keys + [h];
      hashMap := hashMap[h := key];
    }

    /** Binary search for the first key not below the hash, wrapping to the first one. */
    method Get(key: string) returns (node: string)
      requires Valid()
      ensures node == Owner(hashMap, hash(key))
      ensures hashMap == map[] <==> keys == []
      ensures keys == [] ==> node == ""
      ensures forall p :: p in hashMap && hash(key) <= p && (forall q :: q in hashMap && hash(key) <= q ==> p <= q) ==>
                node == hashMap[p]
      ensures forall p :: p in hashMap && (forall q :: q in hashMap ==> q < hash(key) && p <= q) ==> node == hashMap[p]
    {
      if |keys| == 0 {
        return "";
      }
      var h := hash(key);
      var i, j := 0, |keys|;
      while i < j
        invariant 0 <= i <= j <= |keys|
        invariant forall k :: 0 <= k < i ==> keys[k] < h
        invariant forall k :: j <= k < |keys| ==> h <= keys[k]
      {
        var mid := (i + j) / 2;
        if keys[mid] < h { i := mid + 1; } else { j := mid; }
      }
      var p := keys[i % |keys|];
      SearchFindsSuccessor(keys, h, i);
      OwnerAt(hashMap, h, p);
      OnlyOwner(hashMap, h, p);
      node := hashMap[p];
    }
  }

  /** The sorted array, the search position and the wrap give the clockwise successor. */
  lemma SearchFindsSuccessor(keys: seq<int>, h: int, i: nat)
    requires Sorted(keys, AtMost) && 0 < |keys| && i <= |keys|
    requires forall k :: 0 <= k < i ==> keys[k] < h
    requires forall k :: i <= k < |keys| ==> h <= keys[k]
    ensures IsSuccessor((set k | k in keys), h, keys[i % |keys|])
  {
    var at := if i == |keys| then 0 else i;
    assert i % |keys| == at;
    FirstFromHere(keys, h, i, at);
  }

  lemma FirstFromHere(keys: seq<int>, h: int, i: nat, at: nat)
    requires Sorted(keys, AtMost) && 0 < |keys| && i <= |keys| && at == (if i == |keys| then 0 else i)
    requires forall k :: 0 <= k < i ==> keys[k] < h
    requires forall k :: i <= k < |keys| ==> h <= keys[k]
    ensures IsSuccessor((set k | k in keys), h, keys[at])
  {
    var points := set k | k in keys;
    var p := keys[at];
    forall q | q in points ensures if h <= p then h <= q ==> p <= q else q < h && p <= q {
      var k :| 0 <= k < |keys| && keys[k] == q;
      assert h <= keys[k] <==> i <= k;
      assert at <= k ==> AtMost(keys[at], keys[k]) || at == k;
    }
  }
}

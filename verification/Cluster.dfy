/**
 A cluster of cache nodes that share one source: `Group.Get` at a node asks the
 key's owner over the network and falls back to the local source.
 */
module Cluster {
  import opened Common
  import opened RecencyList
  import opened ReadThrough
  import opened MyCache
  import opened ConsistentHash
  import opened HttpPool

  type List = seq<Entry<ByteString>>

  /** The cache of every node, by address. */
  type Caches = map<string, List>

  /** What the network does to one forwarded request. */
  datatype Link = Works | LosesRequest | LosesReply

  type Network = (string, string) -> Link

  /** The fixed part: the ring's hash function, the shared source, and for every
      address the peer list it was given and its budget. */
  datatype World = World(crc: Hash, load: Loader<ByteString>, peers: string -> seq<string>, budget: string -> nat)

  /** How a request ended, the nodes it visited and the caches it left.
      `Exhausted` means that the allowed number of hops ran out. */
  datatype Outcome = Outcome(caches: Caches, answer: Result<ByteString, GetError>, visited: seq<string>)
                   | Exhausted

  function Fallback(w: World, c: Caches, x: string, key: string): List
    requires x in c
  {
    Loaded(w.budget(x), w.load, c[x], key)
  }

  function ServeLocally(w: World, c: Caches, x: string, key: string, visited: seq<string>): Outcome
    requires x in c
  {
    Outcome(c[x := Fallback(w, c, x, key)], Source(w.load, key), visited)
  }

  /** The node the ring of `x` names for a key. */
  ghost function OwnerOf(w: World, x: string, key: string): string {
    Owner(PeerRing(w.crc, w.peers(x)), w.crc(key))
  }

  ghost function Remote(w: World, x: string, key: string): Option<string> {
    Picked(w.crc, x, PeerRing(w.crc, w.peers(x)), key)
  }

  /** `Group.Get` at node `x`, with at most `hops` forwards. */
  ghost function Serve(w: World, c: Caches, x: string, key: string, net: Network, hops: nat): Outcome
    requires x in c
    decreases hops
  {
    if key == "" then Outcome(c, Err(NeedKey), [x])
    else if Has(c[x], key) then Outcome(c[x := Touch(c[x], key)], Answer(w.load, c[x], key), [x])
    else match Remote(w, x, key)
      case None => ServeLocally(w, c, x, key, [x])
      case Some(o) =>
        if o !in c || net(x, o) == LosesRequest then ServeLocally(w, c, x, key, [x])
        else if hops == 0 then Exhausted
        else
          Returned(w, x, key, net(x, o), Serve(w, c, o, key, net, hops - 1))
  }

  /** Back at the node that asked: a delivered answer is passed on, anything else
      leads to the local source. */
  function Returned(w: World, x: string, key: string, link: Link, r: Outcome): Outcome {
    if r.Exhausted? || x !in r.caches then Exhausted
    else if link == Works && r.answer.Ok? then r.(visited := [x] + r.visited)
    else ServeLocally(w, r.caches, x, key, [x] + r.visited)
  }

  // ---------------------------------------------------------------- one-hop routing

  /** All nodes were given the same peers, in any order: the addresses of the
      nodes themselves, no two of which share a ring point. */
  ghost predicate Agreed(w: World, members: set<string>) {
    && "" !in members
    && (forall x :: x in members ==> forall p :: p in w.peers(x) <==> p in members)
    && (forall x :: x in members ==> CollisionFree(DEFAULT_REPLICAS, w.crc, w.peers(x)))
  }

  lemma NodesAgreeOnOwner(w: World, members: set<string>, x: string, y: string, key: string)
    requires Agreed(w, members) && x in members && y in members
    ensures OwnerOf(w, x, key) == OwnerOf(w, y, key)
    ensures OwnerOf(w, x, key) in members
  {
    SameNodesSameRing(DEFAULT_REPLICAS, w.crc, w.peers(x), w.peers(y));
    var ring := PeerRing(w.crc, w.peers(x));
    var p := Point(w.crc, 0, x);
    assert PointOf(DEFAULT_REPLICAS, w.crc, x, p);
    RingOfNodes(DEFAULT_REPLICAS, w.crc, w.peers(x), p);
    RingOfNodes(DEFAULT_REPLICAS, w.crc, w.peers(x), Successor(ring.Keys, w.crc(key)));
  }

  /** Every other node's pool names the owner, and the owner's names nobody. */
  lemma OwnerKnowsItself(w: World, members: set<string>, x: string, key: string)
    requires Agreed(w, members) && x in members
    ensures var o := OwnerOf(w, x, key);
            o in members && Remote(w, o, key) == None && Remote(w, x, key) == if o == x then None else Some(o)
  {
    NodesAgreeOnOwner(w, members, x, x, key);
    NodesAgreeOnOwner(w, members, x, OwnerOf(w, x, key), key);
  }

  /** A node whose pool names nobody serves the request itself, whatever the bound. */
  lemma ServeAtOwner(w: World, c: Caches, o: string, key: string, net: Network, hops: nat)
    requires o in c && Remote(w, o, key) == None
    ensures var r := Serve(w, c, o, key, net, hops);
            && r.Outcome? && r == Serve(w, c, o, key, net, 0)
            && r.visited == [o] && o in r.caches && r.caches == c[o := r.caches[o]]
            && KeySet(r.caches[o]) <= KeySet(c[o]) + {key}
            && (r.answer.Err? && key != "" ==> w.load(key).None?)
  {
    LocalKeys(w, c, o, key);
  }

  /** A request never visits more than two nodes: whatever is cached and whatever
      the network does, the node it is forwarded to is the owner and serves it
      itself, so a bound of one hop never runs out. */
  lemma {:induction false} OneHop(w: World, c: Caches, x: string, key: string, net: Network, hops: nat)
    requires Agreed(w, c.Keys) && x in c && 1 <= hops
    ensures var r := Serve(w, c, x, key, net, hops);
            && r.Outcome?
            && r == Serve(w, c, x, key, net, 1)
            && (r.visited == [x] || r.visited == [x, OwnerOf(w, x, key)])
  {
    OwnerKnowsItself(w, c.Keys, x, key);
    ServeAtOwner(w, c, OwnerOf(w, x, key), key, net, hops - 1);
  }

  // --------------------------------------------------- each node's part is a `Group.Get`

  /** A node whose pool names nobody answers as its group does without a peer. */
  lemma ServeAloneIsGet(w: World, c: Caches, x: string, key: string, net: Network, hops: nat)
    requires x in c && Remote(w, x, key) == None
    ensures var (list, answer) := GetOutcome(w.budget(x), w.load, c[x], key, None);
      Serve(w, c, x, key, net, hops) == Outcome(c[x := list], answer, [x])
  {
    assert c[x := c[x]] == c;
  }

  /** What the group of `x` gets to hear from its peer, the owner. */
  ghost function PeerSays(w: World, c: Caches, x: string, key: string, net: Network)
    : Option<Result<ByteString, GetError>>
    requires OwnerOf(w, x, key) in c
  {
    var o := OwnerOf(w, x, key);
    if o == x || net(x, o) != Works then None
    else Some(GetOutcome(w.budget(o), w.load, c[o], key, None).1)
  }

  lemma HitOrEmptyIsGet(w: World, c: Caches, x: string, key: string, net: Network, hops: nat,
                        remote: Option<Result<ByteString, GetError>>)
    requires x in c && (key == "" || Has(c[x], key))
    ensures var (list, answer) := GetOutcome(w.budget(x), w.load, c[x], key, remote);
      Serve(w, c, x, key, net, hops) == Outcome(c[x := list], answer, [x])
  {
    assert c[x := c[x]] == c;
  }

  /** A request passed on: the owner's group, then the group that asked, with what it hears. */
  lemma ForwardedIsGet(w: World, c: Caches, x: string, o: string, key: string, net: Network)
    requires x in c && o in c && o != x && key != "" && !Has(c[x], key) && OwnerOf(w, x, key) == o
    requires Remote(w, x, key) == Some(o) && Remote(w, o, key) == None
    ensures var (list, answer) := GetOutcome(w.budget(x), w.load, c[x], key, PeerSays(w, c, x, key, net));
      var r := Serve(w, c, x, key, net, 1);
      && r.Outcome? && r.answer == answer && x in r.caches && r.caches[x] == list && o in r.caches
      && r.caches[o] == if net(x, o) == LosesRequest then c[o]
                        else GetOutcome(w.budget(o), w.load, c[o], key, None).0
  {
    ServeAloneIsGet(w, c, o, key, net, 0);
    ServeForwarded(w, c, x, o, key, net);
    ServeIsReturned(w, c, x, o, key, net);
  }

  /** Where the rings agree, a request is a `Group.Get` at the node asked, which hears the
      owner's answer if that arrives, and one at the owner if the request does: the answer
      and both caches are exactly those. */
  lemma {:induction false} ServeIsGet(w: World, c: Caches, x: string, key: string, net: Network, hops: nat)
    requires Agreed(w, c.Keys) && x in c && 1 <= hops
    ensures var o, r := OwnerOf(w, x, key), Serve(w, c, x, key, net, hops);
      && o in c && r.Outcome? && x in r.caches && o in r.caches
      && var (list, answer) := GetOutcome(w.budget(x), w.load, c[x], key, PeerSays(w, c, x, key, net));
      && r.answer == answer && r.caches[x] == list
      && (o != x ==>
            r.caches[o] == if key == "" || Has(c[x], key) || net(x, o) == LosesRequest then c[o]
                           else GetOutcome(w.budget(o), w.load, c[o], key, None).0)
  {
    var o := OwnerOf(w, x, key);
    OwnerKnowsItself(w, c.Keys, x, key);
    OneHop(w, c, x, key, net, hops);
    if key == "" || Has(c[x], key) {
      HitOrEmptyIsGet(w, c, x, key, net, hops, PeerSays(w, c, x, key, net));
    } else if o == x {
      ServeAloneIsGet(w, c, x, key, net, hops);
    } else {
      ForwardedIsGet(w, c, x, o, key, net);
    }
  }

  // ------------------------------------------------------------------ what is cached

  ghost predicate AllTruthful(w: World, c: Caches) {
    forall x :: x in c ==> Truthful(w.load, c[x])
  }

  /** Only what the source gives: the caches hold nothing else, and it is the answer. */
  ghost predicate FromSource(w: World, c: Caches, key: string, r: Outcome) {
    r.Outcome? ==>
      && AllTruthful(w, r.caches) && r.caches.Keys == c.Keys
      && r.answer == if key == "" then Err(NeedKey) else Source(w.load, key)
  }

  /** Answers are the source's, wherever asked, whatever the rings say and whatever
      the network loses, and the caches keep holding only what the source gives. */
  lemma {:induction false} ServeIsSource(w: World, c: Caches, x: string, key: string, net: Network, hops: nat)
    requires AllTruthful(w, c) && x in c
    ensures FromSource(w, c, key, Serve(w, c, x, key, net, hops))
    decreases hops
  {
    if key == "" {
    } else if Has(c[x], key) {
      AccessTruthful(w.budget(x), w.load, c[x], key);
    } else {
      var o := Remote(w, x, key);
      if o.Some? && o.value in c && 0 < hops {
        ServeIsSource(w, c, o.value, key, net, hops - 1);
      }
      MissIsSource(w, c, x, key, net, hops);
    }
  }

  /** A miss, given that a forwarded request is answered from the source. */
  lemma MissIsSource(w: World, c: Caches, x: string, key: string, net: Network, hops: nat)
    requires AllTruthful(w, c) && x in c && key != "" && !Has(c[x], key)
    requires var o := Remote(w, x, key);
      o.Some? && o.value in c && 0 < hops ==> FromSource(w, c, key, Serve(w, c, o.value, key, net, hops - 1))
    ensures FromSource(w, c, key, Serve(w, c, x, key, net, hops))
  {
    LocalIsSource(w, c, x, key, [x]);
    var o := Remote(w, x, key);
    if o.Some? && o.value in c && 0 < hops {
      ReturnedIsSource(w, c, x, key, net(x, o.value), Serve(w, c, o.value, key, net, hops - 1));
    }
  }

  lemma LocalIsSource(w: World, c: Caches, x: string, key: string, visited: seq<string>)
    requires AllTruthful(w, c) && x in c && key != ""
    ensures FromSource(w, c, key, ServeLocally(w, c, x, key, visited))
  {
    LoadedTruthful(w.budget(x), w.load, c[x], key);
  }

  lemma ReturnedIsSource(w: World, c: Caches, x: string, key: string, link: Link, r: Outcome)
    requires x in c && key != "" && FromSource(w, c, key, r)
    ensures FromSource(w, c, key, Returned(w, x, key, link, r))
  {
    if r.Outcome? { LocalIsSource(w, r.caches, x, key, [x] + r.visited); }
  }

  /** The source has the key and node `x` has room for it. */
  predicate Keeps(w: World, x: string, key: string) {
    w.load(key).Some? && (w.budget(x) == 0 || |key| + w.load(key).value.size <= w.budget(x))
  }

  /** Serving a key from one node's own cache and source. */
  lemma LocalKeys(w: World, c: Caches, x: string, key: string)
    requires x in c
    ensures Has(c[x], key) <==> key in KeySet(c[x])
    ensures KeySet(Touch(c[x], key)) == KeySet(c[x])
    ensures KeySet(Fallback(w, c, x, key)) <= KeySet(c[x]) + {key}
    ensures !Has(c[x], key) ==> (key in KeySet(Fallback(w, c, x, key)) <==> Keeps(w, x, key))
  {
    TouchKeepsKeys(c[x], key);
    HasIsMember(c[x], key);
    if w.load(key).Some? { PutKeys(w.budget(x), c[x], key, w.load(key).value); }
  }

  /** Every cached key is cached at its owner. */
  ghost predicate SingleOwner(w: World, c: Caches) {
    forall x, key :: x in c && key in KeySet(c[x]) ==> OwnerOf(w, x, key) == x
  }

  /** The one way a key comes to sit at a node that does not own it: the owner is
      another node, its answer does not arrive, and the local fallback finds the
      key in the source and has room for it. */
  ghost predicate Misplaces(w: World, c: Caches, x: string, key: string, net: Network)
    requires x in c
  {
    && key != "" && !Has(c[x], key)
    && OwnerOf(w, x, key) != x
    && net(x, OwnerOf(w, x, key)) != Works
    && Keeps(w, x, key)
  }

  lemma ServeIsReturned(w: World, c: Caches, x: string, o: string, key: string, net: Network)
    requires x in c && o in c && key != "" && !Has(c[x], key) && Remote(w, x, key) == Some(o)
    ensures Serve(w, c, x, key, net, 1)
         == if net(x, o) == LosesRequest then ServeLocally(w, c, x, key, [x])
            else Returned(w, x, key, net(x, o), Serve(w, c, o, key, net, 0))
  {
  }

  /** Back from the owner, whose cache alone has changed. */
  lemma ReturnedCaches(w: World, c: Caches, x: string, o: string, key: string, link: Link, m: Outcome)
    requires x in c && o in c && o != x && key != "" && (m.Outcome? && m.answer.Err? ==> w.load(key).None?)
    requires m.Outcome? && o in m.caches && m.caches == c[o := m.caches[o]]
    ensures var r := Returned(w, x, key, link, m);
            && r.Outcome? && r.caches.Keys == c.Keys && r.caches[o] == m.caches[o]
            && r.caches[x] == (if link == Works then c[x] else Fallback(w, c, x, key))
            && (forall y :: y in c && y != x && y != o ==> r.caches[y] == c[y])
  {
  }

  /** A forwarded request changes the owner's cache first and then, by the
      fallback, perhaps the cache of the node that was asked. */
  lemma ServeForwarded(w: World, c: Caches, x: string, o: string, key: string, net: Network)
    requires x in c && o in c && o != x && key != "" && !Has(c[x], key)
    requires Remote(w, x, key) == Some(o) && Remote(w, o, key) == None
    ensures var r, m := Serve(w, c, x, key, net, 1), Serve(w, c, o, key, net, 0);
            && r.Outcome? && m.Outcome? && r.caches.Keys == c.Keys && o in m.caches
            && r.caches[o] == (if net(x, o) == LosesRequest then c[o] else m.caches[o])
            && r.caches[x] == (if net(x, o) == Works then c[x] else Fallback(w, c, x, key))
            && (forall y :: y in c && y != x && y != o ==> r.caches[y] == c[y])
  {
    ServeAtOwner(w, c, o, key, net, 0);
    ServeIsReturned(w, c, x, o, key, net);
    if net(x, o) != LosesRequest {
      ReturnedCaches(w, c, x, o, key, net(x, o), Serve(w, c, o, key, net, 0));
    }
  }

  /** A refused or cached key adds nothing anywhere. */
  lemma ServeHit(w: World, c: Caches, x: string, key: string, net: Network)
    requires x in c && (key == "" || Has(c[x], key))
    ensures var r := Serve(w, c, x, key, net, 1);
            && r.Outcome? && r.caches.Keys == c.Keys
            && (forall y :: y in c ==> KeySet(r.caches[y]) == KeySet(c[y]))
  {
    LocalKeys(w, c, x, key);
  }

  /** What a request adds to the caches: at most its own key, at the owner, and at
      the node that was asked exactly when it misplaces it. */
  lemma {:induction false} KeysAfter(w: World, c: Caches, x: string, key: string, net: Network)
    requires Agreed(w, c.Keys) && x in c
    ensures var r, o := Serve(w, c, x, key, net, 1), OwnerOf(w, x, key);
            && r.Outcome? && r.caches.Keys == c.Keys
            && (forall y :: y in c && y != o && y != x ==> KeySet(r.caches[y]) == KeySet(c[y]))
            && (o in c && KeySet(r.caches[o]) <= KeySet(c[o]) + {key})
            && (o != x ==> KeySet(r.caches[x]) <= KeySet(c[x]) + {key})
            && (o != x && !Misplaces(w, c, x, key, net) ==> KeySet(r.caches[x]) <= KeySet(c[x]))
            && (Misplaces(w, c, x, key, net) ==> key in KeySet(r.caches[x]))
  {
    var o := OwnerOf(w, x, key);
    OwnerKnowsItself(w, c.Keys, x, key);
    if key == "" || Has(c[x], key) {
      ServeHit(w, c, x, key, net);
    } else if o == x {
      ServeAtOwner(w, c, o, key, net, 1);
    } else {
      ForwardedKeys(w, c, x, o, key, net);
    }
  }

  lemma ForwardedKeys(w: World, c: Caches, x: string, o: string, key: string, net: Network)
    requires x in c && o in c && o != x && key != "" && !Has(c[x], key)
    requires Remote(w, x, key) == Some(o) && Remote(w, o, key) == None
    ensures var r := Serve(w, c, x, key, net, 1);
            && r.Outcome? && r.caches.Keys == c.Keys
            && (forall y :: y in c && y != o && y != x ==> r.caches[y] == c[y])
            && KeySet(r.caches[o]) <= KeySet(c[o]) + {key}
            && KeySet(r.caches[x]) <= KeySet(c[x]) + {key}
            && (net(x, o) == Works || !Keeps(w, x, key) ==> KeySet(r.caches[x]) <= KeySet(c[x]))
            && (net(x, o) != Works && Keeps(w, x, key) ==> key in KeySet(r.caches[x]))
  {
    ServeAtOwner(w, c, o, key, net, 0);
    ServeForwarded(w, c, x, o, key, net);
    LocalKeys(w, c, x, key);
  }

  /** In an agreed cluster whose keys sit at their owners, a request leaves every
      key at its owner if and only if it is not such a failed forward. */
  lemma {:induction false} SingleOwnerIff(w: World, c: Caches, x: string, key: string, net: Network)
    requires Agreed(w, c.Keys) && x in c && SingleOwner(w, c)
    ensures var r := Serve(w, c, x, key, net, 1);
            r.Outcome? && (SingleOwner(w, r.caches) <==> !Misplaces(w, c, x, key, net))
  {
    KeysAfter(w, c, x, key, net);
    OwnerKnowsItself(w, c.Keys, x, key);
    NodesAgreeOnOwner(w, c.Keys, x, OwnerOf(w, x, key), key);
  }

  // ------------------------------------------------------------ whole runs of requests

  datatype Request = Request(at: string, key: string, net: Network)

  ghost function After(w: World, c: Caches, reqs: seq<Request>): Caches {
    if reqs == [] then c
    else
      var before, q := After(w, c, reqs[..|reqs| - 1]), reqs[|reqs| - 1];
      if q.at !in before then before
      else match Serve(w, before, q.at, q.key, q.net, 1)
        case Outcome(caches, _, _) => caches
        case Exhausted => before
  }

  /** From empty caches, and with a network that delivers, a run of requests
      anywhere leaves each key cached at no node but its owner, with the source's value. */
  lemma {:induction false} RunKeepsSingleOwner(w: World, c: Caches, reqs: seq<Request>)
    requires Agreed(w, c.Keys) && forall x :: x in c ==> c[x] == []
    requires forall q :: q in reqs ==> forall a, b :: q.net(a, b) == Works
    ensures var d := After(w, c, reqs);
            d.Keys == c.Keys && SingleOwner(w, d) && AllTruthful(w, d)
  {
    if reqs == [] {
    } else {
      var q := reqs[|reqs| - 1];
      RunKeepsSingleOwner(w, c, reqs[..|reqs| - 1]);
      var before := After(w, c, reqs[..|reqs| - 1]);
      if q.at in before {
        assert q in reqs;
        SingleOwnerIff(w, before, q.at, q.key, q.net);
        ServeIsSource(w, before, q.at, q.key, q.net, 1);
      }
    }
  }
}

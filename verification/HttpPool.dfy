/**
 The peer list of one node: the ring over the peers and a client per peer.
 */
module HttpPool {
  import opened Common
  import opened ConsistentHash

  const DEFAULT_BASE_PATH := "/_mycache/"
  const DEFAULT_REPLICAS: nat := 50

  function PeerRing(crc: Hash, peers: seq<string>): Ring {
    Joined(DEFAULT_REPLICAS, crc, map[], peers)
  }

  /** The other node that should be asked for a key, if it is another node's. */
  ghost function Picked(crc: Hash, self: string, ring: Ring, key: string): Option<string> {
    var o := Owner(ring, crc(key));
    if o != "" && o != self then Some(o) else None
  }

  class Pool {
    const self: string
    const crc: Hash  // the default hash function of the ring
    var peers: Map?
    var httpGetters: map<string, string>  // the base URL of each peer's client

    ghost predicate Valid()
      reads this, peers
    {
      peers != null ==>
        && peers.Valid() && peers.n == DEFAULT_REPLICAS && peers.hash == crc
        && forall p :: p in peers.hashMap ==>
             var peer := peers.hashMap[p];
             peer in httpGetters && httpGetters[peer] == peer + DEFAULT_BASE_PATH
    }

    constructor (self: string, crc: Hash)
      ensures Valid() && peers == null && this.self == self && this.crc == crc
    {
      this.self := self;
      this.crc := crc;
      peers := null;
      httpGetters := map[];
    }

    /** The old ring is replaced by one over exactly the given peers. */
    method Set(list: seq<string>)
      requires Valid()
      modifies this
      ensures Valid() && peers != null && fresh(peers)
      ensures peers.hashMap == PeerRing(crc, list)
      ensures httpGetters.Keys == set p | p in list
    {
      var ring := new Map(DEFAULT_REPLICAS, crc);
      ring.Add(list);
      var getters: map<string, string> := map[];
      for i := 0 to |list|
        invariant getters.Keys == set p | p in list[..i]
        invariant forall p :: p in getters ==> getters[p] == p + DEFAULT_BASE_PATH
      {
        getters := getters[list[i] := list[i] + DEFAULT_BASE_PATH];
      }
      assert list[..|list|] == list;
      forall p | p in ring.hashMap ensures ring.hashMap[p] in getters {
        RingOfNodes(DEFAULT_REPLICAS, crc, list, p);
      }
      peers := ring;
      httpGetters := getters;
    }

    /** The owner's client when another node owns the key, nothing otherwise.
        A pool without a peer list has no ring to ask. */
    method PickPeer(key: string) returns (r: Option<string>)
      requires Valid() && peers != null
      ensures r == match Picked(crc, self, peers.hashMap, key)
                   case None => None
                   case Some(o) => Some(o + DEFAULT_BASE_PATH)
      ensures var owner := Owner(peers.hashMap, crc(key));
        r == if owner == "" || owner == self then None else Some(owner + "/_mycache/")
    {
      var peer := peers.Get(key);
      if peer != "" && peer != self {
        r := Some(httpGetters[peer]);
      } else {
        r := None;
      }
    }
  }
}

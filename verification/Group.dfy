/**
 One caller at a time: the lazily created cache (`cache`) and the read-through
 `Group` over it. What the peers would answer is a parameter of `Get`.
 */
module MyCache {
  import opened Common
  import opened RecencyList
  import opened ReadThrough
  import Lru

  class SafeCache {
    const cacheBytes: int
    var lru: Lru.Cache?<ByteString>

    ghost var Repr: set<object>

    ghost function Contents(): seq<Entry<ByteString>>
      reads this, Repr
      requires Valid()
    {
      if lru == null then [] else lru.Contents()
    }

    ghost predicate Valid()
      reads this, Repr
    {
      && this in Repr
      && (lru != null ==>
            && lru in Repr && lru.Repr <= Repr && this !in lru.Repr
            && lru.Valid() && lru.maxBytes == cacheBytes && !lru.onEvicted)
    }

    constructor (cacheBytes: int)
      ensures Valid() && Contents() == [] && fresh(Repr) && this.cacheBytes == cacheBytes
    {
      this.cacheBytes := cacheBytes;
      lru := null;
      Repr := {this};
    }

    method Add(key: string, value: Value<ByteString>)
      requires Valid() && 0 <= cacheBytes
      modifies Repr
      ensures Valid() && fresh(Repr - old(Repr))
      ensures Contents() == Put(cacheBytes, old(Contents()), key, value)
    {
      if lru == null {
        lru := new Lru.Cache(cacheBytes, false);
      }
      lru.Add(key, value);
      Repr := Repr + lru.Repr;
    }

    method Get(key: string) returns (r: Option<Value<ByteString>>)
      requires Valid()
      modifies Repr
      ensures Valid() && Repr == old(Repr)
      ensures Contents() == Touch(old(Contents()), key)
      ensures r == if Has(old(Contents()), key) then Some(old(Contents())[Find(old(Contents()), key)].value) else None
    {
      if lru == null {
        r := None;
      } else {
        r := lru.Get(key);
      }
    }
  }

  datatype GetError = NeedKey | SourceFailed

  class Group {
    const load: Loader<ByteString>  // the user's getter
    const mainCache: SafeCache

    ghost function Contents(): seq<Entry<ByteString>>
      reads mainCache, mainCache.Repr
      requires Valid()
    {
      mainCache.Contents()
    }

    ghost predicate Valid()
      reads mainCache, mainCache.Repr
    {
      mainCache.Valid()
    }

    constructor (cacheBytes: int, load: Loader<ByteString>)
      ensures Valid() && Contents() == [] && fresh(mainCache) && fresh(mainCache.Repr)
      ensures this.load == load && mainCache.cacheBytes == cacheBytes
    {
      this.load := load;
      mainCache := new SafeCache(cacheBytes);
    }

    /** `remote` is the answer of the peer that owns the key, if another node does.
        A hit and an unanswered key leave the cache as `Access` says; an answer
        from a peer is passed on without being cached here. */
    method Get(key: string, remote: Option<Result<ByteString, GetError>>) returns (r: Result<ByteString, GetError>)
      requires Valid() && 0 <= mainCache.cacheBytes
      modifies mainCache.Repr
      ensures Valid() && fresh(mainCache.Repr - old(mainCache.Repr))
      ensures GetOutcome(mainCache.cacheBytes, load, old(Contents()), key, remote) == (Contents(), r)
      ensures var s := old(Contents());
        if key == "" then r == Err(NeedKey) && Contents() == s
        else if Has(s, key) then
          && r == Ok(s[Find(s, key)].value.data)
          && Contents() == [s[Find(s, key)]] + (s[..Find(s, key)] + s[Find(s, key) + 1..])
        else if remote.Some? && remote.value.Ok? then r == remote.value && Contents() == s
        else if load(key).None? then r == Err(SourceFailed) && Contents() == s
        else r == Ok(load(key).value.data) && Contents() == Put(mainCache.cacheBytes, s, key, load(key).value)
    {
      if key == "" {
        return Err(NeedKey);
      }
      var v := mainCache.Get(key);
      if v.Some? {
        return Ok(v.value.data);
      }
      r := Load(key, remote);
    }

    /** The owner is asked first; without its answer the local source is. */
    method Load(key: string, remote: Option<Result<ByteString, GetError>>) returns (r: Result<ByteString, GetError>)
      requires Valid() && 0 <= mainCache.cacheBytes
      modifies mainCache.Repr
      ensures Valid() && fresh(mainCache.Repr - old(mainCache.Repr))
      ensures remote.Some? && remote.value.Ok? ==> Contents() == old(Contents()) && r == remote.value
      ensures !(remote.Some? && remote.value.Ok?) ==>
                && Contents() == Loaded(mainCache.cacheBytes, load, old(Contents()), key)
                && r == Source(load, key)
    {
      if remote.Some? && remote.value.Ok? {
        return remote.value;
      }
      r := GetLocally(key);
    }

    method GetLocally(key: string) returns (r: Result<ByteString, GetError>)
      requires Valid() && 0 <= mainCache.cacheBytes
      modifies mainCache.Repr
      ensures Valid() && fresh(mainCache.Repr - old(mainCache.Repr))
      ensures Contents() == Loaded(mainCache.cacheBytes, load, old(Contents()), key) && r == Source(load, key)
      ensures match load(key)
              case None => r == Err(SourceFailed) && Contents() == old(Contents())
              case Some(v) => r == Ok(v.data) && Contents() == Put(mainCache.cacheBytes, old(Contents()), key, v)
    {
      match load(key)
      case None => r := Err(SourceFailed);
      case Some(v) =>
        mainCache.Add(key, v);
        r := Ok(v.data);
    }
  }

  /** The list `Get` leaves and the answer it gives. */
  function GetOutcome(max: int, load: Loader<ByteString>, s: seq<Entry<ByteString>>, key: string,
                      remote: Option<Result<ByteString, GetError>>)
    : (seq<Entry<ByteString>>, Result<ByteString, GetError>)
    requires 0 <= max
  {
    if key != "" && !Has(s, key) && remote.Some? && remote.value.Ok? then (s, remote.value)
    else (Access(max, load, s, key), Answer(load, s, key))
  }

  /** What `Get` answers on its own, given the list it starts from. */
  function Answer(load: Loader<ByteString>, s: seq<Entry<ByteString>>, key: string): Result<ByteString, GetError> {
    if key == "" then Err(NeedKey)
    else if Has(s, key) then Ok(s[Find(s, key)].value.data)
    else Source(load, key)
  }

  function Source(load: Loader<ByteString>, key: string): Result<ByteString, GetError> {
    match load(key)
    case None => Err(SourceFailed)
    case Some(v) => Ok(v.data)
  }

  /** The cache comes first: a hit asks neither the peer nor the source, and puts the entry
      in front of the others. */
  lemma {:induction false} HitAsksNobody(max: int, load: Loader<ByteString>, s: seq<Entry<ByteString>>, key: string,
                                         remote: Option<Result<ByteString, GetError>>)
    requires 0 <= max && Has(s, key) && key != ""
    ensures var (t, r) := GetOutcome(max, load, s, key, remote);
      var i := Find(s, key);
      && r == Ok(s[i].value.data) && |t| == |s| && t[0] == s[i]
      && (forall j :: 0 <= j < i ==> t[j + 1] == s[j]) && (forall j :: i < j < |s| ==> t[j] == s[j])
  {
    TouchedAt(s, key);
  }

  /** One `Get`, with what the peer that owns the key would answer, if there is one. */
  datatype Ask = Ask(key: string, remote: Option<Result<ByteString, GetError>>)

  /** The list after a row of `Get`s. */
  function RunGets(max: int, load: Loader<ByteString>, asks: seq<Ask>): seq<Entry<ByteString>>
    requires 0 <= max
  {
    if asks == [] then []
    else
      var a := asks[|asks| - 1];
      GetOutcome(max, load, RunGets(max, load, asks[..|asks| - 1]), a.key, a.remote).0
  }

  /** The peer answers with what the source has, or not at all. */
  predicate PeerTruthful(load: Loader<ByteString>, a: Ask) {
    a.remote.Some? && a.remote.value.Ok? ==> a.remote.value == Source(load, a.key)
  }

  lemma {:induction false} RunGetsTruthful(max: int, load: Loader<ByteString>, asks: seq<Ask>)
    requires 0 <= max
    ensures Truthful(load, RunGets(max, load, asks))
  {
    if asks != [] {
      RunGetsTruthful(max, load, asks[..|asks| - 1]);
      AccessTruthful(max, load, RunGets(max, load, asks[..|asks| - 1]), asks[|asks| - 1].key);
    }
  }

  /** Whatever was asked before, of this node or through it of its peers, and at whatever
      budget, the answer is the source's: the cache is never visible in the results. */
  lemma AnswerIsSource(max: int, load: Loader<ByteString>, asks: seq<Ask>, a: Ask)
    requires 0 <= max && PeerTruthful(load, a)
    ensures GetOutcome(max, load, RunGets(max, load, asks), a.key, a.remote).1
         == if a.key == "" then Err(NeedKey) else Source(load, a.key)
  {
    RunGetsTruthful(max, load, asks);
  }
}

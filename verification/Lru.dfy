/**
 The LRU cache over the linked list: a key index, the byte count and the
 eviction callback. `ll.Contents` is the recency list the structure stands for.
 */
module Lru {
  import opened Common
  import opened RecencyList
  import opened LinkedList

  /** The index maps exactly the listed keys, each to its own element. */
  ghost predicate Indexes<T>(index: map<string, Element<T>>, s: seq<Entry<T>>, elems: seq<Element<T>>) {
    && |s| == |elems|
    && index.Keys == KeySet(s)
    && (forall i :: 0 <= i < |s| ==> s[i].key in index && index[s[i].key] == elems[i])
  }

  lemma MoveIndexed<T>(index: map<string, Element<T>>, s: seq<Entry<T>>, elems: seq<Element<T>>, i: nat)
    requires Indexes(index, s, elems) && i < |s|
    ensures Indexes(index, Moved(s, i), Moved(elems, i))
  {
    DroppedAt(s, i);
    DroppedAt(elems, i);
    SplitAt(s, i);
    KeySetMoved(s[..i], s[i], s[i + 1..]);
  }

  lemma PushIndexed<T>(index: map<string, Element<T>>, s: seq<Entry<T>>, elems: seq<Element<T>>,
                       e: Entry<T>, elem: Element<T>)
    requires Indexes(index, s, elems) && e.key !in index
    ensures Indexes(index[e.key := elem], [e] + s, [elem] + elems)
  {
    KeySetConcat([e], s);
    assert KeySet([e]) == {e.key};
  }

  lemma {:induction false} OverwriteFront<T>(index: map<string, Element<T>>, s: seq<Entry<T>>, elems: seq<Element<T>>,
                          i: nat, v: Value<T>)
    requires i < |s| && Indexes(index, s, elems)
    ensures var t := [Entry(s[i].key, v)] + Dropped(s, i);
            Indexes(index, t, Moved(elems, i)) && Bytes(t) == Bytes(s) + v.size - s[i].value.size
  {
    MoveIndexed(index, s, elems, i);
    BytesMoved(s, i);
    FrontOverwritten(index, s[i], Dropped(s, i), Moved(elems, i), v);
  }

  lemma FrontOverwritten<T>(index: map<string, Element<T>>, d: Entry<T>, w: seq<Entry<T>>,
                            elems: seq<Element<T>>, v: Value<T>)
    requires Indexes(index, [d] + w, elems)
    ensures Indexes(index, [Entry(d.key, v)] + w, elems)
    ensures Bytes([Entry(d.key, v)] + w) == Bytes([d] + w) + v.size - d.value.size
  {
    var e := Entry(d.key, v);
    BytesConcat([e], w);
    BytesConcat([d], w);
    KeySetConcat([e], w);
    KeySetConcat([d], w);
  }

  lemma {:induction false} PopIndexed<T>(index: map<string, Element<T>>, s: seq<Entry<T>>, elems: seq<Element<T>>)
    requires Indexes(index, s, elems) && NoDup(elems) && s != []
    ensures var n := |s| - 1; Indexes(index - {s[n].key}, s[..n], elems[..n])
    ensures Bytes(s[..|s| - 1]) == Bytes(s) - Cost(s[|s| - 1])
  {
    var n := |s| - 1;
    BytesLast(s);
    KeySetLast(s);
    KeysDistinct(index, s, elems);
    LastKeyOnce(s);
  }

  lemma LastKeyOnce<T>(s: seq<Entry<T>>)
    requires Distinct(s) && s != []
    ensures s[|s| - 1].key !in KeySet(s[..|s| - 1])
  {
    KeySetMembers(s[..|s| - 1], s[|s| - 1].key);
  }

  lemma {:induction false} KeySetLast<T>(s: seq<Entry<T>>)
    requires s != []
    ensures KeySet(s) == KeySet(s[..|s| - 1]) + {s[|s| - 1].key}
  {
    var a, e := s[..|s| - 1], s[|s| - 1];
    assert s == a + [e];
    KeySetConcat(a, [e]);
    assert KeySet([e]) == {e.key};
  }

  /** An index over distinct elements forces the keys to be distinct. */
  lemma KeysDistinct<T>(index: map<string, Element<T>>, s: seq<Entry<T>>, elems: seq<Element<T>>)
    requires Indexes(index, s, elems) && NoDup(elems)
    ensures Distinct(s)
  {
    forall i, j | 0 <= i < j < |s| ensures s[i].key != s[j].key {
      assert elems[i] != elems[j];
    }
  }

  /** One round of the eviction loop. */
  lemma EvictStep<T>(max: int, all: seq<Entry<T>>, n: nat)
    requires 0 <= max && n <= |all| && !Fits(max, all[..n])
    ensures 0 < n && Evict(max, all[..n]) == Evict(max, all[..n - 1])
    ensures all[..n][n - 1] == all[n - 1] && all[..n][..n - 1] == all[..n - 1]
    ensures Reverse(all[n - 1..]) == Reverse(all[n..]) + [all[n - 1]]
  {
    assert all[..n][..n - 1] == all[..n - 1];
    assert all[n - 1..][0] == all[n - 1] && all[n - 1..][1..] == all[n..];
  }

  class Cache<T> {
    const maxBytes: int
    const onEvicted: bool  // whether an eviction callback is installed
    const ll: List<T>
    var nbytes: int
    var cache: map<string, Element<T>>
    var evicted: seq<Entry<T>>  // the callback's arguments so far
    ghost var Repr: set<object>

    ghost function Contents(): seq<Entry<T>>
      reads ll
    {
      ll.Contents
    }

    ghost predicate Valid()
      reads this, Repr
    {
      && this in Repr && ll in Repr && ll.Repr <= Repr && this !in ll.Repr
      && ll.Valid()
      && Indexes(cache, ll.Contents, ll.elems)
      && nbytes == Bytes(ll.Contents)
    }

    constructor (maxBytes: int, onEvicted: bool)
      ensures Valid() && fresh(Repr) && Contents() == [] && evicted == []
      ensures this.maxBytes == maxBytes && this.onEvicted == onEvicted
    {
      this.maxBytes := maxBytes;
      this.onEvicted := onEvicted;
      var l := new List<T>();
      ll := l;
      nbytes := 0;
      cache := map[];
      evicted := [];
      Repr := {this, l} + l.Repr;
    }

    /** Number of entries; their keys are distinct. */
    method Len() returns (n: nat)
      requires Valid()
      ensures n == |Contents()| && Distinct(Contents())
    {
      ll.ElementsDistinct();
      KeysDistinct(cache, ll.Contents, ll.elems);
      n := ll.length;
    }

    /** A hit moves the entry to the front and returns its value; a miss changes nothing. */
    method Get(key: string) returns (r: Option<Value<T>>)
      requires Valid()
      modifies Repr
      ensures Valid() && Repr == old(Repr)
      ensures Contents() == Touch(old(Contents()), key) && evicted == old(evicted)
      ensures r == if Has(old(Contents()), key) then Some(old(Contents())[Find(old(Contents()), key)].value) else None
    {
      KeySetMembers(ll.Contents, key);
      if key in cache {
        var e := cache[key];
        ghost var i := Find(ll.Contents, key);
        MoveIndexed(cache, ll.Contents, ll.elems, i);
        BytesMoved(ll.Contents, i);
        ll.MoveToFront(e, i);
        r := Some(e.entry.value.value);
      } else {
        r := None;
      }
    }

    lemma Popped()
      requires Valid() && ll.Contents != []
      ensures var s, n := ll.Contents, |ll.Contents| - 1;
              Indexes(cache - {s[n].key}, s[..n], ll.elems[..n]) && Bytes(s[..n]) == Bytes(s) - Cost(s[n])
    {
      ll.ElementsDistinct();
      PopIndexed(cache, ll.Contents, ll.elems);
    }

    /** Removes the entry at the old end, if there is one, and reports it. */
    method RemoverOldest()
      requires Valid()
      modifies Repr
      ensures Valid() && Repr == old(Repr)
      ensures old(Contents()) == [] ==> Contents() == [] && evicted == old(evicted)
      ensures old(Contents()) != [] ==> DroppedOldest(old(Contents()), old(evicted))
    {
      if ll.length != 0 {
        RemoveBack();
      }
    }

    ghost predicate DroppedOldest(was: seq<Entry<T>>, log: seq<Entry<T>>)
      requires was != []
      reads this, ll
    {
      && Contents() == was[..|was| - 1]
      && evicted == log + (if onEvicted then [was[|was| - 1]] else [])
    }

    method RemoveBack()
      requires Valid() && Contents() != []
      modifies Repr
      ensures Valid() && Repr == old(Repr)
      ensures DroppedOldest(old(Contents()), old(evicted))
    {
      Popped();
      var kv := ll.Back();
      cache := cache - {kv.key};
      nbytes := nbytes - (|kv.key| + kv.value.size);
      Report(kv);
      ll.RemoveBack();
    }

    /** The callback, if there is one. */
    method Report(kv: Entry<T>)
      modifies this`evicted
      ensures evicted == old(evicted) + if onEvicted then [kv] else []
    {
      if onEvicted {
        evicted := evicted + [kv];
      }
    }

    /** Puts the entry in front, overwriting the value of a present key in place,
        and evicts from the old end until the budget holds. A negative budget
        would never be met (EvictionCanStopIff). */
    method Add(key: string, value: Value<T>)
      requires Valid() && 0 <= maxBytes
      modifies Repr
      ensures Valid() && fresh(Repr - old(Repr))
      ensures Contents() == Put(maxBytes, old(Contents()), key, value)
      ensures onEvicted ==>
                Account(Contents(), evicted) == Do(maxBytes, Account(old(Contents()), old(evicted)), Op.Add(key, value))
      ensures Contents() != [] <==> maxBytes == 0 || |key| + value.size <= maxBytes
      ensures Contents() != [] ==> Contents()[0] == Entry(key, value)
      ensures forall i :: 0 < i < |Contents()| ==> Contents()[i].key != key && Contents()[i] in old(Contents())
      ensures !onEvicted ==> evicted == old(evicted)
    {
      ll.ElementsDistinct();
      KeysDistinct(cache, ll.Contents, ll.elems);
      PutHolds(maxBytes, ll.Contents, key, value);
      if key in cache {
        Overwrite(key, value);
      } else {
        PushNew(key, value);
      }
      EvictOverBudget();
    }

    method Overwrite(key: string, value: Value<T>)
      requires Valid() && key in cache
      modifies Repr
      ensures Valid() && evicted == old(evicted) && Repr == old(Repr)
      ensures Contents() == Fronted(old(Contents()), key, value)
    {
      var ele := cache[key];
      var kv := ele.entry;
      KeySetMembers(ll.Contents, key);
      ghost var i := Find(ll.Contents, key);
      assert At(ll.root, ll.elems, i) == ele;
      OverwriteFront(cache, ll.Contents, ll.elems, i, value);
      nbytes := nbytes + value.size - kv.value.value.size;
      ll.Refresh(ele, i, Entry(key, value));
    }

    method PushNew(key: string, value: Value<T>)
      requires Valid() && key !in cache
      modifies Repr
      ensures Valid() && evicted == old(evicted) && fresh(Repr - old(Repr))
      ensures Contents() == Fronted(old(Contents()), key, value)
    {
      var e := Entry(key, value);
      KeySetMembers(ll.Contents, key);
      BytesConcat([e], ll.Contents);
      var ele := ll.PushFront(e);
      PushIndexed(cache, old(ll.Contents), old(ll.elems), e, ele);
      cache := cache[key := ele];
      nbytes := nbytes + |key| + value.size;
      Repr := Repr + ll.Repr;
    }

    /** The loop at the end of `Add`: the oldest entries go, one callback each,
        oldest first, until the rest fits. */
    method EvictOverBudget()
      requires Valid() && 0 <= maxBytes
      modifies Repr
      ensures Valid() && Repr == old(Repr)
      ensures Contents() == Evict(maxBytes, old(Contents()))
      ensures evicted == old(evicted)
                         + (if onEvicted then Reverse(old(Contents())[Kept(maxBytes, old(Contents()))..]) else [])
    {
      ghost var all := Contents();
      while maxBytes != 0 && maxBytes < nbytes
        invariant Valid() && |Contents()| <= |all| && Contents() == all[..|Contents()|]
        invariant Repr == old(Repr)
        invariant Evict(maxBytes, Contents()) == Evict(maxBytes, all)
        invariant evicted == old(evicted) + (if onEvicted then Reverse(all[|Contents()|..]) else [])
        decreases |Contents()|
      {
        ghost var n := |Contents()|;
        RemoverOldest();
        EvictStep(maxBytes, all, n);
      }
    }
  }
}

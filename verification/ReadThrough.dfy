/**
 Read-through use of the recency list: what a sequence of `Group.Get` calls on a
 node without peers leaves in the cache, when the source of a key is a function
 of the key.
 */
module ReadThrough {
  import opened Common
  import opened RecencyList

  type Loader<!T> = string -> Option<Value<T>>

  /** The keys that can enter the cache: `Get` refuses the empty one. */
  predicate Loadable<T>(load: Loader<T>, key: string) {
    key != "" && load(key).Some?
  }

  function Access<T>(max: int, load: Loader<T>, s: seq<Entry<T>>, key: string): seq<Entry<T>>
    requires 0 <= max
  {
    if key == "" then s
    else if Has(s, key) then Touch(s, key)
    else Loaded(max, load, s, key)
  }

  /** The list after asking the source for an absent key. */
  function Loaded<T>(max: int, load: Loader<T>, s: seq<Entry<T>>, key: string): seq<Entry<T>>
    requires 0 <= max
  {
    match load(key)
    case None => s
    case Some(v) => Put(max, s, key, v)
  }

  function Run<T>(max: int, load: Loader<T>, keys: seq<string>): seq<Entry<T>>
    requires 0 <= max
  {
    if keys == [] then [] else Access(max, load, Run(max, load, keys[..|keys| - 1]), keys[|keys| - 1])
  }

  /** Distinct keys, each holding what the source gives for it. */
  ghost predicate Truthful<T>(load: Loader<T>, s: seq<Entry<T>>) {
    && Distinct(s)
    && forall i :: 0 <= i < |s| ==> s[i].key != "" && load(s[i].key) == Some(s[i].value)
  }

  lemma LoadedTruthful<T>(max: int, load: Loader<T>, s: seq<Entry<T>>, key: string)
    requires 0 <= max && Truthful(load, s) && key != ""
    ensures Truthful(load, Loaded(max, load, s, key))
  {
    if load(key).Some? {
      WithoutTruthful(load, s, key);
      FrontDistinct(Entry(key, load(key).value), Without(s, key));
      EvictIsPrefix(max, Fronted(s, key, load(key).value));
    }
  }

  lemma WithoutTruthful<T>(load: Loader<T>, s: seq<Entry<T>>, key: string)
    requires Truthful(load, s)
    ensures Truthful(load, Without(s, key))
    ensures forall i :: 0 <= i < |Without(s, key)| ==> Without(s, key)[i].key != key
  {
    WithoutDistinct(s, key);
    if Has(s, key) { DroppedAt(s, Find(s, key)); }
  }

  lemma AccessTruthful<T>(max: int, load: Loader<T>, s: seq<Entry<T>>, key: string)
    requires 0 <= max && Truthful(load, s)
    ensures Truthful(load, Access(max, load, s, key))
  {
    if key == "" {
    } else if Has(s, key) {
      WithoutTruthful(load, s, key);
      FrontDistinct(s[Find(s, key)], Without(s, key));
    } else {
      LoadedTruthful(max, load, s, key);
    }
  }

  lemma {:induction false} RunTruthful<T>(max: int, load: Loader<T>, keys: seq<string>)
    requires 0 <= max
    ensures Truthful(load, Run(max, load, keys))
  {
    if keys == [] {
    } else {
      RunTruthful(max, load, keys[..|keys| - 1]);
      AccessTruthful(max, load, Run(max, load, keys[..|keys| - 1]), keys[|keys| - 1]);
    }
  }

  // ------------------------------------------------ one list for every budget

  lemma FindInPrefix<T>(s: seq<Entry<T>>, n: nat, key: string)
    requires n <= |s|
    ensures Find(s[..n], key) == if Find(s, key) < n then Find(s, key) else n
  {
    var i, j := Find(s, key), Find(s[..n], key);
    if j < n { assert s[..n][j] == s[j]; }
    if i < n { assert s[..n][i] == s[i]; }
  }

  /** A hit inside the kept prefix moves the same entry in both lists. */
  lemma HitStep<T>(max: int, u: seq<Entry<T>>, n: nat, i: nat)
    requires 0 <= max && LongestFit(max, u, n) && i < n
    ensures Evict(max, Moved(u, i)) == Moved(u[..n], i)
  {
    var v := Moved(u, i);
    assert v[..n] == Moved(u[..n], i);
    BytesMoved(u[..n], i);
    if n < |u| {
      assert v[..n + 1] == Moved(u[..n + 1], i);
      BytesMoved(u[..n + 1], i);
    }
    EvictDecidedBy(max, v, n);
  }

  /** A key beyond the kept prefix is loaded again by the bounded cache, while the
      unbounded list only moves it; the kept prefixes still agree. */
  lemma BeyondStep<T>(max: int, u: seq<Entry<T>>, n: nat, i: nat)
    requires 0 <= max && LongestFit(max, u, n) && n <= i < |u|
    ensures Evict(max, Moved(u, i)) == Evict(max, [u[i]] + u[..n])
  {
    var v := Moved(u, i);
    assert v[..n + 1] == [u[i]] + u[..n];
    if n + 1 < |v| {
      assert !Fits(max, v[..n + 2]) by { BeyondOverflows(max, u, n, i); }
    } else {
      assert v[..n + 1] == v;
    }
    EvictFromPrefix(max, v, n + 1);
  }

  lemma BeyondOverflows<T>(max: int, u: seq<Entry<T>>, n: nat, i: nat)
    requires 0 <= max && LongestFit(max, u, n) && n <= i < |u| && n + 1 < |u|
    ensures !Fits(max, Moved(u, i)[..n + 2])
  {
    var v := Moved(u, i);
    assert !Fits(max, u[..n + 1]);
    if i == n {
      assert Moved(u[..n + 1], n) == v[..n + 1];
      BytesMoved(u[..n + 1], n);
      BytesPrefix(v, n + 1, n + 2);
    } else {
      assert v[..n + 2] == [u[i]] + u[..n + 1];
    }
  }

  /** A key the unbounded list has never held enters both lists. */
  lemma NewStep<T>(max: int, u: seq<Entry<T>>, n: nat, key: string, v: Value<T>)
    requires 0 <= max && LongestFit(max, u, n) && !Has(u, key)
    ensures Evict(max, Fronted(u, key, v)) == Put(max, u[..n], key, v)
  {
    FindInPrefix(u, n, key);
    var all := Fronted(u, key, v);
    assert all[..n + 1] == Fronted(u[..n], key, v);
    if n < |u| {
      assert all[..n + 2] == [Entry(key, v)] + u[..n + 1];
      assert !Fits(max, all[..n + 2]);
    } else {
      assert all[..n + 1] == all;
    }
    EvictFromPrefix(max, all, n + 1);
  }

  lemma AccessCommutesWithEvict<T>(max: int, load: Loader<T>, u: seq<Entry<T>>, key: string)
    requires 0 <= max && Truthful(load, u)
    ensures Access(max, load, Evict(max, u), key) == Evict(max, Access(0, load, u, key))
  {
    EvictKeepsLongestFit(max, u);
    var n := |Evict(max, u)|;
    FindInPrefix(u, n, key);
    if key != "" {
      if Find(u, key) < n {
        HitStep(max, u, n, Find(u, key));
      } else if Has(u, key) {
        BeyondStep(max, u, n, Find(u, key));
        assert Without(u[..n], key) == u[..n];
      } else if load(key).Some? {
        NewStep(max, u, n, key, load(key).value);
      }
    }
  }

  /** After any sequence of `Get` calls the cache holds exactly the longest prefix
      of the unbounded move-to-front list that fits its budget. */
  lemma {:induction false} CacheIsLongestFittingPrefix<T>(max: int, load: Loader<T>, keys: seq<string>)
    requires 0 <= max
    ensures Run(max, load, keys) == Evict(max, Run(0, load, keys))
    ensures exists n: nat :: LongestFit(max, Run(0, load, keys), n) && Run(max, load, keys) == Run(0, load, keys)[..n]
  {
    if keys == [] {
    } else {
      CacheIsLongestFittingPrefix(max, load, keys[..|keys| - 1]);
      RunTruthful(0, load, keys[..|keys| - 1]);
      AccessCommutesWithEvict(max, load, Run(0, load, keys[..|keys| - 1]), keys[|keys| - 1]);
    }
    EvictKeepsLongestFit(max, Run(0, load, keys));
    assert LongestFit(max, Run(0, load, keys), |Run(max, load, keys)|);
  }

  /** No Belady anomaly: with the larger budget (0 being the largest) the cache
      holds the same list and possibly more behind it, so it hits at least as often. */
  lemma LargerBudgetHitsMore<T>(small: int, large: int, load: Loader<T>, keys: seq<string>, key: string)
    requires 0 <= small && 0 <= large
    requires large == 0 || (small != 0 && small <= large)
    ensures Run(small, load, keys) <= Run(large, load, keys)
    ensures Has(Run(small, load, keys), key) ==> Has(Run(large, load, keys), key)
  {
    var u := Run(0, load, keys);
    CacheIsLongestFittingPrefix(small, load, keys);
    CacheIsLongestFittingPrefix(large, load, keys);
    EvictKeepsLongestFit(small, u);
    EvictKeepsLongestFit(large, u);
    var a, b := |Evict(small, u)|, |Evict(large, u)|;
    assert a <= b;
    FindInPrefix(u, a, key);
    FindInPrefix(u, b, key);
  }

  // ------------------------------------------------------------- stack distance

  /** Index of the last use of `key`, or -1. */
  function LastUse(keys: seq<string>, key: string): (j: int)
    ensures -1 <= j < |keys|
    ensures 0 <= j ==> keys[j] == key
    ensures forall i :: j < i < |keys| ==> keys[i] != key
  {
    if keys == [] then -1
    else if keys[|keys| - 1] == key then |keys| - 1
    else LastUse(keys[..|keys| - 1], key)
  }

  /** The distinct loadable keys used since the last use of `key`, itself included. */
  ghost function UsedSince<T>(load: Loader<T>, keys: seq<string>, key: string): set<string>
    requires 0 <= LastUse(keys, key)
  {
    set i | LastUse(keys, key) <= i < |keys| && Loadable(load, keys[i]) :: keys[i]
  }

  ghost function TotalCost<T>(load: Loader<T>, ks: set<string>): nat
    requires forall k :: k in ks ==> Loadable(load, k)
  {
    if ks == {} then 0
    else var k :| k in ks; assert Loadable(load, k); |k| + load(k).value.size + TotalCost(load, ks - {k})
  }

  lemma {:induction false} TotalCostPick<T>(load: Loader<T>, ks: set<string>, k: string)
    requires (forall x :: x in ks ==> Loadable(load, x)) && k in ks
    ensures TotalCost(load, ks) == |k| + load(k).value.size + TotalCost(load, ks - {k})
  {
    var c :| c in ks && TotalCost(load, ks) == |c| + load(c).value.size + TotalCost(load, ks - {c});
    if c != k {
      TotalCostPick(load, ks - {c}, k);
      TotalCostPick(load, ks - {k}, c);
      assert ks - {c} - {k} == ks - {k} - {c};
    }
  }

  lemma {:induction false} BytesAreTotalCost<T>(load: Loader<T>, s: seq<Entry<T>>)
    requires Truthful(load, s)
    ensures forall k :: k in KeySet(s) ==> Loadable(load, k)
    ensures Bytes(s) == TotalCost(load, KeySet(s))
  {
    if s == [] {
    } else {
      var t := s[1..];
      forall i, j | 0 <= i < j < |t| ensures t[i].key != t[j].key {
        assert t[i] == s[i + 1] && t[j] == s[j + 1];
      }
      BytesAreTotalCost(load, t);
      KeySetMembers(t, s[0].key);
      TotalCostPick(load, KeySet(s), s[0].key);
      assert KeySet(s) - {s[0].key} == KeySet(t);
    }
  }

  /** The keys at and in front of `key` in the list. */
  ghost function UpTo<T>(s: seq<Entry<T>>, key: string): set<string>
    requires Has(s, key)
  {
    KeySet(s[..Find(s, key) + 1])
  }

  lemma FrontFind<T>(s: seq<Entry<T>>, e: Entry<T>, key: string)
    requires Has(s, key) && e.key != key
    ensures Find([e] + Without(s, e.key), key)
         == if Find(s, key) < Find(s, e.key) then Find(s, key) + 1 else Find(s, key)
  {
    var t, i, j := [e] + Without(s, e.key), Find(s, key), Find(s, e.key);
    var i' := if i < j then i + 1 else i;
    assert t[i'] == s[i];
    forall m | 0 <= m < i' ensures t[m].key != key {
      if m > 0 { assert t[m] == s[if m - 1 < j then m - 1 else m]; }
    }
  }

  lemma FrontPrefix<T>(s: seq<Entry<T>>, e: Entry<T>, i: nat, j: nat)
    requires i < |s| && j <= |s| && i != j
    requires j < |s| ==> s[j] == e
    ensures var t := [e] + (if j < |s| then s[..j] + s[j + 1..] else s);
            KeySet(t[..if i < j then i + 2 else i + 1]) == KeySet(s[..i + 1]) + {e.key}
  {
    var t := [e] + (if j < |s| then s[..j] + s[j + 1..] else s);
    if i < j {
      assert t[..i + 2] == [e] + s[..i + 1];
      KeySetConcat([e], s[..i + 1]);
    } else {
      assert t[..i + 1] == [e] + (s[..j] + s[j + 1..i + 1]);
      KeySetMoved(s[..j], e, s[j + 1..i + 1]);
      assert s[..i + 1] == s[..j] + ([e] + s[j + 1..i + 1]);
      KeySetMembers(s[..i + 1], e.key);
      assert s[..i + 1][j] == e;
    }
  }

  lemma FrontUpTo<T>(s: seq<Entry<T>>, e: Entry<T>, key: string)
    requires Has(s, key) && e.key != key
    requires Has(s, e.key) ==> s[Find(s, e.key)] == e
    ensures var t := [e] + Without(s, e.key); Has(t, key) && UpTo(t, key) == UpTo(s, key) + {e.key}
  {
    var i, j := Find(s, key), Find(s, e.key);
    FrontFind(s, e, key);
    FrontPrefix(s, e, i, j);
    var t := [e] + (if j < |s| then s[..j] + s[j + 1..] else s);
    assert [e] + Without(s, e.key) == t;
    var n := if i < j then i + 2 else i + 1;
    assert Find(t, key) + 1 == n && UpTo(t, key) == KeySet(t[..n]);
  }

  lemma UsedSinceAppend<T>(load: Loader<T>, keys: seq<string>, last: string, key: string)
    requires 0 <= LastUse(keys, key) && last != key
    ensures LastUse(keys + [last], key) == LastUse(keys, key)
    ensures UsedSince(load, keys + [last], key)
         == UsedSince(load, keys, key) + (if Loadable(load, last) then {last} else {})
  {
    var ks := keys + [last];
    assert ks[..|ks| - 1] == keys;
    var j := LastUse(keys, key);
    assert LastUse(ks, key) == j;
    forall k | k in UsedSince(load, keys, key) ensures k in UsedSince(load, ks, key) {
      var i :| j <= i < |keys| && Loadable(load, keys[i]) && keys[i] == k;
      assert ks[i] == k;
    }
    if Loadable(load, last) { assert ks[|keys|] == last; }
  }

  /** In the unbounded list a key sits behind exactly the loadable keys used since
      its own last use; it is there if and only if it is loadable and was used. */
  lemma {:induction false} RecencyOrder<T>(load: Loader<T>, keys: seq<string>, key: string)
    ensures Has(Run(0, load, keys), key) <==> Loadable(load, key) && 0 <= LastUse(keys, key)
    ensures Has(Run(0, load, keys), key) ==> UpTo(Run(0, load, keys), key) == UsedSince(load, keys, key)
  {
    if keys == [] {
    } else {
      var ks, last := keys[..|keys| - 1], keys[|keys| - 1];
      assert keys == ks + [last];
      var u := Run(0, load, ks);
      var t := Run(0, load, keys);
      RunTruthful(0, load, ks);
      RecencyOrder(load, ks, key);
      RecencyOrder(load, ks, last);
      if !Loadable(load, last) {
        assert t == u;
        if key != last && Has(u, key) { UsedSinceAppend(load, ks, last, key); }
      } else {
        var e := LoadedStep(load, u, last);
        if key == last {
          assert LastUse(keys, key) == |ks|;
          OneUsed(load, keys, key);
          JustUsed(e, Without(u, last));
        } else if Has(u, key) {
          FrontUpTo(u, e, key);
          UsedSinceAppend(load, ks, last, key);
        } else {
          AbsentStays(u, e, key);
        }
      }
    }
  }

  /** Using a loadable key puts its entry in front of the others. */
  lemma LoadedStep<T>(load: Loader<T>, u: seq<Entry<T>>, key: string) returns (e: Entry<T>)
    requires Loadable(load, key)
    ensures e.key == key && Access(0, load, u, key) == [e] + Without(u, key)
    ensures Has(u, key) ==> u[Find(u, key)] == e
  {
    e := if Has(u, key) then u[Find(u, key)] else Entry(key, load(key).value);
  }

  lemma JustUsed<T>(e: Entry<T>, rest: seq<Entry<T>>)
    ensures Find([e] + rest, e.key) == 0 && UpTo([e] + rest, e.key) == {e.key}
  {
    assert ([e] + rest)[0] == e && ([e] + rest)[..1] == [e];
    assert KeySet([e]) == {e.key};
  }

  lemma AbsentStays<T>(s: seq<Entry<T>>, e: Entry<T>, key: string)
    requires !Has(s, key) && e.key != key
    ensures !Has([e] + Without(s, e.key), key)
  {
    var t, j := [e] + Without(s, e.key), Find(s, e.key);
    forall m | 0 <= m < |t| ensures t[m].key != key {
      if m > 0 { assert t[m] == s[if m - 1 < j then m - 1 else m]; }
    }
  }

  lemma OneUsed<T>(load: Loader<T>, keys: seq<string>, key: string)
    requires 0 < |keys| && keys[|keys| - 1] == key && Loadable(load, key)
    ensures UsedSince(load, keys, key) == {key}
  {
    assert LastUse(keys, key) == |keys| - 1;
    assert keys[|keys| - 1] in UsedSince(load, keys, key);
  }

  /** The next `Get` of `key` hits if and only if the key was used before and the
      distinct loadable keys used since then, itself included, together fit the budget. */
  lemma StackDistance<T>(max: int, load: Loader<T>, keys: seq<string>, key: string)
    requires 0 <= max
    ensures 0 <= LastUse(keys, key) ==> forall k :: k in UsedSince(load, keys, key) ==> Loadable(load, k)
    ensures Has(Run(max, load, keys), key) <==>
            && Loadable(load, key)
            && 0 <= LastUse(keys, key)
            && (max == 0 || TotalCost(load, UsedSince(load, keys, key)) <= max)
  {
    var u := Run(0, load, keys);
    RecencyOrder(load, keys, key);
    RunTruthful(0, load, keys);
    CacheIsLongestFittingPrefix(max, load, keys);
    EvictKeepsLongestFit(max, u);
    var n := |Run(max, load, keys)|;
    FindInPrefix(u, n, key);
    if Has(u, key) {
      var i := Find(u, key);
      BytesAreTotalCost(load, u[..i + 1]);
      if i < n { BytesPrefix(u, i + 1, n); }
    }
  }
}

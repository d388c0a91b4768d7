/**
 The byte-weighted recency list that an LRU cache stands for: the most recently
 used entry first, each entry costing the length of its key plus the length its
 value reports.
 */
module RecencyList {
  import opened Common

  /** A cached value: any payload, with the length that `Len()` reports for it. */
  datatype Value<+T> = Value(data: T, size: nat)

  datatype Entry<+T> = Entry(key: string, value: Value<T>)

  function Cost<T>(e: Entry<T>): nat {
    |e.key| + e.value.size
  }

  function Bytes<T>(s: seq<Entry<T>>): nat {
    if s == [] then 0 else Cost(s[0]) + Bytes(s[1..])
  }

  /** The budget test; a budget of 0 means no limit. */
  predicate Fits<T>(max: int, s: seq<Entry<T>>) {
    max == 0 || Bytes(s) <= max
  }

  ghost predicate Distinct<T>(s: seq<Entry<T>>) {
    forall i, j :: 0 <= i < j < |s| ==> s[i].key != s[j].key
  }

  /** Position of `key`, or |s| when it is absent. */
  function Find<T>(s: seq<Entry<T>>, key: string): (i: nat)
    ensures i <= |s|
    ensures i < |s| ==> s[i].key == key
    ensures forall j :: 0 <= j < i ==> s[j].key != key
  {
    FindFrom(s, key, 0)
  }

  function FindFrom<T>(s: seq<Entry<T>>, key: string, at: nat): (i: nat)
    requires at <= |s|
    ensures at <= i <= |s|
    ensures i < |s| ==> s[i].key == key
    ensures forall j :: at <= j < i ==> s[j].key != key
    decreases |s| - at
  {
    if at == |s| || s[at].key == key then at else FindFrom(s, key, at + 1)
  }

  predicate Has<T>(s: seq<Entry<T>>, key: string) {
    Find(s, key) < |s|
  }

  function Without<T>(s: seq<Entry<T>>, key: string): seq<Entry<T>> {
    var i := Find(s, key);
    if i < |s| then Dropped(s, i) else s
  }

  function Dropped<A>(s: seq<A>, i: nat): seq<A>
    requires i < |s|
  {
    s[..i] + s[i + 1..]
  }

  function Moved<A>(s: seq<A>, i: nat): seq<A>
    requires i < |s|
  {
    [s[i]] + Dropped(s, i)
  }

  lemma DroppedAt<A>(s: seq<A>, i: nat)
    requires i < |s|
    ensures |Dropped(s, i)| == |s| - 1
    ensures forall j :: 0 <= j < |s| - 1 ==> Dropped(s, i)[j] == s[if j < i then j else j + 1]
  {
  }

  lemma DroppedNoDup<A>(s: seq<A>, i: nat)
    requires NoDup(s) && i < |s|
    ensures s[i] !in Dropped(s, i)
  {
    DroppedAt(s, i);
  }

  /** A lookup moves the entry it finds to the front. */
  function Touch<T>(s: seq<Entry<T>>, key: string): seq<Entry<T>> {
    var i := Find(s, key);
    if i < |s| then Moved(s, i) else s
  }

  lemma TouchedAt<T>(s: seq<Entry<T>>, key: string)
    requires Has(s, key)
    ensures var t, i := Touch(s, key), Find(s, key);
      && |t| == |s| && t[0] == s[i]
      && (forall j :: 0 <= j < i ==> t[j + 1] == s[j]) && (forall j :: i < j < |s| ==> t[j] == s[j])
  {
    var t, i := Touch(s, key), Find(s, key);
    var d := Dropped(s, i);
    DroppedAt(s, i);
    assert t == [s[i]] + d;
    forall j | 0 <= j < i ensures t[j + 1] == s[j] { assert t[j + 1] == d[j]; }
    forall j | i < j < |s| ensures t[j] == s[j] { assert t[j] == d[j - 1]; }
  }

  /** Drop entries from the old end until the rest fits. */
  function Evict<T>(max: int, s: seq<Entry<T>>): seq<Entry<T>>
    requires 0 <= max
  {
    if Fits(max, s) then s else Evict(max, s[..|s| - 1])
  }

  function Fronted<T>(s: seq<Entry<T>>, key: string, v: Value<T>): seq<Entry<T>> {
    [Entry(key, v)] + Without(s, key)
  }

  /** Insertion: the entry goes to the front, an older entry of the same key
      goes away, and the old end is cut to the budget. */
  function Put<T>(max: int, s: seq<Entry<T>>, key: string, v: Value<T>): seq<Entry<T>>
    requires 0 <= max
  {
    Evict(max, Fronted(s, key, v))
  }

  lemma {:induction false} BytesConcat<T>(a: seq<Entry<T>>, b: seq<Entry<T>>)
    ensures Bytes(a + b) == Bytes(a) + Bytes(b)
  {
    if a == [] {
      assert a + b == b;
    } else {
      assert (a + b)[0] == a[0] && (a + b)[1..] == a[1..] + b;
      BytesConcat(a[1..], b);
    }
  }

  lemma BytesPrefix<T>(s: seq<Entry<T>>, i: nat, j: nat)
    requires i <= j <= |s|
    ensures Bytes(s[..i]) <= Bytes(s[..j])
  {
    assert s[..j] == s[..i] + s[i..j];
    BytesConcat(s[..i], s[i..j]);
  }

  lemma {:induction false} BytesLast<T>(s: seq<Entry<T>>)
    requires s != []
    ensures Bytes(s) == Bytes(s[..|s| - 1]) + Cost(s[|s| - 1])
  {
    assert s == s[..|s| - 1] + [s[|s| - 1]];
    BytesConcat(s[..|s| - 1], [s[|s| - 1]]);
  }

  /** Taking one entry out and putting it in front keeps the total. */
  lemma {:induction false} BytesMoved<T>(s: seq<Entry<T>>, i: nat)
    requires i < |s|
    ensures Bytes(s) == Bytes(Moved(s, i)) == Cost(s[i]) + Bytes(Dropped(s, i))
  {
    SplitAt(s, i);
    var a, e, b := s[..i], s[i], s[i + 1..];
    BytesSplit(a, e, b);
  }

  lemma SplitAt<A>(s: seq<A>, i: nat)
    requires i < |s|
    ensures s == s[..i] + ([s[i]] + s[i + 1..])
  {
  }

  lemma {:induction false} BytesSplit<T>(a: seq<Entry<T>>, e: Entry<T>, b: seq<Entry<T>>)
    ensures Bytes(a + ([e] + b)) == Bytes([e] + (a + b)) == Cost(e) + Bytes(a + b)
  {
    BytesConcat(a, [e] + b);
    BytesConcat(a, b);
    assert ([e] + b)[1..] == b && ([e] + (a + b))[1..] == a + b;
  }

  lemma BytesWithout<T>(s: seq<Entry<T>>, key: string)
    requires Has(s, key)
    ensures Bytes(s) == Bytes(Touch(s, key)) == Cost(s[Find(s, key)]) + Bytes(Without(s, key))
  {
    BytesMoved(s, Find(s, key));
  }

  lemma WithoutDistinct<T>(s: seq<Entry<T>>, key: string)
    requires Distinct(s)
    ensures Distinct(Without(s, key))
    ensures forall i :: 0 <= i < |Without(s, key)| ==> Without(s, key)[i].key != key
  {
    var i := Find(s, key);
    if i < |s| {
      var w := Without(s, key);
      forall j | 0 <= j < |w| ensures w[j] == s[if j < i then j else j + 1] {}
    }
  }

  lemma FrontDistinct<T>(e: Entry<T>, s: seq<Entry<T>>)
    requires Distinct(s) && forall i :: 0 <= i < |s| ==> s[i].key != e.key
    ensures Distinct([e] + s)
  {
    var t := [e] + s;
    forall i, j | 0 <= i < j < |t| ensures t[i].key != t[j].key {
      assert t[j] == s[j - 1];
      if i > 0 { assert t[i] == s[i - 1]; }
    }
  }

  /** Keys stay distinct under lookup, insertion and eviction. */
  lemma KeysStayDistinct<T>(max: int, s: seq<Entry<T>>, key: string, v: Value<T>)
    requires Distinct(s) && 0 <= max
    ensures Distinct(Touch(s, key)) && Distinct(Fronted(s, key, v)) && Distinct(Put(max, s, key, v))
  {
    WithoutDistinct(s, key);
    FrontDistinct(Entry(key, v), Without(s, key));
    if Has(s, key) { FrontDistinct(s[Find(s, key)], Without(s, key)); }
    EvictIsPrefix(max, Fronted(s, key, v));
  }

  // ------------------------------------------------------------ the set of keys

  ghost function KeySet<T>(s: seq<Entry<T>>): set<string> {
    if s == [] then {} else {s[0].key} + KeySet(s[1..])
  }

  lemma {:induction false} KeySetMembers<T>(s: seq<Entry<T>>, k: string)
    ensures k in KeySet(s) <==> exists i :: 0 <= i < |s| && s[i].key == k
  {
    if s == [] {
    } else {
      KeySetMembers(s[1..], k);
      if i :| 0 <= i < |s| && s[i].key == k { if i > 0 { assert s[1..][i - 1].key == k; } }
    }
  }

  lemma {:induction false} KeySetConcat<T>(a: seq<Entry<T>>, b: seq<Entry<T>>)
    ensures KeySet(a + b) == KeySet(a) + KeySet(b)
  {
    if a == [] {
      assert a + b == b;
    } else {
      assert (a + b)[0] == a[0] && (a + b)[1..] == a[1..] + b;
      KeySetConcat(a[1..], b);
    }
  }

  lemma KeySetMoved<T>(a: seq<Entry<T>>, e: Entry<T>, b: seq<Entry<T>>)
    ensures KeySet([e] + (a + b)) == KeySet(a + ([e] + b))
  {
    KeySetConcat([e], a + b);
    KeySetConcat(a, b);
    KeySetConcat(a, [e] + b);
    KeySetConcat([e], b);
  }

  lemma HasIsMember<T>(s: seq<Entry<T>>, k: string)
    ensures Has(s, k) <==> k in KeySet(s)
  {
    KeySetMembers(s, k);
  }

  lemma TouchKeepsKeys<T>(s: seq<Entry<T>>, key: string)
    ensures KeySet(Touch(s, key)) == KeySet(s)
  {
    if Has(s, key) {
      var i := Find(s, key);
      SplitAt(s, i);
      KeySetMoved(s[..i], s[i], s[i + 1..]);
    }
  }

  /** An insertion brings in at most its own key, and keeps it exactly when the
      new entry alone is within the budget. */
  lemma PutKeys<T>(max: int, s: seq<Entry<T>>, key: string, v: Value<T>)
    requires 0 <= max
    ensures KeySet(Put(max, s, key, v)) <= KeySet(s) + {key}
    ensures key in KeySet(Put(max, s, key, v)) <==> max == 0 || |key| + v.size <= max
  {
    var all, w := Fronted(s, key, v), Without(s, key);
    EvictKeepsLongestFit(max, all);
    var n := Kept(max, all);
    KeySetPrefix(all, n);
    KeySetConcat([Entry(key, v)], w);
    WithoutKeys(s, key);
    assert all[..1] == [Entry(key, v)];
    if n == 0 {
      assert !Fits(max, all[..1]);
    } else {
      BytesPrefix(all, 1, n);
      KeySetMembers(all[..n], key);
      assert all[..n][0].key == key;
    }
  }

  /** An insertion leaves its own entry in front, with the new value, if the entry alone is
      within the budget, and behind it other keys' entries as they were. */
  lemma {:induction false} PutHolds<T>(max: int, s: seq<Entry<T>>, key: string, v: Value<T>)
    requires 0 <= max && Distinct(s)
    ensures var t := Put(max, s, key, v);
      && (t != [] <==> max == 0 || |key| + v.size <= max)
      && (t != [] ==> t[0] == Entry(key, v))
      && (forall i :: 0 < i < |t| ==> t[i].key != key && t[i] in s)
  {
    var all, w := Fronted(s, key, v), Without(s, key);
    EvictIsPrefix(max, all);
    PutKeys(max, s, key, v);
    KeySetMembers(Put(max, s, key, v), key);
    WithoutDistinct(s, key);
    if Has(s, key) { DroppedAt(s, Find(s, key)); }
    forall i | 0 < i < |all| ensures all[i].key != key && all[i] in s { assert all[i] == w[i - 1]; }
  }

  lemma KeySetPrefix<T>(s: seq<Entry<T>>, n: nat)
    requires n <= |s|
    ensures KeySet(s[..n]) <= KeySet(s)
  {
    assert s == s[..n] + s[n..];
    KeySetConcat(s[..n], s[n..]);
  }

  lemma WithoutKeys<T>(s: seq<Entry<T>>, key: string)
    ensures KeySet(Without(s, key)) <= KeySet(s)
  {
    if Has(s, key) {
      TouchKeepsKeys(s, key);
      KeySetConcat([s[Find(s, key)]], Without(s, key));
    }
  }

  // ------------------------------------------------------------- exact eviction

  /** `n` entries is the most that fits: no longer prefix of `s` does. */
  ghost predicate LongestFit<T>(max: int, s: seq<Entry<T>>, n: nat) {
    n <= |s| && Fits(max, s[..n]) && forall m :: n < m <= |s| ==> !Fits(max, s[..m])
  }

  lemma {:induction false} EvictIsPrefix<T>(max: int, s: seq<Entry<T>>)
    requires 0 <= max
    ensures |Evict(max, s)| <= |s| && Evict(max, s) == s[..|Evict(max, s)|]
  {
    if Fits(max, s) {
    } else {
      EvictIsPrefix(max, s[..|s| - 1]);
      assert s[..|s| - 1][..|Evict(max, s)|] == s[..|Evict(max, s)|];
    }
  }

  /** The eviction loop keeps exactly the longest prefix within the budget. */
  lemma {:induction false} EvictKeepsLongestFit<T>(max: int, s: seq<Entry<T>>)
    requires 0 <= max
    ensures LongestFit(max, s, |Evict(max, s)|) && Evict(max, s) == s[..|Evict(max, s)|]
  {
    EvictIsPrefix(max, s);
    var n := |Evict(max, s)|;
    assert s[..|s|] == s;
    if Fits(max, s) {
    } else {
      var t := s[..|s| - 1];
      EvictKeepsLongestFit(max, t);
      forall m | n < m <= |s| ensures !Fits(max, s[..m]) {
        if m < |s| { assert t[..m] == s[..m]; }
      }
    }
  }

  /** One extra entry that does not fit already decides where eviction stops. */
  lemma EvictDecidedBy<T>(max: int, s: seq<Entry<T>>, n: nat)
    requires 0 <= max && n <= |s| && Fits(max, s[..n])
    requires n == |s| || !Fits(max, s[..n + 1])
    ensures Evict(max, s) == s[..n]
  {
    EvictKeepsLongestFit(max, s);
    if n < |Evict(max, s)| { BytesPrefix(s, n + 1, |Evict(max, s)|); }
  }

  /** Entries behind a prefix that already overflows do not matter. */
  lemma EvictFromPrefix<T>(max: int, s: seq<Entry<T>>, m: nat)
    requires 0 <= max && m <= |s|
    requires m == |s| || !Fits(max, s[..m + 1])
    ensures Evict(max, s) == Evict(max, s[..m])
  {
    EvictKeepsLongestFit(max, s[..m]);
    var n := |Evict(max, s[..m])|;
    assert s[..m][..n] == s[..n];
    if n < m { assert s[..m][..n + 1] == s[..n + 1]; }
    if n == |s| { assert s[..n] == s; }
    EvictDecidedBy(max, s, n);
  }

  /** The loop of `Add` reaches a list within the budget exactly when the budget
      is not negative: below zero even the empty list is over it, and removing
      the oldest entry of an empty list changes nothing. */
  lemma EvictionCanStopIff<T>(max: int, s: seq<Entry<T>>)
    ensures (exists n :: 0 <= n <= |s| && Fits(max, s[..n])) <==> 0 <= max
  {
    if 0 <= max { assert Fits(max, s[..0]); }
  }

  // ------------------------------------------------------------ byte accounting

  datatype Op<T> = Add(key: string, value: Value<T>) | Get(key: string) | RemoveOldest

  /** A cache together with everything its eviction callback has been given. */
  datatype Account<T> = Account(list: seq<Entry<T>>, evicted: seq<Entry<T>>)

  function Reverse<T>(s: seq<T>): seq<T> {
    if s == [] then [] else Reverse(s[1..]) + [s[0]]
  }

  function Do<T>(max: int, a: Account<T>, op: Op<T>): Account<T>
    requires 0 <= max
  {
    match op
    case Get(key) => a.(list := Touch(a.list, key))
    case RemoveOldest =>
      if a.list == [] then a
      else Account(a.list[..|a.list| - 1], a.evicted + [a.list[|a.list| - 1]])
    case Add(key, v) =>
      var all := Fronted(a.list, key, v);
      var kept := Evict(max, all);
      Account(kept, a.evicted + Reverse(all[Kept(max, all)..]))
  }

  function Kept<T>(max: int, s: seq<Entry<T>>): (n: nat)
    requires 0 <= max
    ensures n <= |s|
  {
    EvictIsPrefix(max, s);
    |Evict(max, s)|
  }

  /** What one operation brings in: a new entry its whole cost, an overwritten
      entry only the change of its value's length. */
  function Inflow<T>(a: Account<T>, op: Op<T>): int {
    match op
    case Add(key, v) =>
      if Has(a.list, key) then v.size - a.list[Find(a.list, key)].value.size else |key| + v.size
    case _ => 0
  }

  function RunOps<T>(max: int, ops: seq<Op<T>>): Account<T>
    requires 0 <= max
  {
    if ops == [] then Account([], []) else Do(max, RunOps(max, ops[..|ops| - 1]), ops[|ops| - 1])
  }

  function TotalInflow<T>(max: int, ops: seq<Op<T>>): int
    requires 0 <= max
  {
    if ops == [] then 0
    else TotalInflow(max, ops[..|ops| - 1]) + Inflow(RunOps(max, ops[..|ops| - 1]), ops[|ops| - 1])
  }

  lemma {:induction false} ReverseAt<T>(s: seq<T>, i: nat)
    requires i < |s|
    ensures |Reverse(s)| == |s| && Reverse(s)[i] == s[|s| - 1 - i]
  {
    if 1 < |s| { ReverseAt(s[1..], if i < |s| - 1 then i else 0); }
  }

  lemma ReverseLength<T>(s: seq<T>)
    ensures |Reverse(s)| == |s|
  {
    if s != [] { ReverseAt(s, 0); }
  }

  lemma CutFromTheEnd<T>(all: seq<T>, kept: nat, i: nat)
    requires kept <= |all| && i < |all| - kept
    ensures |Reverse(all[kept..])| == |all| - kept && Reverse(all[kept..])[i] == all[|all| - 1 - i]
  {
    ReverseAt(all[kept..], i);
  }

  /** What an insertion reports to the eviction callback: the entries that it cuts off, each
      once, the one at the old end first. */
  lemma {:induction false} AddReportsOldestFirst<T>(max: int, a: Account<T>, key: string, v: Value<T>)
    requires 0 <= max
    ensures var b, all := Do(max, a, Add(key, v)), [Entry(key, v)] + Without(a.list, key);
      var cut := |all| - |b.list|;
      && 0 <= cut && b.list == all[..|b.list|] && |b.evicted| == |a.evicted| + cut
      && b.evicted[..|a.evicted|] == a.evicted
      && forall j :: |a.evicted| <= j < |b.evicted| ==> b.evicted[j] == all[|all| - 1 - (j - |a.evicted|)]
  {
    var b, all := Do(max, a, Add(key, v)), Fronted(a.list, key, v);
    EvictIsPrefix(max, all);
    var n := Kept(max, all);
    var reported := Reverse(all[n..]);
    ReverseLength(all[n..]);
    forall i: nat | i < |all| - n ensures reported[i] == all[|all| - 1 - i] { CutFromTheEnd(all, n, i); }
    AppendedLog(a.evicted, reported, b.evicted);
  }

  lemma AppendedLog<T>(log: seq<T>, more: seq<T>, all: seq<T>)
    requires all == log + more
    ensures |all| == |log| + |more| && all[..|log|] == log
    ensures forall j :: |log| <= j < |all| ==> all[j] == more[j - |log|]
  {
  }

  lemma {:induction false} BytesReverse<T>(s: seq<Entry<T>>)
    ensures Bytes(Reverse(s)) == Bytes(s)
  {
    if s == [] {
    } else {
      BytesReverse(s[1..]);
      BytesConcat(Reverse(s[1..]), [s[0]]);
    }
  }

  lemma StepConserves<T>(max: int, a: Account<T>, op: Op<T>)
    requires 0 <= max
    ensures var b := Do(max, a, op);
            Bytes(b.list) + Bytes(b.evicted) == Bytes(a.list) + Bytes(a.evicted) + Inflow(a, op)
  {
    match op {
      case Get(key) =>
        if Has(a.list, key) { BytesWithout(a.list, key); }
      case RemoveOldest =>
        if a.list != [] {
          BytesLast(a.list);
          BytesConcat(a.evicted, [a.list[|a.list| - 1]]);
        }
      case Add(key, v) => AddConserves(max, a, key, v);
    }
  }

  lemma AddConserves<T>(max: int, a: Account<T>, key: string, v: Value<T>)
    requires 0 <= max
    ensures var b := Do(max, a, Add(key, v));
            Bytes(b.list) + Bytes(b.evicted) == Bytes(a.list) + Bytes(a.evicted) + Inflow(a, Add(key, v))
  {
    var all := Fronted(a.list, key, v);
    var n := Kept(max, all);
    assert Bytes(all) == Bytes(a.list) + Inflow(a, Add(key, v)) by {
      if Has(a.list, key) { BytesWithout(a.list, key); }
      BytesConcat([Entry(key, v)], Without(a.list, key));
    }
    EvictIsPrefix(max, all);
    assert all == all[..n] + all[n..];
    BytesConcat(all[..n], all[n..]);
    BytesReverse(all[n..]);
    BytesConcat(a.evicted, Reverse(all[n..]));
  }

  /** Over any run, the bytes brought in are the bytes present plus the bytes
      handed to the eviction callback. */
  lemma {:induction false} BytesConserved<T>(max: int, ops: seq<Op<T>>)
    requires 0 <= max
    ensures var a := RunOps(max, ops);
            TotalInflow(max, ops) == Bytes(a.list) + Bytes(a.evicted)
  {
    if ops == [] {
    } else {
      BytesConserved(max, ops[..|ops| - 1]);
      StepConserves(max, RunOps(max, ops[..|ops| - 1]), ops[|ops| - 1]);
    }
  }

  /** Keys are distinct after any run, and after an insertion the list is within the budget. */
  lemma {:induction false} RunKeepsShape<T>(max: int, ops: seq<Op<T>>)
    requires 0 <= max
    ensures Distinct(RunOps(max, ops).list) && Fits(max, RunOps(max, ops).list)
  {
    if ops == [] {
    } else {
      RunKeepsShape(max, ops[..|ops| - 1]);
      StepKeepsShape(max, RunOps(max, ops[..|ops| - 1]), ops[|ops| - 1]);
    }
  }

  /** The value of the key's last insertion. */
  function LastAdded<T>(ops: seq<Op<T>>, key: string): Option<Value<T>> {
    if ops == [] then None
    else
      var op := ops[|ops| - 1];
      if op.Add? && op.key == key then Some(op.value) else LastAdded(ops[..|ops| - 1], key)
  }

  /** What is listed after any run has the value of its key's last insertion. */
  lemma {:induction false} ListedIsLastAdded<T>(max: int, ops: seq<Op<T>>, e: Entry<T>)
    requires 0 <= max && e in RunOps(max, ops).list
    ensures LastAdded(ops, e.key) == Some(e.value)
  {
    var before, op := ops[..|ops| - 1], ops[|ops| - 1];
    var list := RunOps(max, before).list;
    RunKeepsShape(max, before);
    if op.Add? {
      PutHolds(max, list, op.key, op.value);
      assert RunOps(max, ops).list == Put(max, list, op.key, op.value);
    } else if op.Get? && Has(list, op.key) {
      DroppedAt(list, Find(list, op.key));
    }
    if e in list { ListedIsLastAdded(max, before, e); }
  }

  /** A lookup after any run finds nothing or the value of the key's last insertion. */
  lemma {:induction false} LookupIsLastAdded<T>(max: int, ops: seq<Op<T>>, key: string)
    requires 0 <= max
    ensures var list := RunOps(max, ops).list;
      Has(list, key) ==> LastAdded(ops, key) == Some(list[Find(list, key)].value)
  {
    var list := RunOps(max, ops).list;
    if Has(list, key) { ListedIsLastAdded(max, ops, list[Find(list, key)]); }
  }

  lemma StepKeepsShape<T>(max: int, a: Account<T>, op: Op<T>)
    requires 0 <= max && Distinct(a.list) && Fits(max, a.list)
    ensures Distinct(Do(max, a, op).list) && Fits(max, Do(max, a, op).list)
  {
    match op {
      case Get(key) =>
        if Has(a.list, key) {
          WithoutDistinct(a.list, key);
          FrontDistinct(a.list[Find(a.list, key)], Without(a.list, key));
          BytesWithout(a.list, key);
        }
      case RemoveOldest =>
        if a.list != [] { BytesLast(a.list); }
      case Add(key, v) =>
        KeysStayDistinct(max, a.list, key, v);
        EvictKeepsLongestFit(max, Fronted(a.list, key, v));
    }
  }
}

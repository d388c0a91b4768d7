/** Sorting by an order given as a function, as the sort package does for its types. */
module Sorting {
  import opened Common

  ghost predicate TotalOrder<T(!new)>(le: (T, T) -> bool) {
    && (forall x, y :: le(x, y) || le(y, x))
    && (forall x, y, z :: le(x, y) && le(y, z) ==> le(x, z))
  }

  ghost predicate Sorted<T>(s: seq<T>, le: (T, T) -> bool) {
    forall i, j :: 0 <= i < j < |s| ==> le(s[i], s[j])
  }

  function Insert<T>(s: seq<T>, x: T, le: (T, T) -> bool): seq<T> {
    if s == [] || le(x, s[0]) then [x] + s else [s[0]] + Insert(s[1..], x, le)
  }

  function Sort<T>(s: seq<T>, le: (T, T) -> bool): seq<T> {
    if s == [] then [] else Insert(Sort(s[1..], le), s[0], le)
  }

  lemma {:induction false} InsertMembers<T>(s: seq<T>, x: T, le: (T, T) -> bool)
    ensures |Insert(s, x, le)| == |s| + 1
    ensures forall y :: y in Insert(s, x, le) <==> y == x || y in s
  {
    if s == [] || le(x, s[0]) {
    } else {
      InsertMembers(s[1..], x, le);
      assert forall y :: y in s <==> y == s[0] || y in s[1..];
    }
  }

  lemma {:induction false} InsertSorts<T(!new)>(s: seq<T>, x: T, le: (T, T) -> bool)
    requires TotalOrder(le) && Sorted(s, le)
    ensures Sorted(Insert(s, x, le), le)
  {
    if s == [] || le(x, s[0]) {
    } else {
      var t := Insert(s[1..], x, le);
      InsertSorts(s[1..], x, le);
      InsertMembers(s[1..], x, le);
      forall j | 0 <= j < |t| ensures le(s[0], t[j]) { assert t[j] in t; }
    }
  }

  lemma {:induction false} SortSorts<T(!new)>(s: seq<T>, le: (T, T) -> bool)
    requires TotalOrder(le)
    ensures Sorted(Sort(s, le), le) && |Sort(s, le)| == |s|
    ensures forall x :: x in Sort(s, le) <==> x in s
  {
    if s != [] {
      SortSorts(s[1..], le);
      InsertSorts(Sort(s[1..], le), s[0], le);
      InsertMembers(Sort(s[1..], le), s[0], le);
      assert forall y :: y in s <==> y == s[0] || y in s[1..];
    }
  }

  lemma {:induction false} InsertKeepsNoDup<T>(s: seq<T>, x: T, le: (T, T) -> bool)
    requires NoDup(s) && x !in s
    ensures NoDup(Insert(s, x, le))
  {
    if s == [] || le(x, s[0]) {
    } else {
      var t := Insert(s[1..], x, le);
      InsertKeepsNoDup(s[1..], x, le);
      InsertMembers(s[1..], x, le);
      forall j | 0 <= j < |t| ensures s[0] != t[j] { assert t[j] in t; }
    }
  }

  lemma {:induction false} SortKeepsNoDup<T(!new)>(s: seq<T>, le: (T, T) -> bool)
    requires TotalOrder(le) && NoDup(s)
    ensures NoDup(Sort(s, le))
  {
    if s != [] {
      SortKeepsNoDup(s[1..], le);
      SortSorts(s[1..], le);
      InsertKeepsNoDup(Sort(s[1..], le), s[0], le);
    }
  }
}

/**
 The doubly linked ring with a sentinel that the cache keeps its entries in
 (`container/list`): `elems` is the order of the elements, front first, and
 `Contents` their entries.
 */
module LinkedList {
  import opened Common
  import opened RecencyList

  class Element<T> {
    var next: Element<T>
    var prev: Element<T>
    var entry: Option<Entry<T>>  // the sentinel carries none

    constructor (entry: Option<Entry<T>>)
      ensures this.entry == entry && next == this && prev == this
    {
      this.entry := entry;
      next := this;
      prev := this;
    }
  }

  /** The element at position `i` of the ring, the sentinel standing at both ends. */
  ghost function At<T>(root: Element<T>, elems: seq<Element<T>>, i: int): Element<T> {
    if 0 <= i < |elems| then elems[i] else root
  }

  lemma AtDropped<T>(root: Element<T>, elems: seq<Element<T>>, i: nat)
    requires i < |elems|
    ensures forall k :: -1 <= k < |elems| ==>
              At(root, Dropped(elems, i), k) == At(root, elems, if k < i then k else k + 1)
  {
    DroppedAt(elems, i);
  }

  lemma AtPushed<T>(root: Element<T>, elems: seq<Element<T>>, e: Element<T>)
    ensures At(root, [e] + elems, 0) == e && At(root, [e] + elems, -1) == root
    ensures forall k :: 1 <= k <= |elems| + 1 ==> At(root, [e] + elems, k) == At(root, elems, k - 1)
  {
  }

  lemma DroppedLast<A>(s: seq<A>)
    requires s != []
    ensures Dropped(s, |s| - 1) == s[..|s| - 1]
  {
  }

  class List<T> {
    const root: Element<T>
    var length: nat
    ghost var elems: seq<Element<T>>
    ghost var Contents: seq<Entry<T>>
    ghost var Repr: set<object>

    /** Following `next` from the sentinel visits `elems` in order and returns to
        the sentinel; following `prev` visits them backwards. */
    ghost predicate Valid()
      reads this, Repr
    {
      && this in Repr
      && (forall i {:trigger At(root, elems, i)} :: -1 <= i <= |elems| ==> At(root, elems, i) in Repr)
      && length == |elems| == |Contents|
      && (forall i, j :: -1 <= i < j < |elems| ==> At(root, elems, i) != At(root, elems, j))
      && (forall i :: -1 <= i < |elems| ==> At(root, elems, i).next == At(root, elems, i + 1))
      && (forall i :: 0 <= i <= |elems| ==> At(root, elems, i).prev == At(root, elems, i - 1))
      && (forall i {:trigger At(root, elems, i)} :: 0 <= i < |elems| ==>
            At(root, elems, i).entry == Some(Contents[i]))
    }

    lemma ElementsDistinct()
      requires Valid()
      ensures NoDup(elems) && root !in elems
    {
      forall i, j | 0 <= i < j < |elems| ensures elems[i] != elems[j] {
        assert At(root, elems, i) != At(root, elems, j);
      }
      forall i | 0 <= i < |elems| ensures elems[i] != root {
        assert At(root, elems, -1) != At(root, elems, i);
      }
    }

    constructor ()
      ensures Valid() && elems == [] && Contents == [] && fresh(Repr)
    {
      var r := new Element<T>(None);
      root := r;
      length := 0;
      elems := [];
      Contents := [];
      Repr := {this, r};
    }

    /** Unlink the element at position `i`; it keeps its entry. */
    method Unlink(e: Element<T>, ghost i: nat)
      requires Valid() && i < |elems| && elems[i] == e
      modifies Repr
      ensures Valid() && e.entry == old(e.entry) && Repr == old(Repr)
      ensures elems == Dropped(old(elems), i) && Contents == Dropped(old(Contents), i)
    {
      assert At(root, elems, i) == e;
      Bypass(e, i);
      AtDropped(root, elems, i);
      DroppedAt(Contents, i);
      length := length - 1;
      elems := Dropped(elems, i);
      Contents := Dropped(Contents, i);
    }

    /** The two pointer writes: the neighbours of `e` now point past it. */
    method Bypass(e: Element<T>, ghost i: nat)
      requires Valid() && i < |elems| && elems[i] == e
      modifies Repr
      ensures forall k :: -1 <= k < |elems| ==>
                At(root, elems, k).next == At(root, elems, if k == i - 1 then i + 1 else k + 1)
      ensures forall k :: 0 <= k <= |elems| ==>
                At(root, elems, k).prev == At(root, elems, if k == i + 1 then i - 1 else k - 1)
      ensures forall k :: -1 <= k < |elems| ==>
                At(root, elems, k).entry == old(At(root, elems, k).entry)
      ensures unchanged(this)
    {
      assert At(root, elems, i) == e && e.prev == At(root, elems, i - 1) && e.next == At(root, elems, i + 1);
      assert At(root, elems, |elems|) == At(root, elems, -1);
      e.prev.next := e.next;
      e.next.prev := e.prev;
    }

    method LinkFront(e: Element<T>, ghost entry: Entry<T>)
      requires Valid() && e !in elems && e != root && e.entry == Some(entry)
      modifies Repr, e
      ensures Valid()
      ensures elems == [e] + old(elems) && Contents == [entry] + old(Contents)
      ensures Repr == old(Repr) + {e} && e.entry == old(e.entry)
    {
      var at := root.next;
      assert At(root, elems, -1).next == At(root, elems, 0) == at;
      AtPushed(root, elems, e);
      e.prev := root;
      e.next := at;
      root.next := e;
      at.prev := e;
      length := length + 1;
      elems := [e] + elems;
      Contents := [entry] + Contents;
      Repr := Repr + {e};
    }

    method PushFront(entry: Entry<T>) returns (e: Element<T>)
      requires Valid()
      modifies Repr
      ensures Valid() && fresh(e)
      ensures elems == [e] + old(elems) && Contents == [entry] + old(Contents)
      ensures Repr == old(Repr) + {e}
    {
      e := new Element(Some(entry));
      LinkFront(e, entry);
    }

    method MoveToFront(e: Element<T>, ghost i: nat)
      requires Valid() && i < |elems| && elems[i] == e
      modifies Repr
      ensures Valid() && e.entry == old(e.entry) == Some(old(Contents)[i])
      ensures elems == Moved(old(elems), i) && Contents == Moved(old(Contents), i)
      ensures Repr == old(Repr)
    {
      assert At(root, elems, -1).next == At(root, elems, 0) && At(root, elems, i) == e;
      ElementsDistinct();
      if root.next == e {
        FrontMoved();
        return;
      }
      DroppedNoDup(elems, i);
      ghost var entry := Contents[i];
      assert e.entry == Some(entry);
      Unlink(e, i);
      LinkFront(e, entry);
    }

    lemma FrontMoved()
      requires elems != [] && |elems| == |Contents|
      ensures Moved(elems, 0) == elems && Moved(Contents, 0) == Contents
    {
    }

    /** Move an element to the front and overwrite the value of its entry. */
    method Refresh(e: Element<T>, ghost i: nat, entry: Entry<T>)
      requires Valid() && i < |elems| && elems[i] == e
      modifies Repr
      ensures Valid()
      ensures elems == Moved(old(elems), i) && Contents == [entry] + Dropped(old(Contents), i)
      ensures Repr == old(Repr)
    {
      MoveToFront(e, i);
      assert At(root, elems, 0) == e;
      e.entry := Some(entry);
      Contents := Contents[0 := entry];
    }

    /** The entry of the element at the back. */
    method Back() returns (r: Entry<T>)
      requires Valid() && elems != []
      ensures r == Contents[|elems| - 1]
    {
      assert At(root, elems, length).prev == At(root, elems, length - 1);
      r := root.prev.entry.value;
    }

    method RemoveBack()
      requires Valid() && elems != []
      modifies Repr
      ensures Valid() && Repr == old(Repr)
      ensures elems == old(elems)[..|old(elems)| - 1]
      ensures Contents == old(Contents)[..|old(elems)| - 1]
    {
      DroppedLast(elems);
      DroppedLast(Contents);
      assert At(root, elems, length).prev == At(root, elems, length - 1);
      Unlink(root.prev, length - 1);
    }
  }
}

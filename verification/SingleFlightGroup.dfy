/**
 `singleflight.Group` on its own mutable map and call records, each lock region proved
 to be a step of the transition system.
 */
module SingleFlightGroup {
  import opened Common
  import opened SingleFlight

  class CallRecord<R(0)> {
    const leader: nat  // the `Do` that created the record
    var value: Option<R>
    var over: bool     // wg.Done has been called

    constructor (leader: nat)
      ensures this.leader == leader && value == None && !over
    {
      this.leader := leader;
      value, over := None, false;
    }
  }

  class Group<R(0)> {
    var m: map<string, CallRecord<R>>
    ghost var records: map<nat, CallRecord<R>>  // also those no longer in the map

    /** The record agrees with the `Do` that leads it. */
    ghost predicate RecordOk(s: State<R>, d: nat)
      requires d in records
      reads this, records[d]
    {
      var c := records[d];
      && c.leader == d && d in s.ops && s.ops[d].leader == d && s.ops[d].result == c.value
      && (c.over <==> s.ops[d].pc != Running && s.ops[d].pc != Computed)
    }

    /** `s` is what the group's map and records stand for. */
    ghost predicate Shows(s: State<R>)
      reads this, records.Values
    {
      && m.Keys == s.m.Keys
      && (forall k :: k in m ==> s.m[k] in records && records[s.m[k]] == m[k])
      && (forall d :: d in records ==> RecordOk(s, d))
      && (forall d :: d in s.ops ==> s.ops[d].leader in records)
    }

    constructor ()
      ensures Shows(Init()) && m == map[]
    {
      m, records := map[], map[];
    }

    /** The first lock region: join the record of the key, or put a new one there. */
    method Join(ghost s: State<R>, d: nat, key: string) returns (c: CallRecord<R>, leads: bool)
      requires Shows(s) && d !in s.ops
      modifies this
      ensures Enabled(s, Enter(d, key)) && Shows(Apply(s, Enter(d, key)))
      ensures leads == (key !in old(m)) && m == (if leads then old(m)[key := c] else old(m))
      ensures c.leader in records && records[c.leader] == c
      ensures if leads then c.leader == d && !c.over && fresh(c) else c == old(m)[key]
    {
      if key in m {
        return m[key], false;
      }
      c := new CallRecord(d);
      m := m[key := c];
      records := records[d := c];
      leads := true;
    }

    /** `fn` has returned. */
    method Store(ghost s: State<R>, c: CallRecord<R>, r: R)
      requires Shows(s) && c.leader in records && records[c.leader] == c && s.ops[c.leader].pc == Running
      modifies c
      ensures Shows(Apply(s, Finish(c.leader, r))) && c.value == Some(r) && !c.over
    {
      c.value := Some(r);
    }

    method Done(ghost s: State<R>, c: CallRecord<R>)
      requires Shows(s) && c.leader in records && records[c.leader] == c && s.ops[c.leader].pc == Computed
      modifies c
      ensures Shows(Apply(s, Signal(c.leader))) && c.over && c.value == old(c.value)
    {
      c.over := true;
    }

    /** The second lock region, and the leader's return. */
    method Forget(ghost s: State<R>, key: string, c: CallRecord<R>) returns (r: Option<R>)
      requires Shows(s) && c.leader in records && records[c.leader] == c
      requires s.ops[c.leader].pc == Signalled && s.ops[c.leader].key == key
      modifies this
      ensures Shows(Apply(s, Delete(c.leader))) && m == old(m) - {key} && r == c.value
      ensures records == old(records)
    {
      m := m - {key};
      r := c.value;
    }

    /** A waiter whose record is over returns what it holds. */
    method Await(ghost s: State<R>, ghost d: nat, c: CallRecord<R>) returns (r: Option<R>)
      requires Shows(s) && d in s.ops && s.ops[d].pc == Waiting && s.ops[d].leader == c.leader
      requires c.leader in records && records[c.leader] == c && c.over && s.ops[c.leader].pc != Waiting
      ensures Enabled(s, Wake(d)) && Shows(Apply(s, Wake(d))) && Apply(s, Wake(d)).ops[d].result == r
    {
      r := c.value;
    }

    /** `Do` with nobody in between, for a key nobody is loading: the result of `fn`,
        and the map as it was. */
    method Lead(ghost s: State<R>, d: nat, key: string, result: R) returns (r: Option<R>)
      requires Shows(s) && d !in s.ops && key !in m
      modifies this
      ensures r == Some(result) && m == old(m) && Shows(Led(s, d, key, Returned, Some(result)))
    {
      assert key !in s.m;
      var c := Begin(s, d, key);
      Restored(old(m), key, c);
      RunFn(s, d, key, c, result);
      r := End(s, d, key, c, result);
    }

    method Begin(ghost s: State<R>, d: nat, key: string) returns (c: CallRecord<R>)
      requires Shows(s) && d !in s.ops && key !in m
      modifies this
      ensures Shows(Led(s, d, key, Running, None)) && m == old(m)[key := c] && fresh(c)
      ensures c.leader == d && d in records && records[d] == c
    {
      LeadEnters(s, d, key);
      var leads;
      c, leads := Join(s, d, key);
    }

    method End(ghost s: State<R>, d: nat, key: string, c: CallRecord<R>, result: R) returns (r: Option<R>)
      requires d !in s.ops && key !in s.m && Shows(Led(s, d, key, Signalled, Some(result)))
      requires c.leader == d && d in records && records[d] == c
      modifies this
      ensures Shows(Led(s, d, key, Returned, Some(result))) && m == old(m) - {key} && r == c.value
    {
      LeadIsSteps(s, d, key, result);
      r := Forget(Led(s, d, key, Signalled, Some(result)), key, c);
    }

    /** The leader's `fn` runs, its result is stored and the waiters are let go. */
    method RunFn(ghost s: State<R>, d: nat, key: string, c: CallRecord<R>, result: R)
      requires d !in s.ops && key !in s.m && Shows(Led(s, d, key, Running, None))
      requires c.leader == d && d in records && records[d] == c
      modifies c
      ensures Shows(Led(s, d, key, Signalled, Some(result))) && c.value == Some(result)
    {
      LeadIsSteps(s, d, key, result);
      Store(Led(s, d, key, Running, None), c, result);
      Done(Led(s, d, key, Computed, Some(result)), c);
    }
  }

  lemma Restored<V>(m: map<string, V>, key: string, v: V)
    requires key !in m
    ensures m[key := v] - {key} == m
  {
  }

  /** A leader that nobody interrupts, on its way. */
  function Led<R>(s: State<R>, d: nat, key: string, pc: Pc, result: Option<R>): State<R> {
    var op := Op(key, d, pc, result, s.clock, if pc == Returned then s.clock + 3 else 0);
    match pc
    case Running => State(s.clock + 1, s.m[key := d], s.ops[d := op])
    case Computed => State(s.clock + 2, s.m[key := d], s.ops[d := op])
    case Signalled => State(s.clock + 3, s.m[key := d], s.ops[d := op])
    case _ => State(s.clock + 4, s.m[key := d] - {key}, s.ops[d := op])
  }

  lemma LeadEnters<R>(s: State<R>, d: nat, key: string)
    requires d !in s.ops && key !in s.m
    ensures Enabled(s, Enter(d, key)) && Apply(s, Enter(d, key)) == Led(s, d, key, Running, None)
  {
  }

  lemma LeadIsSteps<R>(s: State<R>, d: nat, key: string, result: R)
    requires d !in s.ops && key !in s.m
    ensures var t := Led(s, d, key, Running, None);
      Enabled(t, Finish(d, result)) && Apply(t, Finish(d, result)) == Led(s, d, key, Computed, Some(result))
    ensures var t := Led(s, d, key, Computed, Some(result));
      Enabled(t, Signal(d)) && Apply(t, Signal(d)) == Led(s, d, key, Signalled, Some(result))
    ensures var t := Led(s, d, key, Signalled, Some(result));
      Enabled(t, Delete(d)) && Apply(t, Delete(d)) == Led(s, d, key, Returned, Some(result))
  {
  }
}

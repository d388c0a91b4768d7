/**
 Load deduplication (`singleflight.Group.Do`) as a transition system: any number
 of callers, each step one lock region or one action of a caller. Each call of
 `Do` has its own number; a leader's number also names the call record it
 creates.
 */
module SingleFlight {
  import opened Common

  /** A leader goes Running, Computed, Signalled, Returned; a waiter Waiting, Returned. */
  datatype Pc = Running | Computed | Signalled | Waiting | Returned

  /** `result` is, for a leader, what its call record holds and, for a waiter, what it returned. */
  datatype Op<R> = Op(key: string, leader: nat, pc: Pc, result: Option<R>, start: nat, end: nat)

  datatype State<R> = State(clock: nat, m: map<string, nat>, ops: map<nat, Op<R>>)

  datatype Action<R> =
    | Enter(op: nat, key: string)   // look the key up: join the running call or lead a new one
    | Finish(op: nat, result: R)    // `fn` returned and its result is stored
    | Signal(op: nat)               // wg.Done
    | Delete(op: nat)               // remove the key's record and return
    | Wake(op: nat)                 // wg.Wait is over: return the record's result

  function Init<R>(): State<R> {
    State(0, map[], map[])
  }

  predicate Enabled<R>(s: State<R>, a: Action<R>) {
    match a
    case Enter(d, key) => d !in s.ops && (key in s.m ==> s.m[key] in s.ops)
    case Finish(d, r) => d in s.ops && s.ops[d].pc == Running
    case Signal(d) => d in s.ops && s.ops[d].pc == Computed
    case Delete(d) => d in s.ops && s.ops[d].pc == Signalled
    case Wake(d) =>
      && d in s.ops && s.ops[d].pc == Waiting && s.ops[d].leader in s.ops
      && s.ops[s.ops[d].leader].pc in {Signalled, Returned}
  }

  function Apply<R>(s: State<R>, a: Action<R>): State<R>
    requires Enabled(s, a)
  {
    var t := s.(clock := s.clock + 1);
    match a
    case Enter(d, key) =>
      if key in s.m then t.(ops := s.ops[d := Op(key, s.m[key], Waiting, None, s.clock, 0)])
      else t.(m := s.m[key := d], ops := s.ops[d := Op(key, d, Running, None, s.clock, 0)])
    case Finish(d, r) => t.(ops := s.ops[d := s.ops[d].(pc := Computed, result := Some(r))])
    case Signal(d) => t.(ops := s.ops[d := s.ops[d].(pc := Signalled)])
    case Delete(d) =>
      t.(m := s.m - {s.ops[d].key}, ops := s.ops[d := s.ops[d].(pc := Returned, end := s.clock)])
    case Wake(d) =>
      t.(ops := s.ops[d := s.ops[d].(pc := Returned, result := s.ops[s.ops[d].leader].result, end := s.clock)])
  }

  // ---------------------------------------------------------------------- invariant

  /** The map points at exactly the leaders that have not returned. */
  ghost predicate MapInv<R>(s: State<R>) {
    && (forall k :: k in s.m ==>
          s.m[k] in s.ops && s.ops[s.m[k]].key == k && s.ops[s.m[k]].leader == s.m[k] && s.ops[s.m[k]].pc != Returned)
    && (forall d :: d in s.ops && s.ops[d].leader == d && s.ops[d].pc != Returned ==>
          s.ops[d].key in s.m && s.m[s.ops[d].key] == d)
  }

  /** What one `Do` knows about the call it leads or waits for. */
  ghost predicate OpInv<R>(s: State<R>, d: nat)
    requires d in s.ops
  {
    var o := s.ops[d];
    && o.start < s.clock && (o.pc == Returned ==> o.start < o.end < s.clock)
    && (o.leader == d ==> o.pc != Waiting && (o.result.Some? <==> o.pc != Running))
    && (o.leader != d ==>
          && o.leader in s.ops
          && var l := s.ops[o.leader];
          && l.leader == o.leader && l.key == o.key && l.start < o.start
          && (l.pc == Returned ==> o.start < l.end)
          && o.pc in {Waiting, Returned}
          && (o.pc == Returned ==> l.pc in {Signalled, Returned} && l.result.Some? && o.result == l.result))
  }

  ghost predicate Inv<R>(s: State<R>) {
    MapInv(s) && forall d :: d in s.ops ==> OpInv(s, d)
  }

  lemma EnterKeepsMap<R>(s: State<R>, a: Action<R>)
    requires Inv(s) && Enabled(s, a) && a.Enter?
    ensures MapInv(Apply(s, a))
  {
  }

  lemma StepKeepsMap<R>(s: State<R>, a: Action<R>)
    requires Inv(s) && Enabled(s, a)
    ensures MapInv(Apply(s, a))
  {
    if a.Enter? {
      EnterKeepsMap(s, a);
    } else {
      assert OpInv(s, a.op);
    }
  }

  lemma EnterKeepsOp<R>(s: State<R>, a: Action<R>, e: nat)
    requires Inv(s) && Enabled(s, a) && a.Enter? && e in Apply(s, a).ops
    ensures OpInv(Apply(s, a), e)
  {
    if e in s.ops { assert OpInv(s, e); }
    if a.key in s.m { assert OpInv(s, s.m[a.key]); }
  }

  lemma LeaderKeepsOp<R>(s: State<R>, a: Action<R>, e: nat)
    requires Inv(s) && Enabled(s, a) && (a.Finish? || a.Signal? || a.Delete?) && e in s.ops
    ensures OpInv(Apply(s, a), e)
  {
    assert OpInv(s, e) && OpInv(s, a.op);
    if s.ops[e].leader in s.ops { assert OpInv(s, s.ops[e].leader); }
  }

  lemma WakeKeepsOp<R>(s: State<R>, a: Action<R>, e: nat)
    requires Inv(s) && Enabled(s, a) && a.Wake? && e in s.ops
    ensures OpInv(Apply(s, a), e)
  {
    assert OpInv(s, e) && OpInv(s, a.op) && OpInv(s, s.ops[a.op].leader);
    if s.ops[e].leader in s.ops { assert OpInv(s, s.ops[e].leader); }
  }

  lemma StepKeepsOp<R>(s: State<R>, a: Action<R>, e: nat)
    requires Inv(s) && Enabled(s, a) && e in Apply(s, a).ops
    ensures OpInv(Apply(s, a), e)
  {
    if a.Enter? {
      EnterKeepsOp(s, a, e);
    } else if a.Wake? {
      WakeKeepsOp(s, a, e);
    } else {
      LeaderKeepsOp(s, a, e);
    }
  }

  lemma {:induction false} StepKeepsInv<R>(s: State<R>, a: Action<R>)
    requires Inv(s) && Enabled(s, a)
    ensures Inv(Apply(s, a))
  {
    StepKeepsMap(s, a);
    forall e | e in Apply(s, a).ops ensures OpInv(Apply(s, a), e) { StepKeepsOp(s, a, e); }
  }

  // ------------------------------------------------------------- one load after another

  /** The operation leads a load of the key: it is a call of `fn` for it. */
  predicate Leads<R>(s: State<R>, d: nat, key: string) {
    d in s.ops && s.ops[d].leader == d && s.ops[d].key == key
  }

  predicate Before<R>(s: State<R>, d: nat, e: nat)
    requires d in s.ops && e in s.ops
  {
    s.ops[d].pc == Returned && s.ops[d].end < s.ops[e].start
  }

  /** Of two leaders of a key one had returned when the other started. */
  ghost predicate Apart<R>(s: State<R>) {
    forall key, d, e :: Leads(s, d, key) && Leads(s, e, key) && d != e ==> Before(s, d, e) || Before(s, e, d)
  }

  /** A new leader starts when those before it have returned. */
  lemma EnterKeepsApart<R>(s: State<R>, a: Action<R>, key: string, d: nat, e: nat)
    requires Inv(s) && Apart(s) && Enabled(s, a) && a.Enter? && d != e
    requires var t := Apply(s, a); Leads(t, d, key) && Leads(t, e, key)
    ensures var t := Apply(s, a); Before(t, d, e) || Before(t, e, d)
  {
    if d == a.op {
      assert Leads(s, e, key) && OpInv(s, e);
    } else if e == a.op {
      assert Leads(s, d, key) && OpInv(s, d);
    } else {
      assert Leads(s, d, key) && Leads(s, e, key);
    }
  }

  lemma LaterStepKeepsApart<R>(s: State<R>, a: Action<R>, key: string, d: nat, e: nat)
    requires Apart(s) && Enabled(s, a) && !a.Enter? && d != e
    requires var t := Apply(s, a); Leads(t, d, key) && Leads(t, e, key)
    ensures var t := Apply(s, a); Before(t, d, e) || Before(t, e, d)
  {
    assert Leads(s, d, key) && Leads(s, e, key);
  }

  lemma {:induction false} StepKeepsApart<R>(s: State<R>, a: Action<R>)
    requires Inv(s) && Apart(s) && Enabled(s, a)
    ensures Apart(Apply(s, a))
  {
    var t := Apply(s, a);
    forall key, d, e | Leads(t, d, key) && Leads(t, e, key) && d != e ensures Before(t, d, e) || Before(t, e, d) {
      if a.Enter? {
        EnterKeepsApart(s, a, key, d, e);
      } else {
        LaterStepKeepsApart(s, a, key, d, e);
      }
    }
  }

  // --------------------------------------------------------------------- whole runs

  /** The state a sequence of steps leads to, if each step is possible in its turn. */
  function Run<R>(acts: seq<Action<R>>): Option<State<R>> {
    if acts == [] then Some(Init())
    else match Run(acts[..|acts| - 1])
      case None => None
      case Some(p) => if Enabled(p, acts[|acts| - 1]) then Some(Apply(p, acts[|acts| - 1])) else None
  }

  lemma {:induction false} RunInv<R>(acts: seq<Action<R>>)
    ensures Run(acts).Some? ==> Inv(Run(acts).value)
  {
    if acts == [] {
    } else {
      RunInv(acts[..|acts| - 1]);
      var p := Run(acts[..|acts| - 1]);
      if p.Some? && Enabled(p.value, acts[|acts| - 1]) { StepKeepsInv(p.value, acts[|acts| - 1]); }
    }
  }

  lemma {:induction false} RunApart<R>(acts: seq<Action<R>>)
    ensures Run(acts).Some? ==> Apart(Run(acts).value)
  {
    if acts == [] {
    } else {
      RunApart(acts[..|acts| - 1]);
      RunInv(acts[..|acts| - 1]);
      var p := Run(acts[..|acts| - 1]);
      if p.Some? && Enabled(p.value, acts[|acts| - 1]) { StepKeepsApart(p.value, acts[|acts| - 1]); }
    }
  }

  /** At every reachable state at most one `fn` runs per key. */
  lemma OneLoadPerKey<R>(acts: seq<Action<R>>, s: State<R>, d: nat, e: nat)
    requires Run(acts) == Some(s) && d in s.ops && e in s.ops
    requires s.ops[d].pc == Running && s.ops[e].pc == Running && s.ops[d].key == s.ops[e].key
    ensures d == e
  {
    RunInv(acts);
    assert OpInv(s, d) && OpInv(s, e);
  }

  /** Every finished `Do` returned the result of one leader of the same key, whose
      own `Do` began no later and was not over when this one began. */
  lemma ResultIsAnOverlappingLeaders<R>(acts: seq<Action<R>>, s: State<R>, d: nat)
    requires Run(acts) == Some(s) && d in s.ops && s.ops[d].pc == Returned
    ensures var o := s.ops[d];
            && o.leader in s.ops
            && var l := s.ops[o.leader];
            && l.leader == o.leader && l.key == o.key
            && o.result.Some? && o.result == l.result
            && l.start <= o.start && (l.pc == Returned ==> o.start < l.end)
  {
    RunInv(acts);
    assert OpInv(s, d);
    if s.ops[d].leader in s.ops { assert OpInv(s, s.ops[d].leader); }
  }

  /** The result of a leader is what its `fn` returned. */
  predicate StoredAt<R(==)>(acts: seq<Action<R>>, s: State<R>, d: nat) {
    d in s.ops && s.ops[d].leader == d && s.ops[d].result.Some? ==> Finish(d, s.ops[d].result.value) in acts
  }

  lemma StepKeepsStored<R>(acts: seq<Action<R>>, s: State<R>, a: Action<R>, d: nat)
    requires Inv(s) && Enabled(s, a) && StoredAt(acts, s, d)
    ensures StoredAt(acts + [a], Apply(s, a), d)
  {
    if a.Wake? { assert OpInv(s, a.op); }
  }

  lemma {:induction false} RunStored<R>(acts: seq<Action<R>>, d: nat)
    ensures Run(acts).Some? ==> StoredAt(acts, Run(acts).value, d)
  {
    if acts != [] {
      var fewer, a := acts[..|acts| - 1], acts[|acts| - 1];
      RunStored(fewer, d);
      RunInv(fewer);
      var p := Run(fewer);
      assert acts == fewer + [a];
      if p.Some? && Enabled(p.value, a) { StepKeepsStored(fewer, p.value, a, d); }
    }
  }

  /** Every finished `Do` returned what the `fn` of its call's leader returned. */
  lemma {:induction false} ResultIsTheFns<R>(acts: seq<Action<R>>, s: State<R>, d: nat)
    requires Run(acts) == Some(s) && d in s.ops && s.ops[d].pc == Returned
    ensures s.ops[d].result.Some? && Finish(s.ops[d].leader, s.ops[d].result.value) in acts
  {
    RunInv(acts);
    assert OpInv(s, d);
    if s.ops[d].leader in s.ops { assert OpInv(s, s.ops[d].leader); }
    RunStored(acts, s.ops[d].leader);
  }

  /** A waiter wakes only to a stored result, and a leader's delete removes its own record. */
  lemma NoEarlyReadNoForeignDelete<R>(acts: seq<Action<R>>, s: State<R>, d: nat)
    requires Run(acts) == Some(s)
    ensures Enabled(s, Wake(d)) ==> s.ops[s.ops[d].leader].result.Some?
    ensures Enabled(s, Delete(d)) ==> s.ops[d].key in s.m && s.m[s.ops[d].key] == d
  {
    RunInv(acts);
    if d in s.ops {
      assert OpInv(s, d);
      if s.ops[d].leader in s.ops { assert OpInv(s, s.ops[d].leader); }
    }
  }

  // ------------------------------------------------------------ is `fn` called only once?

  ghost predicate CalledOnce<R>(s: State<R>, key: string) {
    forall d, e :: Leads(s, d, key) && Leads(s, e, key) ==> d == e
  }

  /** No `Do` of the key starts after one that led a load of it has returned. */
  ghost predicate NoneTooLate<R>(s: State<R>, key: string) {
    forall d, e :: Leads(s, d, key) && e in s.ops && s.ops[e].key == key ==> !Before(s, d, e)
  }

  lemma {:induction false} CalledOnceIn<R>(s: State<R>, key: string)
    requires Inv(s) && Apart(s)
    ensures CalledOnce(s, key) <==> NoneTooLate(s, key)
  {
    if CalledOnce(s, key) {
      forall d, e | Leads(s, d, key) && e in s.ops && s.ops[e].key == key ensures !Before(s, d, e) {
        assert OpInv(s, e);
        assert s.ops[e].leader in s.ops ==> Leads(s, s.ops[e].leader, key);
      }
    }
  }

  /** In every run, `fn` is called once for a key if and only if no `Do` of the key starts
      after one that called it has returned. */
  lemma {:induction false} CalledOnceIff<R>(acts: seq<Action<R>>, s: State<R>, key: string)
    requires Run(acts) == Some(s)
    ensures CalledOnce(s, key) <==> NoneTooLate(s, key)
  {
    RunInv(acts);
    RunApart(acts);
    CalledOnceIn(s, key);
  }

  lemma {:induction false} RunOne<R>(acts: seq<Action<R>>, s: State<R>, a: Action<R>)
    requires Run(acts) == Some(s) && Enabled(s, a)
    ensures Run(acts + [a]) == Some(Apply(s, a))
  {
    assert (acts + [a])[..|acts + [a]| - 1] == acts;
  }

  /** `fn` is called again: a `Do` that comes when the first one is over leads a new load. */
  lemma {:induction false} CalledTwice<R>(key: string, result: R) returns (acts: seq<Action<R>>, s: State<R>)
    ensures acts == [Enter(0, key), Finish(0, result), Signal(0), Delete(0), Enter(1, key)]
    ensures Run(acts) == Some(s) && Leads(s, 0, key) && Leads(s, 1, key) && s.ops[1].pc == Running
  {
    acts, s := [], Init();
    RunOne(acts, s, Enter(0, key));
    acts, s := acts + [Enter(0, key)], Apply(s, Enter(0, key));
    RunOne(acts, s, Finish(0, result));
    acts, s := acts + [Finish(0, result)], Apply(s, Finish(0, result));
    RunOne(acts, s, Signal(0));
    acts, s := acts + [Signal(0)], Apply(s, Signal(0));
    RunOne(acts, s, Delete(0));
    acts, s := acts + [Delete(0)], Apply(s, Delete(0));
    RunOne(acts, s, Enter(1, key));
    acts, s := acts + [Enter(1, key)], Apply(s, Enter(1, key));
  }
}

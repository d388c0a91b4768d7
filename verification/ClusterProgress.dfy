/**
 Does every request of a cluster come to an end? A node that forwards a request waits
 for the answer, and a request that reaches a node loading the same key waits there too.
 If the pools of some nodes name each other in a circle, the waiting closes and nothing
 but a lost answer ends it; otherwise every request can end without any loss.
 */
module ClusterProgress {
  import opened Common
  import opened RecencyList
  import opened MyCache
  import opened ConsistentHash
  import opened HttpPool
  import opened Cluster
  import opened ConcurrentCluster

  /** The node that the pool of `x` names for the key, if it is one of the cluster. */
  ghost function Hop(w: World, members: set<string>, x: string, key: string): Option<string> {
    match Remote(w, x, key)
    case None => None
    case Some(o) => if o in members then Some(o) else None
  }

  predicate Distinct<T(==)>(p: seq<T>) {
    forall i, j :: 0 <= i < j < |p| ==> p[i] != p[j]
  }

  /** Each node's pool names the node after it. */
  ghost predicate Path(w: World, members: set<string>, key: string, p: seq<string>) {
    && Distinct(p) && (forall i :: 0 <= i < |p| ==> p[i] in members)
    && (forall i :: 0 < i < |p| ==> Hop(w, members, p[i - 1], key) == Some(p[i]))
  }

  /** ... and the last one's names the first again. */
  ghost predicate Circle(w: World, members: set<string>, key: string, p: seq<string>) {
    p != [] && Path(w, members, key, p) && Hop(w, members, p[|p| - 1], key) == Some(p[0])
  }

  ghost predicate NoCircle(w: World, members: set<string>, key: string) {
    forall p :: !Circle(w, members, key, p)
  }

  /** Nothing is lost on the way, and nobody new arrives. */
  ghost predicate Lossless(acts: seq<Action>) {
    forall i :: 0 <= i < |acts| ==> !acts[i].LoseRequest? && !acts[i].LoseAnswer? && !acts[i].Arrive?
  }

  /** The request can come to its end in at most `n` steps without a loss. */
  ghost predicate EndsWithin(w: World, s: State, id: nat, n: nat) {
    exists acts :: Lossless(acts) && |acts| <= n && EndsBy(w, s, id, acts)
  }

  ghost predicate EndsBy(w: World, s: State, id: nat, acts: seq<Action>) {
    var t := Leads(w, s, acts);
    t.Some? && id in t.value.reqs && t.value.reqs[id].pc.Over?
  }

  ghost predicate CanEnd(w: World, s: State, id: nat) {
    exists n: nat :: EndsWithin(w, s, id, n)
  }

  // ---------------------------------------------------------------- how far a key goes

  /** How often a request of the key is forwarded from `x` on, if at most `n` times. */
  ghost function Hops(w: World, members: set<string>, x: string, key: string, n: nat): (h: Option<nat>)
    ensures h.Some? ==> h.value <= n
    decreases n
  {
    match Hop(w, members, x, key)
    case None => Some(0)
    case Some(o) =>
      if n == 0 then None
      else match Hops(w, members, o, key, n - 1)
        case None => None
        case Some(h) => Some(h + 1)
  }

  lemma {:induction false} HopsStay(w: World, members: set<string>, x: string, key: string, n: nat)
    requires Hops(w, members, x, key, n).Some?
    ensures Hops(w, members, x, key, n + 1) == Hops(w, members, x, key, n)
    decreases n
  {
    var o := Hop(w, members, x, key);
    if o.Some? { HopsStay(w, members, o.value, key, n - 1); }
  }

  lemma HopsFall(w: World, members: set<string>, x: string, y: string, key: string, n: nat)
    requires Hops(w, members, x, key, n).Some? && Hop(w, members, x, key) == Some(y)
    ensures Hops(w, members, y, key, n).Some?
    ensures Hops(w, members, y, key, n).value + 1 == Hops(w, members, x, key, n).value
  {
    HopsStay(w, members, y, key, n - 1);
  }

  lemma {:induction false} DistinctFit<T>(p: seq<T>, all: set<T>)
    requires Distinct(p) && forall i :: 0 <= i < |p| ==> p[i] in all
    ensures |p| <= |all|
  {
    if p != [] { DistinctFit(p[1..], all - {p[0]}); }
  }

  /** Without a circle a path through the members comes to its end. */
  lemma {:induction false} PathEnds(w: World, members: set<string>, key: string, p: seq<string>, n: nat)
    requires NoCircle(w, members, key) && Path(w, members, key, p) && 0 < |p| && |p| + n == |members|
    ensures Hops(w, members, p[|p| - 1], key, n).Some?
    decreases n
  {
    var last := Hop(w, members, p[|p| - 1], key);
    if last.Some? {
      NoReturn(w, members, key, p, last.value);
      var q := p + [last.value];
      assert Path(w, members, key, q);
      DistinctFit(q, members);
      PathEnds(w, members, key, q, n - 1);
    }
  }

  lemma NoReturn(w: World, members: set<string>, key: string, p: seq<string>, o: string)
    requires NoCircle(w, members, key) && Path(w, members, key, p) && 0 < |p|
    requires Hop(w, members, p[|p| - 1], key) == Some(o)
    ensures o !in p
  {
    forall i | 0 <= i < |p| ensures p[i] != o {
      var q := p[i..];
      assert !Circle(w, members, key, q);
      assert Path(w, members, key, q);
    }
  }

  lemma {:induction false} HopsBounded(w: World, members: set<string>, key: string, x: string)
    requires NoCircle(w, members, key) && x in members
    ensures |members| > 0 && Hops(w, members, x, key, |members| - 1).Some?
  {
    DistinctFit([x], members);
    PathEnds(w, members, key, [x], |members| - 1);
  }

  // ------------------------------------------------------------- everybody comes to an end

  /** All members' forwards of the key end after at most `n` hops. */
  ghost predicate Bounded(w: World, members: set<string>, key: string, n: nat) {
    forall x :: x in members ==> Hops(w, members, x, key, n).Some?
  }

  ghost function HopsLeft(w: World, members: set<string>, n: nat, x: string, key: string): nat {
    match Hops(w, members, x, key, n)
    case Some(h) => h
    case None => 0
  }

  /** How many steps a request may still need, its own and those of others it waits for. */
  ghost function Cost(w: World, members: set<string>, n: nat, r: Asked): nat {
    Stage(r.pc, HopsLeft(w, members, n, r.node, r.key))
  }

  function Stage(pc: Pc, h: nat): nat {
    match pc
    case Over(_) => 0
    case Loading => 1
    case Asking(_) => 5 * h + 2
    case Sharing(_) => 5 * h + 3
    case Missed => 5 * h + 4
    case Probing => 5 * h + 5
  }

  lemma Unused(ids: set<nat>) returns (n: nat)
    ensures n !in ids && forall i :: i in ids ==> i < n
  {
    if ids == {} {
      n := 0;
    } else {
      var i :| i in ids;
      var m := Unused(ids - {i});
      n := if m <= i then i + 1 else m;
      forall k | k in ids ensures k < n {
        if k != i { assert k in ids - {i}; }
      }
    }
  }

  /** The request that is waited for, if it is not over. */
  predicate WaitsFor(s: State, id: nat, j: nat)
    requires id in s.reqs
  {
    j in s.reqs && !s.reqs[j].pc.Over? && (s.reqs[id].pc == Asking(j) || s.reqs[id].pc == Sharing(j))
  }

  /** Other requests keep their states, nobody changes its node or its key, and the
      acting request is closer to its end. */
  ghost predicate Closer(w: World, members: set<string>, n: nat, s: State, t: State, id: nat)
    requires id in s.reqs
  {
    && (forall k :: k in s.reqs && k != id ==> k in t.reqs && t.reqs[k] == s.reqs[k])
    && id in t.reqs && t.reqs[id].key == s.reqs[id].key && t.reqs[id].node == s.reqs[id].node
    && Cost(w, members, n, t.reqs[id]) < Cost(w, members, n, s.reqs[id])
    && (s.reqs[id].pc.Asking? ==> t.reqs[id].pc == Loading || t.reqs[id].pc.Over?)
    && (s.reqs[id].pc.Sharing? ==> t.reqs[id].pc.Over?)
  }

  ghost predicate IsOwnStep(w: World, members: set<string>, n: nat, s: State, id: nat, a: Action)
    requires id in s.reqs
  {
    Enabled(w, s, a) && Lossless([a]) && Closer(w, members, n, s, Apply(w, s, a), id)
  }

  lemma ForwardCloser(w: World, members: set<string>, n: nat, s: State, id: nat, child: nat)
    requires id in s.reqs && Enabled(w, s, Forward(id, child))
    ensures IsOwnStep(w, members, n, s, id, Forward(id, child))
  {
  }

  lemma LeadCloser(w: World, members: set<string>, n: nat, s: State, id: nat, a: Action)
    requires id in s.reqs && Enabled(w, s, a) && a.id == id && (a.StayLocal? || a.Refuse?)
    ensures IsOwnStep(w, members, n, s, id, a)
  {
  }

  /** Past a miss: share with the leader, or lead the load. */
  lemma MissedStep(w: World, members: set<string>, n: nat, s: State, id: nat) returns (a: Action)
    requires Inv(w, members, s) && id in s.reqs && s.reqs[id].pc == Missed
    ensures IsOwnStep(w, members, n, s, id, a)
  {
    if l: nat :| l in s.reqs && s.reqs[l].node == s.reqs[id].node && s.reqs[l].key == s.reqs[id].key
                 && Leading(s.reqs[l]) {
      a := Share(id, l);
    } else if Next(w, s, id).Some? && Next(w, s, id).value in s.caches {
      var spare := Unused(s.reqs.Keys);
      a := Forward(id, spare);
      ForwardCloser(w, members, n, s, id, spare);
    } else {
      a := if Next(w, s, id) == None then StayLocal(id) else Refuse(id);
      LeadCloser(w, members, n, s, id, a);
    }
  }

  lemma ProbeCloser(w: World, members: set<string>, n: nat, s: State, id: nat)
    requires Inv(w, members, s) && id in s.reqs && s.reqs[id].pc == Probing
    ensures IsOwnStep(w, members, n, s, id, Probe(id))
  {
    assert ReqOk(w, s, id);
  }

  lemma LoadCloser(w: World, members: set<string>, n: nat, s: State, id: nat)
    requires Inv(w, members, s) && id in s.reqs && s.reqs[id].pc == Loading
    ensures IsOwnStep(w, members, n, s, id, Load(id))
  {
    assert ReqOk(w, s, id);
  }

  lemma AnswerCloser(w: World, members: set<string>, n: nat, s: State, id: nat)
    requires Inv(w, members, s) && id in s.reqs && s.reqs[id].pc.Asking? && !WaitsFor(s, id, s.reqs[id].pc.child)
    ensures IsOwnStep(w, members, n, s, id, TakeAnswer(id))
  {
    assert ReqOk(w, s, id);
  }

  lemma SharedCloser(w: World, members: set<string>, n: nat, s: State, id: nat)
    requires Inv(w, members, s) && id in s.reqs && s.reqs[id].pc.Sharing? && !WaitsFor(s, id, s.reqs[id].pc.leader)
    ensures IsOwnStep(w, members, n, s, id, TakeShared(id))
  {
    assert ReqOk(w, s, id);
  }

  /** A request that is not over and waits for nobody can take a step of its own. */
  lemma OwnStep(w: World, members: set<string>, n: nat, s: State, id: nat) returns (a: Action)
    requires Inv(w, members, s) && id in s.reqs && !s.reqs[id].pc.Over? && forall j :: !WaitsFor(s, id, j)
    ensures IsOwnStep(w, members, n, s, id, a)
  {
    match s.reqs[id].pc
    case Probing =>
      a := Probe(id);
      ProbeCloser(w, members, n, s, id);
    case Missed =>
      a := MissedStep(w, members, n, s, id);
    case Asking(_) =>
      a := TakeAnswer(id);
      AnswerCloser(w, members, n, s, id);
    case Sharing(_) =>
      a := TakeShared(id);
      SharedCloser(w, members, n, s, id);
    case Loading =>
      a := Load(id);
      LoadCloser(w, members, n, s, id);
  }

  /** The one that is waited for is closer to its end. */
  lemma WaitsForCloser(w: World, members: set<string>, n: nat, s: State, id: nat, j: nat)
    requires Inv(w, members, s) && id in s.reqs && WaitsFor(s, id, j) && Bounded(w, members, s.reqs[id].key, n)
    ensures s.reqs[j].key == s.reqs[id].key
    ensures Cost(w, members, n, s.reqs[j]) + (if s.reqs[id].pc.Asking? then 2 else 1) <= Cost(w, members, n, s.reqs[id])
  {
    assert ReqOk(w, s, id) && ReqOk(w, s, j);
    if s.reqs[id].pc.Asking? { HopsFall(w, members, s.reqs[id].node, s.reqs[j].node, s.reqs[id].key, n); }
  }

  /** One run after another. */
  lemma {:induction false} LeadsOn(w: World, s: State, a: seq<Action>, t: State, b: seq<Action>)
    requires Leads(w, s, a) == Some(t)
    ensures Leads(w, s, a + b) == Leads(w, t, b)
  {
    if b == [] {
      assert a + b == a;
    } else {
      assert (a + b)[..|a + b| - 1] == a + b[..|b| - 1];
      LeadsOn(w, s, a, t, b[..|b| - 1]);
    }
  }

  lemma LeadsOne(w: World, s: State, a: Action)
    requires Enabled(w, s, a)
    ensures Leads(w, s, [a]) == Some(Apply(w, s, a))
  {
    assert [a][..0] == [];
    assert Leads(w, s, []) == Some(s);
  }

  lemma StepOnce(w: World, members: set<string>, n: nat, s: State, id: nat) returns (acts: seq<Action>, t: State)
    requires Inv(w, members, s) && id in s.reqs && !s.reqs[id].pc.Over? && forall j :: !WaitsFor(s, id, j)
    ensures |acts| == 1 && Lossless(acts) && Leads(w, s, acts) == Some(t) && Inv(w, members, t)
    ensures Closer(w, members, n, s, t, id)
  {
    var a := OwnStep(w, members, n, s, id);
    acts, t := [a], Apply(w, s, a);
    LeadsOne(w, s, a);
    StepKeepsInv(w, members, s, a);
  }

  /** Requests further from their end than `id` was keep their states. */
  ghost predicate Apart(w: World, members: set<string>, n: nat, s: State, t: State, limit: nat) {
    forall k :: k in s.reqs && limit < Cost(w, members, n, s.reqs[k]) ==> k in t.reqs && t.reqs[k] == s.reqs[k]
  }

  lemma ApartOn(w: World, members: set<string>, n: nat, s: State, u: State, v: State, t: State, id: nat)
    requires id in s.reqs && id in u.reqs && u.reqs[id] == s.reqs[id] && Closer(w, members, n, u, v, id)
    requires Apart(w, members, n, s, u, Cost(w, members, n, s.reqs[id]))
    requires Apart(w, members, n, v, t, Cost(w, members, n, v.reqs[id]))
    ensures Apart(w, members, n, s, t, Cost(w, members, n, s.reqs[id]))
  {
  }

  lemma LosslessOn(a: seq<Action>, b: seq<Action>)
    requires Lossless(a) && Lossless(b)
    ensures Lossless(a + b)
  {
  }

  lemma CostFalls(w: World, members: set<string>, n: nat, s: State, t: State, id: nat)
    requires id in s.reqs && Closer(w, members, n, s, t, id)
    ensures var c := Cost(w, members, n, t.reqs[id]);
            && c < Cost(w, members, n, s.reqs[id])
            && (s.reqs[id].pc.Asking? ==> c <= 1) && (s.reqs[id].pc.Sharing? ==> c == 0)
  {
  }

  /** A lossless run of at most `Cost` steps brings the request to its end: first what it
      waits for, then its own step, then the rest. */
  lemma {:induction false} Finish(w: World, members: set<string>, n: nat, s: State, id: nat)
    returns (acts: seq<Action>, t: State)
    requires Inv(w, members, s) && id in s.reqs && Bounded(w, members, s.reqs[id].key, n)
    ensures Lossless(acts) && |acts| <= Cost(w, members, n, s.reqs[id])
    ensures Leads(w, s, acts) == Some(t) && Inv(w, members, t)
    ensures id in t.reqs && t.reqs[id].pc.Over?
    ensures Apart(w, members, n, s, t, Cost(w, members, n, s.reqs[id]))
    decreases Cost(w, members, n, s.reqs[id])
  {
    if s.reqs[id].pc.Over? {
      acts, t := [], s;
    } else {
      var before, u := FinishWaited(w, members, n, s, id);
      var own, v := StepOnce(w, members, n, u, id);
      var after;
      after, t := Finish(w, members, n, v, id);
      LeadsOn(w, s, before, u, own);
      LeadsOn(w, s, before + own, v, after);
      ApartOn(w, members, n, s, u, v, t, id);
      LosslessOn(before, own);
      LosslessOn(before + own, after);
      CostFalls(w, members, n, u, v, id);
      acts := before + own + after;
    }
  }

  lemma {:induction false} FinishWaited(w: World, members: set<string>, n: nat, s: State, id: nat)
    returns (acts: seq<Action>, t: State)
    requires Inv(w, members, s) && id in s.reqs && Bounded(w, members, s.reqs[id].key, n) && !s.reqs[id].pc.Over?
    ensures Lossless(acts) && Leads(w, s, acts) == Some(t) && Inv(w, members, t)
    ensures id in t.reqs && t.reqs[id] == s.reqs[id] && forall j :: !WaitsFor(t, id, j)
    ensures |acts| + (if s.reqs[id].pc.Asking? then 2 else 1) <= Cost(w, members, n, s.reqs[id])
    ensures !s.reqs[id].pc.Asking? && !s.reqs[id].pc.Sharing? ==> acts == []
    ensures Apart(w, members, n, s, t, Cost(w, members, n, s.reqs[id]))
    decreases Cost(w, members, n, s.reqs[id]), 0
  {
    if j: nat :| WaitsFor(s, id, j) {
      WaitsForCloser(w, members, n, s, id, j);
      acts, t := Finish(w, members, n, s, j);
    } else {
      acts, t := [], s;
    }
  }

  // ----------------------------------------------------------------- the circular wait

  function At(p: seq<string>, i: nat): string
    requires p != [] && i <= |p|
  {
    if i < |p| then p[i] else p[0]
  }

  /** One request sent around the circle: each node misses and forwards it to the next. */
  function Around(p: seq<string>, key: string, i: nat): seq<Action>
    requires p != [] && i <= |p|
    decreases i
  {
    if i == 0 then [Arrive(0, p[0], key), Probe(0)] else Around(p, key, i - 1) + [Forward(i - 1, i), Probe(i)]
  }

  /** Nothing is cached, and each of the requests up to `i` waits for the one after it. */
  ghost predicate Chain(members: set<string>, s: State, key: string, p: seq<string>, i: nat, last: Pc)
    requires p != [] && i <= |p|
  {
    && s.caches == Init(members).caches
    && (forall id: nat :: id in s.reqs <==> id <= i)
    && (forall id :: id in s.reqs ==>
          s.reqs[id].node == At(p, id) && s.reqs[id].key == key
          && s.reqs[id].pc == if id < i then Asking(id + 1) else last)
  }

  lemma Misses(w: World, members: set<string>, s: State, key: string, p: seq<string>, i: nat)
    requires key != "" && p != [] && i <= |p| && Chain(members, s, key, p, i, Probing) && At(p, i) in members
    ensures Enabled(w, s, Probe(i)) && Chain(members, Apply(w, s, Probe(i)), key, p, i, Missed)
  {
    assert i in s.reqs;
  }

  /** The nodes of a circle are distinct, so nobody leads the load where the last one is. */
  lemma MayPass(w: World, members: set<string>, s: State, key: string, p: seq<string>, i: nat)
    requires Circle(w, members, key, p) && i < |p| && Chain(members, s, key, p, i, Missed)
    ensures MayLead(s, i) && Next(w, s, i) == Some(At(p, i + 1)) && At(p, i + 1) in members && i + 1 !in s.reqs
  {
    assert i in s.reqs;
    assert Hop(w, members, p[i], key) == Some(At(p, i + 1));
  }

  lemma ForwardedState(w: World, s: State, id: nat, child: nat)
    requires Enabled(w, s, Forward(id, child))
    ensures var t := Apply(w, s, Forward(id, child));
            && t.caches == s.caches && t.reqs.Keys == s.reqs.Keys + {child}
            && t.reqs[child] == Asked(s.reqs[id].key, Next(w, s, id).value, Some(id), Probing)
            && forall k :: k in s.reqs ==> t.reqs[k] == if k == id then s.reqs[id].(pc := Asking(child)) else s.reqs[k]
  {
  }

  lemma Longer(members: set<string>, s: State, t: State, key: string, p: seq<string>, i: nat)
    requires p != [] && i < |p| && Chain(members, s, key, p, i, Missed)
    requires t.caches == s.caches && t.reqs.Keys == s.reqs.Keys + {i + 1}
    requires t.reqs[i + 1] == Asked(key, At(p, i + 1), Some(i), Probing)
    requires forall k :: k in s.reqs ==> t.reqs[k] == if k == i then s.reqs[i].(pc := Asking(i + 1)) else s.reqs[k]
    ensures Chain(members, t, key, p, i + 1, Probing)
  {
  }

  lemma {:induction false} GoesAround(w: World, members: set<string>, key: string, p: seq<string>, i: nat)
    returns (acts: seq<Action>, s: State)
    requires Circle(w, members, key, p) && key != "" && i <= |p|
    ensures acts == Around(p, key, i)
    ensures Run(w, members, acts) == Some(s) && Chain(members, s, key, p, i, Missed)
    decreases i
  {
    if i == 0 {
      acts, s := Starts(w, members, key, p);
    } else {
      var first, before := GoesAround(w, members, key, p, i - 1);
      acts, s := NextRound(w, members, first, before, key, p, i);
      assert acts == Around(p, key, i) by { assert first == Around(p, key, i - 1); }
    }
  }

  lemma NextRound(w: World, members: set<string>, first: seq<Action>, before: State, key: string,
                  p: seq<string>, i: nat)
    returns (acts: seq<Action>, s: State)
    requires Circle(w, members, key, p) && key != "" && 0 < i <= |p|
    requires Run(w, members, first) == Some(before) && Chain(members, before, key, p, i - 1, Missed)
    ensures acts == first + [Forward(i - 1, i), Probe(i)]
    ensures Run(w, members, acts) == Some(s) && Chain(members, s, key, p, i, Missed)
  {
    var mid := PassOn(w, members, before, key, p, i - 1);
    Misses(w, members, mid, key, p, i);
    s := Apply(w, mid, Probe(i));
    TwoSteps(w, before, Forward(i - 1, i), mid, Probe(i));
    acts := first + [Forward(i - 1, i), Probe(i)];
    LeadsOn(w, Init(members), first, before, [Forward(i - 1, i), Probe(i)]);
  }

  lemma PassOn(w: World, members: set<string>, s: State, key: string, p: seq<string>, i: nat) returns (t: State)
    requires Circle(w, members, key, p) && i < |p| && Chain(members, s, key, p, i, Missed)
    ensures Enabled(w, s, Forward(i, i + 1)) && t == Apply(w, s, Forward(i, i + 1))
    ensures Chain(members, t, key, p, i + 1, Probing) && At(p, i + 1) in members
  {
    MayPass(w, members, s, key, p, i);
    t := Apply(w, s, Forward(i, i + 1));
    ForwardedState(w, s, i, i + 1);
    Longer(members, s, t, key, p, i);
  }

  lemma TwoSteps(w: World, s: State, a: Action, t: State, b: Action)
    requires Enabled(w, s, a) && t == Apply(w, s, a) && Enabled(w, t, b)
    ensures Leads(w, s, [a, b]) == Some(Apply(w, t, b))
  {
    LeadsOne(w, s, a);
    assert [a, b][..1] == [a];
  }

  lemma Starts(w: World, members: set<string>, key: string, p: seq<string>) returns (acts: seq<Action>, s: State)
    requires Circle(w, members, key, p) && key != ""
    ensures acts == Around(p, key, 0)
    ensures Run(w, members, acts) == Some(s) && Chain(members, s, key, p, 0, Missed)
  {
    assert At(p, 0) == p[0];
    var first := Init(members).(reqs := map[0 := Asked(key, p[0], None, Probing)]);
    assert first.reqs.Keys == {0};
    assert Chain(members, first, key, p, 0, Probing);
    Misses(w, members, first, key, p, 0);
    acts, s := [Arrive(0, p[0], key), Probe(0)], Apply(w, first, Probe(0));
    TwoSteps(w, Init(members), Arrive(0, p[0], key), first, Probe(0));
  }

  /** Each of the requests 0 to `m` waits for the next, and the last for the first. */
  predicate Closed(s: State, m: nat) {
    forall id: nat :: id <= m ==> id in s.reqs && s.reqs[id].pc == if id < m then Asking(id + 1) else Sharing(0)
  }

  lemma StaysClosed(w: World, s: State, m: nat, a: Action)
    requires Closed(s, m) && Enabled(w, s, a) && !a.LoseAnswer?
    ensures Closed(Apply(w, s, a), m)
  {
  }

  /** Whatever happens afterwards, new requests and lost forwards included: as long as no
      answer is lost, the requests of the circle wait. */
  lemma {:induction false} WaitsForever(w: World, s: State, m: nat, acts: seq<Action>)
    requires Closed(s, m) && forall i :: 0 <= i < |acts| ==> !acts[i].LoseAnswer?
    ensures Leads(w, s, acts).Some? ==> Closed(Leads(w, s, acts).value, m)
  {
    if acts != [] {
      var last := |acts| - 1;
      WaitsForever(w, s, m, acts[..last]);
      var q := Leads(w, s, acts[..last]);
      if q.Some? && Enabled(w, q.value, acts[last]) { StaysClosed(w, q.value, m, acts[last]); }
    }
  }

  /** The circular wait: where the pools name each other in a circle, one request sent
      around it comes back to the node it started from and waits there for itself. */
  lemma {:induction false} CircleIsReached(w: World, members: set<string>, key: string, p: seq<string>)
    returns (acts: seq<Action>, s: State)
    requires Circle(w, members, key, p) && key != ""
    ensures acts == Around(p, key, |p|) + [Share(|p|, 0)] && Run(w, members, acts) == Some(s)
    ensures Closed(s, |p|) && forall id: nat :: id <= |p| ==> s.reqs[id].key == key
  {
    var round, before := GoesAround(w, members, key, p, |p|);
    assert 0 in before.reqs && |p| in before.reqs;
    s := Apply(w, before, Share(|p|, 0));
    LeadsOne(w, before, Share(|p|, 0));
    LeadsOn(w, Init(members), round, before, [Share(|p|, 0)]);
    acts := round + [Share(|p|, 0)];
    forall id: nat | id <= |p| ensures id in s.reqs && s.reqs[id].key == key
      && s.reqs[id].pc == if id < |p| then Asking(id + 1) else Sharing(0) {
      assert id in before.reqs;
    }
  }

  // ------------------------------------------------------------------------ the condition

  /** Wherever a run has come to, every request of the key can still come to its end,
      nothing being lost from there on. */
  ghost predicate AllCanEnd(w: World, members: set<string>, key: string) {
    forall acts, id: nat :: (var t := Run(w, members, acts);
      t.Some? && id in t.value.reqs && t.value.reqs[id].key == key ==> CanEnd(w, t.value, id))
  }

  lemma {:induction false} EndsInTime(w: World, members: set<string>, s: State, id: nat, n: nat)
    requires Inv(w, members, s) && id in s.reqs && Bounded(w, members, s.reqs[id].key, n)
    ensures EndsWithin(w, s, id, 5 * n + 5)
  {
    assert ReqOk(w, s, id);
    var acts, t := Finish(w, members, n, s, id);
    assert EndsBy(w, s, id, acts);
  }

  lemma AllBounded(w: World, members: set<string>, key: string)
    requires NoCircle(w, members, key) && members != {}
    ensures Bounded(w, members, key, |members| - 1)
  {
    forall x | x in members ensures Hops(w, members, x, key, |members| - 1).Some? {
      HopsBounded(w, members, key, x);
    }
  }

  /** Without a circle among the pools, every request of a run can end within five further
      steps for each node, none of them a loss. */
  lemma {:induction false} NoCircleAllEnd(w: World, members: set<string>, acts: seq<Action>, s: State, id: nat)
    requires Run(w, members, acts) == Some(s) && id in s.reqs && NoCircle(w, members, s.reqs[id].key)
    ensures EndsWithin(w, s, id, 5 * |members|)
  {
    RunInv(w, members, acts);
    assert ReqOk(w, s, id);
    AllBounded(w, members, s.reqs[id].key);
    EndsInTime(w, members, s, id, |members| - 1);
  }

  lemma EmptyKeyEnds(w: World, members: set<string>, acts: seq<Action>, s: State, id: nat)
    requires Run(w, members, acts) == Some(s) && id in s.reqs && s.reqs[id].key == ""
    ensures CanEnd(w, s, id)
  {
    RunInv(w, members, acts);
    assert ReqOk(w, s, id);
    if s.reqs[id].pc.Over? {
      assert EndsBy(w, s, id, []);
      assert EndsWithin(w, s, id, 0);
    } else {
      LeadsOne(w, s, Probe(id));
      assert EndsBy(w, s, id, [Probe(id)]);
      assert EndsWithin(w, s, id, 1);
    }
  }

  lemma ClosedCannotEnd(w: World, s: State, m: nat, id: nat)
    requires Closed(s, m) && id <= m
    ensures !CanEnd(w, s, id)
  {
    forall acts | Lossless(acts) ensures !EndsBy(w, s, id, acts) {
      WaitsForever(w, s, m, acts);
      var t := Leads(w, s, acts);
      if t.Some? { assert id in t.value.reqs && (t.value.reqs[id].pc.Asking? || t.value.reqs[id].pc.Sharing?); }
    }
  }

  lemma CircleBlocks(w: World, members: set<string>, key: string, p: seq<string>)
    requires Circle(w, members, key, p) && key != ""
    ensures !AllCanEnd(w, members, key)
  {
    var acts, s := CircleIsReached(w, members, key, p);
    assert 0 in s.reqs;
    ClosedCannotEnd(w, s, |p|, 0);
  }

  /** Every request of a key can come to its end in every run if and only if no pools
      name each other in a circle for the key. */
  lemma {:induction false} AllEndIff(w: World, members: set<string>, key: string)
    ensures AllCanEnd(w, members, key) <==> key == "" || NoCircle(w, members, key)
  {
    if key == "" || NoCircle(w, members, key) {
      forall acts, id: nat | Run(w, members, acts).Some? && id in Run(w, members, acts).value.reqs
                        && Run(w, members, acts).value.reqs[id].key == key
        ensures CanEnd(w, Run(w, members, acts).value, id)
      {
        if key == "" {
          EmptyKeyEnds(w, members, acts, Run(w, members, acts).value, id);
        } else {
          NoCircleAllEnd(w, members, acts, Run(w, members, acts).value, id);
        }
      }
    } else {
      var p :| Circle(w, members, key, p);
      CircleBlocks(w, members, key, p);
    }
  }

  lemma AgreedNoCircle(w: World, members: set<string>, key: string, p: seq<string>)
    requires Agreed(w, members)
    ensures !Circle(w, members, key, p)
  {
    if p != [] && p[0] in members {
      OwnerKnowsItself(w, members, p[0], key);
      if 1 < |p| { assert Hop(w, members, p[0], key) == Some(p[1]) ==> Hop(w, members, p[1], key) == None; }
      if 2 < |p| { var third := p[2]; }
    }
  }

  /** Rings that agree leave no circle, and requests end within ten steps. */
  lemma {:induction false} AgreedAllEnd(w: World, members: set<string>, acts: seq<Action>, s: State, id: nat)
    requires Agreed(w, members) && Run(w, members, acts) == Some(s) && id in s.reqs
    ensures NoCircle(w, members, s.reqs[id].key) && EndsWithin(w, s, id, 10)
  {
    var key := s.reqs[id].key;
    forall p ensures !Circle(w, members, key, p) { AgreedNoCircle(w, members, key, p); }
    RunInv(w, members, acts);
    forall x | x in members ensures Hops(w, members, x, key, 1).Some? {
      OwnerKnowsItself(w, members, x, key);
    }
    EndsInTime(w, members, s, id, 1);
  }

  // -------------------------------------------------------- requests one at a time

  /** However the caches and the network are, a request of the key is answered within the
      hops. */
  ghost predicate AlwaysServed(w: World, members: set<string>, key: string, hops: nat) {
    forall c: Caches, x, net: Network :: c.Keys == members && x in members ==>
      Serve(w, c, x, key, net, hops).Outcome?
  }

  lemma ReturnedEnds(w: World, x: string, key: string, link: Link, r: Outcome)
    requires r.Outcome? && x in r.caches
    ensures var t := Returned(w, x, key, link, r); t.Outcome? && t.caches.Keys == r.caches.Keys
  {
  }

  /** A request is answered if the one it is passed on as is answered. */
  lemma ServeEndsIf(w: World, c: Caches, x: string, key: string, net: Network, n: nat)
    requires x in c
    requires var o := Remote(w, x, key); key != "" && o.Some? && o.value in c ==>
      0 < n && var m := Serve(w, c, o.value, key, net, n - 1); m.Outcome? && m.caches.Keys == c.Keys
    ensures var r := Serve(w, c, x, key, net, n); r.Outcome? && r.caches.Keys == c.Keys
  {
    var o := Remote(w, x, key);
    if key != "" && o.Some? && o.value in c {
      ReturnedEnds(w, x, key, net(x, o.value), Serve(w, c, o.value, key, net, n - 1));
    }
  }

  lemma {:induction false} ServeEnds(w: World, c: Caches, x: string, key: string, net: Network, n: nat)
    requires x in c && (key == "" || Hops(w, c.Keys, x, key, n).Some?)
    ensures var r := Serve(w, c, x, key, net, n); r.Outcome? && r.caches.Keys == c.Keys
    decreases n
  {
    var o := Remote(w, x, key);
    if key != "" && o.Some? && o.value in c {
      assert Hop(w, c.Keys, x, key) == o;
      ServeEnds(w, c, o.value, key, net, n - 1);
    }
    ServeEndsIf(w, c, x, key, net, n);
  }

  /** The request is passed on at the first `n` nodes that it comes to, and at this one. */
  ghost predicate RunsOut(w: World, c: Caches, x: string, key: string, net: Network, n: nat) {
    forall hops: nat :: hops <= n && x in c ==> Serve(w, c, x, key, net, hops) == Exhausted
  }

  lemma RunsOutHere(w: World, c: Caches, x: string, o: string, key: string, net: Network)
    requires x in c && o in c && key != "" && c[x] == [] && Remote(w, x, key) == Some(o) && net(x, o) == Works
    ensures RunsOut(w, c, x, key, net, 0)
  {
    assert !Has<ByteString>([], key);
  }

  lemma RunsOutIf(w: World, c: Caches, x: string, o: string, key: string, net: Network, n: nat)
    requires x in c && o in c && key != "" && c[x] == [] && Remote(w, x, key) == Some(o) && net(x, o) == Works
    requires RunsOut(w, c, o, key, net, n)
    ensures RunsOut(w, c, x, key, net, n + 1)
  {
    assert !Has<ByteString>([], key);
    forall hops: nat | hops <= n + 1 ensures Serve(w, c, x, key, net, hops) == Exhausted {
      if 0 < hops { assert Serve(w, c, o, key, net, hops - 1) == Exhausted; }
    }
  }

  /** On a circle of empty caches the request is forwarded for ever. */
  lemma {:induction false} ServeGoesRound(w: World, c: Caches, key: string, p: seq<string>, x: string,
                                          net: Network, n: nat)
    requires Circle(w, c.Keys, key, p) && key != "" && x in p && forall a, b :: net(a, b) == Works
    requires forall y :: y in c ==> c[y] == []
    ensures RunsOut(w, c, x, key, net, n)
    decreases n
  {
    var y := NextOn(w, c.Keys, key, p, x);
    if n == 0 {
      RunsOutHere(w, c, x, y, key, net);
    } else {
      ServeGoesRound(w, c, key, p, y, net, n - 1);
      RunsOutIf(w, c, x, y, key, net, n - 1);
    }
  }

  lemma NextOn(w: World, members: set<string>, key: string, p: seq<string>, x: string) returns (y: string)
    requires Circle(w, members, key, p) && x in p
    ensures y in p && x in members && y in members && Remote(w, x, key) == Some(y)
  {
    var i :| 0 <= i < |p| && p[i] == x;
    y := if i + 1 < |p| then p[i + 1] else p[0];
    assert Hop(w, members, p[i], key) == Some(y);
  }

  lemma EnoughHops(w: World, c: Caches, x: string, key: string, net: Network)
    requires x in c && (key == "" || NoCircle(w, c.Keys, key))
    ensures Serve(w, c, x, key, net, |c.Keys|).Outcome?
  {
    if key != "" {
      HopsBounded(w, c.Keys, key, x);
      HopsStay(w, c.Keys, x, key, |c.Keys| - 1);
    }
    ServeEnds(w, c, x, key, net, |c.Keys|);
  }

  lemma NoHopsAreEnough(w: World, members: set<string>, key: string, p: seq<string>, hops: nat)
    requires Circle(w, members, key, p) && key != ""
    ensures !AlwaysServed(w, members, key, hops)
  {
    var net: Network := (a, b) => Works;
    var c := Init(members).caches;
    assert c.Keys == members;
    ServeGoesRound(w, c, key, p, p[0], net, hops);
    assert Serve(w, c, p[0], key, net, hops) == Exhausted;
  }

  /** As many hops as nodes are enough for every request of a key, or else no number is:
      it depends on whether the pools name each other in a circle. */
  lemma {:induction false} ServedIff(w: World, members: set<string>, key: string)
    ensures key == "" || NoCircle(w, members, key) ==> AlwaysServed(w, members, key, |members|)
    ensures key != "" && !NoCircle(w, members, key) ==> forall hops: nat :: !AlwaysServed(w, members, key, hops)
  {
    if key == "" || NoCircle(w, members, key) {
      forall c: Caches, x, net: Network | c.Keys == members && x in members
        ensures Serve(w, c, x, key, net, |members|).Outcome?
      {
        EnoughHops(w, c, x, key, net);
      }
    } else {
      var p :| Circle(w, members, key, p);
      forall hops: nat ensures !AlwaysServed(w, members, key, hops) { NoHopsAreEnough(w, members, key, p, hops); }
    }
  }

  // ----------------------------------------------------------------------- the example

  lemma OnlyPeerOwns(w: World, x: string, y: string, key: string)
    requires w.peers(x) == [y]
    ensures OwnerOf(w, x, key) == y
  {
    var ring, p := PeerRing(w.crc, [y]), Point(w.crc, 0, y);
    assert PointOf(DEFAULT_REPLICAS, w.crc, y, p);
    RingOfNodes(DEFAULT_REPLICAS, w.crc, [y], p);
    RingOfNodes(DEFAULT_REPLICAS, w.crc, [y], Successor(ring.Keys, w.crc(key)));
  }

  /** Two nodes whose peer lists hold only each other are a circle for every key. */
  lemma {:induction false} EachOtherIsACircle(w: World, x: string, y: string, key: string)
    requires x != y && x != "" && y != "" && w.peers(x) == [y] && w.peers(y) == [x]
    ensures Circle(w, {x, y}, key, [x, y])
  {
    OnlyPeerOwns(w, x, y, key);
    OnlyPeerOwns(w, y, x, key);
  }
}

/**
 Any number of requests at once in a cluster, whatever the rings of its nodes say. Each
 step is a cache access, a decision of one request, or an answer on its way back. While
 a request leads the load of its key at a node, later ones there share its result; when
 the leader is over, until its record is deleted, they may: that moment is left open.
 */
module ConcurrentCluster {
  import opened Common
  import opened RecencyList
  import opened ReadThrough
  import opened MyCache
  import opened Cluster

  type Answer = Result<ByteString, GetError>

  /** Where a request is: before the cache probe, past a miss, waiting for the owner,
      waiting for another request at its node, about to ask the source, over. */
  datatype Pc = Probing | Missed | Asking(child: nat) | Sharing(leader: nat) | Loading | Over(answer: Answer)

  /** A request at a node; `parent` is the request of another node it was forwarded by. */
  datatype Asked = Asked(key: string, node: string, parent: Option<nat>, pc: Pc)

  /** `failed`: some request or answer between two nodes was lost or refused. */
  datatype State = State(caches: Caches, reqs: map<nat, Asked>, failed: bool)

  datatype Action =
    | Arrive(id: nat, node: string, key: string)
    | Probe(id: nat)
    | Share(id: nat, leader: nat)
    | Forward(id: nat, child: nat)
    | StayLocal(id: nat)           // the key is the node's own
    | Refuse(id: nat)              // no node of the cluster serves the address that is named
    | LoseRequest(id: nat)
    | LoseAnswer(id: nat)
    | TakeAnswer(id: nat)          // of the owner
    | TakeShared(id: nat)
    | Load(id: nat)

  function Init(members: set<string>): State {
    State(map x | x in members :: [], map[], false)
  }

  ghost function Next(w: World, s: State, id: nat): Option<string>
    requires id in s.reqs
  {
    Remote(w, s.reqs[id].node, s.reqs[id].key)
  }

  /** The request leads the load of its key: it asks the owner or the source. */
  predicate Leading(r: Asked) {
    r.pc.Asking? || r.pc == Loading
  }

  /** Past a miss, and nobody leads the load of the key at this node. */
  ghost predicate MayLead(s: State, id: nat) {
    && id in s.reqs && s.reqs[id].pc == Missed
    && forall l :: l in s.reqs && s.reqs[l].node == s.reqs[id].node && s.reqs[l].key == s.reqs[id].key ==>
         !Leading(s.reqs[l])
  }

  ghost predicate Enabled(w: World, s: State, a: Action) {
    match a
    case Arrive(id, node, key) => id !in s.reqs && node in s.caches
    case Probe(id) => id in s.reqs && s.reqs[id].pc == Probing && s.reqs[id].node in s.caches
    case Share(id, l) =>
      && id in s.reqs && s.reqs[id].pc == Missed && l in s.reqs
      && s.reqs[l].node == s.reqs[id].node && s.reqs[l].key == s.reqs[id].key
      && (Leading(s.reqs[l]) || s.reqs[l].pc.Over?)
    case Forward(id, child) =>
      MayLead(s, id) && child !in s.reqs && Next(w, s, id).Some? && Next(w, s, id).value in s.caches
    case StayLocal(id) => MayLead(s, id) && Next(w, s, id) == None
    case Refuse(id) => MayLead(s, id) && Next(w, s, id).Some? && Next(w, s, id).value !in s.caches
    case LoseRequest(id) => MayLead(s, id) && Next(w, s, id).Some? && Next(w, s, id).value in s.caches
    case LoseAnswer(id) => id in s.reqs && s.reqs[id].pc.Asking?
    case TakeAnswer(id) =>
      id in s.reqs && s.reqs[id].pc.Asking? && s.reqs[id].pc.child in s.reqs && s.reqs[s.reqs[id].pc.child].pc.Over?
    case TakeShared(id) =>
      id in s.reqs && s.reqs[id].pc.Sharing? && s.reqs[id].pc.leader in s.reqs && s.reqs[s.reqs[id].pc.leader].pc.Over?
    case Load(id) => id in s.reqs && s.reqs[id].pc == Loading && s.reqs[id].node in s.caches
  }

  function Goto(s: State, id: nat, pc: Pc): State
    requires id in s.reqs
  {
    s.(reqs := s.reqs[id := s.reqs[id].(pc := pc)])
  }

  ghost function Apply(w: World, s: State, a: Action): State
    requires Enabled(w, s, a)
  {
    match a
    case Arrive(id, node, key) => s.(reqs := s.reqs[id := Asked(key, node, None, Probing)])
    case Probe(id) =>
      var r := s.reqs[id];
      var list := s.caches[r.node];
      if r.key == "" then Goto(s, id, Over(Err(NeedKey)))
      else if Has(list, r.key) then
        Goto(s, id, Over(Ok(list[Find(list, r.key)].value.data))).(caches := s.caches[r.node := Touch(list, r.key)])
      else Goto(s, id, Missed)
    case Share(id, l) => Goto(s, id, Sharing(l))
    case Forward(id, child) =>
      var t := Goto(s, id, Asking(child));
      t.(reqs := t.reqs[child := Asked(s.reqs[id].key, Next(w, s, id).value, Some(id), Probing)])
    case StayLocal(id) => Goto(s, id, Loading)
    case Refuse(id) => Goto(s, id, Loading).(failed := true)
    case LoseRequest(id) => Goto(s, id, Loading).(failed := true)
    case LoseAnswer(id) => Goto(s, id, Loading).(failed := true)
    case TakeAnswer(id) =>
      var answer := s.reqs[s.reqs[id].pc.child].pc.answer;
      Goto(s, id, if answer.Ok? then Over(answer) else Loading)
    case TakeShared(id) => Goto(s, id, Over(s.reqs[s.reqs[id].pc.leader].pc.answer))
    case Load(id) =>
      var r := s.reqs[id];
      Goto(s, id, Over(Source(w.load, r.key))).(caches := s.caches[r.node := Fallback(w, s.caches, r.node, r.key)])
  }

  // --------------------------------------------------- invariant: waiting and answers

  /** What a request waits for is at the right node, for the same key. */
  ghost predicate WaitsRight(w: World, s: State, id: nat)
    requires id in s.reqs
  {
    var r := s.reqs[id];
    match r.pc
    case Asking(child) =>
      && child in s.reqs && s.reqs[child].key == r.key && s.reqs[child].parent.Some?
      && Remote(w, r.node, r.key) == Some(s.reqs[child].node)
    case Sharing(l) =>
      && l in s.reqs && s.reqs[l].key == r.key && s.reqs[l].node == r.node
      && (Leading(s.reqs[l]) || s.reqs[l].pc.Over?)
    case _ => true
  }

  ghost predicate ReqOk(w: World, s: State, id: nat)
    requires id in s.reqs
  {
    var r := s.reqs[id];
    && r.node in s.caches && WaitsRight(w, s, id)
    && (r.key == "" ==> r.pc == Probing || r.pc.Over?)
    && (r.pc.Over? ==> r.pc.answer == if r.key == "" then Err(NeedKey) else Source(w.load, r.key))
  }

  ghost predicate Inv(w: World, members: set<string>, s: State) {
    && s.caches.Keys == members && AllTruthful(w, s.caches)
    && (forall id :: id in s.reqs ==> ReqOk(w, s, id))
  }

  lemma ProbeIsSource(w: World, s: State, id: nat)
    requires id in s.reqs && s.reqs[id].node in s.caches && Truthful(w.load, s.caches[s.reqs[id].node])
    ensures var r := s.reqs[id];
      var list := s.caches[r.node];
      Has(list, r.key) ==> Ok(list[Find(list, r.key)].value.data) == Source(w.load, r.key)
  {
  }

  lemma CallStepKeepsReq(w: World, members: set<string>, s: State, a: Action, k: nat)
    requires Inv(w, members, s) && Enabled(w, s, a) && k in Apply(w, s, a).reqs
    requires a.Arrive? || a.Probe?
    ensures ReqOk(w, Apply(w, s, a), k)
  {
    if a.id in s.reqs { assert ReqOk(w, s, a.id); }
    if k in s.reqs { assert ReqOk(w, s, k); }
    if a.Probe? { ProbeIsSource(w, s, a.id); }
  }

  lemma LocalStepKeepsReq(w: World, members: set<string>, s: State, a: Action, k: nat)
    requires Inv(w, members, s) && Enabled(w, s, a) && k in Apply(w, s, a).reqs
    requires a.StayLocal? || a.Load?
    ensures ReqOk(w, Apply(w, s, a), k)
  {
    assert ReqOk(w, s, a.id) && ReqOk(w, s, k);
  }

  lemma LossKeepsReq(w: World, members: set<string>, s: State, a: Action, k: nat)
    requires Inv(w, members, s) && Enabled(w, s, a) && k in Apply(w, s, a).reqs
    requires a.Refuse? || a.LoseRequest? || a.LoseAnswer?
    ensures ReqOk(w, Apply(w, s, a), k)
  {
    assert ReqOk(w, s, a.id) && ReqOk(w, s, k);
  }

  lemma ShareKeepsReq(w: World, members: set<string>, s: State, a: Action, k: nat)
    requires Inv(w, members, s) && Enabled(w, s, a) && k in Apply(w, s, a).reqs && a.Share?
    ensures ReqOk(w, Apply(w, s, a), k)
  {
    assert ReqOk(w, s, a.id) && ReqOk(w, s, k);
  }

  lemma TakeSharedKeepsReq(w: World, members: set<string>, s: State, a: Action, k: nat)
    requires Inv(w, members, s) && Enabled(w, s, a) && k in Apply(w, s, a).reqs && a.TakeShared?
    ensures ReqOk(w, Apply(w, s, a), k)
  {
    assert ReqOk(w, s, a.id) && ReqOk(w, s, k) && ReqOk(w, s, s.reqs[a.id].pc.leader);
  }

  lemma TakeAnswerKeepsReq(w: World, members: set<string>, s: State, a: Action, k: nat)
    requires Inv(w, members, s) && Enabled(w, s, a) && k in Apply(w, s, a).reqs && a.TakeAnswer?
    ensures ReqOk(w, Apply(w, s, a), k)
  {
    assert ReqOk(w, s, a.id) && ReqOk(w, s, k) && ReqOk(w, s, s.reqs[a.id].pc.child);
  }

  lemma ForwardKeepsReq(w: World, members: set<string>, s: State, a: Action, k: nat)
    requires Inv(w, members, s) && Enabled(w, s, a) && k in Apply(w, s, a).reqs && a.Forward?
    ensures ReqOk(w, Apply(w, s, a), k)
  {
    assert ReqOk(w, s, a.id);
    if k in s.reqs { assert ReqOk(w, s, k); }
  }

  lemma StepKeepsReq(w: World, members: set<string>, s: State, a: Action, k: nat)
    requires Inv(w, members, s) && Enabled(w, s, a) && k in Apply(w, s, a).reqs
    ensures ReqOk(w, Apply(w, s, a), k)
  {
    if a.Share? {
      ShareKeepsReq(w, members, s, a, k);
    } else if a.TakeShared? {
      TakeSharedKeepsReq(w, members, s, a, k);
    } else if a.TakeAnswer? {
      TakeAnswerKeepsReq(w, members, s, a, k);
    } else if a.Forward? {
      ForwardKeepsReq(w, members, s, a, k);
    } else if a.StayLocal? || a.Load? {
      LocalStepKeepsReq(w, members, s, a, k);
    } else if a.Refuse? || a.LoseRequest? || a.LoseAnswer? {
      LossKeepsReq(w, members, s, a, k);
    } else {
      CallStepKeepsReq(w, members, s, a, k);
    }
  }

  /** What a step does to one cache: at most the acting request's key is added, by a load. */
  lemma StepOnCache(w: World, members: set<string>, s: State, a: Action, x: string)
    requires Inv(w, members, s) && Enabled(w, s, a) && x in s.caches
    ensures var t := Apply(w, s, a);
            && x in t.caches && Truthful(w.load, t.caches[x])
            && (KeySet(t.caches[x]) <= KeySet(s.caches[x])
                || (a.Load? && s.reqs[a.id].node == x && w.load(s.reqs[a.id].key).Some?
                    && KeySet(t.caches[x]) <= KeySet(s.caches[x]) + {s.reqs[a.id].key}))
  {
    if (a.Probe? || a.Load?) && s.reqs[a.id].node == x {
      var key := s.reqs[a.id].key;
      assert ReqOk(w, s, a.id);
      LocalKeys(w, s.caches, x, key);
      if a.Probe? { AccessTruthful(w.budget(x), w.load, s.caches[x], key); }
      if a.Load? { LoadedTruthful(w.budget(x), w.load, s.caches[x], key); }
    }
  }

  lemma {:induction false} StepKeepsInv(w: World, members: set<string>, s: State, a: Action)
    requires Inv(w, members, s) && Enabled(w, s, a)
    ensures Inv(w, members, Apply(w, s, a))
  {
    var t := Apply(w, s, a);
    forall k | k in t.reqs ensures ReqOk(w, t, k) { StepKeepsReq(w, members, s, a, k); }
    if a.Probe? || a.Load? { assert ReqOk(w, s, a.id); }
    assert t.caches.Keys == s.caches.Keys;
    forall x | x in t.caches ensures Truthful(w.load, t.caches[x]) { StepOnCache(w, members, s, a, x); }
  }

  // --------------------------------------------- invariant: owners, when the rings agree

  ghost predicate Owns(w: World, node: string, key: string) {
    Remote(w, node, key) == None
  }

  /** A forwarded request is at the owner; another node loads only after a failure, or
      when the source has nothing for the key. */
  ghost predicate AtOwner(w: World, s: State, id: nat)
    requires id in s.reqs
  {
    var r := s.reqs[id];
    && (r.parent.Some? ==> Owns(w, r.node, r.key))
    && (r.pc == Loading && !s.failed ==> Owns(w, r.node, r.key) || w.load(r.key).None?)
  }

  ghost predicate OwnersInv(w: World, s: State) {
    && (forall id :: id in s.reqs ==> AtOwner(w, s, id))
    && (!s.failed ==> forall x, key :: x in s.caches && key in KeySet(s.caches[x]) ==> Owns(w, x, key))
  }

  lemma ForwardKeepsAtOwner(w: World, members: set<string>, s: State, a: Action, k: nat)
    requires Inv(w, members, s) && OwnersInv(w, s) && Agreed(w, members) && Enabled(w, s, a) && a.Forward?
    requires k in Apply(w, s, a).reqs
    ensures AtOwner(w, Apply(w, s, a), k)
  {
    assert AtOwner(w, s, a.id);
    OwnerKnowsItself(w, members, s.reqs[a.id].node, s.reqs[a.id].key);
    if k in s.reqs { assert AtOwner(w, s, k); }
  }

  /** The owner's failure is passed on only when the source has nothing for the key. */
  lemma TakeAnswerKeepsAtOwner(w: World, members: set<string>, s: State, a: Action, k: nat)
    requires Inv(w, members, s) && OwnersInv(w, s) && Enabled(w, s, a) && a.TakeAnswer?
    requires k in Apply(w, s, a).reqs
    ensures AtOwner(w, Apply(w, s, a), k)
  {
    assert ReqOk(w, s, a.id) && ReqOk(w, s, s.reqs[a.id].pc.child) && AtOwner(w, s, k);
  }

  lemma CallKeepsAtOwner(w: World, s: State, a: Action, k: nat)
    requires OwnersInv(w, s) && Enabled(w, s, a) && (a.Arrive? || a.Probe?) && k in Apply(w, s, a).reqs
    ensures AtOwner(w, Apply(w, s, a), k)
  {
    if k in s.reqs { assert AtOwner(w, s, k); }
  }

  lemma LaterStepKeepsAtOwner(w: World, s: State, a: Action, k: nat)
    requires OwnersInv(w, s) && Enabled(w, s, a) && k in Apply(w, s, a).reqs
    requires !a.Arrive? && !a.Probe? && !a.Forward? && !a.TakeAnswer?
    ensures AtOwner(w, Apply(w, s, a), k)
  {
    assert AtOwner(w, s, k);
  }

  lemma StepKeepsAtOwner(w: World, members: set<string>, s: State, a: Action, k: nat)
    requires Inv(w, members, s) && OwnersInv(w, s) && Agreed(w, members) && Enabled(w, s, a)
    requires k in Apply(w, s, a).reqs
    ensures AtOwner(w, Apply(w, s, a), k)
  {
    if a.Forward? {
      ForwardKeepsAtOwner(w, members, s, a, k);
    } else if a.TakeAnswer? {
      TakeAnswerKeepsAtOwner(w, members, s, a, k);
    } else if a.Arrive? || a.Probe? {
      CallKeepsAtOwner(w, s, a, k);
    } else {
      LaterStepKeepsAtOwner(w, s, a, k);
    }
  }

  lemma StepKeepsKeysAtOwner(w: World, members: set<string>, s: State, a: Action, x: string, key: string)
    requires Inv(w, members, s) && OwnersInv(w, s) && Enabled(w, s, a) && !Apply(w, s, a).failed
    requires x in s.caches && x in Apply(w, s, a).caches && key in KeySet(Apply(w, s, a).caches[x])
    ensures Owns(w, x, key)
  {
    StepOnCache(w, members, s, a, x);
    if a.Load? { assert AtOwner(w, s, a.id); }
  }

  lemma {:induction false} StepKeepsOwners(w: World, members: set<string>, s: State, a: Action)
    requires Inv(w, members, s) && OwnersInv(w, s) && Agreed(w, members) && Enabled(w, s, a)
    ensures OwnersInv(w, Apply(w, s, a))
  {
    var t := Apply(w, s, a);
    forall k | k in t.reqs ensures AtOwner(w, t, k) { StepKeepsAtOwner(w, members, s, a, k); }
    StepKeepsInv(w, members, s, a);
    if !t.failed {
      forall x, key | x in t.caches && key in KeySet(t.caches[x]) ensures Owns(w, x, key) {
        StepKeepsKeysAtOwner(w, members, s, a, x, key);
      }
    }
  }

  // --------------------------------------------------------------------- whole runs

  /** The state a sequence of steps leads to, if each step is possible in its turn. */
  ghost function Leads(w: World, s: State, acts: seq<Action>): Option<State> {
    if acts == [] then Some(s)
    else match Leads(w, s, acts[..|acts| - 1])
      case None => None
      case Some(p) => if Enabled(w, p, acts[|acts| - 1]) then Some(Apply(w, p, acts[|acts| - 1])) else None
  }

  ghost function Run(w: World, members: set<string>, acts: seq<Action>): Option<State> {
    Leads(w, Init(members), acts)
  }

  lemma {:induction false} LeadsKeepsInv(w: World, members: set<string>, s: State, acts: seq<Action>)
    requires Inv(w, members, s)
    ensures Leads(w, s, acts).Some? ==> Inv(w, members, Leads(w, s, acts).value)
  {
    if acts != [] {
      LeadsKeepsInv(w, members, s, acts[..|acts| - 1]);
      var p := Leads(w, s, acts[..|acts| - 1]);
      if p.Some? && Enabled(w, p.value, acts[|acts| - 1]) { StepKeepsInv(w, members, p.value, acts[|acts| - 1]); }
    }
  }

  lemma {:induction false} RunInv(w: World, members: set<string>, acts: seq<Action>)
    ensures Run(w, members, acts).Some? ==> Inv(w, members, Run(w, members, acts).value)
  {
    LeadsKeepsInv(w, members, Init(members), acts);
  }

  lemma {:induction false} RunOwners(w: World, members: set<string>, acts: seq<Action>)
    requires Agreed(w, members)
    ensures Run(w, members, acts).Some? ==> OwnersInv(w, Run(w, members, acts).value)
  {
    if acts != [] {
      RunOwners(w, members, acts[..|acts| - 1]);
      RunInv(w, members, acts[..|acts| - 1]);
      var p := Run(w, members, acts[..|acts| - 1]);
      if p.Some? && Enabled(w, p.value, acts[|acts| - 1]) { StepKeepsOwners(w, members, p.value, acts[|acts| - 1]); }
    }
  }

  /** Every answer is the source's, in every interleaving, with any losses and whatever
      the rings of the nodes say. */
  lemma {:induction false} EveryAnswerIsSource(w: World, members: set<string>, acts: seq<Action>, s: State, id: nat)
    requires Run(w, members, acts) == Some(s) && id in s.reqs && s.reqs[id].pc.Over?
    ensures s.reqs[id].pc.answer == if s.reqs[id].key == "" then Err(NeedKey) else Source(w.load, s.reqs[id].key)
    ensures AllTruthful(w, s.caches)
  {
    RunInv(w, members, acts);
    assert ReqOk(w, s, id);
  }

  /** A forwarded request sits at the key's owner and is never forwarded again: no
      request visits more than two nodes, however many there are at once. */
  lemma {:induction false} ForwardedOnce(w: World, members: set<string>, acts: seq<Action>, s: State, id: nat)
    requires Agreed(w, members) && Run(w, members, acts) == Some(s) && id in s.reqs && s.reqs[id].parent.Some?
    ensures !s.reqs[id].pc.Asking? && OwnerOf(w, s.reqs[id].node, s.reqs[id].key) == s.reqs[id].node
    ensures forall child :: !Enabled(w, s, Forward(id, child))
  {
    RunInv(w, members, acts);
    RunOwners(w, members, acts);
    assert ReqOk(w, s, id) && AtOwner(w, s, id);
    OwnerKnowsItself(w, members, s.reqs[id].node, s.reqs[id].key);
  }

  /** Unless a request or an answer was lost between two nodes, every key is cached at
      its owner alone, in every interleaving. */
  lemma {:induction false} KeysStayAtOwners(w: World, members: set<string>, acts: seq<Action>, s: State)
    requires Agreed(w, members) && Run(w, members, acts) == Some(s) && !s.failed
    ensures s.caches.Keys == members && SingleOwner(w, s.caches)
  {
    RunInv(w, members, acts);
    RunOwners(w, members, acts);
    forall x, key | x in s.caches && key in KeySet(s.caches[x]) ensures OwnerOf(w, x, key) == x {
      OwnerKnowsItself(w, members, x, key);
    }
  }

  // ------------------------------------------------------------------- what is cached

  /** What a step does with the cache of node `x`: a probe is a lookup, and the source's
      value is inserted when it has been loaded. */
  ghost function CacheOps(w: World, s: State, a: Action, x: string): seq<Op<ByteString>> {
    if !(a.Probe? || a.Load?) || a.id !in s.reqs || s.reqs[a.id].node != x then []
    else
      var key := s.reqs[a.id].key;
      if a.Probe? then if key == "" then [] else [Op.Get(key)]
      else match w.load(key)
        case None => []
        case Some(v) => [Op.Add(key, v)]
  }

  ghost function OpsAt(w: World, members: set<string>, acts: seq<Action>, x: string): seq<Op<ByteString>> {
    if acts == [] then []
    else
      var before, a := acts[..|acts| - 1], acts[|acts| - 1];
      OpsAt(w, members, before, x)
      + match Run(w, members, before)
        case None => []
        case Some(p) => CacheOps(w, p, a, x)
  }

  lemma {:induction false} OneMoreOp<T>(max: nat, ops: seq<Op<T>>, op: Op<T>)
    ensures RunOps(max, ops + [op]) == Do(max, RunOps(max, ops), op)
  {
    assert (ops + [op])[..|ops|] == ops;
  }

  lemma ProbeOnCaches(w: World, s: State, id: nat)
    requires Enabled(w, s, Probe(id))
    ensures var r := s.reqs[id];
      Apply(w, s, Probe(id)).caches == if r.key == "" || !Has(s.caches[r.node], r.key) then s.caches
                                       else s.caches[r.node := Touch(s.caches[r.node], r.key)]
  {
  }

  lemma ProbeIsLookup(w: World, s: State, id: nat, x: string, ops: seq<Op<ByteString>>)
    requires Enabled(w, s, Probe(id)) && x in s.caches && s.caches[x] == RunOps(w.budget(x), ops).list
    ensures x in Apply(w, s, Probe(id)).caches
    ensures Apply(w, s, Probe(id)).caches[x] == RunOps(w.budget(x), ops + CacheOps(w, s, Probe(id), x)).list
  {
    ProbeOnCaches(w, s, id);
    var r := s.reqs[id];
    if r.node == x && r.key != "" {
      OneMoreOp(w.budget(x), ops, Op.Get(r.key));
      assert Do(w.budget(x), RunOps(w.budget(x), ops), Op.Get(r.key)).list == Touch(s.caches[x], r.key);
    } else {
      assert ops + [] == ops;
    }
  }

  lemma LoadIsInsertion(w: World, s: State, id: nat, x: string, ops: seq<Op<ByteString>>)
    requires Enabled(w, s, Load(id)) && x in s.caches && s.caches[x] == RunOps(w.budget(x), ops).list
    ensures x in Apply(w, s, Load(id)).caches
    ensures Apply(w, s, Load(id)).caches[x] == RunOps(w.budget(x), ops + CacheOps(w, s, Load(id), x)).list
  {
    var key := s.reqs[id].key;
    if w.load(key).Some? { OneMoreOp(w.budget(x), ops, Op.Add(key, w.load(key).value)); }
    assert ops + [] == ops;
  }

  lemma OthersLeaveCaches(w: World, s: State, a: Action)
    requires Enabled(w, s, a) && !a.Probe? && !a.Load?
    ensures Apply(w, s, a).caches == s.caches
  {
  }

  lemma StepIsCacheOps(w: World, s: State, a: Action, x: string, ops: seq<Op<ByteString>>)
    requires Enabled(w, s, a) && x in s.caches && s.caches[x] == RunOps(w.budget(x), ops).list
    ensures x in Apply(w, s, a).caches
    ensures Apply(w, s, a).caches[x] == RunOps(w.budget(x), ops + CacheOps(w, s, a, x)).list
  {
    if a.Probe? {
      ProbeIsLookup(w, s, a.id, x, ops);
    } else if a.Load? {
      LoadIsInsertion(w, s, a.id, x, ops);
    } else {
      OthersLeaveCaches(w, s, a);
      assert ops + [] == ops;
    }
  }

  /** In every interleaving, the cache of each node is the LRU cache after the lookups and
      insertions that its own requests made, in the order in which they came. */
  lemma {:induction false} CacheIsLru(w: World, members: set<string>, acts: seq<Action>, s: State, x: string)
    requires Run(w, members, acts) == Some(s) && x in members
    ensures x in s.caches && s.caches[x] == RunOps(w.budget(x), OpsAt(w, members, acts, x)).list
  {
    if acts != [] {
      var before, a := acts[..|acts| - 1], acts[|acts| - 1];
      var p := Run(w, members, before).value;
      CacheIsLru(w, members, before, p, x);
      StepIsCacheOps(w, p, a, x, OpsAt(w, members, before, x));
    }
  }
}

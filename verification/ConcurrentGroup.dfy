/**
 Any number of concurrent `Group.Get` calls on one node, over the steps of the
 locked cache and of singleflight, with byte slices as heap objects that user
 code may share and write.
 */
module ConcurrentGroup {
  import opened Common
  import RL = RecencyList
  import SF = SingleFlight

  /** A byte slice, by address. */
  type Slice = nat

  /** A view of a slice, or the failure of the source. */
  type Answer = Option<Slice>

  /** The source is a function of the key; the budget is the cache's. */
  datatype World = World(source: string -> Option<ByteString>, budget: nat)

  /** Where one `Get` is: before the cache probe, past a miss, inside `Do`, back. */
  datatype GetPc = Probing | Missed | InDo | Done(answer: Answer)

  datatype Call = Call(key: string, pc: GetPc)

  /** Where a leader's `fn` is: choosing a peer, at the getter, with the getter's
      slice, with its clone, about to return. */
  datatype FnPc = Start | AtGetter | Got(raw: Slice) | Cloned(copy: Slice) | Loaded(answer: Answer)

  datatype State = State(
    sf: SF.State<Answer>,
    cache: seq<RL.Entry<Slice>>,
    heap: map<Slice, ByteString>,
    shared: set<Slice>,          // slices in the hands of user code
    gets: map<nat, Call>,
    fns: map<nat, FnPc>)

  datatype Action =
    | Begin(g: nat, key: string)
    | Probe(g: nat)                           // cache.get under its lock
    | EnterDo(g: nat)
    | PeerAnswers(g: nat, reply: Slice)       // decoded into a new slice
    | NoPeerAnswer(g: nat)                    // no peers, own key, or the peer failed
    | GetterReturns(g: nat, raw: Slice)       // a new slice or one user code already has
    | GetterFails(g: nat)
    | Clone(g: nat, copy: Slice)
    | Populate(g: nat)                        // cache.add under its lock
    | FnReturns(g: nat)
    | SignalDone(g: nat)
    | LeaveDo(g: nat)
    | WakeUp(g: nat)
    | CopyOut(g: nat, copy: Slice)            // ByteSlice of a returned view
    | UserWrites(slice: Slice, bytes: ByteString)

  function Init(): State {
    State(SF.Init(), [], map[], {}, map[], map[])
  }

  predicate FnAt(s: State, g: nat) {
    g in s.fns && g in s.gets
  }

  predicate Enabled(w: World, s: State, a: Action) {
    match a
    case Begin(g, key) => g !in s.gets
    case Probe(g) => g in s.gets && s.gets[g].pc == Probing
    case EnterDo(g) => g in s.gets && s.gets[g].pc == Missed && SF.Enabled(s.sf, SF.Enter(g, s.gets[g].key))
    case PeerAnswers(g, reply) =>
      // peers are truthful: they answer with the source's bytes or not at all
      FnAt(s, g) && s.fns[g] == Start && reply !in s.heap && w.source(s.gets[g].key).Some?
    case NoPeerAnswer(g) => FnAt(s, g) && s.fns[g] == Start
    case GetterReturns(g, raw) =>
      && FnAt(s, g) && s.fns[g] == AtGetter && w.source(s.gets[g].key).Some?
      && (raw !in s.heap || (raw in s.shared && s.heap[raw] == w.source(s.gets[g].key).value))
    case GetterFails(g) => FnAt(s, g) && s.fns[g] == AtGetter && w.source(s.gets[g].key).None?
    case Clone(g, copy) => FnAt(s, g) && s.fns[g].Got? && s.fns[g].raw in s.heap && copy !in s.heap
    case Populate(g) => FnAt(s, g) && s.fns[g].Cloned? && s.fns[g].copy in s.heap
    case FnReturns(g) =>
      FnAt(s, g) && s.fns[g].Loaded? && SF.Enabled(s.sf, SF.Finish(g, s.fns[g].answer))
    case SignalDone(g) => SF.Enabled(s.sf, SF.Signal(g))
    case LeaveDo(g) =>
      SF.Enabled(s.sf, SF.Delete(g)) && g in s.gets && s.sf.ops[g].result.Some?
    case WakeUp(g) =>
      SF.Enabled(s.sf, SF.Wake(g)) && g in s.gets && s.sf.ops[s.sf.ops[g].leader].result.Some?
    case CopyOut(g, copy) =>
      && g in s.gets && s.gets[g].pc.Done? && s.gets[g].pc.answer.Some? && s.gets[g].pc.answer.value in s.heap
      && copy !in s.heap
    case UserWrites(slice, bytes) =>
      // a getter's slice is left alone until the load that got it has cloned it
      slice in s.shared && forall g :: g in s.fns ==> s.fns[g] != Got(slice)
  }

  function Apply(w: World, s: State, a: Action): State
    requires Enabled(w, s, a)
  {
    match a
    case Begin(g, key) =>
      s.(gets := s.gets[g := Call(key, if key == "" then Done(None) else Probing)])
    case Probe(g) =>
      var c := s.gets[g];
      var i := RL.Find(s.cache, c.key);
      s.(cache := RL.Touch(s.cache, c.key),
         gets := s.gets[g := c.(pc := if i < |s.cache| then Done(Some(s.cache[i].value.data)) else Missed)])
    case EnterDo(g) =>
      var sf := SF.Apply(s.sf, SF.Enter(g, s.gets[g].key));
      s.(sf := sf,
         gets := s.gets[g := s.gets[g].(pc := InDo)],
         fns := if sf.ops[g].pc == SF.Running then s.fns[g := Start] else s.fns)
    case PeerAnswers(g, reply) =>
      s.(heap := s.heap[reply := w.source(s.gets[g].key).value], fns := s.fns[g := Loaded(Some(reply))])
    case NoPeerAnswer(g) => s.(fns := s.fns[g := AtGetter])
    case GetterReturns(g, raw) =>
      s.(heap := s.heap[raw := w.source(s.gets[g].key).value], shared := s.shared + {raw}, fns := s.fns[g := Got(raw)])
    case GetterFails(g) => s.(fns := s.fns[g := Loaded(None)])
    case Clone(g, copy) => s.(heap := s.heap[copy := s.heap[s.fns[g].raw]], fns := s.fns[g := Cloned(copy)])
    case Populate(g) =>
      var v := s.fns[g].copy;
      s.(cache := RL.Put(w.budget, s.cache, s.gets[g].key, RL.Value(v, |s.heap[v]|)),
         fns := s.fns[g := Loaded(Some(v))])
    case FnReturns(g) =>
      s.(sf := SF.Apply(s.sf, SF.Finish(g, s.fns[g].answer)), fns := s.fns - {g})
    case SignalDone(g) => s.(sf := SF.Apply(s.sf, SF.Signal(g)))
    case LeaveDo(g) =>
      s.(sf := SF.Apply(s.sf, SF.Delete(g)),
         gets := s.gets[g := s.gets[g].(pc := Done(s.sf.ops[g].result.value))])
    case WakeUp(g) =>
      s.(sf := SF.Apply(s.sf, SF.Wake(g)),
         gets := s.gets[g := s.gets[g].(pc := Done(s.sf.ops[s.sf.ops[g].leader].result.value))])
    case CopyOut(g, copy) =>
      s.(heap := s.heap[copy := s.heap[s.gets[g].pc.answer.value]], shared := s.shared + {copy})
    case UserWrites(slice, bytes) => s.(heap := s.heap[slice := bytes])
  }

  // ---------------------------------------------------------------------- invariant

  /** A view no user code can reach, holding the source's bytes for the key. */
  ghost predicate GoodView(w: World, s: State, key: string, v: Slice) {
    v in s.heap && v !in s.shared && w.source(key) == Some(s.heap[v])
  }

  ghost predicate GoodAnswer(w: World, s: State, key: string, a: Answer) {
    match a
    case None => key == "" || w.source(key) == None
    case Some(v) => GoodView(w, s, key, v)
  }

  ghost predicate GoodCache(w: World, s: State) {
    forall i :: 0 <= i < |s.cache| ==>
      GoodView(w, s, s.cache[i].key, s.cache[i].value.data)
      && s.cache[i].value.size == |s.heap[s.cache[i].value.data]|
  }

  ghost predicate GoodFn(w: World, s: State, g: nat) {
    FnAt(s, g) ==>
      var key := s.gets[g].key;
      match s.fns[g]
      case Got(raw) => raw in s.heap && raw in s.shared && w.source(key) == Some(s.heap[raw])
      case Cloned(copy) => GoodView(w, s, key, copy)
      case Loaded(a) => GoodAnswer(w, s, key, a)
      case _ => true
  }

  /** The pieces describe the same calls: `Do` is entered by started calls under
      their own key, and `fn` runs exactly for the running leaders. */
  ghost predicate Together(s: State, g: nat) {
    && (g in s.sf.ops ==>
          && g in s.gets && s.gets[g].key == s.sf.ops[g].key
          && (if s.sf.ops[g].pc == SF.Returned then s.gets[g].pc.Done? else s.gets[g].pc == InDo))
    && (g in s.fns <==> g in s.sf.ops && s.sf.ops[g].pc == SF.Running)
  }

  ghost predicate GoodResult(w: World, s: State, g: nat) {
    g in s.sf.ops && s.sf.ops[g].result.Some? ==> GoodAnswer(w, s, s.sf.ops[g].key, s.sf.ops[g].result.value)
  }

  ghost predicate GoodGet(w: World, s: State, g: nat) {
    g in s.gets && s.gets[g].pc.Done? ==> GoodAnswer(w, s, s.gets[g].key, s.gets[g].pc.answer)
  }

  ghost predicate Inv(w: World, s: State) {
    && SF.Inv(s.sf)
    && (forall v :: v in s.shared ==> v in s.heap)
    && GoodCache(w, s)
    && (forall g :: Together(s, g) && GoodFn(w, s, g) && GoodResult(w, s, g) && GoodGet(w, s, g))
  }

  /** Views survive when the heap changes only at shared or new slices and only
      new slices become shared. */
  ghost predicate ViewsSurvive(s: State, t: State) {
    forall v :: v in s.heap && v !in s.shared ==> v in t.heap && v !in t.shared && t.heap[v] == s.heap[v]
  }

  lemma StepViewsSurvive(w: World, s: State, a: Action)
    requires Inv(w, s) && Enabled(w, s, a)
    ensures ViewsSurvive(s, Apply(w, s, a))
    ensures forall v :: v in Apply(w, s, a).shared ==> v in Apply(w, s, a).heap
  {
  }

  /** Each `sf` part of a step is a step of singleflight. */
  lemma {:induction false} StepIsSingleFlight(w: World, s: State, a: Action)
    requires Inv(w, s) && Enabled(w, s, a)
    ensures SF.Inv(Apply(w, s, a).sf)
  {
    match a {
      case EnterDo(g) => SF.StepKeepsInv(s.sf, SF.Enter(g, s.gets[g].key));
      case FnReturns(g) => SF.StepKeepsInv(s.sf, SF.Finish(g, s.fns[g].answer));
      case SignalDone(g) => SF.StepKeepsInv(s.sf, SF.Signal(g));
      case LeaveDo(g) => SF.StepKeepsInv(s.sf, SF.Delete(g));
      case WakeUp(g) => SF.StepKeepsInv(s.sf, SF.Wake(g));
      case _ =>
    }
  }

  /** The steps that involve singleflight. */
  predicate OfFlight(a: Action) {
    a.EnterDo? || a.FnReturns? || a.SignalDone? || a.LeaveDo? || a.WakeUp?
  }

  lemma EnterKeepsTogether(w: World, s: State, a: Action, g: nat)
    requires SF.Inv(s.sf) && Together(s, g) && Enabled(w, s, a) && a.EnterDo?
    ensures Together(Apply(w, s, a), g)
  {
    if g in s.sf.ops { assert SF.OpInv(s.sf, g); }
  }

  lemma LeaveKeepsTogether(w: World, s: State, a: Action, g: nat)
    requires SF.Inv(s.sf) && Together(s, g) && Enabled(w, s, a) && a.LeaveDo?
    ensures Together(Apply(w, s, a), g)
  {
    if g in s.sf.ops { assert SF.OpInv(s.sf, g); }
  }

  lemma WakeKeepsTogether(w: World, s: State, a: Action, g: nat)
    requires SF.Inv(s.sf) && Together(s, g) && Enabled(w, s, a) && a.WakeUp?
    ensures Together(Apply(w, s, a), g)
  {
    if g in s.sf.ops { assert SF.OpInv(s.sf, g); }
  }

  lemma FnKeepsTogether(w: World, s: State, a: Action, g: nat)
    requires SF.Inv(s.sf) && Together(s, g) && Enabled(w, s, a) && (a.FnReturns? || a.SignalDone?)
    ensures Together(Apply(w, s, a), g)
  {
    if g in s.sf.ops { assert SF.OpInv(s.sf, g); }
  }

  lemma OthersKeepTogether(w: World, s: State, a: Action, g: nat)
    requires Together(s, g) && Enabled(w, s, a) && !OfFlight(a)
    ensures Together(Apply(w, s, a), g)
  {
  }

  lemma StepKeepsTogether(w: World, s: State, a: Action, g: nat)
    requires SF.Inv(s.sf) && Together(s, g) && Enabled(w, s, a)
    ensures Together(Apply(w, s, a), g)
  {
    if a.EnterDo? {
      EnterKeepsTogether(w, s, a, g);
    } else if a.LeaveDo? {
      LeaveKeepsTogether(w, s, a, g);
    } else if a.WakeUp? {
      WakeKeepsTogether(w, s, a, g);
    } else if OfFlight(a) {
      FnKeepsTogether(w, s, a, g);
    } else {
      OthersKeepTogether(w, s, a, g);
    }
  }

  lemma FrontedIsGood(w: World, s: State, key: string, v: Slice)
    requires GoodCache(w, s) && GoodView(w, s, key, v)
    ensures GoodCache(w, s.(cache := RL.Fronted(s.cache, key, RL.Value(v, |s.heap[v]|))))
  {
    if RL.Has(s.cache, key) { RL.DroppedAt(s.cache, RL.Find(s.cache, key)); }
  }

  /** Inserting the loaded view keeps every entry good. */
  lemma PutKeepsCache(w: World, s: State, key: string, v: Slice)
    requires GoodCache(w, s) && GoodView(w, s, key, v)
    ensures GoodCache(w, s.(cache := RL.Put(w.budget, s.cache, key, RL.Value(v, |s.heap[v]|))))
  {
    FrontedIsGood(w, s, key, v);
    RL.EvictIsPrefix(w.budget, RL.Fronted(s.cache, key, RL.Value(v, |s.heap[v]|)));
  }

  lemma TouchKeepsCache(w: World, s: State, key: string)
    requires GoodCache(w, s)
    ensures GoodCache(w, s.(cache := RL.Touch(s.cache, key)))
  {
    if RL.Has(s.cache, key) { RL.DroppedAt(s.cache, RL.Find(s.cache, key)); }
  }

  lemma StepKeepsCache(w: World, s: State, a: Action)
    requires Inv(w, s) && Enabled(w, s, a)
    ensures GoodCache(w, Apply(w, s, a))
  {
    StepViewsSurvive(w, s, a);
    match a {
      case Probe(g) => TouchKeepsCache(w, s, s.gets[g].key);
      case Populate(g) =>
        assert GoodFn(w, s, g);
        PutKeepsCache(w, s, s.gets[g].key, s.fns[g].copy);
      case _ =>
    }
  }

  lemma FlightKeepsFn(w: World, s: State, a: Action, g: nat)
    requires Enabled(w, s, a) && OfFlight(a) && Together(s, g) && GoodFn(w, s, g)
    ensures GoodFn(w, Apply(w, s, a), g)
  {
  }

  lemma OthersKeepFn(w: World, s: State, a: Action, g: nat)
    requires Inv(w, s) && Enabled(w, s, a) && !OfFlight(a)
    ensures GoodFn(w, Apply(w, s, a), g)
  {
    StepViewsSurvive(w, s, a);
    assert Together(s, g) && GoodFn(w, s, g);
  }

  lemma StepKeepsFn(w: World, s: State, a: Action, g: nat)
    requires Inv(w, s) && Enabled(w, s, a)
    ensures GoodFn(w, Apply(w, s, a), g)
  {
    if OfFlight(a) {
      assert Together(s, g) && GoodFn(w, s, g);
      FlightKeepsFn(w, s, a, g);
    } else {
      OthersKeepFn(w, s, a, g);
    }
  }

  lemma FlightKeepsResult(w: World, s: State, a: Action, g: nat)
    requires Enabled(w, s, a) && OfFlight(a) && !a.FnReturns? && !a.WakeUp? && GoodResult(w, s, g)
    ensures GoodResult(w, Apply(w, s, a), g)
  {
  }

  /** The leader's result is what its `fn` has loaded. */
  lemma FnKeepsResult(w: World, s: State, a: Action, g: nat)
    requires Enabled(w, s, a) && a.FnReturns? && GoodResult(w, s, g) && Together(s, g) && GoodFn(w, s, g)
    ensures GoodResult(w, Apply(w, s, a), g)
  {
  }

  /** A waiter's is its leader's. */
  lemma WakeKeepsResult(w: World, s: State, a: Action, g: nat)
    requires Enabled(w, s, a) && a.WakeUp? && GoodResult(w, s, g) && SF.OpInv(s.sf, a.g)
    requires GoodResult(w, s, s.sf.ops[a.g].leader)
    ensures GoodResult(w, Apply(w, s, a), g)
  {
  }

  lemma OthersKeepResult(w: World, s: State, a: Action, g: nat)
    requires Enabled(w, s, a) && !OfFlight(a) && GoodResult(w, s, g) && ViewsSurvive(s, Apply(w, s, a))
    ensures GoodResult(w, Apply(w, s, a), g)
  {
  }

  lemma StepKeepsResult(w: World, s: State, a: Action, g: nat)
    requires Inv(w, s) && Enabled(w, s, a)
    ensures GoodResult(w, Apply(w, s, a), g)
  {
    assert GoodResult(w, s, g);
    if a.FnReturns? {
      assert Together(s, g) && GoodFn(w, s, g);
      FnKeepsResult(w, s, a, g);
    } else if a.WakeUp? {
      assert SF.OpInv(s.sf, a.g) && GoodResult(w, s, s.sf.ops[a.g].leader);
      WakeKeepsResult(w, s, a, g);
    } else if OfFlight(a) {
      FlightKeepsResult(w, s, a, g);
    } else {
      StepViewsSurvive(w, s, a);
      OthersKeepResult(w, s, a, g);
    }
  }

  lemma StepKeepsGet(w: World, s: State, a: Action, g: nat)
    requires Inv(w, s) && Enabled(w, s, a)
    ensures GoodGet(w, Apply(w, s, a), g)
  {
    StepViewsSurvive(w, s, a);
    assert Together(s, g) && GoodResult(w, s, g) && GoodGet(w, s, g);
    if a.WakeUp? {
      var l := s.sf.ops[a.g].leader;
      assert SF.OpInv(s.sf, a.g) && GoodResult(w, s, l);
    }
  }

  lemma StepKeepsInv(w: World, s: State, a: Action)
    requires Inv(w, s) && Enabled(w, s, a)
    ensures Inv(w, Apply(w, s, a))
  {
    var t := Apply(w, s, a);
    StepViewsSurvive(w, s, a);
    StepIsSingleFlight(w, s, a);
    StepKeepsCache(w, s, a);
    forall g ensures Together(t, g) && GoodFn(w, t, g) && GoodResult(w, t, g) && GoodGet(w, t, g) {
      assert Together(s, g);
      StepKeepsTogether(w, s, a, g);
      StepKeepsFn(w, s, a, g);
      StepKeepsResult(w, s, a, g);
      StepKeepsGet(w, s, a, g);
    }
  }

  // --------------------------------------------------------------------- whole runs

  /** The state a sequence of steps leads to, if each step is possible in its turn. */
  function Run(w: World, acts: seq<Action>): Option<State> {
    if acts == [] then Some(Init())
    else match Run(w, acts[..|acts| - 1])
      case None => None
      case Some(p) => if Enabled(w, p, acts[|acts| - 1]) then Some(Apply(w, p, acts[|acts| - 1])) else None
  }

  lemma {:induction false} RunInv(w: World, acts: seq<Action>)
    ensures Run(w, acts).Some? ==> Inv(w, Run(w, acts).value)
  {
    if acts == [] {
    } else {
      RunInv(w, acts[..|acts| - 1]);
      var p := Run(w, acts[..|acts| - 1]);
      if p.Some? && Enabled(w, p.value, acts[|acts| - 1]) { StepKeepsInv(w, p.value, acts[|acts| - 1]); }
    }
  }

  /** In every interleaving, with evictions, peer failures and user code writing
      to every slice it holds: a `Get` that has returned holds, now and from then
      on, exactly what the source gives for its key, and fails only for the empty
      key or for a key the source does not have. */
  lemma EveryGetAgreesWithSource(w: World, acts: seq<Action>, s: State, g: nat)
    requires Run(w, acts) == Some(s) && g in s.gets && s.gets[g].pc.Done?
    ensures match s.gets[g].pc.answer
            case None => s.gets[g].key == "" || w.source(s.gets[g].key) == None
            case Some(v) => v in s.heap && w.source(s.gets[g].key) == Some(s.heap[v])
  {
    RunInv(w, acts);
    assert GoodGet(w, s, g);
  }

  lemma StepKeepsAnswer(w: World, s: State, a: Action, g: nat)
    requires Inv(w, s) && Enabled(w, s, a) && g in s.gets && s.gets[g].pc.Done?
    ensures var t := Apply(w, s, a);
            && g in t.gets && t.gets[g] == s.gets[g]
            && (s.gets[g].pc.answer.Some? ==>
                  var v := s.gets[g].pc.answer.value;
                  v in s.heap && v in t.heap && t.heap[v] == s.heap[v])
  {
    StepViewsSurvive(w, s, a);
    assert Together(s, g) && GoodGet(w, s, g);
    if g in s.sf.ops { assert SF.OpInv(s.sf, g); }
  }

  /** What a `Get` returned never changes afterwards, whoever writes to whatever
      slice a getter gave away or a caller was handed. */
  lemma {:induction false} AnswersAreForever(w: World, acts: seq<Action>, more: seq<Action>, g: nat)
    requires Run(w, acts).Some? && Run(w, acts + more).Some?
    requires g in Run(w, acts).value.gets && Run(w, acts).value.gets[g].pc.Done?
    ensures var s, t := Run(w, acts).value, Run(w, acts + more).value;
            && g in t.gets && t.gets[g] == s.gets[g]
            && (s.gets[g].pc.answer.Some? ==>
                  var v := s.gets[g].pc.answer.value;
                  v in s.heap && v in t.heap && t.heap[v] == s.heap[v])
  {
    RunInv(w, acts);
    assert GoodGet(w, Run(w, acts).value, g);
    if more == [] {
      assert acts + more == acts;
    } else {
      var init := more[..|more| - 1];
      assert (acts + more)[..|acts + more| - 1] == acts + init;
      AnswersAreForever(w, acts, init, g);
      RunInv(w, acts + init);
      StepKeepsAnswer(w, Run(w, acts + init).value, more[|more| - 1], g);
    }
  }

  /** Every cached entry is the source's value, and its size is accounted rightly. */
  lemma EveryEntryAgreesWithSource(w: World, acts: seq<Action>, s: State, i: nat)
    requires Run(w, acts) == Some(s) && i < |s.cache|
    ensures var e := s.cache[i];
            e.value.data in s.heap && w.source(e.key) == Some(s.heap[e.value.data])
            && e.value.size == |s.heap[e.value.data]| && e.value.data !in s.shared
  {
    RunInv(w, acts);
  }

  /** At most one load per key is under way, although the cache probe is outside
      the deduplicated part. */
  lemma OneLoadPerKey(w: World, acts: seq<Action>, s: State, g: nat, h: nat)
    requires Run(w, acts) == Some(s) && FnAt(s, g) && FnAt(s, h) && s.gets[g].key == s.gets[h].key
    ensures g == h
  {
    RunInv(w, acts);
    assert Together(s, g) && Together(s, h);
    assert SF.OpInv(s.sf, g) && SF.OpInv(s.sf, h);
  }

  /** A `Get` of the empty key fails at once. */
  lemma {:induction false} EmptyKeyFails(w: World, acts: seq<Action>, s: State, g: nat)
    requires Run(w, acts) == Some(s) && g in s.gets && s.gets[g].key == ""
    ensures s.gets[g].pc == Done(None)
  {
    if acts != [] {
      var before, a := acts[..|acts| - 1], acts[|acts| - 1];
      var p := Run(w, before).value;
      RunInv(w, before);
      if g in p.gets {
        assert p.gets[g].key == "" by { StepKeepsKey(w, p, a, g); }
        EmptyKeyFails(w, before, p, g);
        StepKeepsAnswer(w, p, a, g);
      }
    }
  }

  lemma StepKeepsKey(w: World, s: State, a: Action, g: nat)
    requires Enabled(w, s, a) && g in s.gets
    ensures g in Apply(w, s, a).gets && Apply(w, s, a).gets[g].key == s.gets[g].key
  {
  }

  // ------------------------------------------------------------------ what is cached

  /** What a step does with the cache. */
  function CacheOps(s: State, a: Action): seq<RL.Op<Slice>> {
    match a
    case Probe(g) => if g in s.gets then [RL.Op.Get(s.gets[g].key)] else []
    case Populate(g) =>
      if FnAt(s, g) && s.fns[g].Cloned? && s.fns[g].copy in s.heap then
        [RL.Op.Add(s.gets[g].key, RL.Value(s.fns[g].copy, |s.heap[s.fns[g].copy]|))]
      else []
    case _ => []
  }

  function Ops(w: World, acts: seq<Action>): seq<RL.Op<Slice>> {
    if acts == [] then []
    else
      var before, a := acts[..|acts| - 1], acts[|acts| - 1];
      Ops(w, before)
      + match Run(w, before)
        case None => []
        case Some(p) => CacheOps(p, a)
  }

  lemma StepIsCacheOps(w: World, s: State, a: Action, ops: seq<RL.Op<Slice>>)
    requires Enabled(w, s, a) && s.cache == RL.RunOps(w.budget, ops).list
    ensures Apply(w, s, a).cache == RL.RunOps(w.budget, ops + CacheOps(s, a)).list
  {
    var more := CacheOps(s, a);
    if more == [] {
      assert ops + more == ops;
    } else {
      assert more == [more[0]] && (ops + more)[..|ops|] == ops;
    }
  }

  /** In every interleaving the cache is the LRU cache after the lookups of the probes and
      the insertions of the loads, in the order in which they came. */
  lemma {:induction false} CacheIsLru(w: World, acts: seq<Action>, s: State)
    requires Run(w, acts) == Some(s)
    ensures s.cache == RL.RunOps(w.budget, Ops(w, acts)).list
  {
    if acts != [] {
      var before, a := acts[..|acts| - 1], acts[|acts| - 1];
      CacheIsLru(w, before, Run(w, before).value);
      StepIsCacheOps(w, Run(w, before).value, a, Ops(w, before));
    }
  }

  ghost predicate GetterGave(acts: seq<Action>, g: nat) {
    exists raw: nat :: GetterReturns(g, raw) in acts
  }

  ghost predicate PeerGave(acts: seq<Action>, g: nat) {
    exists reply: nat :: PeerAnswers(g, reply) in acts
  }

  /** How far the load of `g` has come tells where its value is from. */
  ghost predicate OriginAt(acts: seq<Action>, s: State, g: nat) {
    && (g !in s.sf.ops ==> !PeerGave(acts, g) && !GetterGave(acts, g) && Populate(g) !in acts)
    && (g in s.fns && (s.fns[g] == Start || s.fns[g] == AtGetter) ==>
          !PeerGave(acts, g) && !GetterGave(acts, g) && Populate(g) !in acts)
    && (g in s.fns && (s.fns[g].Got? || s.fns[g].Cloned?) ==>
          GetterGave(acts, g) && !PeerGave(acts, g) && Populate(g) !in acts)
    && (Populate(g) in acts ==> GetterGave(acts, g) && !PeerGave(acts, g))
  }

  lemma GaveMore(acts: seq<Action>, a: Action, g: nat)
    ensures GetterGave(acts + [a], g) <==> GetterGave(acts, g) || (a.GetterReturns? && a.g == g)
    ensures PeerGave(acts + [a], g) <==> PeerGave(acts, g) || (a.PeerAnswers? && a.g == g)
    ensures Populate(g) in acts + [a] <==> Populate(g) in acts || a == Populate(g)
  {
    var more := acts + [a];
    assert a in more && forall b :: b in acts ==> b in more;
    if a.GetterReturns? && a.g == g { assert GetterReturns(g, a.raw) in more; }
    if a.PeerAnswers? && a.g == g { assert PeerAnswers(g, a.reply) in more; }
    if raw: nat :| GetterReturns(g, raw) in acts { assert GetterReturns(g, raw) in more; }
    if reply: nat :| PeerAnswers(g, reply) in acts { assert PeerAnswers(g, reply) in more; }
  }

  lemma FlightKeepsOrigin(w: World, acts: seq<Action>, s: State, a: Action, g: nat)
    requires Enabled(w, s, a) && OriginAt(acts, s, g) && Together(s, g) && OfFlight(a)
    ensures OriginAt(acts + [a], Apply(w, s, a), g)
  {
    GaveMore(acts, a, g);
  }

  lemma LoadKeepsOrigin(w: World, acts: seq<Action>, s: State, a: Action, g: nat)
    requires Enabled(w, s, a) && OriginAt(acts, s, g) && Together(s, g)
    requires a.PeerAnswers? || a.NoPeerAnswer? || a.GetterReturns? || a.GetterFails? || a.Clone? || a.Populate?
    ensures OriginAt(acts + [a], Apply(w, s, a), g)
  {
    GaveMore(acts, a, g);
  }

  lemma OthersKeepOrigin(w: World, acts: seq<Action>, s: State, a: Action, g: nat)
    requires Enabled(w, s, a) && OriginAt(acts, s, g)
    requires a.Begin? || a.Probe? || a.CopyOut? || a.UserWrites?
    ensures OriginAt(acts + [a], Apply(w, s, a), g)
  {
    GaveMore(acts, a, g);
  }

  lemma StepKeepsOrigin(w: World, acts: seq<Action>, s: State, a: Action, g: nat)
    requires Inv(w, s) && Enabled(w, s, a) && OriginAt(acts, s, g)
    ensures OriginAt(acts + [a], Apply(w, s, a), g)
  {
    assert Together(s, g);
    if OfFlight(a) {
      FlightKeepsOrigin(w, acts, s, a, g);
    } else if a.Begin? || a.Probe? || a.CopyOut? || a.UserWrites? {
      OthersKeepOrigin(w, acts, s, a, g);
    } else {
      LoadKeepsOrigin(w, acts, s, a, g);
    }
  }

  lemma {:induction false} RunOrigin(w: World, acts: seq<Action>, s: State, g: nat)
    requires Run(w, acts) == Some(s)
    ensures OriginAt(acts, s, g)
  {
    if acts != [] {
      var before, a := acts[..|acts| - 1], acts[|acts| - 1];
      RunOrigin(w, before, Run(w, before).value, g);
      RunInv(w, before);
      assert acts == before + [a];
      StepKeepsOrigin(w, before, Run(w, before).value, a, g);
    }
  }

  /** Only what the node's own getter gave is cached, never the answer of a peer. */
  lemma {:induction false} OnlyTheGettersIsCached(w: World, acts: seq<Action>, s: State, g: nat)
    requires Run(w, acts) == Some(s) && Populate(g) in acts
    ensures GetterGave(acts, g) && !PeerGave(acts, g)
  {
    RunOrigin(w, acts, s, g);
  }

  // ------------------------------------------------------- is a key loaded only once?

  lemma StepKeepsApart(w: World, s: State, a: Action)
    requires Inv(w, s) && SF.Apart(s.sf) && Enabled(w, s, a)
    ensures SF.Apart(Apply(w, s, a).sf)
  {
    match a {
      case EnterDo(g) => SF.StepKeepsApart(s.sf, SF.Enter(g, s.gets[g].key));
      case FnReturns(g) => SF.StepKeepsApart(s.sf, SF.Finish(g, s.fns[g].answer));
      case SignalDone(g) => SF.StepKeepsApart(s.sf, SF.Signal(g));
      case LeaveDo(g) => SF.StepKeepsApart(s.sf, SF.Delete(g));
      case WakeUp(g) => SF.StepKeepsApart(s.sf, SF.Wake(g));
      case _ =>
    }
  }

  lemma {:induction false} RunApart(w: World, acts: seq<Action>)
    ensures Run(w, acts).Some? ==> SF.Apart(Run(w, acts).value.sf)
  {
    if acts == [] {
    } else {
      RunApart(w, acts[..|acts| - 1]);
      RunInv(w, acts[..|acts| - 1]);
      var p := Run(w, acts[..|acts| - 1]);
      if p.Some? && Enabled(w, p.value, acts[|acts| - 1]) { StepKeepsApart(w, p.value, acts[|acts| - 1]); }
    }
  }

  /** In every run a key is loaded once if and only if no `Get` of it that has missed
      enters `Do` after one that loaded it has left. */
  lemma {:induction false} LoadedOnceIff(w: World, acts: seq<Action>, s: State, key: string)
    requires Run(w, acts) == Some(s)
    ensures SF.CalledOnce(s.sf, key) <==> SF.NoneTooLate(s.sf, key)
  {
    RunInv(w, acts);
    RunApart(w, acts);
    SF.CalledOnceIn(s.sf, key);
  }

  lemma {:induction false} RunOne(w: World, acts: seq<Action>, s: State, a: Action)
    returns (longer: seq<Action>, t: State)
    requires Run(w, acts) == Some(s) && Enabled(w, s, a)
    ensures longer == acts + [a] && t == Apply(w, s, a) && Run(w, longer) == Some(t)
  {
    longer, t := acts + [a], Apply(w, s, a);
    assert longer[..|longer| - 1] == acts;
  }

  /** Two `Get`s of the key have missed. */
  lemma BothMiss(w: World, key: string) returns (acts: seq<Action>, s: State)
    requires key != ""
    ensures acts == [Begin(0, key), Begin(1, key), Probe(0), Probe(1)] && Run(w, acts) == Some(s)
    ensures s == Init().(gets := map[0 := Call(key, Missed), 1 := Call(key, Missed)])
  {
    acts, s := RunOne(w, [], Init(), Begin(0, key));
    acts, s := RunOne(w, acts, s, Begin(1, key));
    acts, s := RunOne(w, acts, s, Probe(0));
    acts, s := RunOne(w, acts, s, Probe(1));
  }

  /** Get 0 leads the load, and no peer answers it. */
  lemma FirstEnters(w: World, key: string, before: seq<Action>, p: State) returns (acts: seq<Action>, s: State)
    requires Run(w, before) == Some(p)
    requires p == Init().(gets := map[0 := Call(key, Missed), 1 := Call(key, Missed)])
    ensures acts == before + [EnterDo(0), NoPeerAnswer(0)]
    ensures Run(w, acts) == Some(s) && s.cache == [] && s.heap == map[]
    ensures s.gets == map[0 := Call(key, InDo), 1 := Call(key, Missed)] && s.fns == map[0 := AtGetter]
    ensures s.sf == SF.State(1, map[key := 0], map[0 := SF.Op(key, 0, SF.Running, None, 0, 0)])
  {
    acts, s := RunOne(w, before, p, EnterDo(0));
    acts, s := RunOne(w, acts, s, NoPeerAnswer(0));
  }

  lemma FirstClones(w: World, key: string, before: seq<Action>, p: State) returns (acts: seq<Action>, s: State)
    requires Run(w, before) == Some(p) && w.source(key).Some? && p.fns == map[0 := AtGetter] && p.heap == map[]
    requires 0 in p.gets && p.gets[0].key == key
    ensures acts == before + [GetterReturns(0, 0), Clone(0, 1)] && Run(w, acts) == Some(s)
    ensures s.cache == p.cache && s.gets == p.gets && s.sf == p.sf && s.fns == map[0 := Cloned(1)]
    ensures 1 in s.heap && s.heap[1] == w.source(key).value
  {
    acts, s := RunOne(w, before, p, GetterReturns(0, 0));
    acts, s := RunOne(w, acts, s, Clone(0, 1));
  }

  lemma FirstCaches(w: World, key: string, before: seq<Action>, p: State) returns (acts: seq<Action>, s: State)
    requires Run(w, before) == Some(p) && p.cache == [] && p.fns == map[0 := Cloned(1)]
    requires 0 in p.gets && p.gets[0].key == key && 1 in p.heap
    requires w.budget == 0 || |key| + |p.heap[1]| <= w.budget
    ensures acts == before + [Populate(0)] && Run(w, acts) == Some(s) && RL.Has(s.cache, key)
    ensures s.gets == p.gets && s.fns == map[0 := Loaded(Some(1))] && s.sf == p.sf
  {
    acts, s := RunOne(w, before, p, Populate(0));
    RL.PutKeys(w.budget, p.cache, key, RL.Value(p.fns[0].copy, |p.heap[1]|));
    RL.HasIsMember(s.cache, key);
  }

  lemma FirstReturns(w: World, key: string, before: seq<Action>, p: State) returns (acts: seq<Action>, s: State)
    requires Run(w, before) == Some(p)
    requires p.gets == map[0 := Call(key, InDo), 1 := Call(key, Missed)] && p.fns == map[0 := Loaded(Some(1))]
    requires p.sf == SF.State(1, map[key := 0], map[0 := SF.Op(key, 0, SF.Running, None, 0, 0)])
    ensures acts == before + [FnReturns(0), SignalDone(0)]
    ensures Run(w, acts) == Some(s) && s.cache == p.cache && s.gets == p.gets
    ensures s.sf == SF.State(3, map[key := 0], map[0 := SF.Op(key, 0, SF.Signalled, Some(Some(1)), 0, 0)])
  {
    acts, s := RunOne(w, before, p, FnReturns(0));
    acts, s := RunOne(w, acts, s, SignalDone(0));
  }

  lemma SecondEnters(w: World, key: string, before: seq<Action>, p: State) returns (acts: seq<Action>, s: State)
    requires Run(w, before) == Some(p) && p.gets == map[0 := Call(key, InDo), 1 := Call(key, Missed)]
    requires p.sf == SF.State(3, map[key := 0], map[0 := SF.Op(key, 0, SF.Signalled, Some(Some(1)), 0, 0)])
    ensures acts == before + [LeaveDo(0), EnterDo(1)]
    ensures Run(w, acts) == Some(s) && s.cache == p.cache
    ensures SF.Leads(s.sf, 0, key) && SF.Leads(s.sf, 1, key) && FnAt(s, 1)
  {
    acts, s := RunOne(w, before, p, LeaveDo(0));
    acts, s := RunOne(w, acts, s, EnterDo(1));
  }

  /** A key is loaded again although it is cached: a `Get` that missed before the first
      load was cached, and enters `Do` after it, does not look into the cache again. */
  lemma {:induction false} LoadedTwice(w: World, key: string) returns (acts: seq<Action>, s: State)
    requires key != "" && w.source(key).Some?
    requires w.budget == 0 || |key| + |w.source(key).value| <= w.budget
    ensures acts == [Begin(0, key), Begin(1, key), Probe(0), Probe(1)]
                    + [EnterDo(0), NoPeerAnswer(0)] + [GetterReturns(0, 0), Clone(0, 1)]
                    + [Populate(0)] + [FnReturns(0), SignalDone(0)] + [LeaveDo(0), EnterDo(1)]
    ensures Run(w, acts) == Some(s) && RL.Has(s.cache, key)
    ensures SF.Leads(s.sf, 0, key) && SF.Leads(s.sf, 1, key) && FnAt(s, 1)
  {
    acts, s := BothMiss(w, key);
    acts, s := FirstEnters(w, key, acts, s);
    acts, s := FirstClones(w, key, acts, s);
    acts, s := FirstCaches(w, key, acts, s);
    acts, s := FirstReturns(w, key, acts, s);
    acts, s := SecondEnters(w, key, acts, s);
  }
}

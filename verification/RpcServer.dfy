/**
 The server half: every decoded request is answered exactly once before the
 connection closes, and a method that was timed out never answers.
 */
module RpcServer {
  import opened Common
  import opened Rpc

  // -------------------------------------------------------------------- the waitgroup

  /** The request's handler runs and has not called `wait.Done` yet. */
  predicate Handled(r: Request) {
    r.handler == Selecting || r.handler == TimingOut || r.handler == AwaitSent
  }

  function Active(reqs: seq<Request>): nat {
    if reqs == [] then 0
    else Active(reqs[..|reqs| - 1]) + One(Handled(reqs[|reqs| - 1]))
  }

  lemma {:induction false} ActiveUpdate(reqs: seq<Request>, n: nat, r: Request)
    requires n < |reqs|
    ensures Active(reqs[n := r]) == Active(reqs) - One(Handled(reqs[n])) + One(Handled(r))
  {
    var last := |reqs| - 1;
    if n == last {
      assert reqs[n := r][..last] == reqs[..last];
    } else {
      ActiveUpdate(reqs[..last], n, r);
      assert reqs[n := r][..last] == reqs[..last][n := r];
    }
  }

  lemma ActiveAppend(reqs: seq<Request>, r: Request)
    ensures Active(reqs + [r]) == Active(reqs) + One(Handled(r))
  {
    assert (reqs + [r])[..|reqs|] == reqs;
  }

  lemma {:induction false} HandledIsActive(reqs: seq<Request>, n: nat)
    requires n < |reqs| && Handled(reqs[n])
    ensures 0 < Active(reqs)
  {
    if n < |reqs| - 1 {
      HandledIsActive(reqs[..|reqs| - 1], n);
    }
  }

  // -------------------------------------------------------------------- the invariant

  /** The read loop itself still owes the request an answer, or reads its body. */
  predicate AtReader(v: Server, n: nat) {
    v.reader == ReadingBody(n) || v.reader == Answering(n)
  }

  predicate Alive(runner: RunnerPc) {
    runner == Running || runner.AtCalled?
  }

  /** Where the request's handler and method can be, and what has been written. */
  predicate RequestOk(v: Server, n: nat)
    requires n < |v.reqs|
  {
    var r := v.reqs[n];
    && (AtReader(v, n) ==> r.handler == NoHandler)
    && match r.handler
       case NoHandler => r.runner == NoRunner && r.writes == (if AtReader(v, n) then 0 else 1)
       case Selecting => Alive(r.runner) && r.writes == 0
       case TimingOut => Alive(r.runner) && r.writes == 0
       case AwaitSent => (r.runner.Responding? && r.writes == 0) || (r.runner == AtSent && r.writes == 1)
       case HandlerGone => (Alive(r.runner) || r.runner == RunnerGone) && r.writes == 1
  }

  function Writer(v: Server): Option<nat> {
    if v.writing == NoWrite then None else Some(v.writing.n)
  }

  /** Request `n`'s response may be under way. */
  predicate MayWrite(v: Server, n: nat) {
    n < |v.reqs| && (v.reader == Answering(n) || v.reqs[n].handler == TimingOut || v.reqs[n].runner.Responding?)
  }

  predicate ShapeOk(v: Server) {
    && v.wait == Active(v.reqs)
    && (v.reader.ReadingBody? || v.reader.Answering? ==> v.reader.n < |v.reqs|)
    && (Writer(v).Some? ==> MayWrite(v, Writer(v).value))
    && (v.reader == Closed ==> v.wait == 0)
  }

  ghost predicate Inv(v: Server) {
    ShapeOk(v) && forall n: nat :: n < |v.reqs| ==> RequestOk(v, n)
  }

  /** The request a step is about. */
  function Subject(v: Server, a: Action): Option<nat> {
    match a
    case ReadBody(_) => if v.reader.ReadingBody? then Some(v.reader.n) else None
    case MethodReturns(n) => Some(n)
    case CalledRendezvous(n) => Some(n)
    case TimeOut(n) => Some(n)
    case SentRendezvous(n) => Some(n)
    case LockResponse(n) => Some(n)
    case UnlockResponse => Writer(v)
    case _ => None
  }

  predicate SubjectOk(v: Server, a: Action) {
    Subject(v, a).Some? && Subject(v, a).value < |v.reqs| ==> RequestOk(v, Subject(v, a).value)
  }

  lemma ReadKeepsRequest(w: World, v: Server, a: Action, req: Wire, n: nat)
    requires ServerEnabled(w, v, a, req) && ShapeOk(v) && SubjectOk(v, a)
    requires n < |v.reqs| && RequestOk(v, n)
    requires a.ReadHeader? || a.ReadBody? || a.CloseServer? || a.UnlockResponse?
    ensures n < |ServerStep(w, v, a, req).reqs| && RequestOk(ServerStep(w, v, a, req), n)
  {
  }

  lemma StepKeepsRequest(w: World, v: Server, a: Action, req: Wire, n: nat)
    requires ServerEnabled(w, v, a, req) && ShapeOk(v) && SubjectOk(v, a)
    requires n < |v.reqs| && RequestOk(v, n)
    ensures n < |ServerStep(w, v, a, req).reqs| && RequestOk(ServerStep(w, v, a, req), n)
  {
    if a.ReadHeader? || a.ReadBody? || a.CloseServer? || a.UnlockResponse? {
      ReadKeepsRequest(w, v, a, req, n);
    }
  }

  lemma ReadKeepsWait(w: World, v: Server, a: Action, req: Wire)
    requires ServerEnabled(w, v, a, req) && ShapeOk(v) && SubjectOk(v, a)
    requires a.ReadHeader? || a.ReadBody? || a.CloseServer?
    ensures var u := ServerStep(w, v, a, req); u.wait == Active(u.reqs) && (u.reader == Closed ==> u.wait == 0)
  {
    var u := ServerStep(w, v, a, req);
    if a.ReadBody? {
      ActiveUpdate(v.reqs, v.reader.n, u.reqs[v.reader.n]);
    } else if a.ReadHeader? && a.io == Fine {
      ActiveAppend(v.reqs, u.reqs[|v.reqs|]);
    }
  }

  lemma SignalKeepsWait(w: World, v: Server, a: Action, req: Wire)
    requires ServerEnabled(w, v, a, req) && ShapeOk(v) && SubjectOk(v, a)
    requires a.MethodReturns? || a.CalledRendezvous? || a.TimeOut? || a.SentRendezvous?
    ensures var u := ServerStep(w, v, a, req); u.wait == Active(u.reqs) && (u.reader == Closed ==> u.wait == 0)
  {
    ActiveUpdate(v.reqs, a.n, ServerStep(w, v, a, req).reqs[a.n]);
  }

  lemma WriteKeepsWait(w: World, v: Server, a: Action, req: Wire)
    requires ServerEnabled(w, v, a, req) && ShapeOk(v) && SubjectOk(v, a)
    requires a.LockResponse? || a.RespondHeader? || a.RespondBody? || a.UnlockResponse?
    ensures var u := ServerStep(w, v, a, req); u.wait == Active(u.reqs) && (u.reader == Closed ==> u.wait == 0)
  {
    if a.UnlockResponse? { ActiveUpdate(v.reqs, v.writing.n, ServerStep(w, v, a, req).reqs[v.writing.n]); }
  }

  /** The wait group counts the handlers that are still running. */
  lemma StepKeepsWait(w: World, v: Server, a: Action, req: Wire)
    requires ServerEnabled(w, v, a, req) && ShapeOk(v) && SubjectOk(v, a)
    ensures var u := ServerStep(w, v, a, req); u.wait == Active(u.reqs) && (u.reader == Closed ==> u.wait == 0)
  {
    if a.ReadHeader? || a.ReadBody? || a.CloseServer? {
      ReadKeepsWait(w, v, a, req);
    } else if a.MethodReturns? || a.CalledRendezvous? || a.TimeOut? || a.SentRendezvous? {
      SignalKeepsWait(w, v, a, req);
    } else {
      WriteKeepsWait(w, v, a, req);
    }
  }

  lemma StepKeepsShape(w: World, v: Server, a: Action, req: Wire)
    requires ServerEnabled(w, v, a, req) && ShapeOk(v) && SubjectOk(v, a)
    ensures ShapeOk(ServerStep(w, v, a, req))
  {
    StepKeepsWait(w, v, a, req);
  }

  lemma NewRequestOk(w: World, v: Server, a: Action, req: Wire, n: nat)
    requires ServerEnabled(w, v, a, req) && ShapeOk(v)
    requires |v.reqs| <= n < |ServerStep(w, v, a, req).reqs|
    ensures RequestOk(ServerStep(w, v, a, req), n)
  {
  }

  lemma StepKeepsInv(w: World, v: Server, a: Action, req: Wire)
    requires ServerEnabled(w, v, a, req) && Inv(v)
    ensures Inv(ServerStep(w, v, a, req))
  {
    StepKeepsShape(w, v, a, req);
    var u := ServerStep(w, v, a, req);
    forall n: nat | n < |u.reqs| ensures RequestOk(u, n) {
      if n < |v.reqs| { StepKeepsRequest(w, v, a, req, n); } else { NewRequestOk(w, v, a, req, n); }
    }
  }

  lemma {:induction false} RunInv(w: World, acts: seq<Action>)
    requires Run(w, acts).Some?
    ensures Inv(Run(w, acts).value.v)
  {
    if acts != [] {
      var p := Run(w, acts[..|acts| - 1]).value;
      RunInv(w, acts[..|acts| - 1]);
      if !ClientEnabled(p.c, acts[|acts| - 1], p.resp) {
        StepKeepsInv(w, p.v, acts[|acts| - 1], p.req);
      }
    }
  }

  // ------------------------------------------------------------------------ theorems

  /** No request is ever answered twice. */
  lemma AnsweredAtMostOnce(w: World, acts: seq<Action>, n: nat)
    requires Run(w, acts).Some? && n < |Run(w, acts).value.v.reqs|
    ensures Run(w, acts).value.v.reqs[n].writes <= 1
  {
    RunInv(w, acts);
    assert RequestOk(Run(w, acts).value.v, n);
  }

  /** `cc.Close` comes after the answer to every decoded request, whether it erred,
      returned or timed out, and with no response half written. */
  lemma AnsweredBeforeClose(w: World, acts: seq<Action>, n: nat)
    requires Run(w, acts).Some? && Run(w, acts).value.v.reader == Closed && n < |Run(w, acts).value.v.reqs|
    ensures Run(w, acts).value.v.reqs[n].writes == 1
    ensures Run(w, acts).value.v.writing == NoWrite
  {
    RunInv(w, acts);
    ClosedMeansAnswered(Run(w, acts).value.v, n);
  }

  lemma ClosedMeansAnswered(v: Server, n: nat)
    requires Inv(v) && v.reader == Closed && n < |v.reqs|
    ensures v.reqs[n].writes == 1 && v.writing == NoWrite && !MayWrite(v, n)
  {
    assert RequestOk(v, n);
    if Handled(v.reqs[n]) { HandledIsActive(v.reqs, n); }
    if Writer(v).Some? {
      var m := Writer(v).value;
      assert RequestOk(v, m);
      if Handled(v.reqs[m]) { HandledIsActive(v.reqs, m); }
    }
  }

  lemma NothingWrittenOnceClosed(w: World, v: Server, a: Action, req: Wire, resp: Wire)
    requires Inv(v) && v.reader == Closed && ServerEnabled(w, v, a, req)
    ensures ServerWrites(v, a, resp) == resp
    ensures var u := ServerStep(w, v, a, req); u.reader == Closed && |u.reqs| == |v.reqs|
  {
    if Writer(v).Some? { ClosedMeansAnswered(v, Writer(v).value); }
    if Subject(v, a).Some? && Subject(v, a).value < |v.reqs| { ClosedMeansAnswered(v, Subject(v, a).value); }
  }

  /** Once the server has closed, nothing is written any more and no request is added. */
  lemma {:induction false} ClosedIsSilent(w: World, acts: seq<Action>, more: seq<Action>)
    requires Run(w, acts).Some? && Run(w, acts).value.v.reader == Closed
    requires Run(w, acts + more).Some?
    ensures Run(w, acts + more).value.v.reader == Closed
    ensures Run(w, acts + more).value.resp.log == Run(w, acts).value.resp.log
    ensures |Run(w, acts + more).value.v.reqs| == |Run(w, acts).value.v.reqs|
    decreases |more|
  {
    if more == [] {
      assert acts + more == acts;
    } else {
      var fewer, a := more[..|more| - 1], more[|more| - 1];
      RunSplit(w, acts, more);
      ClosedIsSilent(w, acts, fewer);
      RunInv(w, acts + fewer);
      var p := Run(w, acts + fewer).value;
      if !ClientEnabled(p.c, a, p.resp) { NothingWrittenOnceClosed(w, p.v, a, p.req, p.resp); }
    }
  }

  /** The timeout won: the handler answers, or has answered, in the method's place. */
  predicate TimedOut(r: Request) {
    (r.handler == TimingOut || r.handler == HandlerGone) && Alive(r.runner)
  }

  lemma TimedOutStaysSo(w: World, v: Server, a: Action, req: Wire, n: nat)
    requires ServerEnabled(w, v, a, req) && Inv(v) && n < |v.reqs| && TimedOut(v.reqs[n])
    ensures var u := ServerStep(w, v, a, req);
      && n < |u.reqs| && TimedOut(u.reqs[n]) && u.reqs[n].h == v.reqs[n].h
      && (v.reqs[n].runner.AtCalled? ==> u.reqs[n].runner == v.reqs[n].runner)
  {
    assert RequestOk(v, n);
    if Subject(v, a).Some? && Subject(v, a).value < |v.reqs| { assert RequestOk(v, Subject(v, a).value); }
  }

  /** A method that was timed out at most comes back; then it is stuck on the signal
      nobody will take, and it never gets to write a response. */
  lemma {:induction false} TimedOutMethodNeverAnswers(w: World, acts: seq<Action>, more: seq<Action>, n: nat)
    requires Run(w, acts).Some? && n < |Run(w, acts).value.v.reqs| && TimedOut(Run(w, acts).value.v.reqs[n])
    requires Run(w, acts + more).Some?
    ensures var r, r' := Run(w, acts).value.v.reqs, Run(w, acts + more).value.v.reqs;
      && n < |r'| && TimedOut(r'[n]) && !r'[n].runner.Responding? && r'[n].h == r[n].h
      && (r[n].runner.AtCalled? ==> r'[n].runner == r[n].runner)
    decreases |more|
  {
    if more == [] {
      assert acts + more == acts;
    } else {
      var fewer, a := more[..|more| - 1], more[|more| - 1];
      RunSplit(w, acts, more);
      TimedOutMethodNeverAnswers(w, acts, fewer, n);
      RunInv(w, acts + fewer);
      var p := Run(w, acts + fewer).value;
      if !ClientEnabled(p.c, a, p.resp) { TimedOutStaysSo(w, p.v, a, p.req, n); }
    }
  }

  // ----------------------------------------------------------- draining comes to an end

  function HandledOne(reqs: seq<Request>): (n: nat)
    requires 0 < Active(reqs)
    ensures n < |reqs| && Handled(reqs[n])
  {
    var last := |reqs| - 1;
    if Handled(reqs[last]) then last else HandledOne(reqs[..last])
  }

  /** A step that brings `wait.Wait` closer to its end; the connection may fail. Where
      requests time out it never waits for a method. */
  function DrainAction(w: World, v: Server, io: Io): Action
    requires 0 < Active(v.reqs)
  {
    var n := HandledOne(v.reqs);
    var r := v.reqs[n];
    match v.writing
    case WriteHeader(_) => RespondHeader(io)
    case WriteBody(_) => RespondBody(io)
    case WriteOver(_) => UnlockResponse
    case NoWrite =>
      if r.handler == Selecting && w.timeout then TimeOut(n)
      else if r.handler == Selecting && r.runner == Running then MethodReturns(n)
      else if r.handler == Selecting then CalledRendezvous(n)
      else if r.runner == AtSent then SentRendezvous(n)
      else LockResponse(n)
  }

  function Weight(r: Request): nat {
    match r.handler
    case Selecting => if r.runner == Running then 8 else 7
    case TimingOut => 5
    case AwaitSent => if r.runner == AtSent then 1 else 6
    case _ => 0
  }

  function Weights(reqs: seq<Request>): nat {
    if reqs == [] then 0
    else Weights(reqs[..|reqs| - 1]) + Weight(reqs[|reqs| - 1])
  }

  function WriteRank(writing: Writing): nat {
    match writing
    case NoWrite => 4
    case WriteHeader(_) => 3
    case WriteBody(_) => 2
    case WriteOver(_) => 1
  }

  function DrainRank(v: Server): nat {
    Weights(v.reqs) + WriteRank(v.writing)
  }

  lemma {:induction false} WeightsUpdate(reqs: seq<Request>, n: nat, r: Request)
    requires n < |reqs|
    ensures Weights(reqs[n := r]) == Weights(reqs) - Weight(reqs[n]) + Weight(r)
  {
    var last := |reqs| - 1;
    if n == last {
      assert reqs[n := r][..last] == reqs[..last];
    } else {
      WeightsUpdate(reqs[..last], n, r);
      assert reqs[n := r][..last] == reqs[..last][n := r];
    }
  }

  lemma DrainStep(w: World, v: Server, a: Action, req: Wire)
    requires ServerEnabled(w, v, a, req) && Inv(v) && v.reader == Draining
    ensures var u := ServerStep(w, v, a, req);
      || u.reader == Closed
      || (u.reader == Draining && DrainRank(u) < DrainRank(v))
      || (a.MethodReturns? && TimedOut(v.reqs[a.n]) && u.reader == Draining && DrainRank(u) == DrainRank(v))
  {
    var u := ServerStep(w, v, a, req);
    if Subject(v, a).Some? {
      var n := Subject(v, a).value;
      assert RequestOk(v, n);
      WeightsUpdate(v.reqs, n, u.reqs[n]);
    }
  }

  /** `wait.Wait` is no trap: while handlers are left the draining server can always
      step, without any method having to return if requests time out, and every step
      leaves less to do, save the return of a timed-out method. */
  lemma {:induction false} DrainingEnds(w: World, acts: seq<Action>, a: Action, io: Io)
    requires Run(w, acts).Some? && Run(w, acts).value.v.reader == Draining && io != Misfit
    ensures var s := Run(w, acts).value;
      && (if Active(s.v.reqs) == 0 then ServerEnabled(w, s.v, CloseServer, s.req)
          else ServerEnabled(w, s.v, DrainAction(w, s.v, io), s.req)
               && (w.timeout ==> !DrainAction(w, s.v, io).MethodReturns?))
      && (ServerEnabled(w, s.v, a, s.req) ==>
            var u := ServerStep(w, s.v, a, s.req);
            || u.reader == Closed
            || (u.reader == Draining && DrainRank(u) < DrainRank(s.v))
            || (a.MethodReturns? && TimedOut(s.v.reqs[a.n]) && u.reader == Draining && DrainRank(u) == DrainRank(s.v)))
  {
    RunInv(w, acts);
    var s := Run(w, acts).value;
    if 0 < Active(s.v.reqs) { CanDrain(w, s.v, s.req, io); }
    if ServerEnabled(w, s.v, a, s.req) { DrainStep(w, s.v, a, s.req); }
  }

  lemma CanDrain(w: World, v: Server, req: Wire, io: Io)
    requires Inv(v) && v.reader == Draining && 0 < Active(v.reqs) && io != Misfit
    ensures ServerEnabled(w, v, DrainAction(w, v, io), req)
    ensures w.timeout ==> !DrainAction(w, v, io).MethodReturns?
  {
    assert RequestOk(v, HandledOne(v.reqs));
    if Writer(v).Some? { assert RequestOk(v, Writer(v).value); }
  }
}

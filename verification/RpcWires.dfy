/**
 The two wires of a connection. The i-th pair of frames of the request wire, the
 i-th number issued and the i-th request the server decodes are the same call; the
 response wire holds pairs of a header and the body that goes with it.
 */
module RpcWires {
  import opened Common
  import opened Service
  import opened Rpc
  import Calls = RpcCalls
  import Srv = RpcServer

  // ----------------------------------------------------------------- the request wire

  /** Frame `i` of the request wire belongs to number `i / 2 + 1`. */
  predicate RequestFrameAt(issued: seq<Ticket>, log: seq<Frame>, i: nat) {
    i < |log| ==>
      && i / 2 < |issued|
      && log[i] == (if i % 2 == 0 then HeaderFrame(Header(issued[i / 2].name, i / 2 + 1, ""))
                    else BodyFrame(Args(issued[i / 2].args)))
  }

  /** How many frames the holder of the send lock has still to write. */
  function Unsent(c: Client): nat {
    if !c.send.Sender? || c.send.call !in c.calls then 0
    else match c.calls[c.send.call].pc
      case Registered => 2
      case HeaderOut => 1
      case _ => 0
  }

  predicate RequestWireOk(c: Client, req: Wire) {
    && (req.open ==> |req.log| + Unsent(c) == 2 * |c.issued|)
    && (0 < Unsent(c) ==> c.calls[c.send.call].num == |c.issued|)
  }

  /** The reader has decoded every header it got to; between a header and its body
      the cursor is odd. */
  predicate ReaderOk(v: Server, req: Wire) {
    && req.read <= |req.log| && |v.reqs| == (req.read + 1) / 2
    && (v.reader.ReadingBody? ==> req.read % 2 == 1 && v.reader.n == req.read / 2)
    && (v.reader.Answering? ==> v.reader.n + 1 == |v.reqs|)
  }

  // ------------------------------------------------------------------- the requests

  predicate Found(w: World, t: Ticket) {
    FindService(w.services, t.name).Ok?
  }

  function Outcome(w: World, t: Ticket): Rpc.Result {
    w.run(t.name, t.args)
  }

  /** The error text of a method's outcome; none for a reply. */
  function ErrorOf(r: Rpc.Result): string {
    if r.Fails? then r.text else ""
  }

  /** The error text of a request that is not handed to its method: it is not found, or
      its body cannot be read. */
  function Unread(w: World, t: Ticket): string {
    if Found(w, t) then BODY_TEXT else LookupText(w.services, t.name)
  }

  /** What the server knows about request `n` is what call number `n + 1` asked for. */
  predicate RequestAt(w: World, issued: seq<Ticket>, v: Server, n: nat) {
    n < |v.reqs| ==>
      && n < |issued|
      && var r, t := v.reqs[n], issued[n];
      && r.h.name == t.name && r.h.num == n + 1
      && (r.handler != NoHandler ==> r.args == t.args && Found(w, t))
      && (v.reader == ReadingBody(n) ==> Found(w, t))
      && (r.handler == TimingOut || (r.handler == HandlerGone && r.runner != RunnerGone) ==> w.timeout)
      && (r.runner.AtCalled? || r.runner.Responding? ==> r.runner.out == Outcome(w, t))
      && r.h.error == match r.handler
                      case NoHandler => if v.reader == ReadingBody(n) then "" else Unread(w, t)
                      case Selecting => ""
                      case TimingOut => TIMEOUT_TEXT
                      case AwaitSent => ErrorOf(Outcome(w, t))
                      case HandlerGone =>
                        if r.runner == RunnerGone then ErrorOf(Outcome(w, t)) else TIMEOUT_TEXT
  }

  // --------------------------------------------------------------- the response wire

  /** The error texts a response to the call may carry. */
  predicate MayAnswer(w: World, t: Ticket, error: string) {
    if Found(w, t) then error == BODY_TEXT || (w.timeout && error == TIMEOUT_TEXT) || error == ErrorOf(Outcome(w, t))
    else error == LookupText(w.services, t.name)
  }

  /** The body that belongs to a response with this error text. */
  function AnswerBody(w: World, t: Ticket, error: string): Body {
    if error == "" && Outcome(w, t).Returns? then Reply(Outcome(w, t).reply) else Placeholder
  }

  predicate ResponseFrameAt(w: World, issued: seq<Ticket>, log: seq<Frame>, i: nat) {
    i < |log| ==>
      var h := log[i - i % 2];
      && h.HeaderFrame? && 1 <= h.h.num <= |issued| && MayAnswer(w, issued[h.h.num - 1], h.h.error)
      && (i % 2 == 1 ==> log[i] == BodyFrame(AnswerBody(w, issued[h.h.num - 1], h.h.error)))
  }

  /** Only the writer's own body may come next after a header. */
  predicate ResponseWireOk(v: Server, resp: Wire) {
    resp.open ==>
      && (|resp.log| % 2 == 1 <==> v.writing.WriteBody?)
      && (v.writing.WriteBody? ==>
            v.writing.n < |v.reqs| && resp.log[|resp.log| - 1] == HeaderFrame(v.reqs[v.writing.n].h))
  }

  /** Between a header and its body the cursor is odd, right behind that header. */
  predicate ReceiverOk(c: Client, resp: Wire) {
    && resp.read <= |resp.log|
    && (c.recv == Reading ==> resp.read % 2 == 0)
    && (c.recv.GotHeader? || c.recv.Matched? ==>
          resp.read % 2 == 1 && resp.log[resp.read - 1] == HeaderFrame(c.recv.h))
    && (c.recv.Completing? && !c.recv.last ==> resp.read % 2 == 0)
  }

  ghost predicate Inv(w: World, s: State) {
    && RequestWireOk(s.c, s.req) && ReaderOk(s.v, s.req)
    && ResponseWireOk(s.v, s.resp) && ReceiverOk(s.c, s.resp)
    && (forall i: nat :: RequestFrameAt(s.c.issued, s.req.log, i))
    && (forall n: nat :: RequestAt(w, s.c.issued, s.v, n))
    && (forall i: nat :: ResponseFrameAt(w, s.c.issued, s.resp.log, i))
  }

  // ------------------------------------------------------------------- client steps

  lemma SendStepKeepsRequestWire(c: Client, a: Action, req: Wire, resp: Wire)
    requires ClientEnabled(c, a, resp) && Calls.Context(c, a) && RequestWireOk(c, req)
    requires a.LockSend? || a.RegisterCall? || a.CompleteRejected? || a.UnlockSend?
    ensures RequestWireOk(ClientStep(c, a, resp), ClientWrites(c, a, req))
  {
  }

  lemma WriteStepKeepsRequestWire(c: Client, a: Action, req: Wire, resp: Wire)
    requires ClientEnabled(c, a, resp) && Calls.Context(c, a) && RequestWireOk(c, req)
    requires a.SendHeader? || a.SendBody? || a.TakeBack? || a.CompleteTakenBack?
    ensures RequestWireOk(ClientStep(c, a, resp), ClientWrites(c, a, req))
  {
  }

  lemma OtherStepKeepsRequestWire(c: Client, a: Action, req: Wire, resp: Wire)
    requires ClientEnabled(c, a, resp) && Calls.Context(c, a) && RequestWireOk(c, req)
    requires Calls.ShapeOk(c)
    requires c.send.Sender? ==> Calls.LockAt(c, c.send.call)
    requires Calls.Actor(a).None?
    ensures RequestWireOk(ClientStep(c, a, resp), ClientWrites(c, a, req))
  {
  }

  lemma CallerStepKeepsRequestWire(c: Client, a: Action, req: Wire, resp: Wire)
    requires ClientEnabled(c, a, resp) && Calls.Context(c, a) && RequestWireOk(c, req)
    requires c.send.Sender? ==> Calls.LockAt(c, c.send.call)
    requires a.Start? || a.Cancel? || a.Take?
    ensures RequestWireOk(ClientStep(c, a, resp), ClientWrites(c, a, req))
  {
  }

  lemma {:induction false} ClientStepKeepsRequestWire(c: Client, a: Action, req: Wire, resp: Wire)
    requires ClientEnabled(c, a, resp) && Calls.Inv(c) && RequestWireOk(c, req)
    ensures RequestWireOk(ClientStep(c, a, resp), ClientWrites(c, a, req))
  {
    Calls.InvGivesContext(c, a);
    if c.send.Sender? { assert Calls.LockAt(c, c.send.call); }
    if Calls.Actor(a).None? {
      OtherStepKeepsRequestWire(c, a, req, resp);
    } else if a.Start? || a.Cancel? || a.Take? {
      CallerStepKeepsRequestWire(c, a, req, resp);
    } else if a.LockSend? || a.RegisterCall? || a.CompleteRejected? || a.UnlockSend? {
      SendStepKeepsRequestWire(c, a, req, resp);
    } else {
      WriteStepKeepsRequestWire(c, a, req, resp);
    }
  }

  lemma IssuingKeepsRequestFrame(issued: seq<Ticket>, longer: seq<Ticket>, log: seq<Frame>, i: nat)
    requires RequestFrameAt(issued, log, i) && issued <= longer
    ensures RequestFrameAt(longer, log, i)
  {
  }

  lemma ClientWritesItsFrame(c: Client, a: Action, req: Wire, resp: Wire, i: nat)
    requires ClientEnabled(c, a, resp) && Calls.Context(c, a) && RequestWireOk(c, req)
    requires RequestFrameAt(c.issued, req.log, i)
    ensures RequestFrameAt(c.issued, ClientWrites(c, a, req).log, i)
  {
    if a.SendHeader? || a.SendBody? {
      assert Calls.Known(c, a.call);
      if i == |req.log| && a.io == Fine && req.open {
        assert i == 2 * (|c.issued| - 1) + (2 - Unsent(c));
      }
    }
  }

  /** Only the receive loop's own steps move it. */
  predicate OfReceiver(a: Action) {
    a.RecvHeader? || a.RecvRemove? || a.RecvBody? || a.RecvComplete?
  }

  lemma ReceiverStepKeepsReceiver(c: Client, a: Action, resp: Wire)
    requires ClientEnabled(c, a, resp) && ReceiverOk(c, resp) && OfReceiver(a)
    requires resp.read < |resp.log| ==> (resp.log[resp.read].HeaderFrame? <==> resp.read % 2 == 0)
    ensures ReceiverOk(ClientStep(c, a, resp), Read(resp, a))
  {
  }

  lemma OtherStepKeepsReceiver(c: Client, a: Action, resp: Wire)
    requires ClientEnabled(c, a, resp) && ReceiverOk(c, resp) && !OfReceiver(a)
    ensures ReceiverOk(ClientStep(c, a, resp), Read(resp, a))
  {
  }

  lemma EvenIsHeader(w: World, issued: seq<Ticket>, log: seq<Frame>, j: nat)
    requires j < |log| && ResponseFrameAt(w, issued, log, j)
    ensures log[j].HeaderFrame? <==> j % 2 == 0
  {
  }

  lemma ClientStepKeepsReceiver(w: World, c: Client, a: Action, resp: Wire)
    requires ClientEnabled(c, a, resp) && ReceiverOk(c, resp)
    requires forall i: nat :: ResponseFrameAt(w, c.issued, resp.log, i)
    ensures ReceiverOk(ClientStep(c, a, resp), Read(resp, a))
  {
    if OfReceiver(a) {
      assert ResponseFrameAt(w, c.issued, resp.log, resp.read);
      if resp.read < |resp.log| { EvenIsHeader(w, c.issued, resp.log, resp.read); }
      ReceiverStepKeepsReceiver(c, a, resp);
    } else {
      OtherStepKeepsReceiver(c, a, resp);
    }
  }

  lemma IssuingKeepsResponseFrame(w: World, issued: seq<Ticket>, longer: seq<Ticket>, log: seq<Frame>, i: nat)
    requires ResponseFrameAt(w, issued, log, i) && issued <= longer
    ensures ResponseFrameAt(w, longer, log, i)
  {
  }

  lemma IssuingKeepsRequest(w: World, issued: seq<Ticket>, longer: seq<Ticket>, v: Server, n: nat)
    requires RequestAt(w, issued, v, n) && issued <= longer
    ensures RequestAt(w, longer, v, n)
  {
  }

  lemma ClientStepKeepsReader(v: Server, c: Client, a: Action, req: Wire)
    requires ReaderOk(v, req)
    ensures ReaderOk(v, ClientWrites(c, a, req))
  {
  }

  // -------------------------------------------------------------------- server steps

  lemma ServerStepKeepsReader(w: World, v: Server, a: Action, issued: seq<Ticket>, req: Wire)
    requires ServerEnabled(w, v, a, req) && ReaderOk(v, req) && Srv.ShapeOk(v)
    requires RequestFrameAt(issued, req.log, req.read)
    ensures ReaderOk(ServerStep(w, v, a, req), Read(req, a))
  {
  }

  lemma ReadKeepsRequest(w: World, v: Server, a: Action, issued: seq<Ticket>, req: Wire, n: nat)
    requires ServerEnabled(w, v, a, req) && ReaderOk(v, req) && Srv.ShapeOk(v) && Srv.SubjectOk(v, a)
    requires RequestFrameAt(issued, req.log, req.read) && RequestAt(w, issued, v, n)
    requires n < |v.reqs| ==> Srv.RequestOk(v, n)
    requires a.ReadHeader? || a.ReadBody? || a.CloseServer?
    ensures RequestAt(w, issued, ServerStep(w, v, a, req), n)
  {
  }

  lemma MethodKeepsRequest(w: World, v: Server, a: Action, issued: seq<Ticket>, req: Wire, n: nat)
    requires ServerEnabled(w, v, a, req) && ReaderOk(v, req) && Srv.ShapeOk(v) && Srv.SubjectOk(v, a)
    requires RequestFrameAt(issued, req.log, req.read) && RequestAt(w, issued, v, n)
    requires n < |v.reqs| ==> Srv.RequestOk(v, n)
    requires a.MethodReturns? || a.CalledRendezvous?
    ensures RequestAt(w, issued, ServerStep(w, v, a, req), n)
  {
  }

  lemma HandlerKeepsRequest(w: World, v: Server, a: Action, issued: seq<Ticket>, req: Wire, n: nat)
    requires ServerEnabled(w, v, a, req) && ReaderOk(v, req) && Srv.ShapeOk(v) && Srv.SubjectOk(v, a)
    requires RequestFrameAt(issued, req.log, req.read) && RequestAt(w, issued, v, n)
    requires n < |v.reqs| ==> Srv.RequestOk(v, n)
    requires a.TimeOut? || a.SentRendezvous?
    ensures RequestAt(w, issued, ServerStep(w, v, a, req), n)
  {
  }

  lemma WriteKeepsRequest(w: World, v: Server, a: Action, issued: seq<Ticket>, req: Wire, n: nat)
    requires ServerEnabled(w, v, a, req) && ReaderOk(v, req) && Srv.ShapeOk(v) && Srv.SubjectOk(v, a)
    requires RequestFrameAt(issued, req.log, req.read) && RequestAt(w, issued, v, n)
    requires n < |v.reqs| ==> Srv.RequestOk(v, n)
    requires a.LockResponse? || a.RespondHeader? || a.RespondBody? || a.UnlockResponse?
    ensures RequestAt(w, issued, ServerStep(w, v, a, req), n)
  {
  }

  lemma ServerStepKeepsRequest(w: World, v: Server, a: Action, issued: seq<Ticket>, req: Wire, n: nat)
    requires ServerEnabled(w, v, a, req) && ReaderOk(v, req) && Srv.ShapeOk(v) && Srv.SubjectOk(v, a)
    requires RequestFrameAt(issued, req.log, req.read) && RequestAt(w, issued, v, n)
    requires n < |v.reqs| ==> Srv.RequestOk(v, n)
    ensures RequestAt(w, issued, ServerStep(w, v, a, req), n)
  {
    if a.ReadHeader? || a.ReadBody? || a.CloseServer? {
      ReadKeepsRequest(w, v, a, issued, req, n);
    } else if a.MethodReturns? || a.CalledRendezvous? {
      MethodKeepsRequest(w, v, a, issued, req, n);
    } else if a.TimeOut? || a.SentRendezvous? {
      HandlerKeepsRequest(w, v, a, issued, req, n);
    } else {
      WriteKeepsRequest(w, v, a, issued, req, n);
    }
  }

  lemma ServerStepKeepsResponseWire(w: World, v: Server, a: Action, req: Wire, resp: Wire)
    requires ServerEnabled(w, v, a, req) && ResponseWireOk(v, resp) && Srv.ShapeOk(v) && Srv.SubjectOk(v, a)
    requires Srv.Writer(v).Some? ==> Srv.RequestOk(v, Srv.Writer(v).value)
    ensures ResponseWireOk(ServerStep(w, v, a, req), ServerWrites(v, a, resp))
  {
  }

  /** The header of a request about to be answered is one the call may get. */
  lemma AnswerIsDue(w: World, issued: seq<Ticket>, v: Server, n: nat)
    requires n < |v.reqs| && Srv.MayWrite(v, n) && Srv.RequestOk(v, n) && RequestAt(w, issued, v, n)
    ensures n < |issued| && v.reqs[n].h.num == n + 1 && MayAnswer(w, issued[n], v.reqs[n].h.error)
    ensures ResponseBody(v.reqs[n]) == AnswerBody(w, issued[n], v.reqs[n].h.error)
  {
  }

  lemma AppendedHeader(w: World, issued: seq<Ticket>, log: seq<Frame>, h: Header, i: nat)
    requires |log| % 2 == 0 && ResponseFrameAt(w, issued, log, i)
    requires 1 <= h.num <= |issued| && MayAnswer(w, issued[h.num - 1], h.error)
    ensures ResponseFrameAt(w, issued, log + [HeaderFrame(h)], i)
  {
    if i == |log| { assert i - i % 2 == i; }
  }

  lemma AppendedBody(w: World, issued: seq<Ticket>, log: seq<Frame>, h: Header, i: nat)
    requires |log| % 2 == 1 && log[|log| - 1] == HeaderFrame(h) && ResponseFrameAt(w, issued, log, i)
    requires 1 <= h.num <= |issued| && MayAnswer(w, issued[h.num - 1], h.error)
    ensures ResponseFrameAt(w, issued, log + [BodyFrame(AnswerBody(w, issued[h.num - 1], h.error))], i)
  {
    if i == |log| { assert i - i % 2 == i - 1; }
  }

  /** The writer's frame, if it gets through, is the next one of its answer. */
  lemma OneFrameMore(w: World, v: Server, header: bool, grows: bool, issued: seq<Ticket>, resp: Wire, i: nat)
    requires v.writing != NoWrite && v.writing.n < |v.reqs| && v.writing.n < |issued|
    requires grows ==> resp.open && (if header then v.writing.WriteHeader? else v.writing.WriteBody?)
    requires ResponseWireOk(v, resp) && ResponseFrameAt(w, issued, resp.log, i)
    requires var h := v.reqs[v.writing.n].h;
      && h.num == v.writing.n + 1 && MayAnswer(w, issued[v.writing.n], h.error)
      && ResponseBody(v.reqs[v.writing.n]) == AnswerBody(w, issued[v.writing.n], h.error)
    ensures var r := v.reqs[v.writing.n];
      var f := if header then HeaderFrame(r.h) else BodyFrame(ResponseBody(r));
      ResponseFrameAt(w, issued, if grows then resp.log + [f] else resp.log, i)
  {
    if grows && header {
      AppendedHeader(w, issued, resp.log, v.reqs[v.writing.n].h, i);
    } else if grows {
      AppendedBody(w, issued, resp.log, v.reqs[v.writing.n].h, i);
    }
  }

  lemma WrittenLog(v: Server, io: Io, resp: Wire)
    requires v.writing != NoWrite && v.writing.n < |v.reqs|
    ensures var grows, r := io == Fine && resp.open, v.reqs[v.writing.n];
      && ServerWrites(v, RespondHeader(io), resp).log == (if grows then resp.log + [HeaderFrame(r.h)] else resp.log)
      && ServerWrites(v, RespondBody(io), resp).log
           == if grows then resp.log + [BodyFrame(ResponseBody(r))] else resp.log
  {
  }

  lemma ServerWritesItsFrame(w: World, v: Server, a: Action, issued: seq<Ticket>, req: Wire, resp: Wire, i: nat)
    requires ServerEnabled(w, v, a, req) && ResponseWireOk(v, resp) && Srv.ShapeOk(v)
    requires ResponseFrameAt(w, issued, resp.log, i)
    requires Srv.Writer(v).Some? ==>
      Srv.RequestOk(v, Srv.Writer(v).value) && RequestAt(w, issued, v, Srv.Writer(v).value)
    ensures ResponseFrameAt(w, issued, ServerWrites(v, a, resp).log, i)
  {
    if a.RespondHeader? || a.RespondBody? {
      AnswerIsDue(w, issued, v, v.writing.n);
      WrittenLog(v, a.io, resp);
      OneFrameMore(w, v, a.RespondHeader?, a.io == Fine && resp.open, issued, resp, i);
    }
  }

  lemma ServerStepKeepsReceiver(v: Server, c: Client, a: Action, resp: Wire)
    requires ReceiverOk(c, resp)
    ensures ReceiverOk(c, ServerWrites(v, a, resp))
  {
  }

  // ----------------------------------------------------------------------- every run

  lemma ClientStepKeepsInv(w: World, s: State, a: Action)
    requires ClientEnabled(s.c, a, s.resp) && Calls.Inv(s.c) && Inv(w, s)
    ensures Inv(w, Apply(w, s, a))
  {
    var t := Apply(w, s, a);
    Calls.InvGivesContext(s.c, a);
    assert Calls.LockAt(s.c, 0) && Calls.PendAt(s.c, 0);
    Calls.StepKeeps(s.c, a, s.resp, 0, 0);
    ClientStepKeepsRequestWire(s.c, a, s.req, s.resp);
    ClientStepKeepsReceiver(w, s.c, a, s.resp);
    ClientStepKeepsReader(s.v, s.c, a, s.req);
    forall i: nat ensures RequestFrameAt(t.c.issued, t.req.log, i) {
      assert RequestFrameAt(s.c.issued, s.req.log, i);
      ClientWritesItsFrame(s.c, a, s.req, s.resp, i);
      IssuingKeepsRequestFrame(s.c.issued, t.c.issued, t.req.log, i);
    }
    forall n: nat ensures RequestAt(w, t.c.issued, t.v, n) {
      assert RequestAt(w, s.c.issued, s.v, n);
      IssuingKeepsRequest(w, s.c.issued, t.c.issued, s.v, n);
    }
    forall i: nat ensures ResponseFrameAt(w, t.c.issued, t.resp.log, i) {
      assert ResponseFrameAt(w, s.c.issued, s.resp.log, i);
      IssuingKeepsResponseFrame(w, s.c.issued, t.c.issued, s.resp.log, i);
    }
  }

  lemma ServerStepKeepsInv(w: World, s: State, a: Action)
    requires ServerEnabled(w, s.v, a, s.req) && !ClientEnabled(s.c, a, s.resp) && Srv.Inv(s.v) && Inv(w, s)
    ensures Inv(w, Apply(w, s, a))
  {
    var t := Apply(w, s, a);
    assert RequestFrameAt(s.c.issued, s.req.log, s.req.read);
    ServerStepKeepsReader(w, s.v, a, s.c.issued, s.req);
    if Srv.Writer(s.v).Some? { assert RequestAt(w, s.c.issued, s.v, Srv.Writer(s.v).value); }
    ServerStepKeepsResponseWire(w, s.v, a, s.req, s.resp);
    ServerStepKeepsReceiver(s.v, s.c, a, s.resp);
    forall n: nat ensures RequestAt(w, s.c.issued, t.v, n) {
      assert RequestAt(w, s.c.issued, s.v, n);
      ServerStepKeepsRequest(w, s.v, a, s.c.issued, s.req, n);
    }
    forall i: nat ensures ResponseFrameAt(w, s.c.issued, t.resp.log, i) {
      assert ResponseFrameAt(w, s.c.issued, s.resp.log, i);
      ServerWritesItsFrame(w, s.v, a, s.c.issued, s.req, s.resp, i);
    }
  }

  lemma {:induction false} RunInv(w: World, acts: seq<Action>)
    requires Run(w, acts).Some?
    ensures Inv(w, Run(w, acts).value)
  {
    if acts != [] {
      var fewer, a := acts[..|acts| - 1], acts[|acts| - 1];
      var p := Run(w, fewer).value;
      RunInv(w, fewer);
      if ClientEnabled(p.c, a, p.resp) {
        Calls.RunInv(w, fewer);
        ClientStepKeepsInv(w, p, a);
      } else {
        Srv.RunInv(w, fewer);
        ServerStepKeepsInv(w, p, a);
      }
    }
  }

  // ------------------------------------------------------------------------ theorems

  /** The requests the server decodes are the calls in the order their numbers were
      issued, each with its own method and, once read, its own arguments. */
  lemma ServerSeesTheCalls(w: World, acts: seq<Action>, n: nat)
    requires Run(w, acts).Some? && n < |Run(w, acts).value.v.reqs|
    ensures var s := Run(w, acts).value;
      && n < |s.c.issued| && s.v.reqs[n].h.num == n + 1 && s.v.reqs[n].h.name == s.c.issued[n].name
      && (s.v.reqs[n].handler != NoHandler ==> s.v.reqs[n].args == s.c.issued[n].args)
  {
    RunInv(w, acts);
    var s := Run(w, acts).value;
    assert RequestAt(w, s.c.issued, s.v, n);
  }

  /** Why each request is answered as it is: an unknown method, an unreadable body, a
      timeout, or what the method itself came to, with its own arguments. */
  lemma {:induction false} RequestsAreToldWhy(w: World, acts: seq<Action>, n: nat)
    requires Run(w, acts).Some? && n < |Run(w, acts).value.v.reqs| && Run(w, acts).value.v.reqs[n].writes == 1
    ensures var s := Run(w, acts).value;
      var r := s.v.reqs[n];
      && n < |s.c.issued|
      && var t := s.c.issued[n];
      r.h.error ==
        if FindService(w.services, t.name).Err? then LookupText(w.services, t.name)
        else if r.handler == NoHandler then "reading the body failed"
        else if r.handler == HandlerGone && r.runner != RunnerGone then "request handle timeout"
        else match w.run(t.name, t.args)
          case Returns(_) => ""
          case Fails(text) => text
  {
    RunInv(w, acts);
    Srv.RunInv(w, acts);
    var s := Run(w, acts).value;
    assert RequestAt(w, s.c.issued, s.v, n) && Srv.RequestOk(s.v, n);
  }

  /** Frame `b` is the whole answer that belongs to the header in frame `h`. */
  predicate WholeAnswer(w: World, issued: seq<Ticket>, h: Frame, b: Frame) {
    && h.HeaderFrame? && 1 <= h.h.num <= |issued|
    && b == BodyFrame(AnswerBody(w, issued[h.h.num - 1], h.h.error))
  }

  lemma BodyFollowsHeader(w: World, issued: seq<Ticket>, log: seq<Frame>, j: nat)
    requires 0 < j < |log| && j % 2 == 1 && ResponseFrameAt(w, issued, log, j)
    ensures WholeAnswer(w, issued, log[j - 1], log[j])
  {
    assert j - j % 2 == j - 1;
  }

  /** Every header on the response wire is followed by its own body and nothing else. */
  lemma {:induction false} ResponsesAreWhole(w: World, acts: seq<Action>, j: nat)
    requires Run(w, acts).Some? && j < |Run(w, acts).value.resp.log|
    ensures var s := Run(w, acts).value;
      if j % 2 == 0 then s.resp.log[j].HeaderFrame?
      else WholeAnswer(w, s.c.issued, s.resp.log[j - 1], s.resp.log[j])
  {
    RunInv(w, acts);
    var s := Run(w, acts).value;
    assert ResponseFrameAt(w, s.c.issued, s.resp.log, j);
    if j % 2 == 0 { assert j - j % 2 == j; } else { BodyFollowsHeader(w, s.c.issued, s.resp.log, j); }
  }

  /** What the receive loop gets to read next is what it expects. */
  predicate InStep(w: World, s: State)
    requires s.resp.read < |s.resp.log|
  {
    && (s.c.recv == Reading ==> s.resp.log[s.resp.read].HeaderFrame?)
    && (s.c.recv.GotHeader? || s.c.recv.Matched? ==>
          WholeAnswer(w, s.c.issued, HeaderFrame(s.c.recv.h), s.resp.log[s.resp.read]))
  }

  lemma ReceiverIsInStep(w: World, s: State)
    requires ReceiverOk(s.c, s.resp) && s.resp.read < |s.resp.log|
    requires ResponseFrameAt(w, s.c.issued, s.resp.log, s.resp.read)
    ensures InStep(w, s)
  {
    var j := s.resp.read;
    if j % 2 == 0 { assert j - j % 2 == j; } else { BodyFollowsHeader(w, s.c.issued, s.resp.log, j); }
  }

  /** Until its first error the receive loop always reads a header where a header is
      and that header's body where the body is, whichever branch it takes. */
  lemma {:induction false} ReceiverReadsInStep(w: World, acts: seq<Action>)
    requires Run(w, acts).Some? && Run(w, acts).value.resp.read < |Run(w, acts).value.resp.log|
    ensures InStep(w, Run(w, acts).value)
  {
    RunInv(w, acts);
    var s := Run(w, acts).value;
    assert ResponseFrameAt(w, s.c.issued, s.resp.log, s.resp.read);
    ReceiverIsInStep(w, s);
  }

  // ------------------------------------------------- a request whose method is unknown

  /** No frame behind the body of an unknown method has been read. */
  predicate BodyUnread(w: World, issued: seq<Ticket>, v: Server, req: Wire, n: nat) {
    n < |v.reqs| && n < |issued| && !Found(w, issued[n]) ==> req.read <= 2 * n + 1
  }

  lemma ServerStepLeavesBodyUnread(w: World, v: Server, a: Action, issued: seq<Ticket>, req: Wire, n: nat)
    requires ServerEnabled(w, v, a, req) && ReaderOk(v, req) && Srv.ShapeOk(v)
    requires RequestFrameAt(issued, req.log, req.read) && BodyUnread(w, issued, v, req, n)
    requires forall m: nat :: RequestAt(w, issued, v, m)
    ensures BodyUnread(w, issued, ServerStep(w, v, a, req), Read(req, a), n)
  {
    if v.reader.ReadingBody? { assert RequestAt(w, issued, v, v.reader.n); }
  }

  lemma {:induction false} UnknownBodyStaysUnread(w: World, acts: seq<Action>, n: nat)
    requires Run(w, acts).Some?
    ensures var s := Run(w, acts).value; BodyUnread(w, s.c.issued, s.v, s.req, n)
  {
    if acts != [] {
      var fewer, a := acts[..|acts| - 1], acts[|acts| - 1];
      var p := Run(w, fewer).value;
      UnknownBodyStaysUnread(w, fewer, n);
      RunInv(w, fewer);
      if ClientEnabled(p.c, a, p.resp) {
        Calls.RunInv(w, fewer);
        Calls.InvGivesContext(p.c, a);
        assert Calls.LockAt(p.c, 0) && Calls.PendAt(p.c, 0) && RequestAt(w, p.c.issued, p.v, n);
        Calls.StepKeeps(p.c, a, p.resp, 0, 0);
      } else {
        Srv.RunInv(w, fewer);
        assert RequestFrameAt(p.c.issued, p.req.log, p.req.read);
        ServerStepLeavesBodyUnread(w, p.v, a, p.c.issued, p.req, n);
      }
    }
  }

  /** The server answers a request for an unknown method without reading its body, so
      the next header it tries to decode is that body: no request comes after it. */
  lemma NothingAfterUnknownMethod(w: World, acts: seq<Action>, n: nat)
    requires Run(w, acts).Some? && n < |Run(w, acts).value.v.reqs|
    requires FindService(w.services, Run(w, acts).value.v.reqs[n].h.name).Err?
    ensures |Run(w, acts).value.v.reqs| == n + 1
  {
    RunInv(w, acts);
    UnknownBodyStaysUnread(w, acts, n);
    var s := Run(w, acts).value;
    assert RequestAt(w, s.c.issued, s.v, n);
  }
}

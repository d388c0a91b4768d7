/**
 One connection of the RPC system as a transition system: any number of calls
 sharing a client, the client's receive loop, the server's read loop and one
 handler and one method goroutine per request. A step is a lock region, a channel
 rendezvous or one frame crossing the connection.
 */
module Rpc {
  import opened Common
  import opened Formatting
  import opened Service

  /** What a registered method does with its arguments. */
  datatype Result = Returns(reply: ByteString) | Fails(text: string)

  /** The services, what their methods compute, and whether requests time out. */
  datatype World = World(services: Registry, run: (string, ByteString) -> Result, timeout: bool)

  const TIMEOUT_TEXT := "request handle timeout"
  const BODY_TEXT := "reading the body failed"

  datatype Header = Header(name: string, num: nat, error: string)

  datatype Body = Args(args: ByteString) | Reply(reply: ByteString) | Placeholder

  datatype Frame = HeaderFrame(h: Header) | BodyFrame(b: Body)

  /** One direction of the connection: every frame that got onto it, how many of
      them have been read, and whether further frames still get through. */
  datatype Wire = Wire(log: seq<Frame>, read: nat, open: bool)

  /** How one encoding or decoding step ends: fine, silently lost, failed, or for a
      read: the frame does not fit the expected type. */
  datatype Io = Fine | Lost | Failed | Misfit

  function Written(wire: Wire, f: Frame, io: Io): Wire {
    if io != Fine then wire.(open := false)
    else if wire.open then wire.(log := wire.log + [f])
    else wire
  }

  // ---------------------------------------------------------------------- the client

  datatype CallError = ErrShutdown | WriteError | ServerError(text: string) | BodyError | ConnectionError

  /** Where `Send` is for one call. */
  datatype SendPc =
    | Waiting            // for the send lock
    | Locked
    | Rejected           // registration refused, completion due
    | Registered
    | HeaderOut
    | WriteFailed
    | Removed(call: nat) // taken back out of `pend`, completion due
    | Unlocking
    | Sent

  datatype Taking = Open | Taken | Cancelled

  /** One `Call` object. `fired` counts its completions, `buffered` the ones still
      in its private Done channel; `dropped`: a cancelled caller removed it. */
  datatype Call = Call(
    name: string, args: ByteString, capacity: nat,
    pc: SendPc, num: nat, error: Option<CallError>, reply: Option<ByteString>,
    fired: nat, buffered: nat, dropped: bool, taking: Taking)

  /** Where the receive loop is. */
  datatype RecvPc =
    | Reading
    | GotHeader(h: Header)
    | Matched(h: Header, call: Option<nat>)
    | Completing(target: nat, last: bool)
    | WantSend
    | WantMu
    | Terminating(left: set<nat>)  // holds both locks
    | Ended

  datatype Holder = Nobody | Sender(call: nat) | Receiver

  /** Which call a number was issued to; kept as history. */
  datatype Ticket = Ticket(call: nat, name: string, args: ByteString)

  datatype Client = Client(
    calls: map<nat, Call>, num: nat, pend: map<nat, nat>, closing: bool, shutdown: bool,
    header: Header, send: Holder, recv: RecvPc, issued: seq<Ticket>)

  function NewClient(): Client {
    Client(map[], 1, map[], false, false, Header("", 0, ""), Nobody, Reading, [])
  }

  // The lock regions of the client, as functions on its state.

  function Register(c: Client, call: nat): Client
    requires call in c.calls
  {
    if c.closing || c.shutdown then
      c.(calls := c.calls[call := c.calls[call].(error := Some(ErrShutdown), pc := Rejected)])
    else
      c.(calls := c.calls[call := c.calls[call].(num := c.num, pc := Registered)],
         pend := c.pend[c.num := call],
         num := c.num + 1,
         header := Header(c.calls[call].name, c.num, ""),
         issued := c.issued + [Ticket(call, c.calls[call].name, c.calls[call].args)])
  }

  function Pending(c: Client, q: nat): Option<nat> {
    if q in c.pend then Some(c.pend[q]) else None
  }

  function Remove(c: Client, q: nat): Client {
    c.(pend := c.pend - {q})
  }

  /** `done`: one value into the call's channel, which must have room. */
  function Done(c: Client, call: nat): Client
    requires call in c.calls
  {
    var k := c.calls[call];
    c.(calls := c.calls[call := k.(fired := k.fired + 1, buffered := k.buffered + 1)])
  }

  function SetPc(c: Client, call: nat, pc: SendPc): Client
    requires call in c.calls
  {
    c.(calls := c.calls[call := c.calls[call].(pc := pc)])
  }

  function SetError(c: Client, call: nat, e: CallError): Client
    requires call in c.calls
  {
    c.(calls := c.calls[call := c.calls[call].(error := Some(e))])
  }

  predicate HasRoom(c: Client, call: nat) {
    call in c.calls && c.calls[call].buffered < c.calls[call].capacity
  }

  predicate MuFree(c: Client) {
    !c.recv.Terminating?
  }

  // ---------------------------------------------------------------------- the server

  datatype ReadPc = Idle | ReadingBody(n: nat) | Answering(n: nat) | Draining | Closed

  datatype HandlerPc = NoHandler | Selecting | TimingOut | AwaitSent | HandlerGone

  datatype RunnerPc = NoRunner | Running | AtCalled(out: Result) | Responding(out: Result) | AtSent | RunnerGone

  /** One request whose header was decoded. `writes` counts its response writes. */
  datatype Request = Request(h: Header, args: ByteString, handler: HandlerPc, runner: RunnerPc, writes: nat)

  /** The response being written under the server's send lock. */
  datatype Writing = NoWrite | WriteHeader(n: nat) | WriteBody(n: nat) | WriteOver(n: nat)

  datatype Server = Server(reader: ReadPc, reqs: seq<Request>, wait: nat, writing: Writing)

  datatype State = State(c: Client, v: Server, req: Wire, resp: Wire)

  function Init(): State {
    State(NewClient(), Server(Idle, [], 0, NoWrite), Wire([], 0, true), Wire([], 0, true))
  }

  /** The body that goes with a request's response header. */
  function ResponseBody(r: Request): Body {
    match r.runner
    case Responding(Returns(v)) => Reply(v)
    case _ => Placeholder
  }

  /** Somebody is about to write the response of request `n`. */
  predicate ResponseDue(v: Server, n: nat) {
    n < |v.reqs| && v.writing == NoWrite &&
    (v.reader == Answering(n) || v.reqs[n].handler == TimingOut || v.reqs[n].runner.Responding?)
  }

  predicate NextIs(wire: Wire, header: bool) {
    wire.read < |wire.log| && wire.log[wire.read].HeaderFrame? == header
  }

  // --------------------------------------------------------------------------- steps

  datatype Action =
    // callers
    | Start(call: nat, name: string, args: ByteString, capacity: nat)
    | Cancel(call: nat)
    | Take(call: nat)
    | CloseClient
    // Send
    | LockSend(call: nat)
    | RegisterCall(call: nat)
    | CompleteRejected(call: nat)
    | SendHeader(call: nat, io: Io)
    | SendBody(call: nat, io: Io)
    | TakeBack(call: nat)
    | CompleteTakenBack(call: nat)
    | UnlockSend(call: nat)
    // receive and terminateCalls
    | RecvHeader(io: Io)
    | RecvRemove
    | RecvBody(io: Io)
    | RecvComplete
    | TermLockSend
    | TermLockMu
    | TermComplete(q: nat)
    | TermUnlock
    // serverCodec and readRequest
    | ReadHeader(io: Io)
    | ReadBody(io: Io)
    | CloseServer
    // handleRequest
    | MethodReturns(n: nat)
    | CalledRendezvous(n: nat)
    | TimeOut(n: nat)
    | SentRendezvous(n: nat)
    // sendResponse
    | LockResponse(n: nat)
    | RespondHeader(io: Io)
    | RespondBody(io: Io)
    | UnlockResponse

  /** When the client can take the step, given the frames that come back to it. */
  predicate ClientEnabled(c: Client, a: Action, resp: Wire) {
    match a
    case Start(k, _, _, capacity) => k !in c.calls && 1 <= capacity
    case Cancel(k) => k in c.calls && c.calls[k].pc == Sent && c.calls[k].taking == Open && MuFree(c)
    case Take(k) => k in c.calls && c.calls[k].pc == Sent && c.calls[k].taking == Open && 0 < c.calls[k].buffered
    case CloseClient => MuFree(c) && !c.closing
    case LockSend(k) => k in c.calls && c.calls[k].pc == Waiting && c.send == Nobody
    case RegisterCall(k) => k in c.calls && c.calls[k].pc == Locked && MuFree(c)
    case CompleteRejected(k) => k in c.calls && c.calls[k].pc == Rejected && HasRoom(c, k)
    case SendHeader(k, io) => k in c.calls && c.calls[k].pc == Registered && io != Misfit
    case SendBody(k, io) => k in c.calls && c.calls[k].pc == HeaderOut && io != Misfit
    case TakeBack(k) => k in c.calls && c.calls[k].pc == WriteFailed && MuFree(c)
    case CompleteTakenBack(k) => k in c.calls && c.calls[k].pc.Removed? && HasRoom(c, c.calls[k].pc.call)
    case UnlockSend(k) => k in c.calls && c.calls[k].pc == Unlocking
    case RecvHeader(io) => c.recv == Reading && (io == Failed || (io == Fine && NextIs(resp, true)))
    case RecvRemove => c.recv.GotHeader?
    case RecvBody(io) =>
      && c.recv.Matched? && (c.recv.call.Some? ==> c.recv.call.value in c.calls)
      && (io == Failed
          || (io == Fine && NextIs(resp, false))
          || (io == Misfit && NextIs(resp, false) && c.recv.call.Some? && c.recv.h.error == ""))
    case RecvComplete => c.recv.Completing? && HasRoom(c, c.recv.target)
    case TermLockSend => c.recv == WantSend && c.send == Nobody
    case TermLockMu => c.recv == WantMu
    case TermComplete(q) => c.recv.Terminating? && q in c.recv.left && q in c.pend && HasRoom(c, c.pend[q])
    case TermUnlock => c.recv == Terminating({})
    case _ => false
  }

  /** When the server can take the step, given the frames that reach it. */
  predicate ServerEnabled(w: World, v: Server, a: Action, req: Wire) {
    match a
    case ReadHeader(io) => v.reader == Idle && (io == Failed || (io == Fine && NextIs(req, true)))
    case ReadBody(io) =>
      && v.reader.ReadingBody? && v.reader.n < |v.reqs|
      && (io == Failed
          || (io == Fine && NextIs(req, false) && req.log[req.read].b.Args?)
          || (io == Misfit && NextIs(req, false)))
    case CloseServer => v.reader == Draining && v.wait == 0
    case MethodReturns(n) => n < |v.reqs| && v.reqs[n].runner == Running
    case CalledRendezvous(n) => n < |v.reqs| && v.reqs[n].handler == Selecting && v.reqs[n].runner.AtCalled?
    case TimeOut(n) => n < |v.reqs| && v.reqs[n].handler == Selecting && w.timeout
    case SentRendezvous(n) =>
      n < |v.reqs| && v.reqs[n].handler == AwaitSent && v.reqs[n].runner == AtSent && 0 < v.wait
    case LockResponse(n) => ResponseDue(v, n)
    case RespondHeader(io) => v.writing.WriteHeader? && v.writing.n < |v.reqs| && io != Misfit
    case RespondBody(io) => v.writing.WriteBody? && v.writing.n < |v.reqs| && io != Misfit
    case UnlockResponse =>
      && v.writing.WriteOver? && v.writing.n < |v.reqs|
      && (v.reqs[v.writing.n].handler == TimingOut ==> 0 < v.wait)
    case _ => false
  }

  predicate Enabled(w: World, s: State, a: Action) {
    ClientEnabled(s.c, a, s.resp) || ServerEnabled(w, s.v, a, s.req)
  }

  function Start'(c: Client, k: nat, name: string, args: ByteString, capacity: nat): Client {
    c.(calls := c.calls[k := Call(name, args, capacity, Waiting, 0, None, None, 0, 0, false, Open)])
  }

  /** A cancelled caller forgets its call; `dropped` records that this took a
      still open call out of `pend`. */
  function Cancel'(c: Client, k: nat): Client
    requires k in c.calls
  {
    var q := c.calls[k].num;
    Remove(c, q).(calls := c.calls[k := c.calls[k].(taking := Cancelled, dropped := q in c.pend && c.recv != Ended)])
  }

  function TakeBack'(c: Client, k: nat): Client
    requires k in c.calls
  {
    match Pending(c, c.calls[k].num)
    case None => SetPc(c, k, Unlocking)
    case Some(t) =>
      var d := SetPc(Remove(c, c.calls[k].num), k, Removed(t));
      if t in d.calls then SetError(d, t, WriteError) else d
  }

  /** The three branches of the receive loop once the body has been read. The text of
      an error goes through `fmt.Errorf` as a format. */
  function RecvBody'(c: Client, io: Io, wire: Wire): Client
    requires c.recv.Matched? && (c.recv.call.Some? ==> c.recv.call.value in c.calls)
    requires io == Fine ==> NextIs(wire, false)
  {
    match c.recv.call
    case None => c.(recv := if io == Fine then Reading else WantSend)
    case Some(k) =>
      if c.recv.h.error != "" then
        SetError(c, k, ServerError(Format(c.recv.h.error))).(recv := Completing(k, io != Fine))
      else if io != Fine then
        SetError(c, k, BodyError).(recv := Completing(k, true))
      else
        var b := wire.log[wire.read].b;
        c.(calls := c.calls[k := c.calls[k].(reply := if b.Reply? then Some(b.reply) else c.calls[k].reply)],
           recv := Completing(k, false))
  }

  /** One round of the loop of `terminateCalls`. */
  function TermComplete'(c: Client, q: nat): Client
    requires c.recv.Terminating? && q in c.pend && c.pend[q] in c.calls
  {
    Done(SetError(c, c.pend[q], ConnectionError), c.pend[q]).(recv := Terminating(c.recv.left - {q}))
  }

  function SetReq(v: Server, n: nat, r: Request): Server
    requires n < |v.reqs|
  {
    v.(reqs := v.reqs[n := r])
  }

  /** A decoded header: its request goes on to its body, or straight to an error answer. */
  function ReadHeader'(w: World, v: Server, h: Header): Server {
    var found := FindService(w.services, h.name);
    var told := if found.Ok? then h else h.(error := LookupText(w.services, h.name));
    v.(reqs := v.reqs + [Request(told, [], NoHandler, NoRunner, 0)],
       reader := if found.Ok? then ReadingBody(|v.reqs|) else Answering(|v.reqs|))
  }

  function ReadBody'(v: Server, io: Io, wire: Wire): Server
    requires v.reader.ReadingBody? && v.reader.n < |v.reqs|
    requires io == Fine ==> NextIs(wire, false) && wire.log[wire.read].b.Args?
  {
    var n := v.reader.n;
    var r := v.reqs[n];
    if io == Fine then
      SetReq(v, n, r.(args := wire.log[wire.read].b.args, handler := Selecting, runner := Running))
        .(reader := Idle, wait := v.wait + 1)
    else
      SetReq(v, n, r.(h := r.h.(error := BODY_TEXT))).(reader := Answering(n))
  }

  /** The handler takes the method's signal before the timeout: the method's
      goroutine goes on to answer. */
  function Called'(v: Server, n: nat): Server
    requires n < |v.reqs| && v.reqs[n].runner.AtCalled?
  {
    var r := v.reqs[n];
    var out := r.runner.out;
    SetReq(v, n, r.(handler := AwaitSent, runner := Responding(out),
                    h := if out.Fails? then r.h.(error := out.text) else r.h))
  }

  /** The response write is over: whoever wrote it goes on. */
  function UnlockResponse'(v: Server): Server
    requires v.writing.WriteOver? && v.writing.n < |v.reqs|
    requires v.reqs[v.writing.n].handler == TimingOut ==> 0 < v.wait
  {
    var n := v.writing.n;
    var r := v.reqs[n].(writes := v.reqs[n].writes + 1);
    var u := v.(writing := NoWrite);
    if r.handler == TimingOut then SetReq(u, n, r.(handler := HandlerGone)).(wait := v.wait - 1)
    else if r.runner.Responding? then SetReq(u, n, r.(runner := AtSent))
    else SetReq(u, n, r).(reader := Idle)
  }

  function ClientStep(c: Client, a: Action, resp: Wire): Client
    requires ClientEnabled(c, a, resp)
  {
    match a
    case Start(k, name, args, capacity) => Start'(c, k, name, args, capacity)
    case Cancel(k) => Cancel'(c, k)
    case Take(k) => c.(calls := c.calls[k := c.calls[k].(taking := Taken, buffered := c.calls[k].buffered - 1)])
    case CloseClient => c.(closing := true)
    case LockSend(k) => SetPc(c, k, Locked).(send := Sender(k))
    case RegisterCall(k) => Register(c, k)
    case CompleteRejected(k) => SetPc(Done(c, k), k, Unlocking)
    case SendHeader(k, io) => SetPc(c, k, if io == Failed then WriteFailed else HeaderOut)
    case SendBody(k, io) => SetPc(c, k, if io == Failed then WriteFailed else Unlocking)
    case TakeBack(k) => TakeBack'(c, k)
    case CompleteTakenBack(k) => SetPc(Done(c, c.calls[k].pc.call), k, Unlocking)
    case UnlockSend(k) => SetPc(c, k, Sent).(send := Nobody)
    case RecvHeader(io) => c.(recv := if io == Fine then GotHeader(resp.log[resp.read].h) else WantSend)
    case RecvRemove => Remove(c, c.recv.h.num).(recv := Matched(c.recv.h, Pending(c, c.recv.h.num)))
    case RecvBody(io) => RecvBody'(c, io, resp)
    case RecvComplete => Done(c, c.recv.target).(recv := if c.recv.last then WantSend else Reading)
    case TermLockSend => c.(send := Receiver, recv := WantMu)
    case TermLockMu => c.(shutdown := true, recv := Terminating(c.pend.Keys))
    case TermComplete(q) => TermComplete'(c, q)
    case TermUnlock => c.(send := Nobody, recv := Ended)
  }

  function ServerStep(w: World, v: Server, a: Action, req: Wire): Server
    requires ServerEnabled(w, v, a, req)
  {
    match a
    case ReadHeader(io) =>
      if io == Fine then ReadHeader'(w, v, req.log[req.read].h) else v.(reader := Draining)
    case ReadBody(io) => ReadBody'(v, io, req)
    case CloseServer => v.(reader := Closed)
    case MethodReturns(n) => SetReq(v, n, v.reqs[n].(runner := AtCalled(w.run(v.reqs[n].h.name, v.reqs[n].args))))
    case CalledRendezvous(n) => Called'(v, n)
    case TimeOut(n) => SetReq(v, n, v.reqs[n].(handler := TimingOut, h := v.reqs[n].h.(error := TIMEOUT_TEXT)))
    case SentRendezvous(n) =>
      SetReq(v, n, v.reqs[n].(handler := HandlerGone, runner := RunnerGone)).(wait := v.wait - 1)
    case LockResponse(n) => v.(writing := WriteHeader(n))
    case RespondHeader(io) =>
      v.(writing := if io == Failed then WriteOver(v.writing.n) else WriteBody(v.writing.n))
    case RespondBody(io) => v.(writing := WriteOver(v.writing.n))
    case UnlockResponse => UnlockResponse'(v)
  }

  /** The request wire after a step of the client. */
  function ClientWrites(c: Client, a: Action, req: Wire): Wire {
    match a
    case CloseClient => req.(open := false)
    case SendHeader(_, io) => Written(req, HeaderFrame(c.header), io)
    case SendBody(k, io) => if k in c.calls then Written(req, BodyFrame(Args(c.calls[k].args)), io) else req
    case _ => req
  }

  /** The response wire after a step of the server. */
  function ServerWrites(v: Server, a: Action, resp: Wire): Wire {
    if v.writing == NoWrite || |v.reqs| <= v.writing.n then resp
    else match a
      case RespondHeader(io) => Written(resp, HeaderFrame(v.reqs[v.writing.n].h), io)
      case RespondBody(io) => Written(resp, BodyFrame(ResponseBody(v.reqs[v.writing.n])), io)
      case _ => resp
  }

  /** The step reads a frame off the wire, whether or not it fits. */
  predicate Consumes(a: Action) {
    match a
    case RecvHeader(io) => io != Failed
    case RecvBody(io) => io != Failed
    case ReadHeader(io) => io != Failed
    case ReadBody(io) => io != Failed
    case _ => false
  }

  function Read(wire: Wire, a: Action): Wire {
    if Consumes(a) then wire.(read := wire.read + 1) else wire
  }

  function Apply(w: World, s: State, a: Action): State
    requires Enabled(w, s, a)
  {
    if ClientEnabled(s.c, a, s.resp) then
      State(ClientStep(s.c, a, s.resp), s.v, ClientWrites(s.c, a, s.req), Read(s.resp, a))
    else
      State(s.c, ServerStep(w, s.v, a, s.req), Read(s.req, a), ServerWrites(s.v, a, s.resp))
  }

  /** The state a sequence of steps leads to, if each step is possible in its turn. */
  function Run(w: World, acts: seq<Action>): Option<State> {
    if acts == [] then Some(Init())
    else match Run(w, acts[..|acts| - 1])
      case None => None
      case Some(p) => if Enabled(w, p, acts[|acts| - 1]) then Some(Apply(w, p, acts[|acts| - 1])) else None
  }

  /** A run that goes on: the state in between, and one step less to go. */
  lemma RunSplit(w: World, acts: seq<Action>, more: seq<Action>)
    requires Run(w, acts + more).Some? && more != []
    ensures acts + more[..|more| - 1] == (acts + more)[..|acts + more| - 1]
    ensures Run(w, acts + more[..|more| - 1]).Some?
    ensures var p, a := Run(w, acts + more[..|more| - 1]).value, more[|more| - 1];
      Enabled(w, p, a) && Run(w, acts + more).value == Apply(w, p, a)
  {
    assert acts + more[..|more| - 1] == (acts + more)[..|acts + more| - 1];
  }
}

/**
 What the server's whole operations do to its state, and that each is a sequence of the
 server's steps in the connection's transition system.
 */
module RpcAnswers {
  import opened Common
  import opened Service
  import opened Rpc

  /** The server with the two wires it reads from and writes to. */
  datatype Side = Side(v: Server, req: Wire, resp: Wire)

  function Stepped(w: World, s: Side, a: Action): Side
    requires ServerEnabled(w, s.v, a, s.req)
  {
    Side(ServerStep(w, s.v, a, s.req), Read(s.req, a), ServerWrites(s.v, a, s.resp))
  }

  /** The server's steps `acts` lead from one side to the other. */
  predicate Leads(w: World, s: Side, acts: seq<Action>, t: Side)
    decreases |acts|
  {
    if acts == [] then s == t
    else ServerEnabled(w, s.v, acts[0], s.req) && Leads(w, Stepped(w, s, acts[0]), acts[1..], t)
  }

  lemma OneStep(w: World, s: Side, a: Action)
    requires ServerEnabled(w, s.v, a, s.req)
    ensures Leads(w, s, [a], Stepped(w, s, a))
  {
  }

  lemma {:induction false} LeadsOn(w: World, s: Side, acts: seq<Action>, t: Side, more: seq<Action>, u: Side)
    requires Leads(w, s, acts, t) && Leads(w, t, more, u)
    ensures Leads(w, s, acts + more, u)
    decreases |acts|
  {
    if acts == [] {
      assert acts + more == more;
    } else {
      LeadsOn(w, Stepped(w, s, acts[0]), acts[1..], t, more, u);
      assert (acts + more)[1..] == acts[1..] + more;
    }
  }

  // ---------------------------------------------------------------------- one response

  function AnswerSteps(n: nat): seq<Action> {
    [LockResponse(n)] + ([RespondHeader(Fine)] + ([RespondBody(Fine)] + [UnlockResponse]))
  }

  function AnswerFrames(r: Request): seq<Frame> {
    [HeaderFrame(r.h), BodyFrame(ResponseBody(r))]
  }

  function Appended(wire: Wire, frames: seq<Frame>): Wire {
    wire.(log := wire.log + frames)
  }

  /** The server once request `n`'s response is written and the lock given back. */
  function AfterAnswer(v: Server, n: nat): Server
    requires n < |v.reqs| && (v.reqs[n].handler == TimingOut ==> 0 < v.wait)
  {
    UnlockResponse'(v.(writing := WriteOver(n)))
  }

  lemma AnswerIsSteps(w: World, s: Side, n: nat)
    requires ResponseDue(s.v, n) && s.resp.open && (s.v.reqs[n].handler == TimingOut ==> 0 < s.v.wait)
    ensures Leads(w, s, AnswerSteps(n), Side(AfterAnswer(s.v, n), s.req, Appended(s.resp, AnswerFrames(s.v.reqs[n]))))
  {
    var r := s.v.reqs[n];
    var s1 := Side(s.v.(writing := WriteHeader(n)), s.req, s.resp);
    var s2 := Side(s.v.(writing := WriteBody(n)), s.req, Appended(s.resp, [HeaderFrame(r.h)]));
    var s3 := Side(s.v.(writing := WriteOver(n)), s.req, Appended(s.resp, AnswerFrames(r)));
    assert Appended(s.resp, [HeaderFrame(r.h)]).log + [BodyFrame(ResponseBody(r))] == s3.resp.log;
    OneStep(w, s, LockResponse(n));
    OneStep(w, s1, RespondHeader(Fine));
    OneStep(w, s2, RespondBody(Fine));
    OneStep(w, s3, UnlockResponse);
    var end := Stepped(w, s3, UnlockResponse);
    LeadsOn(w, s2, [RespondBody(Fine)], s3, [UnlockResponse], end);
    LeadsOn(w, s1, [RespondHeader(Fine)], s2, [RespondBody(Fine)] + [UnlockResponse], end);
    LeadsOn(w, s, [LockResponse(n)], s1, [RespondHeader(Fine)] + ([RespondBody(Fine)] + [UnlockResponse]), end);
  }

  // ----------------------------------------------------------------------- one handler

  /** The method is under way, and has come to its signal unless the timeout is first. */
  predicate Handling(v: Server, n: nat, timedOut: bool) {
    && n < |v.reqs| && v.reqs[n].handler == Selecting && 0 < v.wait && v.writing == NoWrite
    && (v.reqs[n].runner.AtCalled? || (timedOut && v.reqs[n].runner == Running))
  }

  /** The request once its response has been decided. */
  function Decided(r: Request, timedOut: bool): Request
    requires timedOut || r.runner.AtCalled?
  {
    if timedOut then r.(handler := TimingOut, h := r.h.(error := TIMEOUT_TEXT))
    else
      var out := r.runner.out;
      r.(handler := AwaitSent, runner := Responding(out), h := if out.Fails? then r.h.(error := out.text) else r.h)
  }

  /** The server after a whole `handleRequest`: one answer, one handler fewer; a method
      that was timed out is left where it is. */
  function Handled(v: Server, n: nat, timedOut: bool): Server
    requires Handling(v, n, timedOut)
  {
    var r := v.reqs[n];
    var u := Decided(r, timedOut).(handler := HandlerGone, writes := r.writes + 1,
                                   runner := if timedOut then r.runner else RunnerGone);
    SetReq(v, n, u).(wait := v.wait - 1)
  }

  function HandleSteps(n: nat, timedOut: bool): seq<Action> {
    if timedOut then [TimeOut(n)] + AnswerSteps(n)
    else [CalledRendezvous(n)] + (AnswerSteps(n) + [SentRendezvous(n)])
  }

  lemma SetTwice(v: Server, n: nat, r: Request, q: Request)
    requires n < |v.reqs|
    ensures SetReq(SetReq(v, n, r), n, q) == SetReq(v, n, q)
  {
    assert v.reqs[n := r][n := q] == v.reqs[n := q];
  }

  lemma TimeoutIsSteps(w: World, s: Side, n: nat)
    requires Handling(s.v, n, true) && s.resp.open && w.timeout
    ensures Leads(w, s, HandleSteps(n, true),
                  Side(Handled(s.v, n, true), s.req, Appended(s.resp, AnswerFrames(Decided(s.v.reqs[n], true)))))
  {
    var r := Decided(s.v.reqs[n], true);
    var d := Side(SetReq(s.v, n, r), s.req, s.resp);
    AnswerIsSteps(w, d, n);
    SetTwice(s.v, n, r, r.(handler := HandlerGone, writes := r.writes + 1));
    OneStep(w, s, TimeOut(n));
    var answered := Side(AfterAnswer(d.v, n), s.req, Appended(s.resp, AnswerFrames(r)));
    LeadsOn(w, s, [TimeOut(n)], d, AnswerSteps(n), answered);
  }

  /** The method's answer is out; its second signal ends the handler. */
  lemma LeaveIsAStep(w: World, v: Server, n: nat, req: Wire, resp: Wire)
    requires Handling(v, n, false)
    ensures var d := SetReq(v, n, Decided(v.reqs[n], false));
      var s := Side(AfterAnswer(d, n), req, resp);
      Leads(w, s, [SentRendezvous(n)], Side(Handled(v, n, false), req, resp))
  {
    var r := Decided(v.reqs[n], false);
    var sent := r.(writes := r.writes + 1, runner := AtSent);
    SetTwice(v, n, r, sent);
    SetTwice(v, n, sent, sent.(handler := HandlerGone, runner := RunnerGone));
    OneStep(w, Side(AfterAnswer(SetReq(v, n, r), n), req, resp), SentRendezvous(n));
  }

  lemma ReturnIsSteps(w: World, s: Side, n: nat)
    requires Handling(s.v, n, false) && s.resp.open
    ensures Leads(w, s, HandleSteps(n, false),
                  Side(Handled(s.v, n, false), s.req, Appended(s.resp, AnswerFrames(Decided(s.v.reqs[n], false)))))
  {
    var d := Side(SetReq(s.v, n, Decided(s.v.reqs[n], false)), s.req, s.resp);
    var resp := Appended(s.resp, AnswerFrames(d.v.reqs[n]));
    var end := Side(Handled(s.v, n, false), s.req, resp);
    OneStep(w, s, CalledRendezvous(n));
    AnswerIsSteps(w, d, n);
    LeaveIsAStep(w, s.v, n, s.req, resp);
    LeadsOn(w, d, AnswerSteps(n), Side(AfterAnswer(d.v, n), s.req, resp), [SentRendezvous(n)], end);
    LeadsOn(w, s, [CalledRendezvous(n)], d, AnswerSteps(n) + [SentRendezvous(n)], end);
  }

  /** `handleRequest` and its method's goroutine, whichever of method and timeout is first. */
  lemma HandledIsSteps(w: World, s: Side, n: nat, timedOut: bool)
    requires Handling(s.v, n, timedOut) && s.resp.open && (timedOut ==> w.timeout)
    ensures Leads(w, s, HandleSteps(n, timedOut),
                  Side(Handled(s.v, n, timedOut), s.req,
                       Appended(s.resp, AnswerFrames(Decided(s.v.reqs[n], timedOut)))))
  {
    if timedOut { TimeoutIsSteps(w, s, n); } else { ReturnIsSteps(w, s, n); }
  }

  // ---------------------------------------------------------------------- one request

  /** What the server gets to read behind a header: the arguments, a body that does not
      fit them, or nothing any more. */
  datatype BodyRead = Decoded(args: ByteString) | Unfit(b: Body) | Cut

  /** A request whose header gets decoded, and whether its method is too late. */
  datatype Incoming = Incoming(h: Header, body: BodyRead, timedOut: bool)

  predicate Found(w: World, q: Incoming) {
    FindService(w.services, q.h.name).Ok?
  }

  /** Nothing of the request is left on the wire, so that another can follow. */
  predicate Consumed(w: World, q: Incoming) {
    Found(w, q) && q.body != Cut
  }

  function Frames(q: Incoming): seq<Frame> {
    [HeaderFrame(q.h)] + match q.body
                         case Decoded(args) => [BodyFrame(Args(args))]
                         case Unfit(b) => [BodyFrame(b)]
                         case Cut => []
  }

  /** The server once it has read the request and, unless it is too late, its method has
      come to the signal. */
  function Started(w: World, v: Server, q: Incoming): Server {
    var d, n := ReadHeader'(w, v, q.h), |v.reqs|;
    if !Found(w, q) then d
    else match q.body
      case Decoded(args) =>
        var b := ReadBody'(d, Fine, Wire([BodyFrame(Args(args))], 0, true));
        if q.timedOut then b else SetReq(b, n, b.reqs[n].(runner := AtCalled(w.run(q.h.name, args))))
      case _ => ReadBody'(d, Failed, Wire([], 0, true))
  }

  /** The server after the whole request. */
  function Served(w: World, v: Server, q: Incoming): (u: Server)
    requires v.writing == NoWrite
    ensures u.writing == NoWrite && |u.reqs| == |v.reqs| + 1
  {
    var u, n := Started(w, v, q), |v.reqs|;
    if Found(w, q) && q.body.Decoded? then Handled(u, n, q.timedOut) else AfterAnswer(u, n)
  }

  /** The two frames that answer a request. */
  function Answer(w: World, q: Incoming): seq<Frame> {
    if !Found(w, q) then [HeaderFrame(q.h.(error := LookupText(w.services, q.h.name))), BodyFrame(Placeholder)]
    else if !q.body.Decoded? then [HeaderFrame(q.h.(error := BODY_TEXT)), BodyFrame(Placeholder)]
    else if q.timedOut then [HeaderFrame(q.h.(error := TIMEOUT_TEXT)), BodyFrame(Placeholder)]
    else match w.run(q.h.name, q.body.args)
      case Returns(v) => [HeaderFrame(q.h), BodyFrame(Reply(v))]
      case Fails(text) => [HeaderFrame(q.h.(error := text)), BodyFrame(Placeholder)]
  }

  function ReadSteps(w: World, n: nat, q: Incoming): seq<Action> {
    [ReadHeader(Fine)]
    + if !Found(w, q) then []
      else match q.body
        case Decoded(_) => [ReadBody(Fine)] + if q.timedOut then [] else [MethodReturns(n)]
        case Unfit(_) => [ReadBody(Misfit)]
        case Cut => [ReadBody(Failed)]
  }

  function ServeSteps(w: World, n: nat, q: Incoming): seq<Action> {
    ReadSteps(w, n, q) + if Found(w, q) && q.body.Decoded? then HandleSteps(n, q.timedOut) else AnswerSteps(n)
  }

  /** The request's frames are the next ones on the wire. */
  predicate Arrives(req: Wire, q: Incoming) {
    && req.read < |req.log| && req.log[req.read] == HeaderFrame(q.h)
    && (q.body != Cut ==> req.read + 1 < |req.log| && req.log[req.read + 1] == Frames(q)[1])
  }

  function After(w: World, req: Wire, q: Incoming): Wire {
    req.(read := req.read + if Consumed(w, q) then 2 else 1)
  }

  lemma BodyIsSteps(w: World, s: Side, q: Incoming)
    requires s.v.reader == Idle && Arrives(s.req, q) && Found(w, q) && q.body.Decoded?
    ensures var d := Side(ReadHeader'(w, s.v, q.h), s.req.(read := s.req.read + 1), s.resp);
      Leads(w, d, [ReadBody(Fine)] + (if q.timedOut then [] else [MethodReturns(|s.v.reqs|)]),
            Side(Started(w, s.v, q), After(w, s.req, q), s.resp))
  {
    var d := Side(ReadHeader'(w, s.v, q.h), s.req.(read := s.req.read + 1), s.resp);
    OneStep(w, d, ReadBody(Fine));
    var b := Stepped(w, d, ReadBody(Fine));
    assert b.v == ReadBody'(d.v, Fine, Wire([BodyFrame(Args(q.body.args))], 0, true));
    if q.timedOut {
      assert [ReadBody(Fine)] + [] == [ReadBody(Fine)];
    } else {
      OneStep(w, b, MethodReturns(|s.v.reqs|));
      LeadsOn(w, d, [ReadBody(Fine)], b, [MethodReturns(|s.v.reqs|)], Stepped(w, b, MethodReturns(|s.v.reqs|)));
    }
  }

  lemma BadBodyIsAStep(w: World, s: Side, q: Incoming)
    requires s.v.reader == Idle && Arrives(s.req, q) && Found(w, q) && !q.body.Decoded?
    ensures var d := Side(ReadHeader'(w, s.v, q.h), s.req.(read := s.req.read + 1), s.resp);
      Leads(w, d, [ReadBody(if q.body.Unfit? then Misfit else Failed)],
            Side(Started(w, s.v, q), After(w, s.req, q), s.resp))
  {
    var d := Side(ReadHeader'(w, s.v, q.h), s.req.(read := s.req.read + 1), s.resp);
    OneStep(w, d, ReadBody(if q.body.Unfit? then Misfit else Failed));
  }

  lemma ReadIsSteps(w: World, s: Side, q: Incoming)
    requires s.v.reader == Idle && Arrives(s.req, q)
    ensures Leads(w, s, ReadSteps(w, |s.v.reqs|, q), Side(Started(w, s.v, q), After(w, s.req, q), s.resp))
  {
    var d := Side(ReadHeader'(w, s.v, q.h), s.req.(read := s.req.read + 1), s.resp);
    OneStep(w, s, ReadHeader(Fine));
    if !Found(w, q) {
      assert ReadSteps(w, |s.v.reqs|, q) == [ReadHeader(Fine)];
    } else {
      var more := if q.body.Decoded? then [ReadBody(Fine)] + (if q.timedOut then [] else [MethodReturns(|s.v.reqs|)])
                  else [ReadBody(if q.body.Unfit? then Misfit else Failed)];
      if q.body.Decoded? { BodyIsSteps(w, s, q); } else { BadBodyIsAStep(w, s, q); }
      assert ReadSteps(w, |s.v.reqs|, q) == [ReadHeader(Fine)] + more;
      LeadsOn(w, s, [ReadHeader(Fine)], d, more, Side(Started(w, s.v, q), After(w, s.req, q), s.resp));
    }
  }

  /** A request from its header to its answer: what is written is its answer, and the
      server is ready for the next one with nobody left in the wait group. */
  lemma {:induction false} ServedIsSteps(w: World, s: Side, q: Incoming)
    requires s.v.reader == Idle && s.v.writing == NoWrite && s.resp.open && Arrives(s.req, q)
    requires q.timedOut ==> w.timeout
    ensures Leads(w, s, ServeSteps(w, |s.v.reqs|, q),
                  Side(Served(w, s.v, q), After(w, s.req, q), Appended(s.resp, Answer(w, q))))
    ensures var u := Served(w, s.v, q);
      u.reader == Idle && u.writing == NoWrite && u.wait == s.v.wait
  {
    var n := |s.v.reqs|;
    var u := Side(Started(w, s.v, q), After(w, s.req, q), s.resp);
    ReadIsSteps(w, s, q);
    var end := Side(Served(w, s.v, q), After(w, s.req, q), Appended(s.resp, Answer(w, q)));
    if Found(w, q) && q.body.Decoded? {
      HandledIsSteps(w, u, n, q.timedOut);
      LeadsOn(w, s, ReadSteps(w, n, q), u, HandleSteps(n, q.timedOut), end);
    } else {
      AnswerIsSteps(w, u, n);
      LeadsOn(w, s, ReadSteps(w, n, q), u, AnswerSteps(n), end);
    }
  }

  // --------------------------------------------------------------- a row of requests

  /** The frames of a row of requests on the wire. */
  function Sent(qs: seq<Incoming>): seq<Frame> {
    if qs == [] then [] else Frames(qs[0]) + Sent(qs[1..])
  }

  /** The requests that get decoded: none after one that leaves something unread. */
  function Decodable(w: World, qs: seq<Incoming>): seq<Incoming> {
    if qs == [] then []
    else if Consumed(w, qs[0]) then [qs[0]] + Decodable(w, qs[1..])
    else [qs[0]]
  }

  function Answers(w: World, qs: seq<Incoming>): seq<Frame> {
    if qs == [] then [] else Answer(w, qs[0]) + Answers(w, qs[1..])
  }

  /** The server after `serverCodec` over requests that all get decoded. */
  function Finished(w: World, v: Server, qs: seq<Incoming>): Server
    requires v.writing == NoWrite
    decreases |qs|
  {
    if qs == [] then v.(reader := Closed) else Finished(w, Served(w, v, qs[0]), qs[1..])
  }

  function CodecSteps(w: World, n: nat, qs: seq<Incoming>): seq<Action>
    decreases |qs|
  {
    if qs == [] then [ReadHeader(Failed)] + [CloseServer]
    else ServeSteps(w, n, qs[0]) + CodecSteps(w, n + 1, qs[1..])
  }

  /** The wire once the row has been decoded. */
  function Passed(w: World, req: Wire, qs: seq<Incoming>): Wire
    decreases |qs|
  {
    if qs == [] then req else Passed(w, After(w, req, qs[0]), qs[1..])
  }

  lemma CloseIsSteps(w: World, s: Side)
    requires s.v.reader == Idle && s.v.wait == 0
    ensures Leads(w, s, [ReadHeader(Failed)] + [CloseServer], Side(s.v.(reader := Closed), s.req, s.resp))
  {
    OneStep(w, s, ReadHeader(Failed));
    var d := Stepped(w, s, ReadHeader(Failed));
    OneStep(w, d, CloseServer);
    LeadsOn(w, s, [ReadHeader(Failed)], d, [CloseServer], Stepped(w, d, CloseServer));
  }

  /** The requests of the row arrive one behind the other, as far as they are decoded. */
  predicate AllArrive(w: World, req: Wire, qs: seq<Incoming>)
    decreases |qs|
  {
    qs == [] || (Arrives(req, qs[0]) && (Consumed(w, qs[0]) ==> AllArrive(w, After(w, req, qs[0]), qs[1..])))
  }

  lemma {:induction false} SentArrive(w: World, log: seq<Frame>, before: seq<Frame>, qs: seq<Incoming>, open: bool)
    requires log == before + Sent(qs)
    ensures AllArrive(w, Wire(log, |before|, open), qs)
    decreases |qs|
  {
    if qs != [] {
      var f := Frames(qs[0]);
      assert log == (before + f) + Sent(qs[1..]);
      FramesAt(log, before, f, Sent(qs[1..]));
      SentArrive(w, log, before + f, qs[1..], open);
    }
  }

  lemma FramesAt(log: seq<Frame>, before: seq<Frame>, f: seq<Frame>, rest: seq<Frame>)
    requires log == (before + f) + rest && 0 < |f|
    ensures |before| < |log| && log[|before|] == f[0]
    ensures 1 < |f| ==> |before| + 1 < |log| && log[|before| + 1] == f[1]
  {
  }

  /** Where `serverCodec` ends up on requests that all get decoded. */
  function End(w: World, s: Side, qs: seq<Incoming>): Side
    requires s.v.writing == NoWrite
  {
    Side(Finished(w, s.v, qs), Passed(w, s.req, qs), Appended(s.resp, Answers(w, qs)))
  }

  function ServedSide(w: World, s: Side, q: Incoming): Side
    requires s.v.writing == NoWrite
  {
    Side(Served(w, s.v, q), After(w, s.req, q), Appended(s.resp, Answer(w, q)))
  }

  lemma EndAfterOne(w: World, s: Side, q: Incoming, rest: seq<Incoming>)
    requires s.v.writing == NoWrite
    ensures End(w, ServedSide(w, s, q), rest) == End(w, s, [q] + rest)
    ensures CodecSteps(w, |s.v.reqs|, [q] + rest) == ServeSteps(w, |s.v.reqs|, q) + CodecSteps(w, |s.v.reqs| + 1, rest)
  {
    assert ([q] + rest)[0] == q && ([q] + rest)[1..] == rest;
    assert s.resp.log + Answer(w, q) + Answers(w, rest) == s.resp.log + (Answer(w, q) + Answers(w, rest));
  }

  lemma ServeThenRest(w: World, s: Side, q: Incoming, rest: seq<Incoming>)
    requires s.v.reader == Idle && s.v.writing == NoWrite && s.resp.open && Arrives(s.req, q)
    requires q.timedOut ==> w.timeout
    requires Leads(w, ServedSide(w, s, q), CodecSteps(w, |s.v.reqs| + 1, rest), End(w, ServedSide(w, s, q), rest))
    ensures Leads(w, s, CodecSteps(w, |s.v.reqs|, [q] + rest), End(w, s, [q] + rest))
  {
    ServedIsSteps(w, s, q);
    EndAfterOne(w, s, q, rest);
    LeadsOn(w, s, ServeSteps(w, |s.v.reqs|, q), ServedSide(w, s, q), CodecSteps(w, |s.v.reqs| + 1, rest),
            End(w, s, [q] + rest));
  }

  lemma EndAtOnce(w: World, s: Side)
    requires s.v.reader == Idle && s.v.writing == NoWrite && s.v.wait == 0
    ensures Leads(w, s, CodecSteps(w, |s.v.reqs|, []), End(w, s, []))
  {
    CloseIsSteps(w, s);
    assert Appended(s.resp, []) == s.resp;
  }

  /** `serverCodec` on a row of requests, each served before the next is read: it
      decodes up to the first that leaves something unread, writes the answer of each,
      in order, and closes. */
  lemma {:induction false} CodecIsSteps(w: World, s: Side, qs: seq<Incoming>)
    requires s.v.reader == Idle && s.v.writing == NoWrite && s.v.wait == 0 && s.resp.open
    requires AllArrive(w, s.req, qs)
    requires forall q :: q in qs && q.timedOut ==> w.timeout
    ensures Leads(w, s, CodecSteps(w, |s.v.reqs|, Decodable(w, qs)), End(w, s, Decodable(w, qs)))
    decreases |qs|
  {
    if qs == [] {
      EndAtOnce(w, s);
    } else {
      var q := qs[0];
      ServedIsSteps(w, s, q);
      if Consumed(w, q) {
        CodecIsSteps(w, ServedSide(w, s, q), qs[1..]);
        ServeThenRest(w, s, q, Decodable(w, qs[1..]));
      } else {
        EndAtOnce(w, ServedSide(w, s, q));
        ServeThenRest(w, s, q, []);
        assert [q] + [] == [q];
      }
    }
  }

  /** In particular on a fresh connection that carries just the row. */
  lemma CodecOnFreshWire(w: World, qs: seq<Incoming>)
    requires forall q :: q in qs && q.timedOut ==> w.timeout
    ensures var s := Side(Init().v, Wire(Sent(qs), 0, true), Wire([], 0, true));
      Leads(w, s, CodecSteps(w, 0, Decodable(w, qs)), End(w, s, Decodable(w, qs)))
  {
    assert Sent(qs) == [] + Sent(qs);
    SentArrive(w, Sent(qs), [], qs, true);
    CodecIsSteps(w, Side(Init().v, Wire(Sent(qs), 0, true), Wire([], 0, true)), qs);
  }

  /** The server goes on with request `n` answered once and the others as they were. */
  predicate OneMoreAnswered(v: Server, u: Server) {
    && u.reader == Idle && u.wait == v.wait && |u.reqs| == |v.reqs| + 1
    && (forall i :: 0 <= i < |v.reqs| ==> u.reqs[i] == v.reqs[i]) && u.reqs[|v.reqs|].writes == 1
  }

  lemma HandedOverAnswersOne(w: World, v: Server, q: Incoming)
    requires v.reader == Idle && v.writing == NoWrite && Found(w, q) && q.body.Decoded?
    ensures OneMoreAnswered(v, Served(w, v, q))
  {
  }

  lemma RefusedAnswersOne(w: World, v: Server, q: Incoming)
    requires v.reader == Idle && v.writing == NoWrite && !(Found(w, q) && q.body.Decoded?)
    ensures OneMoreAnswered(v, Served(w, v, q))
  {
  }

  /** Afterwards every request has been answered once and the wait group is empty. */
  lemma {:induction false} FinishedAnswersAll(w: World, v: Server, qs: seq<Incoming>)
    requires v.reader == Idle && v.writing == NoWrite && v.wait == 0
    requires forall i :: 0 <= i < |v.reqs| ==> v.reqs[i].writes == 1
    ensures var u := Finished(w, v, qs);
      && u.reader == Closed && u.wait == 0 && |u.reqs| == |v.reqs| + |qs|
      && forall i :: 0 <= i < |u.reqs| ==> u.reqs[i].writes == 1
    decreases |qs|
  {
    if qs != [] {
      var u, n := Served(w, v, qs[0]), |v.reqs|;
      if Found(w, qs[0]) && qs[0].body.Decoded? {
        HandedOverAnswersOne(w, v, qs[0]);
      } else {
        RefusedAnswersOne(w, v, qs[0]);
      }
      forall i | 0 <= i < |u.reqs| ensures u.reqs[i].writes == 1 {
        if i < n { assert u.reqs[i] == v.reqs[i]; }
      }
      FinishedAnswersAll(w, u, qs[1..]);
    }
  }
}

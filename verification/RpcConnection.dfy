/**
 The server's own code on its own mutable state: the requests whose headers its
 goroutines overwrite, and the wait group. Each method leaves what a step of the
 connection's transition system leaves, or a whole operation of `RpcAnswers`, which is a
 sequence of such steps.
 */
module RpcConnection {
  import opened Common
  import opened Service
  import opened Rpc
  import opened RpcAnswers

  /** A request; handler and method share its header. The ghost part is where they are. */
  class RequestObject {
    var h: Header
    var args: ByteString
    ghost var handler: HandlerPc
    ghost var runner: RunnerPc
    ghost var writes: nat

    constructor (h: Header)
      ensures View() == Request(h, [], NoHandler, NoRunner, 0)
    {
      this.h, args := h, [];
      handler, runner, writes := NoHandler, NoRunner, 0;
    }

    ghost function View(): Request
      reads this
    {
      Request(h, args, handler, runner, writes)
    }
  }

  class Connection {
    var wait: nat
    ghost var reader: ReadPc
    ghost var writing: Writing
    ghost var reqs: seq<RequestObject>

    /** `v` is what the connection's objects stand for. */
    ghost predicate Shows(v: Server)
      reads this, reqs
    {
      && v.reader == reader && v.wait == wait && v.writing == writing && |v.reqs| == |reqs|
      && (forall i :: 0 <= i < |reqs| ==> v.reqs[i] == reqs[i].View())
      && (forall i, j :: 0 <= i < j < |reqs| ==> reqs[i] != reqs[j])
    }

    constructor ()
      ensures Shows(Init().v)
    {
      wait, reader, writing, reqs := 0, Idle, NoWrite, [];
    }

    /** A decoded header and the lookup of its method. */
    method DecodeHeader(ghost v: Server, w: World, h: Header) returns (r: RequestObject, found: bool)
      requires Shows(v) && reader == Idle
      modifies this
      ensures Shows(ReadHeader'(w, v, h)) && fresh(r) && reqs == old(reqs) + [r]
      ensures found == FindService(w.services, h.name).Ok?
      ensures r.h == if found then h else Header(h.name, h.num, LookupText(w.services, h.name))
    {
      r := new RequestObject(h);
      found := FindService(w.services, h.name).Ok?;
      if !found { r.h := r.h.(error := LookupText(w.services, h.name)); }
      reader := if found then ReadingBody(|reqs|) else Answering(|reqs|);
      reqs := reqs + [r];
    }

    /** The body of request `n`: its handler starts, or it will be answered as unreadable. */
    method DecodeBody(ghost v: Server, r: RequestObject, ghost n: nat, body: Option<ByteString>)
      requires Shows(v) && n < |reqs| && reqs[n] == r && reader == ReadingBody(n)
      modifies this, r
      ensures reqs == old(reqs)
      ensures Shows(match body
                    case Some(args) => ReadBody'(v, Fine, Wire([BodyFrame(Args(args))], 0, true))
                    case None => ReadBody'(v, Failed, Wire([], 0, true)))
      ensures match body
              case Some(args) => r.args == args && r.h == old(r.h) && wait == old(wait) + 1
              case None => r.h == old(r.h).(error := "reading the body failed") && wait == old(wait)
    {
      if body.Some? {
        r.args := body.value;
        wait := wait + 1;
        r.handler, r.runner, reader := Selecting, Running, Idle;
      } else {
        r.h := r.h.(error := BODY_TEXT);
        reader := Answering(n);
      }
    }

    /** The handler takes the method's signal, and the method goes on to its answer. */
    method TakeSignal(ghost v: Server, r: RequestObject, ghost n: nat, out: Rpc.Result) returns (body: Body)
      requires Shows(v) && n < |reqs| && reqs[n] == r
      requires r.handler == Selecting && r.runner == AtCalled(out)
      modifies r
      ensures Shows(Called'(v, n)) && body == ResponseBody(Called'(v, n).reqs[n])
      ensures match out
              case Returns(reply) => r.h == old(r.h) && body == Reply(reply)
              case Fails(text) => r.h == old(r.h).(error := text) && body == Placeholder
    {
      if out.Fails? { r.h := r.h.(error := out.text); }
      body := if out.Fails? then Placeholder else Reply(out.reply);
      r.handler, r.runner := AwaitSent, Responding(out);
    }

    /** The timeout is first: the handler answers itself. */
    method GiveUpWaiting(ghost v: Server, r: RequestObject, ghost n: nat) returns (body: Body)
      requires Shows(v) && n < |reqs| && reqs[n] == r && r.handler == Selecting && !r.runner.Responding?
      modifies r
      ensures Shows(SetReq(v, n, v.reqs[n].(handler := TimingOut, h := v.reqs[n].h.(error := TIMEOUT_TEXT))))
      ensures body == ResponseBody(r.View())
      ensures r.h == old(r.h).(error := "request handle timeout") && body == Placeholder
    {
      r.h := r.h.(error := TIMEOUT_TEXT);
      r.handler := TimingOut;
      body := Placeholder;
    }

    /** The whole write under the lock, and how its writer goes on: the handler that
        timed out is done with the wait group. */
    method SendResponse(ghost v: Server, r: RequestObject, ghost n: nat, body: Body, byHandler: bool)
      returns (frames: seq<Frame>)
      requires Shows(v) && n < |reqs| && reqs[n] == r && ResponseDue(v, n) && body == ResponseBody(r.View())
      requires (byHandler <==> r.handler == TimingOut) && (byHandler ==> 0 < wait)
      modifies this`wait, this`reader, r
      ensures Shows(AfterAnswer(v, n)) && frames == AnswerFrames(v.reqs[n])
      ensures frames == [HeaderFrame(old(r.h)), BodyFrame(body)] && wait == old(wait) - One(byHandler)
    {
      frames := [HeaderFrame(r.h), BodyFrame(body)];
      r.writes := r.writes + 1;
      if byHandler {
        r.handler := HandlerGone;
        wait := wait - 1;
      } else if r.runner.Responding? {
        r.runner := AtSent;
      } else {
        reader := Idle;
      }
    }

    /** The handler has the method's second signal and leaves the wait group. */
    method Leave(ghost v: Server, r: RequestObject, ghost n: nat)
      requires Shows(v) && n < |reqs| && reqs[n] == r && r.handler == AwaitSent && r.runner == AtSent && 0 < wait
      modifies this`wait, r
      ensures Shows(SetReq(v, n, v.reqs[n].(handler := HandlerGone, runner := RunnerGone)).(wait := v.wait - 1))
    {
      r.handler, r.runner := HandlerGone, RunnerGone;
      wait := wait - 1;
    }

    /** `handleRequest` and its method's goroutine with nobody in between: the method
        first, or the timeout first, with the method still running or at its signal. */
    method HandleRequest(ghost v: Server, r: RequestObject, ghost n: nat, out: Rpc.Result, timedOut: bool)
      returns (frames: seq<Frame>)
      requires Shows(v) && Handling(v, n, timedOut) && reqs[n] == r
      requires !timedOut ==> r.runner == AtCalled(out)
      modifies this`wait, this`reader, r
      ensures Shows(Handled(v, n, timedOut)) && reader == old(reader)
      ensures frames == AnswerFrames(Decided(v.reqs[n], timedOut))
      ensures var h := old(r.h);
        frames == if timedOut then [HeaderFrame(h.(error := "request handle timeout")), BodyFrame(Placeholder)]
                  else match out
                    case Returns(reply) => [HeaderFrame(h), BodyFrame(Reply(reply))]
                    case Fails(text) => [HeaderFrame(h.(error := text)), BodyFrame(Placeholder)]
      ensures wait == old(wait) - 1
    {
      if timedOut {
        var body := GiveUpWaiting(v, r, n);
        frames := SendResponse(SetReq(v, n, r.View()), r, n, body, true);
      } else {
        var body := TakeSignal(v, r, n, out);
        ghost var called := Called'(v, n);
        frames := SendResponse(called, r, n, body, false);
        Leave(AfterAnswer(called, n), r, n);
      }
    }

    ghost method RunMethod(v: Server, w: World, r: RequestObject, n: nat)
      requires Shows(v) && n < |reqs| && reqs[n] == r && r.runner == Running
      modifies r`runner
      ensures Shows(SetReq(v, n, v.reqs[n].(runner := AtCalled(w.run(r.h.name, r.args)))))
      ensures r.runner == AtCalled(w.run(r.h.name, r.args))
    {
      r.runner := AtCalled(w.run(r.h.name, r.args));
    }

    /** Reading a request, and its method's run unless that is too late. */
    method Start(ghost v: Server, w: World, q: Incoming) returns (r: RequestObject, handled: bool)
      requires Shows(v) && reader == Idle && writing == NoWrite
      modifies this
      ensures Shows(Started(w, v, q)) && fresh(r) && reqs == old(reqs) + [r] && wait == old(wait) + One(handled)
      ensures handled == (Found(w, q) && q.body.Decoded?)
    {
      ghost var n := |reqs|;
      var found;
      r, found := DecodeHeader(v, w, q.h);
      ghost var d := ReadHeader'(w, v, q.h);
      handled := found && q.body.Decoded?;
      if found {
        DecodeBody(d, r, n, if q.body.Decoded? then Some(q.body.args) else None);
        if handled && !q.timedOut {
          RunMethod(ReadBody'(d, Fine, Wire([BodyFrame(Args(q.body.args))], 0, true)), w, r, n);
        }
      }
    }

    /** One request from its header to its answer. */
    method ServeOne(ghost v: Server, w: World, q: Incoming) returns (frames: seq<Frame>)
      requires Shows(v) && reader == Idle && writing == NoWrite
      modifies this
      ensures Shows(Served(w, v, q)) && frames == Answer(w, q)
      ensures reader == Idle && writing == NoWrite && wait == old(wait)
    {
      ghost var n := |reqs|;
      var r, handled := Start(v, w, q);
      if handled {
        frames := HandleRequest(Started(w, v, q), r, n, w.run(q.h.name, q.body.args), q.timedOut);
      } else {
        frames := SendResponse(Started(w, v, q), r, n, Placeholder, false);
      }
    }

    /** `serverCodec` over the requests on the wire, each served before the next is read. */
    method ServerCodec(w: World, qs: seq<Incoming>) returns (frames: seq<Frame>)
      requires Shows(Init().v)
      modifies this
      ensures Shows(Finished(w, Init().v, Decodable(w, qs))) && frames == Answers(w, Decodable(w, qs))
      ensures reader == Closed && wait == 0
    {
      frames := [];
      ghost var v := Init().v;
      var more := true;
      var i := 0;
      while more && i < |qs|
        invariant i <= |qs| && Shows(v) && reader == Idle && writing == NoWrite && wait == 0
        invariant var rest := if more then Decodable(w, qs[i..]) else [];
          && Finished(w, v, rest) == Finished(w, Init().v, Decodable(w, qs))
          && frames + Answers(w, rest) == Answers(w, Decodable(w, qs))
        decreases |qs| - i
      {
        assert qs[i..][0] == qs[i] && qs[i..][1..] == qs[i + 1..];
        DecodableStep(w, v, qs[i..], frames);
        var answer := ServeOne(v, w, qs[i]);
        v := Served(w, v, qs[i]);
        frames := frames + answer;
        more := FindService(w.services, qs[i].h.name).Ok? && !qs[i].body.Cut?;
        i := i + 1;
      }
      reader := Closed;
    }
  }

  lemma DecodableStep(w: World, v: Server, qs: seq<Incoming>, frames: seq<Frame>)
    requires qs != [] && v.writing == NoWrite
    ensures var rest := if Consumed(w, qs[0]) then Decodable(w, qs[1..]) else [];
      && Finished(w, v, Decodable(w, qs)) == Finished(w, Served(w, v, qs[0]), rest)
      && frames + Answers(w, Decodable(w, qs)) == (frames + Answer(w, qs[0])) + Answers(w, rest)
  {
    var rest := if Consumed(w, qs[0]) then Decodable(w, qs[1..]) else [];
    assert Decodable(w, qs) == [qs[0]] + rest;
    assert ([qs[0]] + rest)[1..] == rest;
  }
}

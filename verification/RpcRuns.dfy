/**
 A run of one call of a registered method over a working connection, whatever the method
 computes: from the call to its completion, state by state.
 */
module RpcRuns {
  import opened Common
  import opened Formatting
  import opened Service
  import opened Rpc

  /** The server finds the method, and this is its outcome. */
  predicate Computes(w: World, name: string, args: ByteString, out: Rpc.Result) {
    FindService(w.services, name).Ok? && w.run(name, args) == out
  }

  /** What the caller is told about an outcome: an error, if its text is not empty. */
  function Told(out: Rpc.Result): Option<CallError> {
    if out.Fails? && out.text != "" then Some(ServerError(Format(out.text))) else None
  }

  function Given(out: Rpc.Result): Option<ByteString> {
    if out.Returns? then Some(out.reply) else None
  }

  /** The client with its one call registered, wherever the call and the loop are. */
  function OneCall(name: string, args: ByteString, pc: SendPc, send: Holder, recv: RecvPc,
                   pend: map<nat, nat>): Client
  {
    Completed(name, args, pc, send, recv, pend, None, None, 0)
  }

  function Completed(name: string, args: ByteString, pc: SendPc, send: Holder, recv: RecvPc, pend: map<nat, nat>,
                     error: Option<CallError>, reply: Option<ByteString>, fired: nat): Client
  {
    Client(map[0 := Call(name, args, 1, pc, 1, error, reply, fired, fired, false, Open)], 2, pend, false, false,
           Header(name, 1, ""), send, recv, [Ticket(0, name, args)])
  }

  /** The same before registration. */
  function NewCall(name: string, args: ByteString, pc: SendPc, send: Holder): Client {
    NewClient().(calls := map[0 := Call(name, args, 1, pc, 0, None, None, 0, 0, false, Open)], send := send)
  }

  /** The server with its one request. */
  function OneRequest(h: Header, args: ByteString, reader: ReadPc, handler: HandlerPc, runner: RunnerPc,
                      writing: Writing): Server
  {
    Server(reader, [Request(h, args, handler, runner, 0)], One(handler != NoHandler), writing)
  }

  /** The client once its request is out, and the request wire then. */
  function Waiting(name: string, args: ByteString): Client {
    OneCall(name, args, Sent, Nobody, Reading, map[1 := 0])
  }

  function RequestWire(name: string, args: ByteString, read: nat): Wire {
    Wire([HeaderFrame(Header(name, 1, "")), BodyFrame(Args(args))], read, true)
  }

  function Steps(name: string, args: ByteString): seq<Action> {
    [Start(0, name, args, 1), LockSend(0), RegisterCall(0), SendHeader(0, Fine), SendBody(0, Fine), UnlockSend(0),
     ReadHeader(Fine), ReadBody(Fine), MethodReturns(0), CalledRendezvous(0),
     LockResponse(0), RespondHeader(Fine), RespondBody(Fine),
     RecvHeader(Fine), RecvRemove, RecvBody(Fine), RecvComplete]
  }

  /** Where the run is after its first `i` steps. */
  function Stage(name: string, args: ByteString, out: Rpc.Result, i: nat): State {
    var v := Server(Idle, [], 0, NoWrite);
    var none := Wire([], 0, true);
    var h, e := Header(name, 1, ""), Header(name, 1, if out.Fails? then out.text else "");
    var body := if out.Fails? then Placeholder else Reply(out.reply);
    var both := RequestWire(name, args, 2);
    var answered := OneRequest(e, args, Idle, AwaitSent, Responding(out), WriteOver(0));
    var waiting := Waiting(name, args);
    match i
    case 0 => Init()
    case 1 => State(NewCall(name, args, SendPc.Waiting, Nobody), v, none, none)
    case 2 => State(NewCall(name, args, Locked, Sender(0)), v, none, none)
    case 3 => State(OneCall(name, args, Registered, Sender(0), Reading, map[1 := 0]), v, none, none)
    case 4 => State(OneCall(name, args, HeaderOut, Sender(0), Reading, map[1 := 0]), v,
                     Wire([HeaderFrame(h)], 0, true), none)
    case 5 => State(OneCall(name, args, Unlocking, Sender(0), Reading, map[1 := 0]), v, both.(read := 0), none)
    case 6 => State(waiting, v, both.(read := 0), none)
    case 7 => State(waiting, OneRequest(h, [], ReadingBody(0), NoHandler, NoRunner, NoWrite), both.(read := 1), none)
    case 8 => State(waiting, OneRequest(h, args, Idle, Selecting, Running, NoWrite), both, none)
    case 9 => State(waiting, OneRequest(h, args, Idle, Selecting, AtCalled(out), NoWrite), both, none)
    case 10 => State(waiting, OneRequest(e, args, Idle, AwaitSent, Responding(out), NoWrite), both, none)
    case 11 => State(waiting, OneRequest(e, args, Idle, AwaitSent, Responding(out), WriteHeader(0)), both, none)
    case 12 =>
      State(waiting, OneRequest(e, args, Idle, AwaitSent, Responding(out), WriteBody(0)), both,
            Wire([HeaderFrame(e)], 0, true))
    case 13 => State(waiting, answered, both, Answer(e, body, 0))
    case 14 => State(OneCall(name, args, Sent, Nobody, GotHeader(e), map[1 := 0]), answered, both, Answer(e, body, 1))
    case 15 => State(OneCall(name, args, Sent, Nobody, Matched(e, Some(0)), map[]), answered, both, Answer(e, body, 1))
    case 16 =>
      State(Completed(name, args, Sent, Nobody, Completing(0, false), map[], Told(out), Given(out), 0), answered, both,
            Answer(e, body, 2))
    case _ =>
      State(Completed(name, args, Sent, Nobody, Reading, map[], Told(out), Given(out), 1), answered, both,
            Answer(e, body, 2))
  }

  function Answer(e: Header, body: Body, read: nat): Wire {
    Wire([HeaderFrame(e), BodyFrame(body)], read, true)
  }

  lemma RegisterStages(w: World, name: string, args: ByteString, out: Rpc.Result, i: nat)
    requires i < 3
    ensures Enabled(w, Stage(name, args, out, i), Steps(name, args)[i])
    ensures Apply(w, Stage(name, args, out, i), Steps(name, args)[i]) == Stage(name, args, out, i + 1)
  {
  }

  lemma WriteStages(w: World, name: string, args: ByteString, out: Rpc.Result, i: nat)
    requires 3 <= i < 5
    ensures Enabled(w, Stage(name, args, out, i), Steps(name, args)[i])
    ensures Apply(w, Stage(name, args, out, i), Steps(name, args)[i]) == Stage(name, args, out, i + 1)
  {
  }

  lemma UnlockStage(w: World, name: string, args: ByteString, out: Rpc.Result, i: nat)
    requires i == 5
    ensures Enabled(w, Stage(name, args, out, i), Steps(name, args)[i])
    ensures Apply(w, Stage(name, args, out, i), Steps(name, args)[i]) == Stage(name, args, out, i + 1)
  {
  }

  lemma ReadStages(w: World, name: string, args: ByteString, out: Rpc.Result, i: nat)
    requires 6 <= i < 8 && Computes(w, name, args, out)
    ensures Enabled(w, Stage(name, args, out, i), Steps(name, args)[i])
    ensures Apply(w, Stage(name, args, out, i), Steps(name, args)[i]) == Stage(name, args, out, i + 1)
  {
  }

  lemma ServeStages(w: World, name: string, args: ByteString, out: Rpc.Result, i: nat)
    requires 8 <= i < 10 && Computes(w, name, args, out)
    ensures Enabled(w, Stage(name, args, out, i), Steps(name, args)[i])
    ensures Apply(w, Stage(name, args, out, i), Steps(name, args)[i]) == Stage(name, args, out, i + 1)
  {
  }

  lemma RespondStages(w: World, name: string, args: ByteString, out: Rpc.Result, i: nat)
    requires 10 <= i < 12
    ensures Enabled(w, Stage(name, args, out, i), Steps(name, args)[i])
    ensures Apply(w, Stage(name, args, out, i), Steps(name, args)[i]) == Stage(name, args, out, i + 1)
  {
  }

  lemma RespondBodyStage(w: World, name: string, args: ByteString, out: Rpc.Result, i: nat)
    requires i == 12
    ensures Enabled(w, Stage(name, args, out, i), Steps(name, args)[i])
    ensures Apply(w, Stage(name, args, out, i), Steps(name, args)[i]) == Stage(name, args, out, i + 1)
  {
  }

  lemma MatchStages(w: World, name: string, args: ByteString, out: Rpc.Result, i: nat)
    requires 13 <= i < 15
    ensures Enabled(w, Stage(name, args, out, i), Steps(name, args)[i])
    ensures Apply(w, Stage(name, args, out, i), Steps(name, args)[i]) == Stage(name, args, out, i + 1)
  {
  }

  lemma BodyStage(w: World, name: string, args: ByteString, out: Rpc.Result, i: nat)
    requires i == 15
    ensures Enabled(w, Stage(name, args, out, i), Steps(name, args)[i])
    ensures Apply(w, Stage(name, args, out, i), Steps(name, args)[i]) == Stage(name, args, out, i + 1)
  {
  }

  lemma CompleteStage(w: World, name: string, args: ByteString, out: Rpc.Result, i: nat)
    requires i == 16
    ensures Enabled(w, Stage(name, args, out, i), Steps(name, args)[i])
    ensures Apply(w, Stage(name, args, out, i), Steps(name, args)[i]) == Stage(name, args, out, i + 1)
  {
  }

  /** Getting the request out does not depend on the method. */
  lemma SendStages(w: World, name: string, args: ByteString, out: Rpc.Result, i: nat)
    requires i < 6
    ensures Enabled(w, Stage(name, args, out, i), Steps(name, args)[i])
    ensures Apply(w, Stage(name, args, out, i), Steps(name, args)[i]) == Stage(name, args, out, i + 1)
  {
    if i < 3 {
      RegisterStages(w, name, args, out, i);
    } else if i < 5 {
      WriteStages(w, name, args, out, i);
    } else {
      UnlockStage(w, name, args, out, i);
    }
  }

  lemma {:induction false} EachStage(w: World, name: string, args: ByteString, out: Rpc.Result, i: nat)
    requires i < 17 && Computes(w, name, args, out)
    ensures Enabled(w, Stage(name, args, out, i), Steps(name, args)[i])
    ensures Apply(w, Stage(name, args, out, i), Steps(name, args)[i]) == Stage(name, args, out, i + 1)
  {
    if i < 6 {
      SendStages(w, name, args, out, i);
    } else if i < 8 {
      ReadStages(w, name, args, out, i);
    } else if i < 10 {
      ServeStages(w, name, args, out, i);
    } else if i < 12 {
      RespondStages(w, name, args, out, i);
    } else if i == 12 {
      RespondBodyStage(w, name, args, out, i);
    } else if i < 15 {
      MatchStages(w, name, args, out, i);
    } else if i == 15 {
      BodyStage(w, name, args, out, i);
    } else {
      CompleteStage(w, name, args, out, i);
    }
  }

  lemma Extend(w: World, acts: seq<Action>, i: nat, s: State)
    requires i < |acts| && Run(w, acts[..i]) == Some(s) && Enabled(w, s, acts[i])
    ensures Run(w, acts[..i + 1]) == Some(Apply(w, s, acts[i]))
  {
    assert acts[..i + 1][..i] == acts[..i];
  }

  lemma {:induction false} RunStages(w: World, name: string, args: ByteString, out: Rpc.Result, i: nat)
    requires i <= 17 && Computes(w, name, args, out)
    ensures Run(w, Steps(name, args)[..i]) == Some(Stage(name, args, out, i))
  {
    if 0 < i {
      RunStages(w, name, args, out, i - 1);
      EachStage(w, name, args, out, i - 1);
      Extend(w, Steps(name, args), i - 1, Stage(name, args, out, i - 1));
    }
  }

  lemma WholeRun(w: World, name: string, args: ByteString, out: Rpc.Result)
    requires Computes(w, name, args, out)
    ensures Run(w, Steps(name, args)) == Some(Stage(name, args, out, 17))
  {
    RunStages(w, name, args, out, 17);
    assert Steps(name, args)[..17] == Steps(name, args);
  }

  lemma LastStage(name: string, args: ByteString, out: Rpc.Result)
    ensures var c := Stage(name, args, out, 17).c;
      0 in c.calls && c.calls[0] == Call(name, args, 1, Sent, 1, Told(out), Given(out), 1, 1, false, Open)
  {
  }

  /** A good reply reaches its caller: there is a run that ends with the call completed
      once, without an error and with what its method returned. */
  lemma {:induction false} ReplyArrives(w: World, name: string, args: ByteString, v: ByteString)
    requires FindService(w.services, name).Ok? && w.run(name, args) == Returns(v)
    ensures var end := Run(w, Steps(name, args));
      && end.Some? && 0 in end.value.c.calls
      && var x := end.value.c.calls[0];
      && x.name == name && x.args == args
      && x.fired == 1 && x.buffered == 1 && x.error == None && x.reply == Some(v)
  {
    WholeRun(w, name, args, Returns(v));
    LastStage(name, args, Returns(v));
  }
}

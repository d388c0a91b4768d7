/**
 What the client's whole operations do to its state, and that each is a sequence of
 the client's steps in the connection's transition system.
 */
module RpcEffects {
  import opened Common
  import opened Formatting
  import opened Rpc
  import Calls = RpcCalls

  /** The client's steps `acts` lead from `c` to `d`, reading from `resp`. */
  predicate Leads(c: Client, acts: seq<Action>, resp: Wire, d: Client)
    decreases |acts|
  {
    if acts == [] then c == d
    else ClientEnabled(c, acts[0], resp) && Leads(ClientStep(c, acts[0], resp), acts[1..], Read(resp, acts[0]), d)
  }

  lemma Step(c: Client, a: Action, resp: Wire, acts: seq<Action>, d: Client)
    requires ClientEnabled(c, a, resp) && Leads(ClientStep(c, a, resp), acts, Read(resp, a), d)
    ensures Leads(c, [a] + acts, resp, d)
  {
    assert ([a] + acts)[1..] == acts;
  }

  lemma {:induction false} LeadsKeepsInv(c: Client, acts: seq<Action>, resp: Wire, d: Client)
    requires Leads(c, acts, resp, d) && Calls.Inv(c)
    ensures Calls.Inv(d)
    decreases |acts|
  {
    if acts != [] {
      Calls.StepKeepsInv(c, acts[0], resp);
      LeadsKeepsInv(ClientStep(c, acts[0], resp), acts[1..], Read(resp, acts[0]), d);
    }
  }

  /** The client after the writes of a registered call, short of unlocking. */
  function AfterWrites(c: Client, k: nat, headerIo: Io, bodyIo: Io): Client
    requires k in c.calls
  {
    if headerIo != Failed && bodyIo != Failed then SetPc(c, k, HeaderOut)
    else Done(TakeBack'(SetPc(c, k, WriteFailed), k), k)
  }

  /** The client once the call has the lock and its number, or its refusal. */
  function Begun(c: Client, k: nat): Client
    requires k in c.calls
  {
    Register(SetPc(c, k, Locked).(send := Sender(k)), k)
  }

  /** The client after a whole `Send` that nobody interrupts. */
  function AfterSend(c: Client, k: nat, headerIo: Io, bodyIo: Io): Client
    requires k in c.calls
  {
    var d := Begun(c, k);
    var e := if c.closing || c.shutdown then Done(d, k) else AfterWrites(d, k, headerIo, bodyIo);
    Finished(e, k)
  }

  /** The last steps of every `Send`: it is done, and gives the lock back. */
  function Finished(c: Client, k: nat): Client
    requires k in c.calls
  {
    SetPc(SetPc(c, k, Unlocking), k, Sent).(send := Nobody)
  }

  /** A pending call ended by `terminateCalls`. */
  function Disconnected(x: Call): Call {
    x.(error := Some(ConnectionError), fired := x.fired + 1, buffered := x.buffered + 1)
  }

  /** The calls once those pending under numbers outside `left` have been ended. */
  function Partly(c: Client, left: set<nat>): map<nat, Call> {
    map k | k in c.calls ::
      if c.calls[k].num in c.pend && c.calls[k].num !in left then Disconnected(c.calls[k]) else c.calls[k]
  }

  /** The client after `terminateCalls`: every pending call has failed, no other. */
  function Terminated(c: Client): Client {
    c.(calls := Partly(c, {}), shutdown := true, recv := Ended)
  }

  lemma NumberOfPending(c: Client, q: nat)
    requires Calls.Inv(c) && q in c.pend
    ensures c.pend[q] in c.calls && c.calls[c.pend[q]].num == q
  {
    assert Calls.PendAt(c, q) && Calls.TicketAt(c, q - 1);
  }

  lemma PendingIsOwn(c: Client, k: nat)
    requires Calls.Inv(c) && k in c.calls && c.calls[k].num in c.pend
    ensures c.pend[c.calls[k].num] == k
  {
    assert Calls.CallInv(c, k) && Calls.PendAt(c, c.calls[k].num);
  }

  /** What `terminateCalls` leaves: each pending call has the error of the broken
      connection and one completion more, and no other call has changed. */
  lemma TerminatedOutcome(c: Client, k: nat)
    requires Calls.Inv(c) && k in c.calls
    ensures var d := Terminated(c);
      var x, y := c.calls[k], d.calls[k];
      && d.pend == c.pend && d.recv == Ended && d.shutdown
      && (if k in c.pend.Values then
            y.error == Some(ConnectionError) && y.reply == x.reply
            && y.fired == x.fired + 1 && y.buffered == x.buffered + 1
          else y == x)
  {
    if k in c.pend.Values {
      var q :| q in c.pend && c.pend[q] == k;
      NumberOfPending(c, q);
    }
    if c.calls[k].num in c.pend { PendingIsOwn(c, k); }
  }

  lemma NoneEnded(c: Client)
    ensures Partly(c, c.pend.Keys) == c.calls
  {
  }

  lemma PartlyStep(c: Client, left: set<nat>, q: nat)
    requires Calls.Inv(c) && q in left && left <= c.pend.Keys && c.recv == WantSend
    ensures c.pend[q] in c.calls && Partly(c, left)[c.pend[q]] == c.calls[c.pend[q]]
    ensures Rpc.HasRoom(c, c.pend[q])
    ensures Partly(c, left)[c.pend[q] := Disconnected(c.calls[c.pend[q]])] == Partly(c, left - {q})
  {
    Calls.PendingHasRoom(c, q);
    assert Calls.PendAt(c, q) && Calls.TicketAt(c, q - 1);
    forall k | k in c.calls && c.calls[k].num == q ensures k == c.pend[q] {
      assert Calls.CallInv(c, k);
    }
    assert c.calls[c.pend[q]].num == q;
    OneMoreEnded(c, left, q, c.pend[q]);
  }

  lemma OneMoreEnded(c: Client, left: set<nat>, q: nat, j: nat)
    requires q in left && q in c.pend && j in c.calls && c.calls[j].num == q
    requires forall k :: k in c.calls && c.calls[k].num == q ==> k == j
    ensures Partly(c, left)[j] == c.calls[j]
    ensures Partly(c, left)[j := Disconnected(c.calls[j])] == Partly(c, left - {q})
  {
  }

  /** A response whose header was decoded, and whether its body then was, too. */
  datatype Response = Response(h: Header, ok: bool, body: Body)

  /** A call whose response has arrived: an error text, a bad body, or its reply. */
  function Delivered(x: Call, r: Response): Call {
    var done := x.(fired := x.fired + 1, buffered := x.buffered + 1);
    if r.h.error != "" then done.(error := Some(ServerError(Format(r.h.error))))
    else if !r.ok then done.(error := Some(BodyError))
    else if r.body.Reply? then done.(reply := Some(r.body.reply))
    else done
  }

  /** The client after one turn of the receive loop. */
  function AfterResponse(c: Client, r: Response): Client {
    var q := r.h.num;
    c.(pend := c.pend - {q}, recv := if r.ok then Reading else WantSend,
       calls := if q in c.pend && c.pend[q] in c.calls
                then c.calls[c.pend[q] := Delivered(c.calls[c.pend[q]], r)] else c.calls)
  }

  /** The call the response is about: its error or reply, written out, and one completion
      more; no other call has changed. */
  lemma ResponseOutcome(c: Client, r: Response, k: nat)
    requires k in c.calls
    ensures var d := AfterResponse(c, r);
      var x, y, text := c.calls[k], d.calls[k], r.h.error;
      && d.pend == c.pend - {r.h.num} && d.recv == (if r.ok then Reading else WantSend)
      && (if r.h.num in c.pend && c.pend[r.h.num] == k then
            && y.fired == x.fired + 1 && y.buffered == x.buffered + 1
            && (if text != "" then y.error == Some(ServerError(Format(text))) && y.reply == x.reply
                else if !r.ok then y.error == Some(BodyError) && y.reply == x.reply
                else y.error == x.error && (r.body.Reply? ==> y.reply == Some(r.body.reply)))
          else y == x)
  {
  }

  lemma PendingHasRoom(c: Client, q: nat)
    requires Calls.Inv(c) && q in c.pend && c.recv == Reading
    ensures c.pend[q] in c.calls && Rpc.HasRoom(c, c.pend[q])
  {
    Calls.PendingHasRoom(c, q);
  }

  /** The steps of a registered call's writes up to the release of the lock. */
  function WriteSteps(k: nat, headerIo: Io, bodyIo: Io): seq<Action> {
    if headerIo == Failed then [SendHeader(k, headerIo)] + GiveUpSteps(k)
    else if bodyIo == Failed then [SendHeader(k, headerIo)] + ([SendBody(k, bodyIo)] + GiveUpSteps(k))
    else [SendHeader(k, headerIo)] + ([SendBody(k, bodyIo)] + [UnlockSend(k)])
  }

  function GiveUpSteps(k: nat): seq<Action> {
    [TakeBack(k)] + ([CompleteTakenBack(k)] + [UnlockSend(k)])
  }

  function SendSteps(c: Client, k: nat, headerIo: Io, bodyIo: Io): seq<Action> {
    [LockSend(k)] + ([RegisterCall(k)]
      + (if c.closing || c.shutdown then [CompleteRejected(k)] + [UnlockSend(k)]
         else WriteSteps(k, headerIo, bodyIo)))
  }

  /** What registration does to the numbers, and what `Send` adds for its header. */
  function Numbered(c: Client, k: nat): Client
    requires k in c.calls
  {
    c.(calls := c.calls[k := c.calls[k].(num := c.num)], pend := c.pend[c.num := k], num := c.num + 1,
       issued := c.issued + [Ticket(k, c.calls[k].name, c.calls[k].args)])
  }

  lemma RegisterIsNumberThenHeader(c: Client, k: nat)
    requires k in c.calls && !c.closing && !c.shutdown
    ensures Register(c, k) == SetPc(Numbered(c, k), k, Registered).(header := Header(c.calls[k].name, c.num, ""))
  {
    var x := c.calls[k];
    assert c.calls[k := x.(num := c.num)][k := x.(num := c.num, pc := Registered)]
        == c.calls[k := x.(num := c.num, pc := Registered)];
  }

  lemma TakeBackIsRemoveThenError(c: Client, k: nat)
    requires k in c.calls && c.calls[k].num in c.pend && c.pend[c.calls[k].num] == k
    ensures TakeBack'(c, k)
         == Remove(c, c.calls[k].num).(calls := c.calls[k := c.calls[k].(pc := Removed(k), error := Some(WriteError))])
  {
    var x := c.calls[k];
    assert c.calls[k := x.(pc := Removed(k))][k := x.(pc := Removed(k), error := Some(WriteError))]
        == c.calls[k := x.(pc := Removed(k), error := Some(WriteError))];
  }

  lemma UnlockIsAStep(c: Client, k: nat, resp: Wire)
    requires k in c.calls && c.calls[k].pc == Unlocking
    ensures Leads(c, [UnlockSend(k)], resp, SetPc(c, k, Sent).(send := Nobody))
  {
  }

  lemma CompleteIsSteps(c: Client, k: nat, a: Action, resp: Wire)
    requires Rpc.HasRoom(c, k)
    requires (a == CompleteRejected(k) && c.calls[k].pc == Rejected)
          || (a == CompleteTakenBack(k) && c.calls[k].pc == Removed(k))
    ensures Leads(c, [a] + [UnlockSend(k)], resp, Finished(Done(c, k), k))
  {
    var d := SetPc(Done(c, k), k, Unlocking);
    UnlockIsAStep(d, k, resp);
    Step(c, a, resp, [UnlockSend(k)], Finished(Done(c, k), k));
  }

  lemma GiveUpIsSteps(c: Client, k: nat, resp: Wire)
    requires Rpc.HasRoom(c, k) && c.calls[k].pc == WriteFailed && MuFree(c)
    requires c.calls[k].num in c.pend && c.pend[c.calls[k].num] == k
    ensures Leads(c, GiveUpSteps(k), resp, Finished(Done(TakeBack'(c, k), k), k))
  {
    TakeBackIsRemoveThenError(c, k);
    var d := TakeBack'(c, k);
    CompleteIsSteps(d, k, CompleteTakenBack(k), resp);
    Step(c, TakeBack(k), resp, [CompleteTakenBack(k)] + [UnlockSend(k)], Finished(Done(d, k), k));
  }

  /** Everything from the body on. */
  lemma {:induction false} BodyIsSteps(c: Client, k: nat, bodyIo: Io, resp: Wire)
    requires Rpc.HasRoom(c, k) && c.calls[k].pc == Registered && MuFree(c)
    requires c.calls[k].num in c.pend && c.pend[c.calls[k].num] == k
    requires bodyIo != Misfit
    ensures Leads(SetPc(c, k, HeaderOut),
                  [SendBody(k, bodyIo)] + (if bodyIo == Failed then GiveUpSteps(k) else [UnlockSend(k)]),
                  resp, Finished(AfterWrites(c, k, Fine, bodyIo), k))
  {
    var end := Finished(AfterWrites(c, k, Fine, bodyIo), k);
    var d := SetPc(c, k, HeaderOut);
    if bodyIo == Failed {
      assert SetPc(d, k, WriteFailed) == SetPc(c, k, WriteFailed);
      GiveUpIsSteps(SetPc(c, k, WriteFailed), k, resp);
      Step(d, SendBody(k, bodyIo), resp, GiveUpSteps(k), end);
    } else {
      UnlockIsAStep(SetPc(d, k, Unlocking), k, resp);
      Step(d, SendBody(k, bodyIo), resp, [UnlockSend(k)], end);
    }
  }

  lemma WritesAreSteps(c: Client, k: nat, headerIo: Io, bodyIo: Io, resp: Wire)
    requires Rpc.HasRoom(c, k) && c.calls[k].pc == Registered && MuFree(c)
    requires c.calls[k].num in c.pend && c.pend[c.calls[k].num] == k
    requires headerIo != Misfit && bodyIo != Misfit
    ensures Leads(c, WriteSteps(k, headerIo, bodyIo), resp, Finished(AfterWrites(c, k, headerIo, bodyIo), k))
  {
    var end := Finished(AfterWrites(c, k, headerIo, bodyIo), k);
    if headerIo == Failed {
      GiveUpIsSteps(SetPc(c, k, WriteFailed), k, resp);
      Step(c, SendHeader(k, headerIo), resp, GiveUpSteps(k), end);
    } else {
      BodyIsSteps(c, k, bodyIo, resp);
      var rest := [SendBody(k, bodyIo)] + (if bodyIo == Failed then GiveUpSteps(k) else [UnlockSend(k)]);
      Step(c, SendHeader(k, headerIo), resp, rest, end);
    }
  }

  /** `Send` is the steps a caller takes on its own, from the lock to its release. */
  lemma SendIsSteps(c: Client, k: nat, headerIo: Io, bodyIo: Io, resp: Wire)
    requires Rpc.HasRoom(c, k) && c.calls[k].pc == Waiting && c.send == Nobody && MuFree(c)
    requires headerIo != Misfit && bodyIo != Misfit
    ensures Leads(c, SendSteps(c, k, headerIo, bodyIo), resp, AfterSend(c, k, headerIo, bodyIo))
  {
    var locked := SetPc(c, k, Locked).(send := Sender(k));
    var d := Register(locked, k);
    var end := AfterSend(c, k, headerIo, bodyIo);
    var rest := if c.closing || c.shutdown then [CompleteRejected(k)] + [UnlockSend(k)]
                else WriteSteps(k, headerIo, bodyIo);
    if c.closing || c.shutdown {
      CompleteIsSteps(d, k, CompleteRejected(k), resp);
    } else {
      WritesAreSteps(d, k, headerIo, bodyIo, resp);
    }
    Step(locked, RegisterCall(k), resp, rest, end);
    Step(c, LockSend(k), resp, [RegisterCall(k)] + rest, end);
  }

  /** Refused, failed or pending: what the caller is left with when `Send` returns. */
  lemma SendOutcome(c: Client, k: nat, headerIo: Io, bodyIo: Io)
    requires k in c.calls && c.num !in c.pend
    ensures var d := AfterSend(c, k, headerIo, bodyIo);
      var x, y := c.calls[k], d.calls[k];
      && y.pc == Sent && y.name == x.name && y.args == x.args && y.reply == x.reply
      && (forall j :: j in c.calls && j != k ==> d.calls[j] == c.calls[j])
      && (if c.closing || c.shutdown then
            y.error == Some(ErrShutdown) && y.fired == x.fired + 1 && d.pend == c.pend && d.num == c.num
          else if headerIo == Failed || bodyIo == Failed then
            y.error == Some(WriteError) && y.fired == x.fired + 1 && d.pend == c.pend && y.num == c.num
          else y.error == x.error && y.fired == x.fired && y.num == c.num && d.pend == c.pend[c.num := k])
  {
  }

  // ------------------------------------------------------------- receive and terminate

  /** The frames of a response, as far as they can be decoded. */
  function Frames(r: Response): Wire {
    Wire([HeaderFrame(r.h)] + (if r.ok then [BodyFrame(r.body)] else []), 0, true)
  }

  function ResponseSteps(c: Client, r: Response): seq<Action> {
    [RecvHeader(Fine)] + ([RecvRemove]
      + ([RecvBody(BodyIo(r))] + (if r.h.num in c.pend then [RecvComplete] else [])))
  }

  function BodyIo(r: Response): Io {
    if r.ok then Fine else Failed
  }

  function Taken(c: Client, r: Response): Client {
    Remove(c, r.h.num).(recv := Matched(r.h, Pending(c, r.h.num)))
  }

  /** The client between a pending call's body and its completion. */
  function BodyRead(c: Client, r: Response): Client
    requires r.h.num in c.pend && c.pend[r.h.num] in c.calls
  {
    RecvBody'(Taken(c, r), BodyIo(r), Frames(r).(read := 1))
  }

  lemma BodyReadOnlyItsCall(c: Client, r: Response)
    requires r.h.num in c.pend && Rpc.HasRoom(c, c.pend[r.h.num])
    ensures var b, k := BodyRead(c, r), c.pend[r.h.num];
      && k in b.calls && b == Taken(c, r).(calls := c.calls[k := b.calls[k]], recv := Completing(k, !r.ok))
      && b.calls[k].(fired := c.calls[k].fired + 1, buffered := c.calls[k].buffered + 1) == Delivered(c.calls[k], r)
      && b.calls[k].fired == c.calls[k].fired && b.calls[k].buffered == c.calls[k].buffered
      && b.calls[k].capacity == c.calls[k].capacity
  {
  }

  lemma BodyReadCalls(c: Client, r: Response)
    requires r.h.num in c.pend && Rpc.HasRoom(c, c.pend[r.h.num])
    ensures var b, k := BodyRead(c, r), c.pend[r.h.num];
      && b.recv == Completing(k, !r.ok) && Rpc.HasRoom(b, k)
      && Done(b, k).(recv := if r.ok then Reading else WantSend) == AfterResponse(c, r)
  {
    BodyReadOnlyItsCall(c, r);
    var b, k := BodyRead(c, r), c.pend[r.h.num];
    assert c.calls[k := b.calls[k]][k := Done(b, k).calls[k]] == c.calls[k := Delivered(c.calls[k], r)];
  }

  lemma CompleteIsAStep(c: Client, r: Response, resp: Wire)
    requires r.h.num in c.pend && Rpc.HasRoom(c, c.pend[r.h.num])
    ensures Leads(BodyRead(c, r), [RecvComplete], resp, AfterResponse(c, r))
  {
    BodyReadCalls(c, r);
    Step(BodyRead(c, r), RecvComplete, resp, [], AfterResponse(c, r));
    assert [RecvComplete] + [] == [RecvComplete];
  }

  /** The body is read and its call, still pending, completed. */
  lemma {:induction false} BodyThenComplete(c: Client, r: Response)
    requires r.h.num in c.pend && Rpc.HasRoom(c, c.pend[r.h.num])
    ensures Leads(Taken(c, r), [RecvBody(BodyIo(r))] + [RecvComplete], Frames(r).(read := 1), AfterResponse(c, r))
  {
    var resp := Frames(r).(read := 1);
    CompleteIsAStep(c, r, Read(resp, RecvBody(BodyIo(r))));
    Step(Taken(c, r), RecvBody(BodyIo(r)), resp, [RecvComplete], AfterResponse(c, r));
  }

  lemma BodyOfUnknown(c: Client, r: Response)
    requires r.h.num !in c.pend
    ensures Leads(Taken(c, r), [RecvBody(BodyIo(r))] + [], Frames(r).(read := 1), AfterResponse(c, r))
  {
    Step(Taken(c, r), RecvBody(BodyIo(r)), Frames(r).(read := 1), [], AfterResponse(c, r));
  }

  lemma HeaderThenRemove(c: Client, r: Response, rest: seq<Action>)
    requires c.recv == Reading && Leads(Taken(c, r), rest, Frames(r).(read := 1), AfterResponse(c, r))
    ensures Leads(c, [RecvHeader(Fine)] + ([RecvRemove] + rest), Frames(r), AfterResponse(c, r))
  {
    Step(c.(recv := GotHeader(r.h)), RecvRemove, Frames(r).(read := 1), rest, AfterResponse(c, r));
    Step(c, RecvHeader(Fine), Frames(r), [RecvRemove] + rest, AfterResponse(c, r));
  }

  /** One turn of the receive loop: header, removal, body and completion. */
  lemma ResponseIsSteps(c: Client, r: Response)
    requires c.recv == Reading
    requires r.h.num in c.pend ==> Rpc.HasRoom(c, c.pend[r.h.num])
    ensures Leads(c, ResponseSteps(c, r), Frames(r), AfterResponse(c, r))
  {
    if r.h.num in c.pend { BodyThenComplete(c, r); } else { BodyOfUnknown(c, r); }
    HeaderThenRemove(c, r, [RecvBody(BodyIo(r))] + (if r.h.num in c.pend then [RecvComplete] else []));
  }

  lemma ResponseKeepsInv(c: Client, r: Response)
    requires Calls.Inv(c) && c.recv == Reading
    ensures Calls.Inv(AfterResponse(c, r))
  {
    if r.h.num in c.pend { PendingHasRoom(c, r.h.num); }
    ResponseIsSteps(c, r);
    LeadsKeepsInv(c, ResponseSteps(c, r), Frames(r), AfterResponse(c, r));
  }

  /** The loop leaves through an error, that of a header or that of a body. */
  lemma FailedHeaderKeepsInv(c: Client)
    requires Calls.Inv(c) && (c.recv == Reading || c.recv == WantSend)
    ensures Calls.Inv(c.(recv := WantSend))
  {
    if c.recv == Reading { Calls.StepKeepsInv(c, RecvHeader(Failed), Wire([], 0, true)); }
  }

  /** The client after a row of responses, up to the first whose body fails. */
  function AfterResponses(c: Client, rs: seq<Response>): Client
    decreases |rs|
  {
    if rs == [] || c.recv != Reading then c else AfterResponses(AfterResponse(c, rs[0]), rs[1..])
  }

  lemma {:induction false} ResponsesKeepInv(c: Client, rs: seq<Response>)
    requires Calls.Inv(c) && (c.recv == Reading || c.recv == WantSend)
    ensures var d := AfterResponses(c, rs);
      Calls.Inv(d) && (d.recv == Reading || d.recv == WantSend) && d.send == c.send
    decreases |rs|
  {
    if rs != [] && c.recv == Reading {
      ResponseKeepsInv(c, rs[0]);
      ResponsesKeepInv(AfterResponse(c, rs[0]), rs[1..]);
    }
  }

  lemma LoopEndKeepsInv(c: Client, rs: seq<Response>)
    requires Calls.Inv(c) && c.recv == Reading
    ensures var d := AfterResponses(c, rs); Calls.Inv(d.(recv := WantSend)) && d.send == c.send
  {
    ResponsesKeepInv(c, rs);
    FailedHeaderKeepsInv(AfterResponses(c, rs));
  }

  /** In the middle of the row: what is left leads to the same end. */
  ghost predicate TurnOk(c: Client, p: Client, rs: seq<Response>, i: nat) {
    && i <= |rs| && Calls.Inv(p) && (p.recv == Reading || p.recv == WantSend)
    && AfterResponses(p, rs[i..]) == AfterResponses(c, rs)
  }

  lemma NextTurnOk(c: Client, p: Client, rs: seq<Response>, i: nat)
    requires TurnOk(c, p, rs, i) && i < |rs| && p.recv == Reading
    ensures rs[i].h.num in p.pend ==> Rpc.HasRoom(p, p.pend[rs[i].h.num])
    ensures TurnOk(c, AfterResponse(p, rs[i]), rs, i + 1)
    ensures (AfterResponse(p, rs[i]).recv == Reading) == rs[i].ok
  {
    if rs[i].h.num in p.pend { PendingHasRoom(p, rs[i].h.num); }
    ResponseKeepsInv(p, rs[i]);
    assert rs[i..][1..] == rs[i + 1..];
  }

  /** The numbers of `order`, each ended in its turn, then the locks given back. */
  function EndSteps(order: seq<nat>): seq<Action> {
    if order == [] then [TermUnlock] else [TermComplete(order[0])] + EndSteps(order[1..])
  }

  predicate Enumerates(order: seq<nat>, s: set<nat>)
    decreases |order|
  {
    if order == [] then s == {} else order[0] in s && Enumerates(order[1..], s - {order[0]})
  }

  function Midway(c: Client, left: set<nat>): Client {
    c.(calls := Partly(c, left), send := Receiver, shutdown := true, recv := Terminating(left))
  }

  lemma {:induction false} EndsAreSteps(c: Client, order: seq<nat>, left: set<nat>, resp: Wire)
    requires Calls.Inv(c) && c.recv == WantSend && c.send == Nobody && left <= c.pend.Keys && Enumerates(order, left)
    ensures Leads(Midway(c, left), EndSteps(order), resp, Terminated(c))
    decreases |order|
  {
    var m := Midway(c, left);
    if order == [] {
      Step(m, TermUnlock, resp, [], Terminated(c));
      assert [TermUnlock] + [] == [TermUnlock];
    } else {
      var q := order[0];
      PartlyStep(c, left, q);
      EndsAreSteps(c, order[1..], left - {q}, resp);
      EndOneStep(c, q, left);
      Step(m, TermComplete(q), resp, EndSteps(order[1..]), Terminated(c));
    }
  }

  lemma EndOneStep(c: Client, q: nat, left: set<nat>)
    requires q in left && left <= c.pend.Keys && c.pend[q] in c.calls
    requires Partly(c, left)[c.pend[q]] == c.calls[c.pend[q]]
    requires Partly(c, left)[c.pend[q] := Disconnected(c.calls[c.pend[q]])] == Partly(c, left - {q})
    ensures TermComplete'(Midway(c, left), q) == Midway(c, left - {q})
  {
    var m := Midway(c, left);
    assert TermComplete'(m, q).calls == m.calls[c.pend[q] := Disconnected(m.calls[c.pend[q]])];
  }

  /** `terminateCalls`, whatever order the map is walked in, is its steps. */
  lemma TerminateIsSteps(c: Client, order: seq<nat>, resp: Wire)
    requires Calls.Inv(c) && c.recv == WantSend && c.send == Nobody && Enumerates(order, c.pend.Keys)
    ensures Leads(c, [TermLockSend] + ([TermLockMu] + EndSteps(order)), resp, Terminated(c))
  {
    var wanting := c.(send := Receiver, recv := WantMu);
    EndsAreSteps(c, order, c.pend.Keys, resp);
    NoneEnded(c);
    Step(wanting, TermLockMu, resp, EndSteps(order), Terminated(c));
    Step(c, TermLockSend, resp, [TermLockMu] + EndSteps(order), Terminated(c));
  }
}

/**
 The client's own methods on its own mutable state, each proved to take exactly the
 steps of the connection's transition system.
 */
module RpcClient {
  import opened Common
  import opened Formatting
  import opened Rpc
  import opened RpcEffects
  import Calls = RpcCalls

  /** A call as callers see it; its ghost part is where its `Send` and caller are. */
  class CallObject {
    const id: nat
    const name: string
    const args: ByteString
    const capacity: nat
    var num: nat
    var error: Option<CallError>
    var reply: Option<ByteString>
    var buffered: nat  // values in the Done channel
    ghost var pc: SendPc
    ghost var fired: nat
    ghost var dropped: bool
    ghost var taking: Taking

    constructor (id: nat, name: string, args: ByteString, capacity: nat)
      ensures View() == Call(name, args, capacity, Waiting, 0, None, None, 0, 0, false, Open) && this.id == id
    {
      this.id, this.name, this.args, this.capacity := id, name, args, capacity;
      num, error, reply, buffered := 0, None, None, 0;
      pc, fired, dropped, taking := Waiting, 0, false, Open;
    }

    ghost function View(): Call
      reads this
    {
      Call(name, args, capacity, pc, num, error, reply, fired, buffered, dropped, taking)
    }

    /** Sends the call into its own channel, which must have room. */
    method Done()
      requires buffered < capacity
      modifies this`buffered, this`fired
      ensures View() == old(View()).(fired := old(View()).fired + 1, buffered := old(View()).buffered + 1)
    {
      buffered := buffered + 1;
      fired := fired + 1;
    }
  }

  class ClientObject {
    var num: nat
    var pend: map<nat, CallObject>
    var closing: bool
    var shutdown: bool
    var header: Header
    ghost var send: Holder
    ghost var recv: RecvPc
    ghost var issued: seq<Ticket>
    ghost var known: map<nat, CallObject>

    constructor ()
      ensures Valid() && View() == NewClient() && known == map[]
    {
      num, pend, closing, shutdown, header := 1, map[], false, false, Header("", 0, "");
      send, recv, issued, known := Nobody, Reading, [], map[];
    }

    ghost predicate Valid()
      reads this
    {
      && (forall k :: k in known ==> known[k].id == k)
      && (forall q :: q in pend ==> pend[q].id in known && known[pend[q].id] == pend[q])
    }

    ghost predicate Knows(call: CallObject)
      reads this
    {
      call.id in known && known[call.id] == call
    }

    ghost function CallViews(): map<nat, Call>
      reads this`known, known.Values
    {
      map k | k in known :: known[k].View()
    }

    ghost function PendIds(): map<nat, nat>
      reads this`pend
    {
      map q | q in pend :: pend[q].id
    }

    ghost function View(): Client
      reads this, known.Values
    {
      Client(CallViews(), num, PendIds(), closing, shutdown, header, send, recv, issued)
    }

    predicate Available()
      reads this
    {
      !shutdown && !closing
    }

    method IsAvailable() returns (r: bool)
      ensures r == (!shutdown && !closing)
    {
      r := Available();
    }

    /** Closing passes on what closing the connection gives; `result` is that. */
    method Close(result: Option<CallError>) returns (e: Option<CallError>)
      requires Valid()
      modifies this`closing
      ensures Valid()
      ensures if old(closing) then e == Some(ErrShutdown) && View() == old(View())
              else e == result && View() == old(View()).(closing := true)
    {
      if closing { return Some(ErrShutdown); }
      closing := true;
      e := result;
    }

    /** A new number for the call, or a refusal. */
    method RegisterCall(call: CallObject) returns (n: nat, e: Option<CallError>)
      requires Valid() && Knows(call)
      modifies this`num, this`pend, this`issued, call`num
      ensures Valid()
      ensures if old(closing || shutdown) then n == 0 && e == Some(ErrShutdown) && View() == old(View())
              else n == old(num) == call.num && e == None && View() == Numbered(old(View()), call.id)
                   && pend == old(pend)[n := call]
    {
      if closing || shutdown { return 0, Some(ErrShutdown); }
      SetNum(call);
      Park(call);
      return call.num, None;
    }

    /** Puts the numbered call into `pend` and moves on to the next number. */
    method Park(call: CallObject)
      requires Valid() && Knows(call) && call.num == num
      modifies this`num, this`pend, this`issued
      ensures Valid() && pend == old(pend)[call.num := call]
      ensures var c := old(View());
        View() == c.(pend := c.pend[c.num := call.id], num := c.num + 1,
                     issued := c.issued + [Ticket(call.id, call.name, call.args)])
    {
      pend := pend[call.num := call];
      num := num + 1;
      issued := issued + [Ticket(call.id, call.name, call.args)];
      assert PendIds() == old(PendIds())[call.num := call.id];
    }

    method SetNum(call: CallObject)
      requires Valid() && Knows(call)
      modifies call`num
      ensures Valid() && call.num == num
      ensures CallViews() == old(CallViews())[call.id := old(CallViews())[call.id].(num := num)]
    {
      call.num := num;
      assert CallViews() == old(CallViews())[call.id := call.View()];
    }

    /** Takes the number out of `pend`, if it is there. */
    method RemoveCall(q: nat) returns (call: Option<CallObject>)
      requires Valid()
      modifies this`pend
      ensures Valid() && View() == Remove(old(View()), q) && pend == old(pend) - {q}
      ensures if q in old(pend) then call == Some(old(pend)[q]) else call == None
    {
      call := if q in pend then Some(pend[q]) else None;
      pend := pend - {q};
      assert PendIds() == old(PendIds()) - {q};
    }

    ghost method LockSendFor(call: CallObject)
      requires Valid() && Knows(call) && call.pc == Waiting && send == Nobody
      modifies this`send, call`pc
      ensures Valid() && View() == SetPc(old(View()), call.id, Locked).(send := Sender(call.id))
    {
      send := Sender(call.id);
      call.pc := Locked;
      assert CallViews() == old(CallViews())[call.id := call.View()];
    }

    ghost method UnlockSendFor(call: CallObject)
      requires Valid() && Knows(call) && call.pc == Unlocking
      modifies this`send, call`pc
      ensures Valid() && View() == SetPc(old(View()), call.id, Sent).(send := Nobody)
    {
      send := Nobody;
      call.pc := Sent;
      assert CallViews() == old(CallViews())[call.id := call.View()];
    }

    /** Registration and, if it succeeds, the request's header; else the refusal. */
    method Prepare(call: CallObject) returns (ok: bool)
      requires Valid() && Knows(call) && call.pc == Locked
      modifies this`num, this`pend, this`issued, this`header, call`num, call`error, call`pc
      ensures Valid() && View() == Register(old(View()), call.id)
      ensures ok == !old(closing || shutdown)
      ensures ok ==> call.pc == Registered && call.num in pend && pend[call.num] == call
    {
      var n, e := RegisterCall(call);
      ok := e.None?;
      if ok {
        RegisterIsNumberThenHeader(old(View()), call.id);
        Announce(call, n);
      } else {
        Refuse(call, e);
      }
    }

    method Announce(call: CallObject, n: nat)
      requires Valid() && Knows(call)
      modifies this`header, call`pc
      ensures Valid() && View() == SetPc(old(View()), call.id, Registered).(header := Header(call.name, n, ""))
    {
      header := Header(call.name, n, "");
      call.pc := Registered;
      assert CallViews() == old(CallViews())[call.id := call.View()];
    }

    method Refuse(call: CallObject, e: Option<CallError>)
      requires Valid() && Knows(call)
      modifies call`error, call`pc
      ensures Valid()
      ensures var c, k := old(View()), call.id;
        View() == c.(calls := c.calls[k := c.calls[k].(error := e, pc := Rejected)])
    {
      call.error := e;
      call.pc := Rejected;
      assert CallViews() == old(CallViews())[call.id := call.View()];
    }

    /** The error path of `Send` after a failed write: the call is failed if it can be
        taken back out of `pend`; a response may have taken it out already. */
    method GiveUp(call: CallObject) returns (taken: Option<CallObject>)
      requires Valid() && Knows(call) && call.pc == WriteFailed
      requires call.num in pend ==> pend[call.num] == call
      modifies this`pend, call`error, call`pc
      ensures Valid() && View() == TakeBack'(old(View()), call.id)
      ensures if call.num in old(pend) then
                taken == Some(call) && call.pc == Removed(call.id) && call.error == Some(WriteError)
              else taken == None && call.pc == Unlocking
    {
      taken := RemoveCall(call.num);
      if taken.Some? {
        TakeBackIsRemoveThenError(old(View()), call.id);
        Fail(taken.value, WriteError);
      } else {
        MoveTo(call, Unlocking);
      }
    }

    method Fail(call: CallObject, e: CallError)
      requires Valid() && Knows(call)
      modifies call`error, call`pc
      ensures Valid() && call.pc == Removed(call.id) && call.error == Some(e)
      ensures var c, k := old(View()), call.id;
        View() == c.(calls := c.calls[k := c.calls[k].(pc := Removed(k), error := Some(e))])
    {
      call.error := Some(e);
      call.pc := Removed(call.id);
      assert CallViews() == old(CallViews())[call.id := call.View()];
    }

    /** One completion: the call's channel must have room. */
    method Complete(call: CallObject)
      requires Valid() && Knows(call) && call.buffered < call.capacity
      modifies call`buffered, call`fired
      ensures Valid() && View() == Rpc.Done(old(View()), call.id)
    {
      call.Done();
      assert CallViews() == old(CallViews())[call.id := call.View()];
    }

    ghost method MoveTo(call: CallObject, pc: SendPc)
      requires Valid() && Knows(call)
      modifies call`pc
      ensures Valid() && View() == SetPc(old(View()), call.id, pc) && call.pc == pc
    {
      call.pc := pc;
      assert CallViews() == old(CallViews())[call.id := call.View()];
    }

    /** `Send` with nobody in between; the connection decides how the writes end. */
    method Send(call: CallObject, headerIo: Io, bodyIo: Io)
      requires Valid() && Knows(call) && call.pc == Waiting && send == Nobody
      requires call.buffered < call.capacity
      modifies this`num, this`pend, this`issued, this`header, this`send
      modifies call`num, call`error, call`pc, call`buffered, call`fired
      ensures Valid() && View() == AfterSend(old(View()), call.id, headerIo, bodyIo)
    {
      var ok := BeginSend(call);
      if ok {
        WriteRequest(call, headerIo, bodyIo);
      } else {
        Complete(call);
      }
      FinishSend(call);
    }

    method BeginSend(call: CallObject) returns (ok: bool)
      requires Valid() && Knows(call) && call.pc == Waiting && send == Nobody
      modifies this`num, this`pend, this`issued, this`header, this`send, call`num, call`error, call`pc
      ensures Valid() && View() == Begun(old(View()), call.id)
      ensures ok == !old(closing || shutdown)
      ensures ok ==> call.pc == Registered && call.num in pend && pend[call.num] == call
    {
      LockSendFor(call);
      ok := Prepare(call);
    }

    ghost method FinishSend(call: CallObject)
      requires Valid() && Knows(call)
      modifies this`send, call`pc
      ensures Valid() && View() == Finished(old(View()), call.id)
    {
      MoveTo(call, Unlocking);
      UnlockSendFor(call);
    }

    method WriteRequest(call: CallObject, headerIo: Io, bodyIo: Io)
      requires Valid() && Knows(call) && call.pc == Registered && call.buffered < call.capacity
      requires call.num in pend && pend[call.num] == call
      modifies this`pend, call`error, call`pc, call`buffered, call`fired
      ensures Valid() && View() == AfterWrites(old(View()), call.id, headerIo, bodyIo)
    {
      if headerIo != Failed && bodyIo != Failed {
        MoveTo(call, HeaderOut);
      } else {
        MoveTo(call, WriteFailed);
        var taken := GiveUp(call);
        Complete(call);
      }
    }

    /** Ends every pending call; `pend` is left as it is. */
    method TerminateCalls(ghost c: Client)
      requires Valid() && c == View() && Calls.Inv(c) && c.recv == WantSend && c.send == Nobody
      modifies this`shutdown, this`recv, pend.Values
      ensures Valid() && View() == Terminated(c)
      ensures shutdown
      ensures forall q :: q in pend ==> pend[q].error == Some(ConnectionError)
    {
      DisconnectAll(c);
      shutdown := true;
      recv := Ended;
      forall q | q in pend ensures pend[q].error == Some(ConnectionError) { EndedFields(c, q); }
    }

    /** What the abstract end of a pending call means for its object. */
    lemma EndedFields(c: Client, q: nat)
      requires Valid() && View() == Terminated(c) && Calls.Inv(c) && q in pend
      ensures pend[q].error == Some(ConnectionError)
    {
      assert PendIds() == c.pend;
      NumberOfPending(c, q);
      TerminatedOutcome(c, pend[q].id);
      assert CallViews()[pend[q].id] == pend[q].View();
    }

    method DisconnectAll(ghost c: Client)
      requires Valid() && c == View() && Calls.Inv(c) && c.recv == WantSend
      modifies pend.Values
      ensures Valid() && CallViews() == Partly(c, {})
    {
      var left := pend.Keys;
      assert left == c.pend.Keys;
      NoneEnded(c);
      while left != {}
        invariant left <= pend.Keys && Valid() && CallViews() == Partly(c, left)
      {
        var q := Pick(left);
        DisconnectOne(c, left, q);
        left := left - {q};
      }
    }

    /** One round of the loop: the call pending under number `q`. */
    method DisconnectOne(ghost c: Client, ghost left: set<nat>, q: nat)
      requires Valid() && q in left && left <= pend.Keys && CallViews() == Partly(c, left) && PendIds() == c.pend
      requires Calls.Inv(c) && c.recv == WantSend
      modifies pend[q]
      ensures Valid() && CallViews() == Partly(c, left - {q})
    {
      PartlyStep(c, left, q);
      assert CallViews()[c.pend[q]] == pend[q].View();
      Disconnect(pend[q]);
    }

    method Disconnect(call: CallObject)
      requires Valid() && Knows(call) && call.buffered < call.capacity
      modifies call`error, call`buffered, call`fired
      ensures Valid() && CallViews() == old(CallViews())[call.id := Disconnected(old(CallViews())[call.id])]
    {
      call.error := Some(ConnectionError);
      call.Done();
      assert CallViews() == old(CallViews())[call.id := call.View()];
    }

    /** One turn of the receive loop: the response's call, if it is still pending,
        gets its error or reply and is completed. */
    method ReceiveOne(r: Response) returns (failed: bool)
      requires Valid() && recv == Reading
      requires r.h.num in pend ==> pend[r.h.num].buffered < pend[r.h.num].capacity
      modifies this`pend, this`recv, pend.Values
      ensures Valid() && View() == AfterResponse(old(View()), r)
      ensures failed == !r.ok && pend == old(pend) - {r.h.num} && pend.Values <= old(pend.Values)
      ensures r.h.num in old(pend) ==>
                var call := old(pend)[r.h.num];
                && call.buffered == old(pend[r.h.num].buffered) + 1
                && (if r.h.error != "" then call.error == Some(ServerError(Format(r.h.error)))
                    else if !r.ok then call.error == Some(BodyError)
                    else call.error == old(pend[r.h.num].error)
                         && (r.body.Reply? ==> call.reply == Some(r.body.reply)))
    {
      ghost var c := View();
      var call := RemoveCall(r.h.num);
      failed := !r.ok;
      if call.Some? {
        assert call.value.id == c.pend[r.h.num];
        Deliver(call.value, r);
      }
      MoveLoop(if failed then WantSend else Reading);
    }

    ghost method MoveLoop(to: RecvPc)
      requires Valid()
      modifies this`recv
      ensures Valid() && View() == old(View()).(recv := to)
    {
      recv := to;
    }

    method Deliver(call: CallObject, r: Response)
      requires Valid() && Knows(call) && call.buffered < call.capacity
      modifies call`error, call`reply, call`buffered, call`fired
      ensures Valid()
      ensures var c, k := old(View()), call.id; View() == c.(calls := c.calls[k := Delivered(c.calls[k], r)])
      ensures call.buffered == old(call.buffered) + 1
      ensures if r.h.error != "" then
                call.error == Some(ServerError(Format(r.h.error))) && call.reply == old(call.reply)
              else if !r.ok then
                call.error == Some(BodyError) && call.reply == old(call.reply)
              else
                && call.error == old(call.error)
                && call.reply == if r.body.Reply? then Some(r.body.reply) else old(call.reply)
    {
      if r.h.error != "" {
        call.error := Some(ServerError(Format(r.h.error)));
      } else if !r.ok {
        call.error := Some(BodyError);
      } else if r.body.Reply? {
        call.reply := Some(r.body.reply);
      }
      call.Done();
      assert call.View() == Delivered(old(call.View()), r);
      assert CallViews() == old(CallViews())[call.id := call.View()];
    }

    /** The receive loop over the responses that arrive, then `terminateCalls`. */
    method Receive(ghost c: Client, responses: seq<Response>)
      requires Valid() && c == View() && Calls.Inv(c) && c.recv == Reading && c.send == Nobody
      modifies this`pend, this`recv, this`shutdown, pend.Values
      ensures Valid() && View() == Terminated(AfterResponses(c, responses).(recv := WantSend))
    {
      ghost var d := AfterResponses(c, responses);
      LoopEndKeepsInv(c, responses);
      ReceiveAll(c, responses);
      MoveLoop(WantSend);
      TerminateCalls(d.(recv := WantSend));
    }

    /** A turn of the loop, as far as the loop depends on it. */
    method Turn(r: Response) returns (failed: bool)
      requires Valid() && recv == Reading
      requires r.h.num in pend ==> pend[r.h.num].buffered < pend[r.h.num].capacity
      modifies this`pend, this`recv, pend.Values
      ensures Valid() && View() == AfterResponse(old(View()), r)
      ensures failed == !r.ok && pend.Values <= old(pend.Values)
    {
      failed := ReceiveOne(r);
    }

    method ReceiveAll(ghost c: Client, responses: seq<Response>)
      requires Valid() && c == View() && Calls.Inv(c) && c.recv == Reading
      modifies this`pend, this`recv, pend.Values
      ensures Valid() && View() == AfterResponses(c, responses) && pend.Values <= old(pend.Values)
    {
      ghost var p := c;
      var failed := false;
      var i := 0;
      while !failed && i < |responses|
        invariant i <= |responses| && Valid() && p == View()
        invariant TurnOk(c, p, responses, i) && failed == (p.recv != Reading)
        invariant pend.Values <= old(pend.Values)
      {
        NextTurnOk(c, p, responses, i);
        failed := Turn(responses[i]);
        p := View();
        i := i + 1;
      }
    }
  }
}

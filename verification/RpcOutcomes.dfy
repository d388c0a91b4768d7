/**
 What a call is left with, in every run: which error, or which reply, and why.
 */
module RpcOutcomes {
  import opened Common
  import opened Formatting
  import opened Rpc
  import opened RpcCalls

  predicate Blank(x: Call) {
    x.error == None && x.reply == None
  }

  /** The error a call holds is that of what happened to it; before anything did, it holds
      neither an error nor a reply. A cancelled call's number is out of `pend`. */
  predicate OutcomeAt(c: Client, k: nat)
    requires k in c.calls
  {
    var x := c.calls[k];
    && (x.pc == Waiting || x.pc == Locked ==> Blank(x))
    && (x.pc == Rejected || (x.num == 0 && 0 < x.fired) ==> x.error == Some(ErrShutdown) && x.reply == None)
    && (x.pc.Removed? ==> x.error == Some(WriteError) && x.reply == None)
    && (Live(c, x.num) || x.dropped || (c.recv.Matched? && c.recv.call == Some(k)) ==> Blank(x))
    && (x.num in c.pend && !Live(c, x.num) ==> x.error == Some(ConnectionError) && x.reply == None && x.fired == 1)
    && (x.error == Some(ErrShutdown) ==> x.num == 0 && (c.closing || c.shutdown))
    && (x.error == Some(ConnectionError) ==> c.shutdown)
    && (x.taking == Cancelled ==> x.num !in c.pend)
  }

  // -------------------------------------------------------------------- preservation

  lemma CallerKeepsOutcome(c: Client, a: Action, resp: Wire, k: nat)
    requires ClientEnabled(c, a, resp) && Context(c, a) && Known(c, k) && OutcomeAt(c, k)
    requires a.Start? || a.Take? || a.CloseClient?
    ensures k in ClientStep(c, a, resp).calls && OutcomeAt(ClientStep(c, a, resp), k)
  {
  }

  lemma CancelKeepsOutcome(c: Client, j: nat, k: nat)
    requires Known(c, j) && Known(c, k) && OutcomeAt(c, j) && OutcomeAt(c, k)
    requires c.calls[j].pc == Sent && c.calls[j].taking == Open && MuFree(c)
    ensures k in Cancel'(c, j).calls && OutcomeAt(Cancel'(c, j), k)
  {
    NumbersApart(c, j, k);
  }

  lemma LockKeepsOutcome(c: Client, a: Action, resp: Wire, k: nat)
    requires ClientEnabled(c, a, resp) && Context(c, a) && Known(c, k) && OutcomeAt(c, k)
    requires a.LockSend? || a.UnlockSend?
    ensures k in ClientStep(c, a, resp).calls && OutcomeAt(ClientStep(c, a, resp), k)
  {
  }

  lemma RegisterKeepsOutcome(c: Client, j: nat, k: nat)
    requires Known(c, j) && Known(c, k) && OutcomeAt(c, j) && OutcomeAt(c, k) && c.calls[j].pc == Locked && MuFree(c)
    ensures k in Register(c, j).calls && OutcomeAt(Register(c, j), k)
  {
  }

  lemma WriteKeepsOutcome(c: Client, a: Action, resp: Wire, k: nat)
    requires ClientEnabled(c, a, resp) && Context(c, a) && Known(c, k) && OutcomeAt(c, k)
    requires a.SendHeader? || a.SendBody?
    ensures k in ClientStep(c, a, resp).calls && OutcomeAt(ClientStep(c, a, resp), k)
  {
  }

  lemma TakeBackKeepsOutcome(c: Client, j: nat, k: nat)
    requires Known(c, j) && Known(c, k) && OutcomeAt(c, j) && OutcomeAt(c, k)
    requires c.calls[j].pc == WriteFailed && MuFree(c)
    ensures k in TakeBack'(c, j).calls && OutcomeAt(TakeBack'(c, j), k)
  {
    NumbersApart(c, j, k);
    var d := TakeBack'(c, j);
    if j == k {
      assert Live(c, c.calls[j].num) ==> d.calls[k] == c.calls[k].(pc := Removed(j), error := Some(WriteError));
      assert !Live(c, c.calls[j].num) ==> d.calls[k] == c.calls[k].(pc := Unlocking);
    } else {
      assert d.calls[k] == c.calls[k];
    }
  }

  lemma CompleteKeepsOutcome(c: Client, a: Action, resp: Wire, k: nat)
    requires ClientEnabled(c, a, resp) && Context(c, a) && Known(c, k) && OutcomeAt(c, k)
    requires a.CompleteRejected? || a.CompleteTakenBack?
    ensures k in ClientStep(c, a, resp).calls && OutcomeAt(ClientStep(c, a, resp), k)
  {
  }

  lemma ReceiveKeepsOutcome(c: Client, a: Action, resp: Wire, k: nat)
    requires ClientEnabled(c, a, resp) && Context(c, a) && Known(c, k) && OutcomeAt(c, k)
    requires a.RecvHeader? || a.RecvComplete?
    ensures k in ClientStep(c, a, resp).calls && OutcomeAt(ClientStep(c, a, resp), k)
  {
  }

  lemma RemoveKeepsOutcome(c: Client, a: Action, resp: Wire, k: nat)
    requires ClientEnabled(c, a, resp) && Context(c, a) && Known(c, k) && OutcomeAt(c, k) && a.RecvRemove?
    ensures k in ClientStep(c, a, resp).calls && OutcomeAt(ClientStep(c, a, resp), k)
  {
  }

  lemma BodyKeepsOutcome(c: Client, io: Io, wire: Wire, k: nat)
    requires c.recv.Matched? && (c.recv.call.Some? ==> Known(c, c.recv.call.value)) && Known(c, k) && OutcomeAt(c, k)
    requires io == Fine ==> NextIs(wire, false)
    ensures k in RecvBody'(c, io, wire).calls && OutcomeAt(RecvBody'(c, io, wire), k)
  {
    if c.recv.call != Some(k) { assert RecvBody'(c, io, wire).calls[k] == c.calls[k]; }
  }

  lemma TermLockKeepsOutcome(c: Client, a: Action, resp: Wire, k: nat)
    requires ClientEnabled(c, a, resp) && Context(c, a) && Known(c, k) && OutcomeAt(c, k)
    requires a.TermLockSend? || a.TermLockMu? || a.TermUnlock?
    ensures k in ClientStep(c, a, resp).calls && OutcomeAt(ClientStep(c, a, resp), k)
  {
  }

  lemma TermCompleteKeepsOutcome(c: Client, q: nat, k: nat)
    requires c.recv.Terminating? && q in c.recv.left && q in c.pend && NumberOk(c, q)
    requires Known(c, c.pend[q]) && Known(c, k) && OutcomeAt(c, k)
    ensures k in TermComplete'(c, q).calls && OutcomeAt(TermComplete'(c, q), k)
  {
    var j, d := c.pend[q], TermComplete'(c, q);
    if j == k {
      assert c.calls[k].num == q;
      assert d.calls[k] == c.calls[k].(error := Some(ConnectionError), fired := c.calls[k].fired + 1,
                                       buffered := c.calls[k].buffered + 1);
    } else {
      assert d.calls[k] == c.calls[k] && c.calls[k].num != q;
    }
  }

  lemma NewCallOutcome(c: Client, a: Action, resp: Wire)
    requires ClientEnabled(c, a, resp) && Context(c, a) && a.Start?
    ensures a.call in ClientStep(c, a, resp).calls && OutcomeAt(ClientStep(c, a, resp), a.call)
  {
  }

  ghost predicate Outcomes(c: Client) {
    forall k: nat :: k in c.calls ==> OutcomeAt(c, k)
  }

  lemma SendStepKeepsOutcome(c: Client, a: Action, resp: Wire, k: nat)
    requires ClientEnabled(c, a, resp) && Inv(c) && Outcomes(c) && k in c.calls && Actor(a).Some?
    ensures k in ClientStep(c, a, resp).calls && OutcomeAt(ClientStep(c, a, resp), k)
  {
    InvGivesContext(c, a);
    if a.Cancel? {
      CancelKeepsOutcome(c, a.call, k);
    } else if a.RegisterCall? {
      RegisterKeepsOutcome(c, a.call, k);
    } else if a.TakeBack? {
      TakeBackKeepsOutcome(c, a.call, k);
    } else if a.CompleteRejected? || a.CompleteTakenBack? {
      CompleteKeepsOutcome(c, a, resp, k);
    } else if a.SendHeader? || a.SendBody? {
      WriteKeepsOutcome(c, a, resp, k);
    } else if a.LockSend? || a.UnlockSend? {
      LockKeepsOutcome(c, a, resp, k);
    } else {
      CallerKeepsOutcome(c, a, resp, k);
    }
  }

  lemma LoopStepKeepsOutcome(c: Client, a: Action, resp: Wire, k: nat)
    requires ClientEnabled(c, a, resp) && Inv(c) && Outcomes(c) && k in c.calls && Actor(a).None?
    ensures k in ClientStep(c, a, resp).calls && OutcomeAt(ClientStep(c, a, resp), k)
  {
    InvGivesContext(c, a);
    if a.RecvBody? {
      BodyKeepsOutcome(c, a.io, resp, k);
    } else if a.RecvRemove? {
      RemoveKeepsOutcome(c, a, resp, k);
    } else if a.RecvHeader? || a.RecvComplete? {
      ReceiveKeepsOutcome(c, a, resp, k);
    } else if a.TermComplete? {
      TermCompleteKeepsOutcome(c, a.q, k);
    } else if a.CloseClient? {
      CallerKeepsOutcome(c, a, resp, k);
    } else {
      TermLockKeepsOutcome(c, a, resp, k);
    }
  }

  lemma {:induction false} StepKeepsOutcomes(c: Client, a: Action, resp: Wire)
    requires ClientEnabled(c, a, resp) && Inv(c) && Outcomes(c)
    ensures Outcomes(ClientStep(c, a, resp))
  {
    InvGivesContext(c, a);
    var d := ClientStep(c, a, resp);
    forall k: nat | k in d.calls ensures OutcomeAt(d, k) {
      if k !in c.calls {
        assert LockAt(c, k) && PendAt(c, 0);
        StepKeeps(c, a, resp, k, 0);
        NewCallOutcome(c, a, resp);
      } else if Actor(a).Some? {
        SendStepKeepsOutcome(c, a, resp, k);
      } else {
        LoopStepKeepsOutcome(c, a, resp, k);
      }
    }
  }

  lemma {:induction false} RunOutcomes(w: World, acts: seq<Action>)
    requires Run(w, acts).Some?
    ensures Outcomes(Run(w, acts).value.c)
  {
    if acts != [] {
      var fewer, a := acts[..|acts| - 1], acts[|acts| - 1];
      var p := Run(w, fewer).value;
      RunOutcomes(w, fewer);
      if ClientEnabled(p.c, a, p.resp) {
        RpcCalls.RunInv(w, fewer);
        StepKeepsOutcomes(p.c, a, p.resp);
      }
    }
  }

  // ------------------------------------------------------------------------ theorems

  /** Once the receive loop is over, each call whose number is still in `pend` has been
      completed once, with the error of the broken connection; and only then does a call
      hold that error. */
  lemma {:induction false} PendingCallsAreDisconnected(w: World, acts: seq<Action>, k: nat)
    requires Run(w, acts).Some? && k in Run(w, acts).value.c.calls
    ensures var c := Run(w, acts).value.c;
      var x := c.calls[k];
      && (c.recv == Ended && x.num in c.pend ==> x.fired == 1 && x.error == Some(ConnectionError) && x.reply == None)
      && (x.error == Some(ConnectionError) ==> c.recv == Ended || c.recv.Terminating?)
  {
    RpcCalls.RunInv(w, acts);
    RunOutcomes(w, acts);
    assert OutcomeAt(Run(w, acts).value.c, k);
  }

  /** A call holds the error of a closed client if and only if it was completed without ever
      getting a number, and then the client was closed or its connection had ended. */
  lemma {:induction false} RefusedCallsHaveNoNumber(w: World, acts: seq<Action>, k: nat)
    requires Run(w, acts).Some? && k in Run(w, acts).value.c.calls
    ensures var c := Run(w, acts).value.c;
      var x := c.calls[k];
      && (0 < x.fired ==> (x.error == Some(ErrShutdown) <==> x.num == 0))
      && (x.error == Some(ErrShutdown) ==> c.closing || c.shutdown)
  {
    RpcCalls.RunInv(w, acts);
    RunOutcomes(w, acts);
    assert OutcomeAt(Run(w, acts).value.c, k);
  }

  lemma OneMore(w: World, acts: seq<Action>, s: State, a: Action)
    requires Run(w, acts) == Some(s) && Enabled(w, s, a)
    ensures Run(w, acts + [a]) == Some(Apply(w, s, a))
  {
    assert (acts + [a])[..|acts|] == acts;
  }

  /** Closed is closed. */
  lemma {:induction false} ClosingStays(w: World, acts: seq<Action>)
    requires Run(w, acts).Some? && CloseClient in acts
    ensures Run(w, acts).value.c.closing
  {
    var fewer, a := acts[..|acts| - 1], acts[|acts| - 1];
    var p := Run(w, fewer).value;
    assert acts == fewer + [a];
    if CloseClient in fewer { ClosingStays(w, fewer); }
    if ClientEnabled(p.c, a, p.resp) { StepKeepsClosing(p.c, a, p.resp); }
  }

  lemma StepKeepsClosing(c: Client, a: Action, resp: Wire)
    requires ClientEnabled(c, a, resp)
    ensures c.closing || a == CloseClient ==> ClientStep(c, a, resp).closing
  {
    if a.TakeBack? { assert TakeBack'(c, a.call).closing == c.closing; }
  }

  /** Once the client is closed or its receive loop is over, a call that wants a number is
      refused: it holds the error of a closed client, and nothing else has changed. */
  lemma {:induction false} ClosedRefuses(w: World, acts: seq<Action>, s: State, k: nat) returns (t: State)
    requires Run(w, acts) == Some(s) && (CloseClient in acts || s.c.recv == Ended)
    requires ClientEnabled(s.c, RegisterCall(k), s.resp)
    ensures Run(w, acts + [RegisterCall(k)]) == Some(t) && k in s.c.calls && k in t.c.calls
    ensures t.c.calls[k].error == Some(ErrShutdown) && t.c.calls[k].num == s.c.calls[k].num == 0
    ensures t.c.pend == s.c.pend && t.c.num == s.c.num && t.req == s.req
    ensures forall j :: j in s.c.calls && j != k ==> j in t.c.calls && t.c.calls[j] == s.c.calls[j]
  {
    RpcCalls.RunInv(w, acts);
    assert CallInv(s.c, k);
    if CloseClient in acts { ClosingStays(w, acts); }
    t := Apply(w, s, RegisterCall(k));
    OneMore(w, acts, s, RegisterCall(k));
  }

  /** A header that cannot be read ends the receive loop. */
  lemma {:induction false} FailedHeaderEndsLoop(w: World, acts: seq<Action>, s: State) returns (t: State)
    requires Run(w, acts) == Some(s) && s.c.recv == Reading
    ensures Run(w, acts + [RecvHeader(Failed)]) == Some(t)
    ensures t.c.recv == WantSend && t.c.calls == s.c.calls && t.c.pend == s.c.pend
  {
    t := Apply(w, s, RecvHeader(Failed));
    OneMore(w, acts, s, RecvHeader(Failed));
  }

  /** Some write of the call's own request has failed. */
  predicate OwnWriteFailed(acts: seq<Action>, k: nat) {
    SendHeader(k, Failed) in acts || SendBody(k, Failed) in acts
  }

  predicate WroteAt(c: Client, acts: seq<Action>, k: nat) {
    k in c.calls && (c.calls[k].pc == WriteFailed || c.calls[k].pc.Removed? || c.calls[k].error == Some(WriteError)) ==>
      OwnWriteFailed(acts, k)
  }

  lemma SendKeepsWrote(c: Client, acts: seq<Action>, a: Action, resp: Wire, k: nat)
    requires ClientEnabled(c, a, resp) && Context(c, a) && WroteAt(c, acts, k) && (k in c.calls ==> Known(c, k))
    requires Actor(a).Some? && !a.TakeBack?
    ensures WroteAt(ClientStep(c, a, resp), acts + [a], k)
  {
  }

  lemma LoopKeepsWrote(c: Client, acts: seq<Action>, a: Action, resp: Wire, k: nat)
    requires ClientEnabled(c, a, resp) && Context(c, a) && WroteAt(c, acts, k) && (k in c.calls ==> Known(c, k))
    requires Actor(a).None?
    ensures WroteAt(ClientStep(c, a, resp), acts + [a], k)
  {
  }

  lemma TakeBackKeepsWrote(c: Client, acts: seq<Action>, j: nat, k: nat)
    requires Known(c, j) && c.calls[j].pc == WriteFailed && WroteAt(c, acts, j) && WroteAt(c, acts, k)
    ensures WroteAt(TakeBack'(c, j), acts + [TakeBack(j)], k)
  {
    NumbersApart(c, j, j);
    if k in c.calls && j != k { assert TakeBack'(c, j).calls[k] == c.calls[k]; }
  }

  lemma {:induction false} RunWrote(w: World, acts: seq<Action>, k: nat)
    requires Run(w, acts).Some?
    ensures WroteAt(Run(w, acts).value.c, acts, k)
  {
    if acts != [] {
      var fewer, a := acts[..|acts| - 1], acts[|acts| - 1];
      var p := Run(w, fewer).value;
      RunWrote(w, fewer, k);
      assert acts == fewer + [a];
      if ClientEnabled(p.c, a, p.resp) {
        RpcCalls.RunInv(w, fewer);
        InvGivesContext(p.c, a);
        if a.TakeBack? {
          RunWrote(w, fewer, a.call);
          TakeBackKeepsWrote(p.c, fewer, a.call, k);
        } else if Actor(a).Some? {
          SendKeepsWrote(p.c, fewer, a, p.resp, k);
        } else {
          LoopKeepsWrote(p.c, fewer, a, p.resp, k);
        }
      }
    }
  }

  /** A caller is told that its write failed only if a write of its own request did. */
  lemma {:induction false} WriteErrorIsOwn(w: World, acts: seq<Action>, k: nat)
    requires Run(w, acts).Some? && k in Run(w, acts).value.c.calls
    requires Run(w, acts).value.c.calls[k].error == Some(WriteError)
    ensures OwnWriteFailed(acts, k)
  {
    RunWrote(w, acts, k);
  }

  lemma BodyIsAStep(w: World, acts: seq<Action>, s: State, io: Io) returns (u: State)
    requires Run(w, acts) == Some(s) && s.c.recv.Matched? && ClientEnabled(s.c, RecvBody(io), s.resp)
    ensures Run(w, acts + [RecvBody(io)]) == Some(u) && u.c == RecvBody'(s.c, io, s.resp)
  {
    u := Apply(w, s, RecvBody(io));
    OneMore(w, acts, s, RecvBody(io));
  }

  lemma CompletionIsAStep(w: World, acts: seq<Action>, s: State, k: nat, last: bool) returns (t: State)
    requires Run(w, acts) == Some(s) && s.c.recv == Completing(k, last) && HasRoom(s.c, k)
    ensures Run(w, acts + [RecvComplete]) == Some(t) && t.c.recv == (if last then WantSend else Reading)
    ensures var x := s.c.calls[k];
      k in t.c.calls && t.c.calls[k] == x.(fired := x.fired + 1, buffered := x.buffered + 1)
  {
    t := Apply(w, s, RecvComplete);
    OneMore(w, acts, s, RecvComplete);
  }

  lemma BodyRead(c: Client, io: Io, resp: Wire, k: nat)
    requires c.recv.Matched? && c.recv.call == Some(k) && k in c.calls && Blank(c.calls[k]) && HasRoom(c, k)
    requires io == Fine ==> NextIs(resp, false)
    ensures var d, f := RecvBody'(c, io, resp), c.calls[k].fired;
      && d.recv == Completing(k, io != Fine) && HasRoom(d, k)
      && var x := d.calls[k];
      && x.fired == f
      && (if c.recv.h.error != "" then x.error == Some(ServerError(Format(c.recv.h.error))) && x.reply == None
          else if io != Fine then x.error == Some(BodyError) && x.reply == None
          else x.error == None
               && x.reply == (if resp.log[resp.read].b.Reply? then Some(resp.log[resp.read].b.reply) else None))
  {
  }

  lemma HeldIsBlank(w: World, acts: seq<Action>, k: nat)
    requires Run(w, acts).Some? && Run(w, acts).value.c.recv.Matched?
    requires Run(w, acts).value.c.recv.call == Some(k)
    ensures var c := Run(w, acts).value.c;
      k in c.calls && Blank(c.calls[k]) && c.calls[k].fired == 0 && HasRoom(c, k)
  {
    RpcCalls.RunInv(w, acts);
    RunOutcomes(w, acts);
    var c := Run(w, acts).value.c;
    InvGivesContext(c, RecvRemove);
    assert CallInv(c, k) && OutcomeAt(c, k);
  }

  /** In every run, the call that a response is about is completed once, and what it then
      holds is decided by the response: an error text as formatting leaves it; else the
      failure to read the body; else the reply in the body, and no error. The loop goes on
      exactly if the body could be read. */
  lemma {:induction false} ResponseDecides(w: World, acts: seq<Action>, s: State, k: nat, io: Io) returns (t: State)
    requires Run(w, acts) == Some(s) && s.c.recv.Matched? && s.c.recv.call == Some(k)
    requires ClientEnabled(s.c, RecvBody(io), s.resp)
    ensures Run(w, acts + [RecvBody(io), RecvComplete]) == Some(t) && k in t.c.calls
    ensures t.c.recv == if io == Fine then Reading else WantSend
    ensures var x, text := t.c.calls[k], s.c.recv.h.error;
      && x.fired == 1
      && (if text != "" then x.error == Some(ServerError(Format(text))) && x.reply == None
          else if io != Fine then x.error == Some(BodyError) && x.reply == None
          else x.error == None
               && x.reply == (if s.resp.log[s.resp.read].b.Reply? then Some(s.resp.log[s.resp.read].b.reply) else None))
  {
    HeldIsBlank(w, acts, k);
    BodyRead(s.c, io, s.resp, k);
    var u := BodyIsAStep(w, acts, s, io);
    t := CompletionIsAStep(w, acts + [RecvBody(io)], u, k, io != Fine);
    assert acts + [RecvBody(io), RecvComplete] == acts + [RecvBody(io)] + [RecvComplete];
  }

  /** A response whose number is not pending, one that comes too late for example, changes
      no call; the loop reads on if it could read the body. */
  lemma {:induction false} UnknownResponseIsSkipped(w: World, acts: seq<Action>, s: State, io: Io) returns (t: State)
    requires Run(w, acts) == Some(s) && s.c.recv.Matched? && s.c.recv.call == None
    requires ClientEnabled(s.c, RecvBody(io), s.resp)
    ensures Run(w, acts + [RecvBody(io)]) == Some(t) && t.c.calls == s.c.calls && t.c.pend == s.c.pend
    ensures t.c.recv == if io == Fine then Reading else WantSend
  {
    t := BodyIsAStep(w, acts, s, io);
  }

  /** In particular a good reply that is read reaches its caller. */
  lemma {:induction false} ReplyReaches(w: World, acts: seq<Action>, s: State, k: nat, v: ByteString)
    requires Run(w, acts) == Some(s) && s.c.recv.Matched? && s.c.recv.call == Some(k) && s.c.recv.h.error == ""
    requires s.resp.read < |s.resp.log| && s.resp.log[s.resp.read] == BodyFrame(Reply(v))
    ensures var t := Run(w, acts + [RecvBody(Fine), RecvComplete]);
      && t.Some? && t.value.c.recv == Reading && k in t.value.c.calls
      && t.value.c.calls[k].fired == 1 && t.value.c.calls[k].error == None && t.value.c.calls[k].reply == Some(v)
  {
    HeldIsBlank(w, acts, k);
    var t := ResponseDecides(w, acts, s, k, Fine);
  }

  /** Cancelling a call that is pending takes its number out for good: whatever comes
      afterwards, a late response included, the call gets no reply, no error and no completion. */
  lemma {:induction false} CancelledIsForgotten(w: World, acts: seq<Action>, more: seq<Action>, k: nat)
    requires Run(w, acts).Some? && k in Run(w, acts).value.c.calls
    requires var c := Run(w, acts).value.c; c.calls[k].num in c.pend && c.recv != Ended
    requires Enabled(w, Run(w, acts).value, Cancel(k)) && Run(w, (acts + [Cancel(k)]) + more).Some?
    ensures var c := Run(w, (acts + [Cancel(k)]) + more).value.c;
      && k in c.calls && c.calls[k].num !in c.pend
      && c.calls[k].fired == 0 && c.calls[k].error == None && c.calls[k].reply == None
    decreases |more|
  {
    var cancelled := acts + [Cancel(k)];
    assert cancelled[..|acts|] == acts;
    DroppedStays(w, cancelled, more, k);
    RpcCalls.RunInv(w, cancelled + more);
    RunOutcomes(w, cancelled + more);
    assert OutcomeAt(Run(w, cancelled + more).value.c, k) && CallInv(Run(w, cancelled + more).value.c, k);
  }

  predicate IsDropped(c: Client, k: nat) {
    k in c.calls && c.calls[k].dropped && c.calls[k].taking == Cancelled
  }

  lemma SendKeepsDropped(c: Client, a: Action, resp: Wire, k: nat)
    requires ClientEnabled(c, a, resp) && Context(c, a) && Known(c, k) && IsDropped(c, k) && !a.TakeBack?
    requires Actor(a).Some?
    ensures IsDropped(ClientStep(c, a, resp), k)
  {
  }

  lemma LoopKeepsDropped(c: Client, a: Action, resp: Wire, k: nat)
    requires ClientEnabled(c, a, resp) && Context(c, a) && Known(c, k) && IsDropped(c, k) && Actor(a).None?
    ensures IsDropped(ClientStep(c, a, resp), k)
  {
  }

  lemma TakeBackKeepsDropped(c: Client, j: nat, k: nat)
    requires Known(c, j) && Known(c, k) && IsDropped(c, k) && c.calls[j].pc == WriteFailed
    ensures IsDropped(TakeBack'(c, j), k)
  {
    NumbersApart(c, j, k);
    if j != k { assert TakeBack'(c, j).calls[k] == c.calls[k]; }
  }

  lemma {:induction false} DroppedStays(w: World, acts: seq<Action>, more: seq<Action>, k: nat)
    requires Run(w, acts).Some? && IsDropped(Run(w, acts).value.c, k) && Run(w, acts + more).Some?
    ensures IsDropped(Run(w, acts + more).value.c, k)
    decreases |more|
  {
    if more == [] {
      assert acts + more == acts;
    } else {
      var fewer, a := more[..|more| - 1], more[|more| - 1];
      RunSplit(w, acts, more);
      DroppedStays(w, acts, fewer, k);
      RpcCalls.RunInv(w, acts + fewer);
      var p := Run(w, acts + fewer).value;
      if ClientEnabled(p.c, a, p.resp) {
        InvGivesContext(p.c, a);
        if a.TakeBack? {
          TakeBackKeepsDropped(p.c, a.call, k);
        } else if Actor(a).Some? {
          SendKeepsDropped(p.c, a, p.resp, k);
        } else {
          LoopKeepsDropped(p.c, a, p.resp, k);
        }
      }
    }
  }
}

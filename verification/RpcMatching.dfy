/**
 End to end: a call that completes without an error holds what its own method
 computed from its own arguments, in every run, unless a method fails with an empty
 error text.
 */
module RpcMatching {
  import opened Common
  import opened Formatting
  import opened Service
  import opened Rpc
  import Calls = RpcCalls
  import Wires = RpcWires

  function TicketOf(k: nat, x: Call): Ticket {
    Ticket(k, x.name, x.args)
  }

  /** The call's caller holds the method's result, or the method failed wordlessly. */
  predicate Answered(w: World, x: Call) {
    && FindService(w.services, x.name).Ok?
    && (if x.reply.Some? then w.run(x.name, x.args) == Returns(x.reply.value)
        else w.run(x.name, x.args) == Fails(""))
  }

  /** A text from the server that the caller may hold: what formatting leaves of the
      lookup's text for an unknown method; for a known one that of an unreadable body, that
      of a timeout, or what formatting leaves of the method's own. */
  predicate MayTell(w: World, x: Call, text: string) {
    if FindService(w.services, x.name).Ok? then
      || text == BODY_TEXT || (w.timeout && text == TIMEOUT_TEXT)
      || (w.run(x.name, x.args).Fails? && w.run(x.name, x.args).text != ""
          && text == Format(w.run(x.name, x.args).text))
    else
      text == Format(LookupText(w.services, x.name))
  }

  predicate ReplyAt(w: World, c: Client, k: nat)
    requires k in c.calls
  {
    var x := c.calls[k];
    && (x.reply.Some? ==> FindService(w.services, x.name).Ok? && w.run(x.name, x.args) == Returns(x.reply.value))
    && (x.pc == Rejected || x.pc.Removed? ==> x.error.Some?)
    && (0 < x.fired || (c.recv.Completing? && c.recv.target == k) ==> x.error.Some? || Answered(w, x))
    && (x.error.Some? && x.error.value.ServerError? ==>
          MayTell(w, x, x.error.value.text))
  }

  /** The header the receive loop works on, and the body behind it, are about its call. */
  predicate ResponseInHand(w: World, c: Client, resp: Wire) {
    c.recv.Matched? ==>
      && 1 <= c.recv.h.num <= |c.issued|
      && Wires.MayAnswer(w, c.issued[c.recv.h.num - 1], c.recv.h.error)
      && (resp.read < |resp.log| ==>
            Wires.WholeAnswer(w, c.issued, HeaderFrame(c.recv.h), resp.log[resp.read]))
  }

  lemma CallerStepKeepsReply(w: World, c: Client, a: Action, resp: Wire, k: nat)
    requires ClientEnabled(c, a, resp) && Calls.Context(c, a) && Calls.Known(c, k) && ReplyAt(w, c, k)
    requires a.Start? || a.Cancel? || a.Take? || a.CloseClient?
    ensures k in ClientStep(c, a, resp).calls && ReplyAt(w, ClientStep(c, a, resp), k)
  {
  }

  lemma LockStepKeepsReply(w: World, c: Client, a: Action, resp: Wire, k: nat)
    requires ClientEnabled(c, a, resp) && Calls.Context(c, a) && Calls.Known(c, k) && ReplyAt(w, c, k)
    requires a.LockSend? || a.UnlockSend?
    ensures k in ClientStep(c, a, resp).calls && ReplyAt(w, ClientStep(c, a, resp), k)
  {
  }

  lemma RegisterKeepsReply(w: World, c: Client, a: Action, resp: Wire, k: nat)
    requires ClientEnabled(c, a, resp) && Calls.Context(c, a) && Calls.Known(c, k) && ReplyAt(w, c, k)
    requires a.RegisterCall? || a.CompleteRejected?
    ensures k in ClientStep(c, a, resp).calls && ReplyAt(w, ClientStep(c, a, resp), k)
  {
  }

  lemma WriteKeepsReply(w: World, c: Client, a: Action, resp: Wire, k: nat)
    requires ClientEnabled(c, a, resp) && Calls.Context(c, a) && Calls.Known(c, k) && ReplyAt(w, c, k)
    requires a.SendHeader? || a.SendBody?
    ensures k in ClientStep(c, a, resp).calls && ReplyAt(w, ClientStep(c, a, resp), k)
  {
  }

  /** At most the acting call itself is changed. */
  lemma TakeBackCall(c: Client, j: nat, k: nat)
    requires j in c.calls && k in c.calls && (c.calls[j].num in c.pend ==> c.pend[c.calls[j].num] == j)
    ensures var d := TakeBack'(c, j);
      && k in d.calls && d.recv == c.recv
      && d.calls[k] == if j != k then c.calls[k]
                       else if c.calls[j].num in c.pend then c.calls[j].(pc := Removed(j), error := Some(WriteError))
                       else c.calls[j].(pc := Unlocking)
  {
  }

  lemma TakeBackKeepsReply(w: World, c: Client, j: nat, k: nat)
    requires Calls.Known(c, j) && c.calls[j].pc == WriteFailed && Calls.Known(c, k) && ReplyAt(w, c, k)
    ensures k in TakeBack'(c, j).calls && ReplyAt(w, TakeBack'(c, j), k)
  {
    Calls.NumbersApart(c, j, k);
    TakeBackCall(c, j, k);
  }

  lemma CompleteTakenBackKeepsReply(w: World, c: Client, a: Action, resp: Wire, k: nat)
    requires ClientEnabled(c, a, resp) && Calls.Context(c, a) && Calls.Known(c, k) && ReplyAt(w, c, k)
    requires a.CompleteTakenBack?
    ensures k in ClientStep(c, a, resp).calls && ReplyAt(w, ClientStep(c, a, resp), k)
  {
  }

  lemma ReceiveStepKeepsReply(w: World, c: Client, a: Action, resp: Wire, k: nat)
    requires ClientEnabled(c, a, resp) && Calls.Context(c, a) && Calls.Known(c, k) && ReplyAt(w, c, k)
    requires a.RecvHeader? || a.RecvRemove? || a.RecvComplete?
    ensures k in ClientStep(c, a, resp).calls && ReplyAt(w, ClientStep(c, a, resp), k)
  {
  }

  lemma HeldTicket(c: Client, k: nat)
    requires c.recv.Matched? && c.recv.call == Some(k) && Calls.Known(c, k)
    ensures 1 <= c.recv.h.num <= |c.issued| && c.issued[c.recv.h.num - 1] == TicketOf(k, c.calls[k])
  {
  }

  lemma AnswerIsTheReply(w: World, t: Ticket, k: nat, x: Call)
    requires t == TicketOf(k, x) && Wires.MayAnswer(w, t, "")
    ensures FindService(w.services, x.name).Ok?
    ensures match Wires.AnswerBody(w, t, "")
            case Reply(v) => w.run(x.name, x.args) == Returns(v)
            case _ => Wires.AnswerBody(w, t, "").Placeholder? && w.run(x.name, x.args) == Fails("")
  {
    if FindService(w.services, x.name).Err? { LookupTextSigns(w.services, x.name); }
  }

  /** The server's own texts have no percent sign, so formatting leaves them alone. */
  lemma ServerTextsArePlain(text: string)
    requires text == BODY_TEXT || text == TIMEOUT_TEXT
    ensures '%' !in text
  {
  }

  lemma ErrorIsTold(w: World, t: Ticket, k: nat, x: Call, error: string)
    requires t == TicketOf(k, x) && Wires.MayAnswer(w, t, error) && error != ""
    ensures MayTell(w, x, Format(error))
  {
    if error == BODY_TEXT || error == TIMEOUT_TEXT {
      ServerTextsArePlain(error);
      UnchangedIff(error);
    }
  }

  /** The branch for an error text. */
  lemma ErrorGivesOwnReply(w: World, c: Client, io: Io, resp: Wire, k: nat)
    requires c.recv.Matched? && c.recv.call == Some(k) && Calls.Known(c, k) && ReplyAt(w, c, k)
    requires c.recv.h.error != "" && (io == Fine ==> NextIs(resp, false))
    requires ResponseInHand(w, c, resp)
    ensures ReplyAt(w, RecvBody'(c, io, resp), k)
  {
    HeldTicket(c, k);
    ErrorIsTold(w, c.issued[c.recv.h.num - 1], k, c.calls[k], c.recv.h.error);
  }

  /** The branch without one: an undecodable body, or a reply. */
  lemma ReplyIsOwnReply(w: World, c: Client, io: Io, resp: Wire, k: nat)
    requires c.recv.Matched? && c.recv.call == Some(k) && Calls.Known(c, k) && ReplyAt(w, c, k)
    requires c.recv.h.error == "" && (io == Fine ==> NextIs(resp, false))
    requires ResponseInHand(w, c, resp)
    ensures ReplyAt(w, RecvBody'(c, io, resp), k)
  {
    HeldTicket(c, k);
    AnswerIsTheReply(w, c.issued[c.recv.h.num - 1], k, c.calls[k]);
  }

  /** The branches of the receive loop: an error text, an undecodable body, a reply. */
  lemma BodyGivesOwnReply(w: World, c: Client, io: Io, resp: Wire, k: nat)
    requires c.recv.Matched? && c.recv.call == Some(k) && Calls.Known(c, k) && ReplyAt(w, c, k)
    requires io == Fine ==> NextIs(resp, false)
    requires ResponseInHand(w, c, resp)
    ensures ReplyAt(w, RecvBody'(c, io, resp), k)
  {
    if c.recv.h.error != "" {
      ErrorGivesOwnReply(w, c, io, resp, k);
    } else {
      ReplyIsOwnReply(w, c, io, resp, k);
    }
  }

  lemma BodyKeepsOtherReply(w: World, c: Client, io: Io, resp: Wire, k: nat)
    requires c.recv.Matched? && c.recv.call != Some(k) && k in c.calls && ReplyAt(w, c, k)
    requires c.recv.call.Some? ==> c.recv.call.value in c.calls
    requires io == Fine ==> NextIs(resp, false)
    ensures k in RecvBody'(c, io, resp).calls && ReplyAt(w, RecvBody'(c, io, resp), k)
  {
    assert RecvBody'(c, io, resp).calls[k] == c.calls[k];
  }

  lemma TerminateStepKeepsReply(w: World, c: Client, a: Action, resp: Wire, k: nat)
    requires ClientEnabled(c, a, resp) && Calls.Context(c, a) && Calls.Known(c, k) && ReplyAt(w, c, k)
    requires a.TermLockSend? || a.TermLockMu? || a.TermComplete? || a.TermUnlock?
    ensures k in ClientStep(c, a, resp).calls && ReplyAt(w, ClientStep(c, a, resp), k)
  {
  }

  lemma NewCallReply(w: World, c: Client, a: Action, resp: Wire)
    requires ClientEnabled(c, a, resp) && Calls.Context(c, a) && a.Start?
    ensures a.call in ClientStep(c, a, resp).calls && ReplyAt(w, ClientStep(c, a, resp), a.call)
  {
  }

  ghost predicate Inv(w: World, c: Client) {
    forall k: nat :: k in c.calls ==> ReplyAt(w, c, k)
  }

  lemma {:induction false} StepKeepsReply(w: World, c: Client, a: Action, resp: Wire, k: nat)
    requires ClientEnabled(c, a, resp) && Calls.Context(c, a) && ResponseInHand(w, c, resp)
    requires Calls.Known(c, k) && ReplyAt(w, c, k)
    ensures k in ClientStep(c, a, resp).calls && ReplyAt(w, ClientStep(c, a, resp), k)
  {
    if a.TakeBack? {
      TakeBackKeepsReply(w, c, a.call, k);
    } else if a.CompleteTakenBack? {
      CompleteTakenBackKeepsReply(w, c, a, resp, k);
    } else if a.RegisterCall? || a.CompleteRejected? {
      RegisterKeepsReply(w, c, a, resp, k);
    } else if a.SendHeader? || a.SendBody? {
      WriteKeepsReply(w, c, a, resp, k);
    } else if a.RecvHeader? || a.RecvRemove? || a.RecvComplete? {
      ReceiveStepKeepsReply(w, c, a, resp, k);
    } else if a.RecvBody? {
      if c.recv.call == Some(k) {
        BodyGivesOwnReply(w, c, a.io, resp, k);
      } else {
        BodyKeepsOtherReply(w, c, a.io, resp, k);
      }
    } else if a.TermLockSend? || a.TermLockMu? || a.TermComplete? || a.TermUnlock? {
      TerminateStepKeepsReply(w, c, a, resp, k);
    } else if a.LockSend? || a.UnlockSend? {
      LockStepKeepsReply(w, c, a, resp, k);
    } else {
      CallerStepKeepsReply(w, c, a, resp, k);
    }
  }

  lemma {:induction false} StepKeepsInv(w: World, c: Client, a: Action, resp: Wire)
    requires ClientEnabled(c, a, resp) && Calls.Inv(c) && ResponseInHand(w, c, resp) && Inv(w, c)
    ensures Inv(w, ClientStep(c, a, resp))
  {
    Calls.InvGivesContext(c, a);
    var d := ClientStep(c, a, resp);
    forall k: nat | k in d.calls ensures ReplyAt(w, d, k) {
      if k in c.calls {
        StepKeepsReply(w, c, a, resp, k);
      } else {
        assert Calls.LockAt(c, k) && Calls.PendAt(c, 0);
        Calls.StepKeeps(c, a, resp, k, 0);
        NewCallReply(w, c, a, resp);
      }
    }
  }

  lemma InHand(w: World, s: State)
    requires Wires.Inv(w, s)
    ensures ResponseInHand(w, s.c, s.resp)
  {
    if s.c.recv.Matched? {
      var i := s.resp.read;
      assert Wires.ResponseFrameAt(w, s.c.issued, s.resp.log, i - 1);
      assert (i - 1) - (i - 1) % 2 == i - 1;
      assert Wires.ResponseFrameAt(w, s.c.issued, s.resp.log, i);
      if i < |s.resp.log| { Wires.BodyFollowsHeader(w, s.c.issued, s.resp.log, i); }
    }
  }

  lemma {:induction false} RunInv(w: World, acts: seq<Action>)
    requires Run(w, acts).Some?
    ensures Inv(w, Run(w, acts).value.c)
  {
    if acts != [] {
      var fewer, a := acts[..|acts| - 1], acts[|acts| - 1];
      var p := Run(w, fewer).value;
      RunInv(w, fewer);
      if ClientEnabled(p.c, a, p.resp) {
        Calls.RunInv(w, fewer);
        Wires.RunInv(w, fewer);
        InHand(w, p);
        StepKeepsInv(w, p.c, a, p.resp);
      }
    }
  }

  // ------------------------------------------------------------------------ theorems

  /** A call completed without an error was answered by its own method, for its own
      arguments, however requests and responses were reordered, timed out or lost. */
  lemma {:induction false} CompletedCallIsAnswered(w: World, acts: seq<Action>, k: nat)
    requires Run(w, acts).Some? && k in Run(w, acts).value.c.calls
    ensures var x := Run(w, acts).value.c.calls[k];
      0 < x.fired && x.error.None? ==> Answered(w, x)
  {
    RunInv(w, acts);
    assert ReplyAt(w, Run(w, acts).value.c, k);
  }

  /** A server error the caller holds is, for an unknown method, what formatting leaves of
      the lookup's text; for a known one the text of an unreadable body, that of a timeout
      where there is one, or what formatting leaves of the method's own. */
  lemma ServerErrorIsTheMethods(w: World, acts: seq<Action>, k: nat)
    requires Run(w, acts).Some? && k in Run(w, acts).value.c.calls
    ensures var x := Run(w, acts).value.c.calls[k];
      x.error.Some? && x.error.value.ServerError? ==>
        MayTell(w, x, x.error.value.text)
  {
    RunInv(w, acts);
    assert ReplyAt(w, Run(w, acts).value.c, k);
  }

  /** Call `k` of the run is a call of this method, completed without an error. */
  predicate Succeeded(w: World, acts: seq<Action>, k: nat, name: string, args: ByteString) {
    && Run(w, acts).Some? && k in Run(w, acts).value.c.calls
    && var x := Run(w, acts).value.c.calls[k];
    x.name == name && x.args == args && 0 < x.fired && x.error.None?
  }

  predicate HoldsResult(w: World, acts: seq<Action>, k: nat)
    requires Run(w, acts).Some? && k in Run(w, acts).value.c.calls
  {
    var x := Run(w, acts).value.c.calls[k];
    x.reply.Some? && w.run(x.name, x.args) == Returns(x.reply.value)
  }

  /** In every run, success means holding the method's result. */
  ghost predicate SuccessMeansResult(w: World, name: string, args: ByteString) {
    forall acts: seq<Action>, k: nat :: Succeeded(w, acts, k, name, args) ==> HoldsResult(w, acts, k)
  }

  /** The server would find the method, and the method fails with the text. */
  predicate FailsWith(w: World, name: string, args: ByteString, text: string) {
    FindService(w.services, name).Ok? && w.run(name, args) == Fails(text)
  }

  /** Call `k` of the run is a call of this method that holds an error from the server. */
  predicate Refused(w: World, acts: seq<Action>, k: nat, name: string, args: ByteString) {
    && Run(w, acts).Some? && k in Run(w, acts).value.c.calls
    && var x := Run(w, acts).value.c.calls[k];
    x.name == name && x.args == args && x.error.Some? && x.error.value.ServerError?
  }

  predicate HoldsText(w: World, acts: seq<Action>, k: nat, text: string)
    requires Run(w, acts).Some? && k in Run(w, acts).value.c.calls
  {
    var x := Run(w, acts).value.c.calls[k];
    x.error.Some? && x.error.value.ServerError?
    && (x.error.value.text == text || x.error.value.text == BODY_TEXT || x.error.value.text == TIMEOUT_TEXT)
  }
}

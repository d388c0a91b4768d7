/**
 The client half: what the send lock protects, how numbers are issued, and that
 each call is completed at most once.
 */
module RpcCalls {
  import opened Common
  import opened Rpc

  // ----------------------------------------------------------------------- the locks

  /** `Send` of the call is between taking and releasing the send lock. */
  predicate InSend(pc: SendPc) {
    pc != Waiting && pc != Sent
  }

  /** The call is registered and its `Send` has not finished. */
  predicate Registering(pc: SendPc) {
    pc == Registered || pc == HeaderOut || pc == WriteFailed || pc.Removed?
  }

  /** Exactly the call inside `Send` holds the lock as a sender. */
  ghost predicate LockAt(c: Client, k: nat) {
    && (k in c.calls && InSend(c.calls[k].pc) <==> c.send == Sender(k))
    && (c.shutdown && k in c.calls ==> !Registering(c.calls[k].pc))
  }

  /** `terminateCalls` holds the send lock from before it takes `mu`. */
  predicate LockShape(c: Client) {
    && (c.send == Receiver <==> c.recv == WantMu || c.recv.Terminating?)
    && (c.shutdown <==> c.recv.Terminating? || c.recv == Ended)
  }

  // --------------------------------------------------------------------- the numbers

  ghost predicate PendAt(c: Client, q: nat) {
    q in c.pend ==> 1 <= q <= |c.issued| && c.issued[q - 1].call == c.pend[q]
  }

  /** Number `i + 1` belongs to one call, for good. */
  ghost predicate TicketAt(c: Client, i: nat) {
    i < |c.issued| ==>
      var t := c.issued[i];
      t.call in c.calls && c.calls[t.call].num == i + 1
      && c.calls[t.call].name == t.name && c.calls[t.call].args == t.args
  }

  /** Whose completion the receive loop owes. */
  function Held(c: Client): Option<nat> {
    match c.recv
    case Matched(_, k) => k
    case Completing(k, _) => Some(k)
    case _ => None
  }

  ghost predicate CallInv(c: Client, k: nat)
    requires k in c.calls
  {
    var x := c.calls[k];
    && (x.num == 0 || (1 <= x.num <= |c.issued| && c.issued[x.num - 1].call == k))
    && (x.pc == Waiting || x.pc == Locked || x.pc == Rejected ==> x.num == 0)
    && (Registering(x.pc) ==> x.num != 0)
    && (x.pc.Removed? ==> x.pc.call == k)
    && (x.pc == Registered ==> c.header == Header(x.name, x.num, ""))
    && (x.taking != Open ==> x.pc == Sent)
    && (x.dropped ==> x.taking == Cancelled)
    && (Held(c) == Some(k) ==> x.num != 0)
    && (c.recv.Matched? && Held(c) == Some(k) ==> x.num == c.recv.h.num)
    && 1 <= x.capacity
    && x.fired == x.buffered + (if x.taking == Taken then 1 else 0)
    && Tokens(c, k) == 1
  }

  // --------------------------------------------------------- where a completion stands

  /** The number is in `pend` and the call behind it has not been completed by
      `terminateCalls`, which leaves the entries in place. */
  predicate Live(c: Client, q: nat) {
    q in c.pend && match c.recv
                   case Terminating(left) => q in left
                   case Ended => false
                   case _ => true
  }

  /** How many places hold the call's one completion: done already, still before
      registration, pending, with the receive loop, with the error path of `Send`,
      or given up by a cancelled caller. */
  function Tokens(c: Client, k: nat): nat
    requires k in c.calls
  {
    var x := c.calls[k];
    x.fired
    + One(x.pc == Waiting || x.pc == Locked || x.pc == Rejected)
    + One(Live(c, x.num))
    + One(Held(c) == Some(k))
    + One(x.pc == Removed(k))
    + One(x.dropped)
  }

  /** The set `terminateCalls` works through is part of `pend`, and so on. */
  ghost predicate ShapeOk(c: Client) {
    && LockShape(c) && c.num == |c.issued| + 1
    && (c.recv.Terminating? ==> c.recv.left <= c.pend.Keys)
    && (Held(c).Some? ==> Held(c).value in c.calls)
  }

  /** What holds of the client after every run. */
  ghost predicate Inv(c: Client) {
    && ShapeOk(c)
    && (forall q: nat :: PendAt(c, q))
    && (forall i: nat :: TicketAt(c, i))
    && (forall k: nat :: LockAt(c, k))
    && (forall k: nat :: k in c.calls ==> CallInv(c, k))
  }

  // -------------------------------------------------------------------- preservation

  /** The call whose `Send` or caller takes the step. */
  function Actor(a: Action): Option<nat> {
    match a
    case Start(j, _, _, _) => Some(j)
    case Cancel(j) => Some(j)
    case Take(j) => Some(j)
    case LockSend(j) => Some(j)
    case RegisterCall(j) => Some(j)
    case CompleteRejected(j) => Some(j)
    case SendHeader(j, _) => Some(j)
    case SendBody(j, _) => Some(j)
    case TakeBack(j) => Some(j)
    case CompleteTakenBack(j) => Some(j)
    case UnlockSend(j) => Some(j)
    case _ => None
  }

  /** What is known about the call a number belongs to. */
  ghost predicate NumberOk(c: Client, q: nat) {
    PendAt(c, q) && (q != 0 ==> TicketAt(c, q - 1))
  }

  ghost predicate Known(c: Client, k: nat) {
    && LockShape(c) && c.num == |c.issued| + 1
    && k in c.calls && CallInv(c, k) && LockAt(c, k) && NumberOk(c, c.calls[k].num)
  }

  /** What a step may use: the call that takes it, and whom the receive loop works for. */
  ghost predicate Context(c: Client, a: Action) {
    && LockShape(c) && c.num == |c.issued| + 1
    && (Actor(a).Some? && Actor(a).value in c.calls ==> Known(c, Actor(a).value))
    && (Held(c).Some? ==> Known(c, Held(c).value))
    && (c.recv.GotHeader? ==> NumberOk(c, c.recv.h.num))
    && (a.TermComplete? && a.q in c.pend ==> Known(c, c.pend[a.q]) && NumberOk(c, a.q))
    && PendAt(c, 0)
  }

  /** A call keeps its method and arguments, and gets its number once. */
  predicate SameCall(c: Client, d: Client, a: Action, k: nat) {
    k in c.calls ==>
      && k in d.calls && d.calls[k].name == c.calls[k].name && d.calls[k].args == c.calls[k].args
      && (d.calls[k].num == c.calls[k].num || (a == RegisterCall(k) && c.calls[k].num == 0))
  }

  predicate OnlyStartAdds(c: Client, d: Client, a: Action, k: nat) {
    k in d.calls ==> k in c.calls || (a.Start? && a.call == k)
  }

  /** What every step keeps besides the calls' own invariant. */
  ghost predicate Kept(c: Client, d: Client, a: Action, k: nat, q: nat) {
    && ShapeOk(d) && LockAt(d, k) && PendAt(d, q) && SameCall(c, d, a, k) && OnlyStartAdds(c, d, a, k)
    && c.issued <= d.issued && (!a.RegisterCall? ==> d.issued == c.issued)
  }

  lemma CallerKeeps(c: Client, a: Action, resp: Wire, k: nat, q: nat)
    requires ClientEnabled(c, a, resp) && Context(c, a) && ShapeOk(c) && LockAt(c, k) && PendAt(c, q)
    requires a.Start? || a.Cancel? || a.Take? || a.CloseClient?
    ensures Kept(c, ClientStep(c, a, resp), a, k, q)
  {
  }

  lemma LockKeeps(c: Client, a: Action, resp: Wire, k: nat, q: nat)
    requires ClientEnabled(c, a, resp) && Context(c, a) && ShapeOk(c) && LockAt(c, k) && PendAt(c, q)
    requires a.LockSend? || a.UnlockSend? || a.CompleteRejected?
    ensures Kept(c, ClientStep(c, a, resp), a, k, q)
  {
  }

  lemma RegisterKeeps(c: Client, a: Action, resp: Wire, k: nat, q: nat)
    requires ClientEnabled(c, a, resp) && Context(c, a) && ShapeOk(c) && LockAt(c, k) && PendAt(c, q)
    requires a.RegisterCall?
    ensures Kept(c, ClientStep(c, a, resp), a, k, q)
  {
  }

  lemma SendKeeps(c: Client, a: Action, resp: Wire, k: nat, q: nat)
    requires ClientEnabled(c, a, resp) && Context(c, a) && ShapeOk(c) && LockAt(c, k) && PendAt(c, q)
    requires a.SendHeader? || a.SendBody?
    ensures Kept(c, ClientStep(c, a, resp), a, k, q)
  {
  }

  lemma TakeBackKeeps(c: Client, j: nat, k: nat, q: nat)
    requires j in c.calls && c.calls[j].pc == WriteFailed && Context(c, TakeBack(j))
    requires ShapeOk(c) && LockAt(c, k) && PendAt(c, q) && MuFree(c)
    ensures Kept(c, TakeBack'(c, j), TakeBack(j), k, q)
  {
  }

  lemma CompleteTakenBackKeeps(c: Client, a: Action, resp: Wire, k: nat, q: nat)
    requires ClientEnabled(c, a, resp) && Context(c, a) && ShapeOk(c) && LockAt(c, k) && PendAt(c, q)
    requires a.CompleteTakenBack?
    ensures Kept(c, ClientStep(c, a, resp), a, k, q)
  {
  }

  lemma ReceiveKeeps(c: Client, a: Action, resp: Wire, k: nat, q: nat)
    requires ClientEnabled(c, a, resp) && Context(c, a) && ShapeOk(c) && LockAt(c, k) && PendAt(c, q)
    requires a.RecvHeader? || a.RecvRemove? || a.RecvComplete?
    ensures Kept(c, ClientStep(c, a, resp), a, k, q)
  {
  }

  lemma ReceiveBodyKeeps(c: Client, a: Action, resp: Wire, k: nat, q: nat)
    requires a.RecvBody? && c.recv.Matched? && (a.io == Fine ==> NextIs(resp, false))
    requires Context(c, a) && ShapeOk(c) && LockAt(c, k) && PendAt(c, q)
    ensures Kept(c, RecvBody'(c, a.io, resp), a, k, q)
  {
  }

  lemma TerminateKeeps(c: Client, a: Action, resp: Wire, k: nat, q: nat)
    requires ClientEnabled(c, a, resp) && Context(c, a) && ShapeOk(c) && LockAt(c, k) && PendAt(c, q)
    requires a.TermLockSend? || a.TermLockMu? || a.TermComplete? || a.TermUnlock?
    ensures Kept(c, ClientStep(c, a, resp), a, k, q)
  {
  }

  lemma {:induction false} StepKeeps(c: Client, a: Action, resp: Wire, k: nat, q: nat)
    requires ClientEnabled(c, a, resp) && Context(c, a) && ShapeOk(c) && LockAt(c, k) && PendAt(c, q)
    ensures Kept(c, ClientStep(c, a, resp), a, k, q)
  {
    if a.Start? || a.Cancel? || a.Take? || a.CloseClient? {
      CallerKeeps(c, a, resp, k, q);
    } else if a.LockSend? || a.UnlockSend? || a.CompleteRejected? {
      LockKeeps(c, a, resp, k, q);
    } else if a.RegisterCall? {
      RegisterKeeps(c, a, resp, k, q);
    } else if a.SendHeader? || a.SendBody? {
      SendKeeps(c, a, resp, k, q);
    } else if a.TakeBack? {
      TakeBackKeeps(c, a.call, k, q);
    } else if a.CompleteTakenBack? {
      CompleteTakenBackKeeps(c, a, resp, k, q);
    } else if a.RecvHeader? || a.RecvRemove? || a.RecvComplete? {
      ReceiveKeeps(c, a, resp, k, q);
    } else if a.RecvBody? {
      ReceiveBodyKeeps(c, a, resp, k, q);
    } else {
      TerminateKeeps(c, a, resp, k, q);
    }
  }

  lemma StartKeepsCall(c: Client, j: nat, name: string, args: ByteString, capacity: nat, k: nat)
    requires j !in c.calls && 1 <= capacity && LockShape(c) && NumberOk(c, 0)
    requires k == j || Known(c, k)
    requires Held(c) != Some(j)
    ensures CallInv(Start'(c, j, name, args, capacity), k)
  {
  }

  lemma CancelKeepsCall(c: Client, j: nat, k: nat)
    requires Known(c, j) && Known(c, k)
    requires c.calls[j].pc == Sent && c.calls[j].taking == Open && MuFree(c)
    ensures CallInv(Cancel'(c, j), k)
  {
  }

  lemma RegisterKeepsCall(c: Client, j: nat, k: nat)
    requires Known(c, j) && Known(c, k) && c.calls[j].pc == Locked && MuFree(c)
    requires c.recv.Matched? && Held(c) == Some(j) ==> c.calls[j].num != 0
    ensures CallInv(Register(c, j), k)
  {
  }

  /** Two calls never carry the same number, and a number leads back to its call. */
  lemma NumbersApart(c: Client, j: nat, k: nat)
    requires Known(c, j) && Known(c, k)
    ensures j != k && c.calls[j].num != 0 ==> c.calls[j].num != c.calls[k].num
    ensures c.calls[j].num in c.pend ==> c.pend[c.calls[j].num] == j
  {
  }

  lemma TakeBackKeepsOwn(c: Client, j: nat)
    requires Known(c, j) && c.calls[j].pc == WriteFailed && MuFree(c)
    ensures CallInv(TakeBack'(c, j), j)
  {
    NumbersApart(c, j, j);
  }

  lemma {:induction false} TakeBackKeepsOther(c: Client, j: nat, k: nat)
    requires Known(c, j) && Known(c, k) && c.calls[j].pc == WriteFailed && MuFree(c) && j != k
    ensures CallInv(TakeBack'(c, j), k)
  {
    NumbersApart(c, j, k);
    var d := TakeBack'(c, j);
    assert d.calls[k] == c.calls[k] && d.issued == c.issued;
    assert Live(d, c.calls[k].num) == Live(c, c.calls[k].num);
  }

  lemma RecvErrorKeepsOwn(c: Client, io: Io, wire: Wire, k: nat)
    requires c.recv.Matched? && c.recv.call == Some(k) && Known(c, k) && c.recv.h.error != ""
    requires io == Fine ==> NextIs(wire, false)
    ensures CallInv(RecvBody'(c, io, wire), k)
  {
  }

  lemma RecvReplyKeepsOwn(c: Client, io: Io, wire: Wire, k: nat)
    requires c.recv.Matched? && c.recv.call == Some(k) && Known(c, k) && c.recv.h.error == ""
    requires io == Fine ==> NextIs(wire, false)
    ensures CallInv(RecvBody'(c, io, wire), k)
  {
  }

  lemma RecvBodyKeepsOwn(c: Client, io: Io, wire: Wire, k: nat)
    requires c.recv.Matched? && c.recv.call == Some(k) && Known(c, k)
    requires io == Fine ==> NextIs(wire, false)
    ensures CallInv(RecvBody'(c, io, wire), k)
  {
    if c.recv.h.error != "" { RecvErrorKeepsOwn(c, io, wire, k); } else { RecvReplyKeepsOwn(c, io, wire, k); }
  }

  lemma RecvBodyKeepsOther(c: Client, io: Io, wire: Wire, k: nat)
    requires c.recv.Matched? && (c.recv.call.Some? ==> c.recv.call.value in c.calls)
    requires c.recv.call != Some(k) && Known(c, k)
    requires io == Fine ==> NextIs(wire, false)
    ensures CallInv(RecvBody'(c, io, wire), k)
  {
    var d := RecvBody'(c, io, wire);
    assert d.calls[k] == c.calls[k] && d.issued == c.issued && d.pend == c.pend && d.header == c.header;
    assert Live(d, c.calls[k].num) == Live(c, c.calls[k].num);
  }

  lemma TakeKeepsCall(c: Client, j: nat, k: nat)
    requires Known(c, j) && Known(c, k)
    requires c.calls[j].pc == Sent && c.calls[j].taking == Open && 0 < c.calls[j].buffered
    ensures CallInv(c.(calls := c.calls[j := c.calls[j].(taking := Taken, buffered := c.calls[j].buffered - 1)]), k)
  {
  }

  lemma LockKeepsCall(c: Client, j: nat, k: nat)
    requires Known(c, j) && Known(c, k) && c.calls[j].pc == Waiting
    ensures CallInv(SetPc(c, j, Locked).(send := Sender(j)), k)
  {
  }

  lemma UnlockKeepsCall(c: Client, j: nat, k: nat)
    requires Known(c, j) && Known(c, k) && c.calls[j].pc == Unlocking
    ensures CallInv(SetPc(c, j, Sent).(send := Nobody), k)
  {
  }

  lemma WriteKeepsCall(c: Client, j: nat, pc: SendPc, k: nat)
    requires Known(c, j) && Known(c, k) && (c.calls[j].pc == Registered || c.calls[j].pc == HeaderOut)
    requires pc == HeaderOut || pc == Unlocking || pc == WriteFailed
    ensures CallInv(SetPc(c, j, pc), k)
  {
  }

  lemma RecvHeaderKeepsCall(c: Client, to: RecvPc, k: nat)
    requires Known(c, k) && c.recv == Reading && (to.GotHeader? || to == WantSend)
    ensures CallInv(c.(recv := to), k)
  {
  }

  lemma RecvRemoveKeepsCall(c: Client, k: nat)
    requires Known(c, k) && c.recv.GotHeader? && NumberOk(c, c.recv.h.num)
    ensures CallInv(Remove(c, c.recv.h.num).(recv := Matched(c.recv.h, Pending(c, c.recv.h.num))), k)
  {
  }

  lemma CompleteRejectedKeepsCall(c: Client, j: nat, k: nat)
    requires Known(c, j) && Known(c, k) && c.calls[j].pc == Rejected
    ensures CallInv(SetPc(Done(c, j), j, Unlocking), k)
  {
  }

  lemma CompleteTakenBackKeepsCall(c: Client, j: nat, k: nat)
    requires Known(c, j) && Known(c, k) && c.calls[j].pc == Removed(j)
    ensures CallInv(SetPc(Done(c, j), j, Unlocking), k)
  {
  }

  lemma RecvCompleteKeepsCall(c: Client, k: nat)
    requires c.recv.Completing? && Known(c, c.recv.target) && Known(c, k)
    ensures CallInv(Done(c, c.recv.target).(recv := if c.recv.last then WantSend else Reading), k)
  {
  }

  lemma TermLockKeepsCall(c: Client, a: Action, resp: Wire, k: nat)
    requires ClientEnabled(c, a, resp) && Context(c, a) && Known(c, k)
    requires a.TermLockSend? || a.TermLockMu?
    ensures CallInv(ClientStep(c, a, resp), k)
  {
  }

  lemma TermUnlockKeepsCall(c: Client, a: Action, resp: Wire, k: nat)
    requires ClientEnabled(c, a, resp) && Context(c, a) && Known(c, k) && a.TermUnlock?
    ensures CallInv(ClientStep(c, a, resp), k)
  {
  }

  lemma TermCompleteKeepsCall(c: Client, q: nat, k: nat)
    requires c.recv.Terminating? && q in c.recv.left && q in c.pend && NumberOk(c, q)
    requires Known(c, c.pend[q]) && Known(c, k)
    ensures var d := Done(SetError(c, c.pend[q], ConnectionError), c.pend[q]).(recv := Terminating(c.recv.left - {q}));
      CallInv(d, k)
  {
  }

  lemma StepKeepsTicketAt(c: Client, a: Action, resp: Wire, i: nat)
    requires ClientEnabled(c, a, resp) && Inv(c) && Context(c, a)
    ensures TicketAt(ClientStep(c, a, resp), i)
  {
    if i < |c.issued| {
      assert TicketAt(c, i);
      StepKeeps(c, a, resp, c.issued[i].call, 0);
    } else if !a.RegisterCall? {
      StepKeeps(c, a, resp, 0, 0);
    }
  }

  lemma InvGivesContext(c: Client, a: Action)
    requires Inv(c)
    ensures Context(c, a)
    ensures forall k :: k in c.calls ==> Known(c, k)
  {
    forall k | k in c.calls ensures Known(c, k) {
      assert LockAt(c, k) && PendAt(c, c.calls[k].num);
      assert c.calls[k].num != 0 ==> TicketAt(c, c.calls[k].num - 1);
    }
    if c.recv.GotHeader? {
      assert PendAt(c, c.recv.h.num);
      assert c.recv.h.num != 0 ==> TicketAt(c, c.recv.h.num - 1);
    }
    if a.TermComplete? {
      assert PendAt(c, a.q);
      assert a.q != 0 ==> TicketAt(c, a.q - 1);
    }
  }

  lemma {:induction false} SenderStepKeepsCall(c: Client, a: Action, resp: Wire, k: nat)
    requires ClientEnabled(c, a, resp) && Context(c, a) && Known(c, k)
    requires Actor(a).Some? && !a.Start?
    ensures CallInv(ClientStep(c, a, resp), k)
  {
    if a.Cancel? {
      CancelKeepsCall(c, a.call, k);
    } else if a.Take? {
      TakeKeepsCall(c, a.call, k);
    } else if a.RegisterCall? {
      RegisterKeepsCall(c, a.call, k);
    } else if a.CompleteRejected? {
      CompleteRejectedKeepsCall(c, a.call, k);
    } else if a.TakeBack? {
      if a.call == k { TakeBackKeepsOwn(c, k); } else { TakeBackKeepsOther(c, a.call, k); }
    } else if a.CompleteTakenBack? {
      CompleteTakenBackKeepsCall(c, a.call, k);
    } else if a.SendHeader? {
      WriteKeepsCall(c, a.call, if a.io == Failed then WriteFailed else HeaderOut, k);
    } else if a.SendBody? {
      WriteKeepsCall(c, a.call, if a.io == Failed then WriteFailed else Unlocking, k);
    } else if a.LockSend? {
      LockKeepsCall(c, a.call, k);
    } else {
      UnlockKeepsCall(c, a.call, k);
    }
  }

  lemma {:induction false} ReceiveStepKeepsCall(c: Client, a: Action, resp: Wire, k: nat)
    requires ClientEnabled(c, a, resp) && Context(c, a) && Known(c, k)
    requires a.RecvHeader? || a.RecvRemove? || a.RecvBody? || a.RecvComplete?
    ensures CallInv(ClientStep(c, a, resp), k)
  {
    if a.RecvHeader? {
      RecvHeaderKeepsCall(c, ClientStep(c, a, resp).recv, k);
    } else if a.RecvRemove? {
      RecvRemoveKeepsCall(c, k);
    } else if a.RecvBody? {
      if c.recv.call == Some(k) { RecvBodyKeepsOwn(c, a.io, resp, k); } else { RecvBodyKeepsOther(c, a.io, resp, k); }
    } else {
      RecvCompleteKeepsCall(c, k);
    }
  }

  lemma {:induction false} TerminateStepKeepsCall(c: Client, a: Action, resp: Wire, k: nat)
    requires ClientEnabled(c, a, resp) && Context(c, a) && Known(c, k)
    requires a.TermLockSend? || a.TermLockMu? || a.TermComplete? || a.TermUnlock? || a.CloseClient?
    ensures CallInv(ClientStep(c, a, resp), k)
  {
    if a.TermComplete? {
      TermCompleteKeepsCall(c, a.q, k);
    } else if a.TermUnlock? {
      TermUnlockKeepsCall(c, a, resp, k);
    } else if !a.CloseClient? {
      TermLockKeepsCall(c, a, resp, k);
    }
  }

  lemma {:induction false} StepKeepsCall(c: Client, a: Action, resp: Wire, k: nat)
    requires ClientEnabled(c, a, resp) && Context(c, a)
    requires Known(c, k) || (a.Start? && a.call == k)
    ensures CallInv(ClientStep(c, a, resp), k)
  {
    if a.Start? {
      StartKeepsCall(c, a.call, a.name, a.args, a.capacity, k);
    } else if Actor(a).Some? {
      SenderStepKeepsCall(c, a, resp, k);
    } else if a.RecvHeader? || a.RecvRemove? || a.RecvBody? || a.RecvComplete? {
      ReceiveStepKeepsCall(c, a, resp, k);
    } else {
      TerminateStepKeepsCall(c, a, resp, k);
    }
  }

  lemma StepKeepsInv(c: Client, a: Action, resp: Wire)
    requires ClientEnabled(c, a, resp) && Inv(c)
    ensures Inv(ClientStep(c, a, resp))
  {
    InvGivesContext(c, a);
    var d := ClientStep(c, a, resp);
    assert LockAt(c, 0) && PendAt(c, 0);
    StepKeeps(c, a, resp, 0, 0);
    forall q: nat ensures PendAt(d, q) { assert PendAt(c, q); StepKeeps(c, a, resp, 0, q); }
    forall k: nat ensures LockAt(d, k) { assert LockAt(c, k); StepKeeps(c, a, resp, k, 0); }
    forall i: nat ensures TicketAt(d, i) { StepKeepsTicketAt(c, a, resp, i); }
    forall k: nat | k in d.calls ensures CallInv(d, k) {
      assert LockAt(c, k);
      StepKeeps(c, a, resp, k, 0);
      StepKeepsCall(c, a, resp, k);
    }
  }

  /** After every run, every call's one completion is in exactly one place. */
  lemma {:induction false} RunInv(w: World, acts: seq<Action>)
    requires Run(w, acts).Some?
    ensures Inv(Run(w, acts).value.c)
  {
    if acts != [] {
      var p := Run(w, acts[..|acts| - 1]).value;
      RunInv(w, acts[..|acts| - 1]);
      if ClientEnabled(p.c, acts[|acts| - 1], p.resp) {
        StepKeepsInv(p.c, acts[|acts| - 1], p.resp);
      }
    }
  }

  // ------------------------------------------------------------------------ theorems

  /** `done` fires at most once per call, whatever the interleaving. */
  lemma {:induction false} CompletedAtMostOnce(w: World, acts: seq<Action>, k: nat)
    requires Run(w, acts).Some? && k in Run(w, acts).value.c.calls
    ensures Run(w, acts).value.c.calls[k].fired <= 1
    ensures Run(w, acts).value.c.calls[k].buffered <= Run(w, acts).value.c.calls[k].fired
  {
    RunInv(w, acts);
    assert CallInv(Run(w, acts).value.c, k);
  }

  /** The call's outcome is as it was. */
  predicate Settled(c: Client, d: Client, k: nat) {
    && k in c.calls && k in d.calls && d.calls[k].fired == c.calls[k].fired
    && d.calls[k].error == c.calls[k].error && d.calls[k].reply == c.calls[k].reply
  }

  lemma SendLeavesSettled(c: Client, a: Action, resp: Wire, k: nat)
    requires ClientEnabled(c, a, resp) && Context(c, a) && Known(c, k) && 0 < c.calls[k].fired
    requires a.RegisterCall? || a.CompleteRejected? || a.CompleteTakenBack?
    ensures Settled(c, ClientStep(c, a, resp), k)
  {
  }

  lemma TakeBackLeavesSettled(c: Client, a: Action, resp: Wire, k: nat)
    requires ClientEnabled(c, a, resp) && Context(c, a) && Known(c, k) && 0 < c.calls[k].fired && a.TakeBack?
    ensures Settled(c, ClientStep(c, a, resp), k)
  {
    NumbersApart(c, a.call, k);
    if a.call != k { assert TakeBack'(c, a.call).calls[k] == c.calls[k]; }
  }

  /** The receive loop works for a call that is not completed. */
  lemma HeldIsOpen(c: Client, k: nat)
    requires Held(c) == Some(k) && Known(c, k)
    ensures c.calls[k].fired == 0
  {
  }

  lemma BodyLeavesSettled(c: Client, io: Io, resp: Wire, k: nat)
    requires c.recv.Matched? && c.recv.call != Some(k) && (c.recv.call.Some? ==> c.recv.call.value in c.calls)
    requires k in c.calls && (io == Fine ==> NextIs(resp, false))
    ensures Settled(c, RecvBody'(c, io, resp), k)
  {
  }

  lemma CompletionLeavesSettled(c: Client, a: Action, resp: Wire, k: nat)
    requires ClientEnabled(c, a, resp) && k in c.calls && a.RecvComplete? && c.recv.target != k
    ensures Settled(c, ClientStep(c, a, resp), k)
  {
  }

  lemma PendingIsOpen(c: Client, a: Action, resp: Wire)
    requires ClientEnabled(c, a, resp) && Context(c, a) && a.TermComplete?
    ensures c.pend[a.q] in c.calls && c.calls[c.pend[a.q]].fired == 0
  {
  }

  lemma TerminationLeavesSettled(c: Client, a: Action, resp: Wire, k: nat)
    requires ClientEnabled(c, a, resp) && k in c.calls && a.TermComplete? && c.pend[a.q] != k
    ensures Settled(c, ClientStep(c, a, resp), k)
  {
  }

  lemma OthersLeaveSettled(c: Client, a: Action, resp: Wire, k: nat)
    requires ClientEnabled(c, a, resp) && Context(c, a) && k in c.calls
    requires !a.RegisterCall? && !a.CompleteRejected? && !a.CompleteTakenBack? && !a.TakeBack?
    requires !a.RecvBody? && !a.RecvComplete? && !a.TermComplete?
    ensures Settled(c, ClientStep(c, a, resp), k)
  {
  }

  lemma StepLeavesSettled(c: Client, a: Action, resp: Wire, k: nat)
    requires ClientEnabled(c, a, resp) && Inv(c) && k in c.calls && 0 < c.calls[k].fired
    ensures Settled(c, ClientStep(c, a, resp), k)
  {
    InvGivesContext(c, a);
    if a.RegisterCall? || a.CompleteRejected? || a.CompleteTakenBack? {
      SendLeavesSettled(c, a, resp, k);
    } else if a.TakeBack? {
      TakeBackLeavesSettled(c, a, resp, k);
    } else if a.RecvBody? {
      if c.recv.call == Some(k) { HeldIsOpen(c, k); }
      BodyLeavesSettled(c, a.io, resp, k);
    } else if a.RecvComplete? {
      if c.recv.target == k { HeldIsOpen(c, k); }
      CompletionLeavesSettled(c, a, resp, k);
    } else if a.TermComplete? {
      PendingIsOpen(c, a, resp);
      TerminationLeavesSettled(c, a, resp, k);
    } else {
      OthersLeaveSettled(c, a, resp, k);
    }
  }

  /** Once `done` has fired for a call, its error and its reply are final: nothing that
      happens afterwards changes them or fires again. */
  lemma {:induction false} OutcomeIsFinal(w: World, acts: seq<Action>, more: seq<Action>, k: nat)
    requires Run(w, acts).Some? && Run(w, acts + more).Some?
    requires k in Run(w, acts).value.c.calls && 0 < Run(w, acts).value.c.calls[k].fired
    ensures Settled(Run(w, acts).value.c, Run(w, acts + more).value.c, k)
    decreases |more|
  {
    if more == [] {
      assert acts + more == acts;
    } else {
      var fewer, a := more[..|more| - 1], more[|more| - 1];
      RunSplit(w, acts, more);
      OutcomeIsFinal(w, acts, fewer, k);
      RunInv(w, acts + fewer);
      var p := Run(w, acts + fewer).value;
      if ClientEnabled(p.c, a, p.resp) { StepLeavesSettled(p.c, a, p.resp, k); }
    }
  }

  /** Once the receive loop is over, a call whose `Send` has returned was completed
      exactly once, unless its caller cancelled it while it was pending. */
  lemma CompletedExactlyOnceAtTheEnd(w: World, acts: seq<Action>, k: nat)
    requires Run(w, acts).Some? && k in Run(w, acts).value.c.calls
    requires Run(w, acts).value.c.recv == Ended && Run(w, acts).value.c.calls[k].pc == Sent
    ensures var x := Run(w, acts).value.c.calls[k];
      x.fired == (if x.dropped then 0 else 1) && (x.dropped ==> x.taking == Cancelled)
  {
    RunInv(w, acts);
    assert CallInv(Run(w, acts).value.c, k);
  }

  /** While `terminateCalls` wants `mu` or holds it, and ever after, no `Send` is
      between registering its call and returning: none can find its call in `pend`. */
  lemma {:induction false} TerminationExcludesSend(w: World, acts: seq<Action>, k: nat)
    requires Run(w, acts).Some? && k in Run(w, acts).value.c.calls
    requires Run(w, acts).value.c.send == Receiver || Run(w, acts).value.c.shutdown
    ensures !Registering(Run(w, acts).value.c.calls[k].pc)
  {
    RunInv(w, acts);
    assert LockAt(Run(w, acts).value.c, k);
  }

  lemma PendingHasRoom(c: Client, q: nat)
    requires Inv(c) && q in c.pend && Live(c, q)
    ensures HasRoom(c, c.pend[q])
  {
    assert PendAt(c, q) && TicketAt(c, q - 1);
    assert CallInv(c, c.pend[q]);
  }

  /** No completion ever finds the call's channel full: not that of a refused call, of
      a failed write, of a response, nor those of `terminateCalls` under both locks. */
  lemma {:induction false} DoneNeverBlocks(w: World, acts: seq<Action>)
    requires Run(w, acts).Some?
    ensures var c := Run(w, acts).value.c;
      && (forall k :: k in c.calls && c.calls[k].pc == Rejected ==> HasRoom(c, k))
      && (forall k :: k in c.calls && c.calls[k].pc.Removed? ==> HasRoom(c, c.calls[k].pc.call))
      && (c.recv.Completing? ==> HasRoom(c, c.recv.target))
      && (c.recv.Terminating? ==> forall q :: q in c.recv.left ==> q in c.pend && HasRoom(c, c.pend[q]))
  {
    RunInv(w, acts);
    RoomFor(Run(w, acts).value.c);
  }

  lemma RoomFor(c: Client)
    requires Inv(c)
    ensures forall k :: k in c.calls && c.calls[k].pc == Rejected ==> HasRoom(c, k)
    ensures forall k :: k in c.calls && c.calls[k].pc.Removed? ==> HasRoom(c, c.calls[k].pc.call)
    ensures c.recv.Completing? ==> HasRoom(c, c.recv.target)
    ensures c.recv.Terminating? ==> forall q :: q in c.recv.left ==> q in c.pend && HasRoom(c, c.pend[q])
  {
    forall k | k in c.calls && c.calls[k].pc == Rejected ensures HasRoom(c, k) { assert CallInv(c, k); }
    forall k | k in c.calls && c.calls[k].pc.Removed? ensures HasRoom(c, c.calls[k].pc.call) { assert CallInv(c, k); }
    if c.recv.Completing? { assert CallInv(c, c.recv.target); }
    if c.recv.Terminating? {
      forall q | q in c.recv.left ensures q in c.pend && HasRoom(c, c.pend[q]) { PendingHasRoom(c, q); }
    }
  }

  /** The next step of whoever holds the send lock; writes may fail at any time. */
  ghost function HolderAction(c: Client, io: Io): Action
    requires c.send != Nobody
    requires c.send.Sender? ==> c.send.call in c.calls
  {
    match c.send
    case Sender(k) =>
      (match c.calls[k].pc
       case Locked => RegisterCall(k)
       case Rejected => CompleteRejected(k)
       case Registered => SendHeader(k, io)
       case HeaderOut => SendBody(k, io)
       case WriteFailed => TakeBack(k)
       case Removed(_) => CompleteTakenBack(k)
       case _ => UnlockSend(k))
    case Receiver =>
      (match c.recv
       case Terminating(left) => if left == {} then TermUnlock else TermComplete(Any(left))
       case _ => TermLockMu)
  }

  /** How many steps the holder of the send lock still needs at most. */
  function Rank(c: Client): nat
    requires c.send.Sender? ==> c.send.call in c.calls
  {
    match c.send
    case Nobody => 0
    case Sender(k) =>
      (match c.calls[k].pc
       case Locked => 6
       case Registered => 5
       case HeaderOut => 4
       case WriteFailed => 3
       case Removed(_) => 2
       case Rejected => 2
       case _ => 1)
    case Receiver =>
      (match c.recv
       case Terminating(left) => |left| + 1
       case _ => |c.pend.Keys| + 2)
  }

  lemma LockProgresses(c: Client, resp: Wire, io: Io, k: nat)
    requires Known(c, k) && c.send == Sender(k) && io != Misfit
    requires c.calls[k].pc == Locked || c.calls[k].pc == Rejected || c.calls[k].pc == Unlocking
    requires c.calls[k].pc == Rejected ==> HasRoom(c, k)
    ensures ClientEnabled(c, HolderAction(c, io), resp)
    ensures var d := ClientStep(c, HolderAction(c, io), resp);
      k in d.calls && Rank(d) < Rank(c) && (d.send == Nobody || d.send == c.send)
  {
  }

  lemma WriteProgresses(c: Client, resp: Wire, io: Io, k: nat)
    requires Known(c, k) && c.send == Sender(k) && io != Misfit
    requires c.calls[k].pc == Registered || c.calls[k].pc == HeaderOut
    ensures ClientEnabled(c, HolderAction(c, io), resp)
    ensures var d := ClientStep(c, HolderAction(c, io), resp);
      k in d.calls && Rank(d) < Rank(c) && (d.send == Nobody || d.send == c.send)
  {
  }

  lemma GiveUpProgresses(c: Client, resp: Wire, io: Io, k: nat)
    requires Known(c, k) && c.send == Sender(k) && io != Misfit
    requires c.calls[k].pc == WriteFailed || c.calls[k].pc.Removed?
    requires c.calls[k].pc.Removed? ==> HasRoom(c, c.calls[k].pc.call)
    ensures ClientEnabled(c, HolderAction(c, io), resp)
    ensures var d := ClientStep(c, HolderAction(c, io), resp);
      k in d.calls && Rank(d) < Rank(c) && (d.send == Nobody || d.send == c.send)
  {
    NumbersApart(c, k, k);
  }

  lemma SenderProgresses(c: Client, resp: Wire, io: Io, k: nat)
    requires Known(c, k) && c.send == Sender(k) && io != Misfit
    requires c.calls[k].pc == Rejected ==> HasRoom(c, k)
    requires c.calls[k].pc.Removed? ==> HasRoom(c, c.calls[k].pc.call)
    ensures ClientEnabled(c, HolderAction(c, io), resp)
    ensures var d := ClientStep(c, HolderAction(c, io), resp);
      k in d.calls && Rank(d) < Rank(c) && (d.send == Nobody || d.send == c.send)
  {
    var pc := c.calls[k].pc;
    if pc == Registered || pc == HeaderOut {
      WriteProgresses(c, resp, io, k);
    } else if pc == WriteFailed || pc.Removed? {
      GiveUpProgresses(c, resp, io, k);
    } else {
      LockProgresses(c, resp, io, k);
    }
  }

  lemma ReceiverProgresses(c: Client, resp: Wire, io: Io)
    requires ShapeOk(c) && c.send == Receiver
    requires c.recv.Terminating? ==> forall q :: q in c.recv.left ==> q in c.pend && HasRoom(c, c.pend[q])
    ensures ClientEnabled(c, HolderAction(c, io), resp)
    ensures var d := ClientStep(c, HolderAction(c, io), resp); !d.send.Sender? && Rank(d) < Rank(c)
  {
  }

  /** The holder of the send lock is a call we know, or the receive loop. */
  lemma HolderKnown(c: Client)
    requires Inv(c)
    ensures c.send.Sender? ==> Known(c, c.send.call) && InSend(c.calls[c.send.call].pc)
  {
    if c.send.Sender? {
      assert LockAt(c, c.send.call);
      InvGivesContext(c, CloseClient);
    }
  }

  /** Whoever holds the send lock can always move, and each move brings it closer to
      giving the lock back: the client's goroutines never deadlock on their locks. */
  lemma {:induction false} HolderProgresses(w: World, acts: seq<Action>, io: Io)
    requires Run(w, acts).Some? && Run(w, acts).value.c.send != Nobody && io != Misfit
    ensures var c, resp := Run(w, acts).value.c, Run(w, acts).value.resp;
      && (c.send.Sender? ==> c.send.call in c.calls)
      && ClientEnabled(c, HolderAction(c, io), resp)
      && (var d := ClientStep(c, HolderAction(c, io), resp);
          (d.send.Sender? ==> d.send.call in d.calls) && Rank(d) < Rank(c))
  {
    RunInv(w, acts);
    var c, resp := Run(w, acts).value.c, Run(w, acts).value.resp;
    HolderKnown(c);
    RoomFor(c);
    if c.send.Sender? {
      SenderProgresses(c, resp, io, c.send.call);
    } else {
      ReceiverProgresses(c, resp, io);
    }
  }

  /** The step leaves the send lock's holder at most as far from giving it back. */
  predicate NoDelay(c: Client, d: Client)
    requires c.send.Sender? ==> c.send.call in c.calls
  {
    (d.send.Sender? ==> d.send.call in d.calls) && Rank(d) <= Rank(c)
  }

  lemma CallerDoesNotDelay(c: Client, a: Action, resp: Wire)
    requires ClientEnabled(c, a, resp) && LockShape(c) && c.send != Nobody
    requires c.send.Sender? ==> Known(c, c.send.call) && InSend(c.calls[c.send.call].pc)
    requires a.Start? || a.Cancel? || a.Take? || a.CloseClient?
    ensures NoDelay(c, ClientStep(c, a, resp))
  {
    if a.Cancel? {
      FewerPending(c, c.calls[a.call].num);
    }
  }

  lemma FewerPending(c: Client, q: nat)
    ensures |Remove(c, q).pend.Keys| <= |c.pend.Keys|
  {
    if q in c.pend {
      assert Remove(c, q).pend.Keys == c.pend.Keys - {q};
    } else {
      assert Remove(c, q).pend == c.pend;
    }
  }

  lemma SenderDoesNotDelay(c: Client, a: Action, resp: Wire)
    requires ClientEnabled(c, a, resp) && Context(c, a) && c.send.Sender?
    requires Actor(a) == Some(c.send.call) && Known(c, c.send.call) && InSend(c.calls[c.send.call].pc)
    requires !a.TakeBack? && !a.CompleteTakenBack?
    ensures NoDelay(c, ClientStep(c, a, resp))
  {
  }

  lemma GiveUpDoesNotDelay(c: Client, a: Action, resp: Wire)
    requires ClientEnabled(c, a, resp) && Context(c, a) && c.send.Sender?
    requires Actor(a) == Some(c.send.call) && Known(c, c.send.call)
    requires a.TakeBack? || a.CompleteTakenBack?
    ensures NoDelay(c, ClientStep(c, a, resp))
  {
    NumbersApart(c, a.call, a.call);
  }

  lemma ReceiverDoesNotDelay(c: Client, a: Action, resp: Wire)
    requires ClientEnabled(c, a, resp) && Context(c, a) && c.send.Sender? && c.send.call in c.calls
    requires a.RecvHeader? || a.RecvRemove? || a.RecvComplete?
    ensures NoDelay(c, ClientStep(c, a, resp))
  {
  }

  lemma BodyDoesNotDelay(c: Client, io: Io, wire: Wire)
    requires c.recv.Matched? && (c.recv.call.Some? ==> c.recv.call.value in c.calls)
    requires (io == Fine ==> NextIs(wire, false)) && c.send.Sender? && c.send.call in c.calls
    ensures NoDelay(c, RecvBody'(c, io, wire))
  {
  }

  lemma TerminatorDoesNotDelay(c: Client, a: Action, resp: Wire)
    requires ClientEnabled(c, a, resp) && ShapeOk(c) && c.send == Receiver
    requires a.TermLockMu? || a.TermComplete? || a.TermUnlock?
    ensures NoDelay(c, ClientStep(c, a, resp))
  {
  }

  /** Nobody else can push the holder of the send lock back. */
  lemma {:induction false} OthersDoNotDelay(w: World, acts: seq<Action>, a: Action)
    requires Run(w, acts).Some? && Run(w, acts).value.c.send != Nobody
    requires ClientEnabled(Run(w, acts).value.c, a, Run(w, acts).value.resp)
    ensures var c := Run(w, acts).value.c;
      (c.send.Sender? ==> c.send.call in c.calls) && NoDelay(c, ClientStep(c, a, Run(w, acts).value.resp))
  {
    RunInv(w, acts);
    var c, resp := Run(w, acts).value.c, Run(w, acts).value.resp;
    HolderKnown(c);
    InvGivesContext(c, a);
    StepDoesNotDelay(c, a, resp);
  }

  lemma {:induction false} StepDoesNotDelay(c: Client, a: Action, resp: Wire)
    requires ClientEnabled(c, a, resp) && Context(c, a) && ShapeOk(c) && c.send != Nobody
    requires c.send.Sender? ==> Known(c, c.send.call) && InSend(c.calls[c.send.call].pc)
    ensures NoDelay(c, ClientStep(c, a, resp))
  {
    if a.Start? || a.Cancel? || a.Take? || a.CloseClient? {
      CallerDoesNotDelay(c, a, resp);
    } else if Actor(a).Some? {
      assert c.send == Sender(Actor(a).value);
      if a.TakeBack? || a.CompleteTakenBack? {
        GiveUpDoesNotDelay(c, a, resp);
      } else {
        SenderDoesNotDelay(c, a, resp);
      }
    } else if a.RecvHeader? || a.RecvRemove? || a.RecvComplete? {
      ReceiverDoesNotDelay(c, a, resp);
    } else if a.RecvBody? {
      BodyDoesNotDelay(c, a.io, resp);
    } else {
      TerminatorDoesNotDelay(c, a, resp);
    }
  }

  /** Numbers go out once each from 1 upwards, and only issued ones are ever pending. */
  lemma {:induction false} NumbersIssuedOnce(w: World, acts: seq<Action>, q: nat)
    requires Run(w, acts).Some?
    ensures var c := Run(w, acts).value.c;
      && c.num == |c.issued| + 1
      && (q in c.pend ==> 1 <= q < c.num && c.pend[q] == c.issued[q - 1].call)
      && (1 <= q < c.num ==> c.issued[q - 1].call in c.calls && c.calls[c.issued[q - 1].call].num == q)
  {
    RunInv(w, acts);
    var c := Run(w, acts).value.c;
    assert PendAt(c, q);
    if 1 <= q < c.num { assert TicketAt(c, q - 1); }
  }

  /** Cancelling a call that was refused registration takes nothing out of `pend`. */
  lemma CancelUnregisteredIsHarmless(w: World, acts: seq<Action>, k: nat)
    requires Run(w, acts).Some? && k in Run(w, acts).value.c.calls
    requires Run(w, acts).value.c.calls[k].num == 0
    ensures Cancel'(Run(w, acts).value.c, k).pend == Run(w, acts).value.c.pend
    ensures !Cancel'(Run(w, acts).value.c, k).calls[k].dropped
  {
    NumbersIssuedOnce(w, acts, 0);
  }

  /** Before shutdown every issued number is in exactly one of: pending, with the
      receive loop, with the error path of `Send`, completed, given up. */
  lemma {:induction false} NumberIsInOnePlace(w: World, acts: seq<Action>, q: nat)
    requires Run(w, acts).Some? && !Run(w, acts).value.c.shutdown && 1 <= q < Run(w, acts).value.c.num
    ensures var c := Run(w, acts).value.c;
      q <= |c.issued| &&
      var k := c.issued[q - 1].call;
      k in c.calls && c.calls[k].num == q
      && One(q in c.pend) + One(Held(c) == Some(k)) + One(c.calls[k].pc == Removed(k))
         + c.calls[k].fired + One(c.calls[k].dropped) == 1
  {
    RunInv(w, acts);
    var c := Run(w, acts).value.c;
    assert TicketAt(c, q - 1) && CallInv(c, c.issued[q - 1].call);
  }
}

/**
 How the refusal of an unknown method reaches its caller. Its text repeats the name that
 was asked for, and goes through the same formatting as a method's own.
 */
module RpcRefusals {
  import opened Common
  import opened Formatting
  import opened Service
  import opened Rpc
  import opened RpcMatching
  import opened RpcRuns

  /** The server does not find the method, and says so with the text. */
  predicate NotFound(w: World, name: string, text: string) {
    FindService(w.services, name).Err? && text == LookupText(w.services, name)
  }

  /** The six steps that get a request out are those of every call. */
  function RefusedSteps(name: string, args: ByteString): seq<Action> {
    Steps(name, args)[..6]
    + [ReadHeader(Fine), LockResponse(0), RespondHeader(Fine), RespondBody(Fine),
       RecvHeader(Fine), RecvRemove, RecvBody(Fine), RecvComplete]
  }

  function Refusing(name: string, text: string, reader: ReadPc, writing: Writing): Server {
    OneRequest(Header(name, 1, text), [], reader, NoHandler, NoRunner, writing)
  }

  /** Where the run is after its first `i` steps. */
  function RefusedStage(name: string, args: ByteString, text: string, i: nat): State {
    var e := Header(name, 1, text);
    var waiting, one := RpcRuns.Waiting(name, args), RequestWire(name, args, 1);
    var answered := Refusing(name, text, Answering(0), WriteOver(0));
    if i <= 6 then Stage(name, args, Fails(text), i)
    else match i
      case 7 => State(waiting, Refusing(name, text, Answering(0), NoWrite), one, Wire([], 0, true))
      case 8 => State(waiting, Refusing(name, text, Answering(0), WriteHeader(0)), one, Wire([], 0, true))
      case 9 =>
        State(waiting, Refusing(name, text, Answering(0), WriteBody(0)), one, Wire([HeaderFrame(e)], 0, true))
      case 10 => State(waiting, answered, one, Answer(e, Placeholder, 0))
      case 11 =>
        State(OneCall(name, args, Sent, Nobody, GotHeader(e), map[1 := 0]), answered, one, Answer(e, Placeholder, 1))
      case 12 =>
        State(OneCall(name, args, Sent, Nobody, Matched(e, Some(0)), map[]), answered, one, Answer(e, Placeholder, 1))
      case 13 =>
        State(Completed(name, args, Sent, Nobody, Completing(0, false), map[], Told(Fails(text)), None, 0), answered,
              one, Answer(e, Placeholder, 2))
      case _ =>
        State(Completed(name, args, Sent, Nobody, Reading, map[], Told(Fails(text)), None, 1), answered, one,
              Answer(e, Placeholder, 2))
  }

  lemma SentStages(w: World, name: string, args: ByteString, text: string, i: nat)
    requires i < 6
    ensures Enabled(w, RefusedStage(name, args, text, i), RefusedSteps(name, args)[i])
    ensures Apply(w, RefusedStage(name, args, text, i), RefusedSteps(name, args)[i])
         == RefusedStage(name, args, text, i + 1)
  {
    SendStages(w, name, args, Fails(text), i);
  }

  lemma LookupStage(w: World, name: string, args: ByteString, text: string, i: nat)
    requires i == 6 && NotFound(w, name, text)
    ensures Enabled(w, RefusedStage(name, args, text, i), RefusedSteps(name, args)[i])
    ensures Apply(w, RefusedStage(name, args, text, i), RefusedSteps(name, args)[i])
         == RefusedStage(name, args, text, i + 1)
  {
  }

  lemma RefusalStages(w: World, name: string, args: ByteString, text: string, i: nat)
    requires 7 <= i < 9
    ensures Enabled(w, RefusedStage(name, args, text, i), RefusedSteps(name, args)[i])
    ensures Apply(w, RefusedStage(name, args, text, i), RefusedSteps(name, args)[i])
         == RefusedStage(name, args, text, i + 1)
  {
  }

  lemma RefusalBodyStage(w: World, name: string, args: ByteString, text: string, i: nat)
    requires i == 9
    ensures Enabled(w, RefusedStage(name, args, text, i), RefusedSteps(name, args)[i])
    ensures Apply(w, RefusedStage(name, args, text, i), RefusedSteps(name, args)[i])
         == RefusedStage(name, args, text, i + 1)
  {
  }

  lemma LearnStages(w: World, name: string, args: ByteString, text: string, i: nat)
    requires 10 <= i < 12
    ensures Enabled(w, RefusedStage(name, args, text, i), RefusedSteps(name, args)[i])
    ensures Apply(w, RefusedStage(name, args, text, i), RefusedSteps(name, args)[i])
         == RefusedStage(name, args, text, i + 1)
  {
  }

  lemma TextStage(w: World, name: string, args: ByteString, text: string, i: nat)
    requires i == 12
    ensures Enabled(w, RefusedStage(name, args, text, i), RefusedSteps(name, args)[i])
    ensures Apply(w, RefusedStage(name, args, text, i), RefusedSteps(name, args)[i])
         == RefusedStage(name, args, text, i + 1)
  {
  }

  lemma EndStage(w: World, name: string, args: ByteString, text: string, i: nat)
    requires i == 13
    ensures Enabled(w, RefusedStage(name, args, text, i), RefusedSteps(name, args)[i])
    ensures Apply(w, RefusedStage(name, args, text, i), RefusedSteps(name, args)[i])
         == RefusedStage(name, args, text, i + 1)
  {
  }

  lemma EachRefusedStage(w: World, name: string, args: ByteString, text: string, i: nat)
    requires i < 14 && NotFound(w, name, text)
    ensures Enabled(w, RefusedStage(name, args, text, i), RefusedSteps(name, args)[i])
    ensures Apply(w, RefusedStage(name, args, text, i), RefusedSteps(name, args)[i])
         == RefusedStage(name, args, text, i + 1)
  {
    if i < 6 {
      SentStages(w, name, args, text, i);
    } else if i == 6 {
      LookupStage(w, name, args, text, i);
    } else if i < 10 {
      if i < 9 { RefusalStages(w, name, args, text, i); } else { RefusalBodyStage(w, name, args, text, i); }
    } else if i < 12 {
      LearnStages(w, name, args, text, i);
    } else {
      if i == 12 { TextStage(w, name, args, text, i); } else { EndStage(w, name, args, text, i); }
    }
  }

  lemma {:induction false} RunRefusedStages(w: World, name: string, args: ByteString, text: string, i: nat)
    requires i <= 14 && NotFound(w, name, text)
    ensures Run(w, RefusedSteps(name, args)[..i]) == Some(RefusedStage(name, args, text, i))
  {
    if 0 < i {
      RunRefusedStages(w, name, args, text, i - 1);
      EachRefusedStage(w, name, args, text, i - 1);
      Extend(w, RefusedSteps(name, args), i - 1, RefusedStage(name, args, text, i - 1));
    }
  }

  /** A run in which the refusal is told: the caller holds what formatting leaves of it. */
  lemma {:induction false} RefusalIsTold(w: World, name: string, args: ByteString, text: string)
    requires NotFound(w, name, text)
    ensures var acts := RefusedSteps(name, args);
      Refused(w, acts, 0, name, args) && Run(w, acts).value.c.calls[0].error == Some(ServerError(Format(text)))
  {
    LookupTextSigns(w.services, name);
    RunRefusedStages(w, name, args, text, 14);
    assert RefusedSteps(name, args)[..14] == RefusedSteps(name, args);
  }

  /** In every run, a text from the server that the caller of the method holds is this one. */
  ghost predicate OnlyTold(w: World, name: string, args: ByteString, text: string) {
    forall acts: seq<Action>, k: nat :: Refused(w, acts, k, name, args) ==>
      Run(w, acts).value.c.calls[k].error == Some(ServerError(text))
  }

  /** The caller of an unknown method is told what formatting leaves of the refusal, in
      every run that tells it anything. */
  lemma {:induction false} RefusalIsFormatted(w: World, name: string, args: ByteString, text: string)
    requires NotFound(w, name, text)
    ensures OnlyTold(w, name, args, Format(text))
  {
    forall acts: seq<Action>, k: nat | Refused(w, acts, k, name, args)
      ensures Run(w, acts).value.c.calls[k].error == Some(ServerError(Format(text)))
    {
      ServerErrorIsTheMethods(w, acts, k);
    }
  }

  /** It is told the refusal itself, in every run, exactly when the part of the name that
      the refusal repeats has no percent sign. */
  lemma {:induction false} RefusalArrivesIff(w: World, name: string, args: ByteString, text: string)
    requires NotFound(w, name, text)
    ensures OnlyTold(w, name, args, text) <==> '%' !in Repeated(w.services, name)
  {
    LookupTextSigns(w.services, name);
    UnchangedIff(text);
    RefusalIsFormatted(w, name, args, text);
    RefusalIsTold(w, name, args, text);
  }
}

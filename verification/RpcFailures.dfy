/**
 How a failing method reaches its caller: a run in which a registered method fails with
 a given text. An empty text leaves the response header without an error, so the
 receive loop takes the success branch; a percent sign in it is taken for a directive.
 */
module RpcFailures {
  import opened Common
  import opened Formatting
  import opened Rpc
  import opened RpcMatching
  import opened RpcRuns

  /** Success means holding the method's result, in every run, exactly when the method
      does not fail with an empty text. */
  lemma SuccessMeansResultIff(w: World, name: string, args: ByteString)
    ensures SuccessMeansResult(w, name, args) <==> !FailsWith(w, name, args, "")
  {
    if FailsWith(w, name, args, "") {
      var acts := Steps(name, args);
      WholeRun(w, name, args, Fails(""));
      LastStage(name, args, Fails(""));
      assert Succeeded(w, acts, 0, name, args) && !HoldsResult(w, acts, 0);
    } else {
      forall acts: seq<Action>, k: nat | Succeeded(w, acts, k, name, args) ensures HoldsResult(w, acts, k) {
        CompletedCallIsAnswered(w, acts, k);
      }
    }
  }

  /** In every run, a text from the server that the caller holds is one the server gives
      out itself or exactly the method's own. */
  ghost predicate TextMeansMethods(w: World, name: string, args: ByteString, text: string) {
    forall acts: seq<Action>, k: nat :: Refused(w, acts, k, name, args) ==> HoldsText(w, acts, k, text)
  }

  lemma NotTheServers(text: string)
    requires '%' in text
    ensures text != BODY_TEXT && text != TIMEOUT_TEXT
  {
  }

  /** The caller is left with what formatting makes of the text. */
  lemma {:induction false} FailureIsTold(w: World, name: string, args: ByteString, text: string)
    requires FailsWith(w, name, args, text) && text != ""
    ensures var acts := Steps(name, args);
      Refused(w, acts, 0, name, args) && Run(w, acts).value.c.calls[0].error == Some(ServerError(Format(text)))
  {
    WholeRun(w, name, args, Fails(text));
    LastStage(name, args, Fails(text));
  }

  lemma MangledTextShows(w: World, name: string, args: ByteString, text: string)
    requires FailsWith(w, name, args, text) && '%' in text
    ensures !TextMeansMethods(w, name, args, text)
  {
    FailureIsTold(w, name, args, text);
    UnchangedIff(text);
    PercentStays(text);
    NotTheServers(Format(text));
    assert !HoldsText(w, Steps(name, args), 0, text);
  }

  lemma PlainTextArrives(w: World, name: string, args: ByteString, text: string)
    requires FailsWith(w, name, args, text) && '%' !in text
    ensures TextMeansMethods(w, name, args, text)
  {
    UnchangedIff(text);
    forall acts: seq<Action>, k: nat | Refused(w, acts, k, name, args) ensures HoldsText(w, acts, k, text) {
      ServerErrorIsTheMethods(w, acts, k);
    }
  }

  /** The caller of a failing method holds the method's own text, in every run, exactly
      when there is no percent sign in it. */
  lemma TextMeansMethodsIff(w: World, name: string, args: ByteString, text: string)
    requires FailsWith(w, name, args, text)
    ensures TextMeansMethods(w, name, args, text) <==> '%' !in text
  {
    if '%' in text {
      MangledTextShows(w, name, args, text);
    } else {
      PlainTextArrives(w, name, args, text);
    }
  }
}

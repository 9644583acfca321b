/**
 * How the chat client calls the agent runtime: it tries the configured alias, then
 * "DEFAULT", then no qualifier at all, moving on only when a qualified attempt is
 * answered with ResourceNotFoundException. The runtime itself is a parameter.
 */
module RuntimeInvoke {
  import opened Text
  import opened Values

  const DefaultQualifier: string := "DEFAULT"
  const NotFoundCode: string := "ResourceNotFoundException"
  const ExhaustedMessage: string := "Failed to invoke Bedrock agent runtime."

  /** What one call to the runtime does: answer, raise a client error with the given code, or raise anything else. */
  datatype CallResult = Answered(response: Value) | ClientError(code: Value) | OtherFailure(message: string)

  /** What the whole invocation does: return a response or raise an error. */
  datatype InvokeOutcome = Response(value: Value) | Raised(error: CallResult)

  /** A failure that lets the next candidate be tried: not found, on a qualified attempt. */
  predicate MovesOn(result: CallResult, qualifier: Option<string>)
  {
    result.ClientError? && result.code == Str(NotFoundCode) && qualifier.Some?
  }

  /** The configured alias as the client uses it: stripped, with no alias read as the empty string. */
  function StrippedAlias(configuredAlias: Option<string>): string
  {
    Strip(if configuredAlias.Some? then configuredAlias.value else "")
  }

  /**
   * The qualifiers to try: the stripped alias, when that is not empty; then "DEFAULT"
   * unless the alias already is it; then no qualifier.
   */
  function Candidates(configuredAlias: Option<string>): seq<Option<string>>
  {
    CandidatesOf(StrippedAlias(configuredAlias))
  }

  function CandidatesOf(alias: string): (r: seq<Option<string>>)
    ensures 2 <= |r| <= 3 && r[|r| - 1] == None
    ensures Some(DefaultQualifier) in r
    ensures forall j, k :: 0 <= j < k < |r| ==> r[j] != r[k]
    ensures forall j :: 0 <= j < |r| - 1 ==> r[j].Some? && r[j].value != ""
  {
    if alias == "" then [Some(DefaultQualifier), None]
    else if alias == DefaultQualifier then [Some(alias), None]
    else [Some(alias), Some(DefaultQualifier), None]
  }

  /** A configured alias that is not blank is tried first, stripped. */
  lemma ConfiguredAliasFirst(configuredAlias: string)
    requires !Blank(configuredAlias)
    ensures Candidates(Some(configuredAlias))[0] == Some(Strip(configuredAlias))
  {
  }

  /** Without a usable alias the attempts are "DEFAULT", then no qualifier. */
  lemma NoAliasCandidates(configuredAlias: Option<string>)
    requires configuredAlias.None? || Blank(configuredAlias.value)
    ensures Candidates(configuredAlias) == [Some(DefaultQualifier), None]
  {
    var alias := Strip(if configuredAlias.Some? then configuredAlias.value else "");
    assert alias == [];
  }

  /** The request for one attempt: the runtime, the session and the payload, plus the qualifier when it is truthy. */
  function RequestFor(runtimeArn: Value, sessionId: string, payload: string, qualifier: Option<string>): Entries
  {
    var base := [("agentRuntimeArn", runtimeArn), ("runtimeSessionId", Str(sessionId)), ("payload", Str(payload))];
    if qualifier.Some? && qualifier.value != "" then base + [("qualifier", Str(qualifier.value))] else base
  }

  /** The qualifier is sent only when it is a non-empty string, and then as given; the other fields are always there. */
  lemma RequestFields(runtimeArn: Value, sessionId: string, payload: string, qualifier: Option<string>)
    ensures var r := RequestFor(runtimeArn, sessionId, payload, qualifier);
            (HasKey(r, "qualifier") <==> qualifier.Some? && qualifier.value != "")
            && (HasKey(r, "qualifier") ==> Get(r, "qualifier") == Some(Str(qualifier.value)))
            && Get(r, "agentRuntimeArn") == Some(runtimeArn)
            && Get(r, "runtimeSessionId") == Some(Str(sessionId)) && Get(r, "payload") == Some(Str(payload))
  {
    var r := RequestFor(runtimeArn, sessionId, payload, qualifier);
    GetFound(r, "qualifier");
    assert r[0].0 == "agentRuntimeArn" && r[1].0 == "runtimeSessionId" && r[2].0 == "payload";
    assert |"agentRuntimeArn"| == 15 && |"runtimeSessionId"| == 16 && |"payload"| == 7 && |"qualifier"| == 9;
    if qualifier.Some? && qualifier.value != "" {
      assert r[3] == ("qualifier", Str(qualifier.value));
      assert Get(r[1..], "runtimeSessionId") == Some(Str(sessionId));
      assert Get(r[2..], "payload") == Some(Str(payload));
      assert Get(r[3..], "qualifier") == Some(Str(qualifier.value));
    } else {
      assert Get(r[1..], "runtimeSessionId") == Some(Str(sessionId));
      assert Get(r[2..], "payload") == Some(Str(payload));
    }
  }

  /**
   * The outcome of trying the candidates in order, given how the runtime answers
   * each request; `lastError` is the not-found error of the previous attempt.
   */
  function TryFrom(candidates: seq<Option<string>>, lastError: Option<CallResult>,
                   runtimeArn: Value, sessionId: string, payload: string,
                   call: Entries -> CallResult): InvokeOutcome
  {
    if candidates == [] then
      Raised(if lastError.Some? then lastError.value else OtherFailure(ExhaustedMessage))
    else
      var result := call(RequestFor(runtimeArn, sessionId, payload, candidates[0]));
      if result.Answered? then Response(result.response)
      else if MovesOn(result, candidates[0]) then TryFrom(candidates[1..], Some(result), runtimeArn, sessionId, payload, call)
      else Raised(result)
  }

  /** The qualifiers actually tried, in order. */
  function Attempted(candidates: seq<Option<string>>, runtimeArn: Value, sessionId: string, payload: string,
                     call: Entries -> CallResult): (r: seq<Option<string>>)
    ensures |r| <= |candidates| && r == candidates[..|r|]
    ensures candidates != [] ==> r != []
  {
    if candidates == [] then []
    else
      var result := call(RequestFor(runtimeArn, sessionId, payload, candidates[0]));
      if MovesOn(result, candidates[0]) then [candidates[0]] + Attempted(candidates[1..], runtimeArn, sessionId, payload, call)
      else [candidates[0]]
  }

  /** At most three attempts are made, never the same qualifier twice. */
  lemma AtMostThreeAttempts(configuredAlias: Option<string>, runtimeArn: Value, sessionId: string, payload: string,
                            call: Entries -> CallResult)
    ensures var tried := Attempted(Candidates(configuredAlias), runtimeArn, sessionId, payload, call);
            1 <= |tried| <= 3 && forall j, k :: 0 <= j < k < |tried| ==> tried[j] != tried[k]
  {
    AttemptedDistinct(Candidates(configuredAlias), runtimeArn, sessionId, payload, call);
  }

  /** A prefix of distinct candidates is itself distinct. */
  lemma AttemptedDistinct(candidates: seq<Option<string>>, runtimeArn: Value, sessionId: string, payload: string,
                          call: Entries -> CallResult)
    requires forall j, k :: 0 <= j < k < |candidates| ==> candidates[j] != candidates[k]
    ensures var tried := Attempted(candidates, runtimeArn, sessionId, payload, call);
            forall j, k :: 0 <= j < k < |tried| ==> tried[j] != tried[k]
  {
    var tried := Attempted(candidates, runtimeArn, sessionId, payload, call);
    assert forall j :: 0 <= j < |tried| ==> tried[j] == candidates[j];
  }

  /**
   * When the last candidate is the unqualified one, the outcome is always what the
   * runtime answered or raised on the last attempt: the closing "failed to invoke"
   * error is never raised by the loop itself.
   */
  lemma {:induction false} NeverExhausted(candidates: seq<Option<string>>, lastError: Option<CallResult>,
                                                runtimeArn: Value, sessionId: string, payload: string,
                                                call: Entries -> CallResult)
    requires candidates != [] && candidates[|candidates| - 1] == None
    ensures var tried := Attempted(candidates, runtimeArn, sessionId, payload, call);
            var last := call(RequestFor(runtimeArn, sessionId, payload, tried[|tried| - 1]));
            TryFrom(candidates, lastError, runtimeArn, sessionId, payload, call)
              == if last.Answered? then Response(last.response) else Raised(last)
  {
    var result := call(RequestFor(runtimeArn, sessionId, payload, candidates[0]));
    if MovesOn(result, candidates[0]) {
      assert |candidates| > 1;
      NeverExhausted(candidates[1..], Some(result), runtimeArn, sessionId, payload, call);
    }
  }

  /** Builds the candidate list by appending, as the client does. */
  method BuildCandidates(configuredAlias: Option<string>) returns (aliasCandidates: seq<Option<string>>)
    ensures aliasCandidates == Candidates(configuredAlias)
  {
    aliasCandidates := AppendQualifiers(StrippedAlias(configuredAlias));
  }

  /** The appending itself, from the stripped alias: the alias if any, "DEFAULT" unless present, then none. */
  method AppendQualifiers(alias: string) returns (aliasCandidates: seq<Option<string>>)
    ensures aliasCandidates == CandidatesOf(alias)
  {
    aliasCandidates := [];
    if alias != "" {
      aliasCandidates := aliasCandidates + [Some(alias)];
    }
    assert Some(DefaultQualifier) in aliasCandidates <==> alias == DefaultQualifier by {
      if alias != "" {
        assert aliasCandidates == [Some(alias)];
      } else {
        assert aliasCandidates == [];
      }
    }
    if Some(DefaultQualifier) !in aliasCandidates {
      aliasCandidates := aliasCandidates + [Some(DefaultQualifier)];
    }
    aliasCandidates := aliasCandidates + [None];
    assert aliasCandidates == CandidatesOf(alias) by {
      if alias == "" {
        assert aliasCandidates == [Some(DefaultQualifier), None];
      } else if alias == DefaultQualifier {
        assert aliasCandidates == [Some(alias), None];
      } else {
        assert aliasCandidates == [Some(alias), Some(DefaultQualifier), None];
      }
    }
  }

  /**
   * The client's loop over the candidates. It returns on the first answer, remembers a
   * not-found error on a qualified attempt and moves on, and re-raises anything else;
   * the unqualified last candidate always ends it, so the loop never runs out.
   */
  method TryCandidates(aliasCandidates: seq<Option<string>>, runtimeArn: Value, sessionId: string, payload: string,
                       call: Entries -> CallResult)
    returns (r: InvokeOutcome)
    requires aliasCandidates != [] && aliasCandidates[|aliasCandidates| - 1] == None
    ensures r == TryFrom(aliasCandidates, None, runtimeArn, sessionId, payload, call)
  {
    var lastError: Option<CallResult> := None;
    var i := 0;
    while i < |aliasCandidates|
      invariant 0 <= i < |aliasCandidates|
      invariant TryFrom(aliasCandidates[i..], lastError, runtimeArn, sessionId, payload, call)
                == TryFrom(aliasCandidates, None, runtimeArn, sessionId, payload, call)
    {
      var qualifier := aliasCandidates[i];
      var request := RequestFor(runtimeArn, sessionId, payload, qualifier);
      var result := call(request);
      if result.Answered? {
        return Response(result.response);
      }
      if MovesOn(result, qualifier) {
        assert aliasCandidates[i..][1..] == aliasCandidates[i + 1..];
        lastError := Some(result);
        i := i + 1;
        continue;
      }
      return Raised(result);
    }
    assert false;
  }

  /** Invokes the runtime: builds the candidates, then tries them in order. */
  method InvokeAgentRuntime(configuredAlias: Option<string>, runtimeArn: Value, sessionId: string, payload: string,
                            call: Entries -> CallResult)
    returns (r: InvokeOutcome)
    ensures r == TryFrom(Candidates(configuredAlias), None, runtimeArn, sessionId, payload, call)
  {
    var aliasCandidates := BuildCandidates(configuredAlias);
    r := TryCandidates(aliasCandidates, runtimeArn, sessionId, payload, call);
  }
}

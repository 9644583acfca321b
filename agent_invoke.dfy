/**
 * The agent's entry point for one request, as a single sequential run: validate the
 * prompt and the memory configuration (each failure is one error event), then set
 * the invocation context, normalise every event of the agent's stream and clear the
 * context however the stream ends. Also the flattening of stored conversation turns.
 */
module AgentInvoke {
  import opened Text
  import opened Values
  import opened AgentIdentity
  import opened AgentStream
  import RuntimeContext

  const PromptRequired: string := "A non-empty 'prompt' field is required."
  const MemoryMissing: string := "Memory is not configured for this runtime."
  const MemoryIdRequired: string := "memory_id is required to create a MemorySession"

  /** The error event the entry point yields before giving up. */
  function ErrorWire(message: string): (w: Value)
    ensures w.Map? && Get(w.entries, "type") == Some(Str("error")) && Get(w.entries, "error") == Some(Str(message))
  {
    Map([("type", Str("error")), ("error", Str(message))])
  }

  /** The events a request yields and, when the stream raised, the exception that ended it. */
  datatype Outcome = Outcome(outputs: seq<Value>, failure: Option<string>)

  /**
   * The events one request yields: a single error event when the prompt is missing
   * or blank, or when no memory id can be found; otherwise the normalised stream.
   */
  function InvokeSpec(payload: Entries, context: Value, globalHeaders: Value, envMemoryId: Option<string>,
                      events: seq<Value>): (r: Outcome)
    ensures ExtractPrompt(payload).None? ==> r == Outcome([ErrorWire(PromptRequired)], None)
    ensures ExtractPrompt(payload).Some? && ResolveMemoryId(envMemoryId, context).None?
            ==> r == Outcome([ErrorWire(MemoryMissing)], None)
  {
    if ExtractPrompt(payload).None? then Outcome([ErrorWire(PromptRequired)], None)
    else if ResolveMemoryId(envMemoryId, context).None? then Outcome([ErrorWire(MemoryMissing)], None)
    else
      var run := RunFrom(events, "");
      Outcome(run.outputs, run.failure)
  }

  /** Whether a request gets past validation and reaches the agent. */
  predicate Admitted(payload: Entries, context: Value, envMemoryId: Option<string>)
  {
    ExtractPrompt(payload).Some? && ResolveMemoryId(envMemoryId, context).Some?
  }

  /**
   * Normalises the agent's events one by one through a fresh stream state, stopping
   * at the first event whose normalisation raises.
   */
  method RunStream(events: seq<Value>) returns (outputs: seq<Value>, failure: Option<string>)
    ensures outputs == RunFrom(events, "").outputs && failure == RunFrom(events, "").failure
  {
    var state := new StreamState();
    outputs, failure := [], None;
    var i := 0;
    while i < |events|
      invariant 0 <= i <= |events|
      invariant failure.None?
      invariant var rest := RunFrom(events[i..], state.message);
                outputs + rest.outputs == RunFrom(events, "").outputs
                && rest.failure == RunFrom(events, "").failure
    {
      assert events[i..][1..] == events[i + 1..];
      var out := FormatStreamEvent(events[i], state);
      if out.Err? {
        failure := Some(out.error);
        break;
      }
      outputs := outputs + [out.value];
      i := i + 1;
    }
  }

  /**
   * One request. `events` is what the agent streams for the prompt (the agent itself
   * is outside the model). The slot is touched only by an admitted request, and is
   * empty again when it ends, whether the stream finished or raised.
   */
  method Invoke(payload: Entries, context: Value, globalHeaders: Value, envMemoryId: Option<string>,
                events: seq<Value>, slot: RuntimeContext.ContextSlot)
    returns (outputs: seq<Value>, failure: Option<string>)
    modifies slot
    ensures Outcome(outputs, failure) == InvokeSpec(payload, context, globalHeaders, envMemoryId, events)
    ensures !Admitted(payload, context, envMemoryId) ==> slot.current == old(slot.current)
    ensures Admitted(payload, context, envMemoryId) ==> slot.current.None?
  {
    var prompt := ExtractPrompt(payload);
    if prompt.None? {
      return [ErrorWire(PromptRequired)], None;
    }
    var actorId := ResolveActorId(context, globalHeaders, payload);
    var sessionId := ResolveSessionId(context, actorId, payload);
    var memoryId := ResolveMemoryId(envMemoryId, context);
    if memoryId.None? {
      return [ErrorWire(MemoryMissing)], None;
    }
    slot.Set(actorId, sessionId);
    outputs, failure := RunStream(events);
    slot.Clear();
  }

  /** A prompt that is present but only whitespace is refused with the prompt error alone. */
  lemma BlankPromptRefused(payload: Entries, context: Value, globalHeaders: Value, envMemoryId: Option<string>,
                           events: seq<Value>)
    requires GetOr(payload, "prompt", Null).Str? && GetOr(payload, "prompt", Null).s != []
    requires Blank(GetOr(payload, "prompt", Null).s)
    ensures InvokeSpec(payload, context, globalHeaders, envMemoryId, events).outputs == [ErrorWire(PromptRequired)]
  {
  }

  /** When the environment names a memory store, a valid prompt always reaches the agent. */
  lemma EnvMemoryAdmits(payload: Entries, context: Value, envMemoryId: Option<string>)
    requires Given(envMemoryId) && ExtractPrompt(payload).Some?
    ensures Admitted(payload, context, envMemoryId)
  {
  }

  /** The messages one stored turn contributes: a list's items, a dict itself, nothing otherwise. */
  function TurnMessages(turn: Value): seq<Value>
  {
    if turn.List? then turn.items else if turn.Map? then [turn] else []
  }

  /** The stored turns flattened into one message list, in order. */
  function FlattenTurns(turns: seq<Value>): seq<Value>
  {
    if turns == [] then [] else FlattenTurns(turns[..|turns| - 1]) + TurnMessages(turns[|turns| - 1])
  }

  /** Flattening distributes over concatenation of turn lists. */
  lemma {:induction false} FlattenAppend(a: seq<Value>, b: seq<Value>)
    ensures FlattenTurns(a + b) == FlattenTurns(a) + FlattenTurns(b)
    decreases |b|
  {
    if b != [] {
      assert (a + b)[..|a + b| - 1] == a + b[..|b| - 1];
      assert (a + b)[|a + b| - 1] == b[|b| - 1];
      FlattenAppend(a, b[..|b| - 1]);
    } else {
      assert a + b == a;
    }
  }

  /** Every flattened message is a dict turn itself or an item of a list turn. */
  lemma {:induction false} FlattenOrigin(turns: seq<Value>, k: nat)
    requires k < |FlattenTurns(turns)|
    ensures exists j :: 0 <= j < |turns| && (turns[j] == FlattenTurns(turns)[k]
              || (turns[j].List? && FlattenTurns(turns)[k] in turns[j].items))
  {
    var front := turns[..|turns| - 1];
    var last := turns[|turns| - 1];
    var x := FlattenTurns(turns)[k];
    if k < |FlattenTurns(front)| {
      FlattenOrigin(front, k);
      var j :| 0 <= j < |front| && (front[j] == x || (front[j].List? && x in front[j].items));
      assert turns[j] == front[j];
    } else {
      assert x in TurnMessages(last);
      assert turns[|turns| - 1] == last;
    }
  }

  /**
   * Fetches the recent turns (`turns`, what the memory store returns) and flattens
   * them in a loop; a falsy memory id raises before anything is fetched.
   */
  method LoadConversationHistory(memoryId: Value, turns: seq<Value>) returns (r: Result<seq<Value>>)
    ensures !Truthy(memoryId) ==> r == Err(MemoryIdRequired)
    ensures Truthy(memoryId) ==> r == Ok(FlattenTurns(turns))
  {
    if !Truthy(memoryId) {
      return Err(MemoryIdRequired);
    }
    var history: seq<Value> := [];
    var i := 0;
    while i < |turns|
      invariant 0 <= i <= |turns|
      invariant history == FlattenTurns(turns[..i])
    {
      var turn := turns[i];
      assert turns[..i + 1][..i] == turns[..i];
      if turn.List? {
        history := history + turn.items;
      } else if turn.Map? {
        history := history + [turn];
      }
      i := i + 1;
    }
    assert turns[..i] == turns;
    return Ok(history);
  }
}

/**
 * How the agent entry point derives who is speaking (actor), which conversation it
 * belongs to (session), which memory store to use, and the prompt text.
 */
module AgentIdentity {
  import opened Text
  import opened Values
  import RuntimeContext

  const CustomHeaderPrefix: string := "X-Amzn-Bedrock-AgentCore-Runtime-Custom-"
  const CustomActorHeader: string := CustomHeaderPrefix + "Actor-Id"
  const SessionPrefix: string := "sake_session_"

  /** `getattr(obj, name, None)` as a value. */
  function AttrOrNull(obj: Value, name: string): Value
  {
    match GetAttr(obj, name)
    case Some(v) => v
    case None => Null
  }

  /** The actor header a header source carries, when the source is a dict and the header is truthy. */
  function HeaderActor(source: Value): Option<Value>
  {
    if source.Map? && Truthy(GetOr(source.entries, CustomActorHeader, Null))
    then Some(GetOr(source.entries, CustomActorHeader, Null))
    else None
  }

  /** The header sources in the order they are consulted. */
  function HeaderSources(context: Value, globalHeaders: Value): seq<Value>
  {
    [AttrOrNull(context, "request_headers"), AttrOrNull(context, "headers"), globalHeaders]
  }

  /** The first source that carries an actor header. */
  function FirstHeaderActor(sources: seq<Value>): (r: Option<Value>)
    ensures r.Some? ==> Truthy(r.value)
    ensures r.Some? <==> exists i :: 0 <= i < |sources| && HeaderActor(sources[i]).Some?
    ensures forall i :: 0 <= i < |sources| && HeaderActor(sources[i]).Some?
              && (forall j :: 0 <= j < i ==> HeaderActor(sources[j]).None?)
              ==> r == HeaderActor(sources[i])
  {
    if sources == [] then None
    else if HeaderActor(sources[0]).Some? then HeaderActor(sources[0])
    else
      var r := FirstHeaderActor(sources[1..]);
      assert forall i :: 0 < i < |sources| ==> sources[i] == sources[1..][i - 1];
      r
  }

  /**
   * The actor: the first dict header source with a truthy actor header, else the
   * payload's `actor_id`, else its `actorId`, else "default_user".
   */
  function ResolveActorId(context: Value, globalHeaders: Value, payload: Entries): (r: Value)
    ensures Truthy(r)
    ensures FirstHeaderActor(HeaderSources(context, globalHeaders)).Some?
            ==> r == FirstHeaderActor(HeaderSources(context, globalHeaders)).value
    ensures FirstHeaderActor(HeaderSources(context, globalHeaders)).None? && Truthy(GetOr(payload, "actor_id", Null))
            ==> r == GetOr(payload, "actor_id", Null)
    ensures FirstHeaderActor(HeaderSources(context, globalHeaders)).None? && !Truthy(GetOr(payload, "actor_id", Null))
              && Truthy(GetOr(payload, "actorId", Null))
            ==> r == GetOr(payload, "actorId", Null)
    ensures FirstHeaderActor(HeaderSources(context, globalHeaders)).None? && !Truthy(GetOr(payload, "actor_id", Null))
              && !Truthy(GetOr(payload, "actorId", Null))
            ==> r == Str(RuntimeContext.DefaultActorId)
  {
    match FirstHeaderActor(HeaderSources(context, globalHeaders))
    case Some(actor) => actor
    case None =>
      Or(Or(GetOr(payload, "actor_id", Null), GetOr(payload, "actorId", Null)), Str(RuntimeContext.DefaultActorId))
  }

  /** The session id synthesised for an actor. */
  function SynthesizedSession(actor: Value): (r: Value)
    ensures r.Str? && StartsWith(r.s, SessionPrefix)
  {
    Str(SessionPrefix + PyStr(actor))
  }

  /** The session: the context's `session_id`, else the payload's `session_id`/`sessionId`, else synthesised. */
  function ResolveSessionId(context: Value, actor: Value, payload: Entries): (r: Value)
    ensures Truthy(r)
    ensures Truthy(AttrOrNull(context, "session_id")) ==> r == AttrOrNull(context, "session_id")
    ensures !Truthy(AttrOrNull(context, "session_id")) && Truthy(GetOr(payload, "session_id", Null))
            ==> r == GetOr(payload, "session_id", Null)
    ensures !Truthy(AttrOrNull(context, "session_id")) && !Truthy(GetOr(payload, "session_id", Null))
              && Truthy(GetOr(payload, "sessionId", Null))
            ==> r == GetOr(payload, "sessionId", Null)
    ensures !Truthy(AttrOrNull(context, "session_id")) && !Truthy(GetOr(payload, "session_id", Null))
              && !Truthy(GetOr(payload, "sessionId", Null))
            ==> r == SynthesizedSession(actor)
  {
    var fromContext := AttrOrNull(context, "session_id");
    var sessionId :=
      if Truthy(fromContext) then fromContext
      else Or(GetOr(payload, "session_id", Null), GetOr(payload, "sessionId", Null));
    Or(sessionId, SynthesizedSession(actor))
  }

  /** The first truthy candidate. */
  function FirstTruthy(candidates: seq<Value>): (r: Option<Value>)
    ensures r.Some? ==> Truthy(r.value) && r.value in candidates
    ensures r.None? <==> forall i :: 0 <= i < |candidates| ==> !Truthy(candidates[i])
  {
    if candidates == [] then None
    else if Truthy(candidates[0]) then Some(candidates[0])
    else
      var r := FirstTruthy(candidates[1..]);
      assert forall i :: 0 < i < |candidates| ==> candidates[i] == candidates[1..][i - 1];
      r
  }

  /** The memory candidates read from the context: `memory_id`, `memoryId`, then a `memory` dict's `memoryId` and `id`. */
  function MemoryCandidates(context: Value): seq<Value>
  {
    var memoryInfo := AttrOrNull(context, "memory");
    [AttrOrNull(context, "memory_id"), AttrOrNull(context, "memoryId")]
    + (if memoryInfo.Map? then [GetOr(memoryInfo.entries, "memoryId", Null), GetOr(memoryInfo.entries, "id", Null)] else [])
  }

  /** The memory id: the environment's when set, else the first truthy context candidate, else none. */
  function ResolveMemoryId(envMemoryId: Option<string>, context: Value): (r: Option<Value>)
    ensures Given(envMemoryId) ==> r == Some(Str(envMemoryId.value))
    ensures r.Some? ==> Truthy(r.value)
    ensures !Given(envMemoryId) ==> r == FirstTruthy(MemoryCandidates(context))
  {
    if Given(envMemoryId) then Some(Str(envMemoryId.value)) else FirstTruthy(MemoryCandidates(context))
  }

  /** The raw prompt value: `payload.get("prompt") or payload.get("input")`. */
  function RawPrompt(payload: Entries): Value
  {
    Or(GetOr(payload, "prompt", Null), GetOr(payload, "input", Null))
  }

  /** The prompt: `prompt`, else `input`; stripped; none when missing, not a string, or blank. */
  function ExtractPrompt(payload: Entries): (r: Option<string>)
    ensures r.Some? <==> RawPrompt(payload).Str? && !Blank(RawPrompt(payload).s)
    ensures r.Some? ==> r.value == Strip(RawPrompt(payload).s) && Trimmed(r.value)
  {
    var prompt := RawPrompt(payload);
    if prompt.Str? && !Blank(prompt.s) then Some(Strip(prompt.s)) else None
  }

  /** A truthy `prompt` hides `input`: whatever `input` holds, the result is the same. */
  lemma PromptBeatsInput(payload: Entries, input: Value)
    requires Truthy(GetOr(payload, "prompt", Null))
    ensures ExtractPrompt(Put(payload, "input", input)) == ExtractPrompt(payload)
  {
    assert GetOr(Put(payload, "input", input), "prompt", Null) == GetOr(payload, "prompt", Null);
  }

  /**
   * A prompt of only whitespace is truthy, so `input` is never consulted and there
   * is no prompt at all, even when `input` holds text.
   */
  lemma BlankPromptHidesInput(payload: Entries, s: string)
    requires GetOr(payload, "prompt", Null) == Str(s) && s != [] && Blank(s)
    ensures ExtractPrompt(payload) == None
  {
  }

  /** A truthy actor header on the first header source beats anything in the payload. */
  lemma HeaderBeatsPayload(context: Value, globalHeaders: Value, payload: Entries)
    requires HeaderActor(AttrOrNull(context, "request_headers")).Some?
    ensures ResolveActorId(context, globalHeaders, payload) == GetOr(AttrOrNull(context, "request_headers").entries, CustomActorHeader, Null)
  {
  }

  /** With no header and no payload actor the actor is exactly "default_user", and the session follows it. */
  lemma DefaultIdentity(context: Value, globalHeaders: Value, payload: Entries)
    requires forall i :: 0 <= i < 3 ==> HeaderActor(HeaderSources(context, globalHeaders)[i]).None?
    requires !Truthy(GetOr(payload, "actor_id", Null)) && !Truthy(GetOr(payload, "actorId", Null))
    requires !Truthy(AttrOrNull(context, "session_id"))
    requires !Truthy(GetOr(payload, "session_id", Null)) && !Truthy(GetOr(payload, "sessionId", Null))
    ensures ResolveActorId(context, globalHeaders, payload) == Str("default_user")
    ensures ResolveSessionId(context, ResolveActorId(context, globalHeaders, payload), payload)
            == RuntimeContext.DefaultContext().sessionId
  {
    var sources := HeaderSources(context, globalHeaders);
    assert FirstHeaderActor(sources).None?;
  }

  /** Without any session id the synthesised one is the literal concatenation with the actor. */
  lemma SessionFallback(context: Value, actor: Value, payload: Entries)
    requires !Truthy(AttrOrNull(context, "session_id"))
    requires !Truthy(GetOr(payload, "session_id", Null)) && !Truthy(GetOr(payload, "sessionId", Null))
    requires actor.Str?
    ensures ResolveSessionId(context, actor, payload) == Str("sake_session_" + actor.s)
  {
  }
}

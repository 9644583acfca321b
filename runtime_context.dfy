/**
 * The invocation-scoped identity slot the agent sets before streaming and the tools
 * read: one mutable cell holding an optional frozen record, with a fixed default.
 */
module RuntimeContext {
  import opened Values

  /** The frozen record: a stored context is never changed, only replaced. */
  datatype InvocationContext = InvocationContext(actorId: Value, sessionId: Value)

  const DefaultActorId: string := "default_user"
  const DefaultSessionId: string := "sake_session_default_user"

  /** The context reported when none has been set. */
  function DefaultContext(): (c: InvocationContext)
    ensures c.actorId == Str(DefaultActorId) && c.sessionId == Str(DefaultSessionId)
  {
    InvocationContext(Str(DefaultActorId), Str(DefaultSessionId))
  }

  /** What a read of the slot yields: the stored record (always truthy) or the default. */
  function Effective(slot: Option<InvocationContext>): (c: InvocationContext)
    ensures slot.None? ==> c == DefaultContext()
    ensures slot.Some? ==> c == slot.value
  {
    match slot
    case Some(stored) => stored
    case None => DefaultContext()
  }

  class ContextSlot {
    var current: Option<InvocationContext>

    /** A fresh slot holds nothing. */
    constructor ()
      ensures current == None
    {
      current := None;
    }

    /** Stores a new record built from the two identifiers, replacing any previous one. */
    method Set(actorId: Value, sessionId: Value)
      modifies this
      ensures current == Some(InvocationContext(actorId, sessionId))
    {
      current := Some(InvocationContext(actorId, sessionId));
    }

    /** The stored context, or the default when the slot is empty. */
    method Get() returns (c: InvocationContext)
      ensures current.None? ==> c == DefaultContext()
      ensures current.Some? ==> c == current.value
      ensures c.actorId == Str(DefaultActorId) || current.Some?
    {
      c := if current.Some? then current.value else DefaultContext();
    }

    /** Empties the slot. */
    method Clear()
      modifies this
      ensures current == None
    {
      current := None;
    }
  }

  /**
   * One request's life cycle on a fresh slot: the default before anything is set,
   * exactly the identifiers given while set, and the default again after clearing
   * (twice, which is the same as once).
   */
  method Lifecycle(actorId: Value, sessionId: Value)
    returns (before: InvocationContext, during: InvocationContext, after: InvocationContext)
    ensures before == DefaultContext()
    ensures during.actorId == actorId && during.sessionId == sessionId
    ensures after == DefaultContext()
  {
    var slot := new ContextSlot();
    before := slot.Get();
    slot.Set(actorId, sessionId);
    during := slot.Get();
    slot.Clear();
    slot.Clear();
    after := slot.Get();
  }
}

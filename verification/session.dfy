/** `ConversationSession`: the process-wide registry from conversation id to
    the conversation's agent team and its lock. The team is an opaque handle
    (the number of teams created before it), the lock a boolean, and the
    generated id a parameter. Entries are never removed. */
module Session {
  import opened Wrappers
  import opened Text

  /** One conversation: its team and whether a turn currently holds it. */
  datatype Conversation = Conversation(team: nat, locked: bool)

  datatype Registry = Registry(conversations: map<string, Conversation>, teamsCreated: nat)

  /** Opening fails only when another turn holds the conversation. */
  datatype OpenError = Busy(id: string)

  function EmptyRegistry(): (r: Registry)
    ensures r.conversations == map[] && r.teamsCreated == 0
  {
    Registry(map[], 0)
  }

  /** Every team handle in the registry was handed out by it. */
  ghost predicate Valid(reg: Registry) {
    forall id | id in reg.conversations :: reg.conversations[id].team < reg.teamsCreated
  }

  /** The id a caller asked for: trimmed, and absent when missing or blank. */
  function RequestedId(conversationId: Option<string>): (r: Option<string>)
    ensures r.None? <==> conversationId.None? || IsBlank(conversationId.value)
    ensures r.Some? ==> r.value == Strip(conversationId.value) && r.value != []
  {
    if conversationId.Some? && !IsBlank(conversationId.value) then Some(Strip(conversationId.value))
    else None
  }

  /** The id a session works on: the requested one, else the generated one. */
  function SessionId(conversationId: Option<string>, freshId: string): (id: string)
    ensures conversationId.None? || IsBlank(conversationId.value) ==> id == freshId
    ensures conversationId.Some? && !IsBlank(conversationId.value) ==> id == Strip(conversationId.value)
  {
    RequestedId(conversationId).GetOr(freshId)
  }

  /** `__aenter__`: look the id up, creating a conversation with a new team on
      a miss; refuse if its lock is held, otherwise take the lock. */
  function Open(reg: Registry, conversationId: Option<string>, freshId: string): (r: Result<(Registry, string), OpenError>)
    ensures var id := SessionId(conversationId, freshId);
            && (r.Failure? <==> id in reg.conversations && reg.conversations[id].locked)
            && (r.Failure? ==> r.error == Busy(id))
            && (r.Success? ==>
                  && r.value.1 == id
                  && r.value.0.conversations.Keys == reg.conversations.Keys + {id}
                  && r.value.0.conversations[id].locked
                  && (forall other | other in reg.conversations && other != id ::
                        r.value.0.conversations[other] == reg.conversations[other]))
    ensures r.Success? && SessionId(conversationId, freshId) in reg.conversations ==>
              r.value.0.conversations[r.value.1].team == reg.conversations[r.value.1].team
              && r.value.0.teamsCreated == reg.teamsCreated
    ensures r.Success? && SessionId(conversationId, freshId) !in reg.conversations ==>
              r.value.0.conversations[r.value.1].team == reg.teamsCreated
              && r.value.0.teamsCreated == reg.teamsCreated + 1
  {
    var id := SessionId(conversationId, freshId);
    var (reg1, c) :=
      if id in reg.conversations then (reg, reg.conversations[id])
      else
        var c := Conversation(reg.teamsCreated, false);
        (Registry(reg.conversations[id := c], reg.teamsCreated + 1), c);
    if c.locked then Failure(Busy(id))
    else Success((reg1.(conversations := reg1.conversations[id := c.(locked := true)]), id))
  }

  /** `__aexit__`: release the conversation's lock. */
  function Close(reg: Registry, id: string): (r: Registry)
    ensures r.teamsCreated == reg.teamsCreated
    ensures r.conversations.Keys == reg.conversations.Keys
    ensures id in reg.conversations ==>
              r.conversations[id] == reg.conversations[id].(locked := false)
    ensures forall other | other in reg.conversations && other != id ::
              r.conversations[other] == reg.conversations[other]
  {
    if id in reg.conversations then
      reg.(conversations := reg.conversations[id := reg.conversations[id].(locked := false)])
    else reg
  }

  /** Opening keeps every team handle one the registry handed out. */
  lemma OpenKeepsValid(reg: Registry, conversationId: Option<string>, freshId: string)
    requires Valid(reg)
    ensures Open(reg, conversationId, freshId).Success? ==> Valid(Open(reg, conversationId, freshId).value.0)
  {
  }

  /** A new conversation gets a team no other conversation shares. */
  lemma NewTeamIsDistinct(reg: Registry, conversationId: Option<string>, freshId: string)
    requires Valid(reg)
    requires SessionId(conversationId, freshId) !in reg.conversations
    ensures var r := Open(reg, conversationId, freshId);
            r.Success? &&
            forall other | other in reg.conversations ::
              r.value.0.conversations[other].team != r.value.0.conversations[r.value.1].team
  {
  }

  /** Ids that differ only in surrounding whitespace name one conversation. */
  lemma TrimmedIdsAgree(a: string, b: string, freshId: string)
    requires !IsBlank(a) && Strip(a) == Strip(b)
    ensures SessionId(Some(a), freshId) == SessionId(Some(b), freshId)
  {
    assert Strip(b) != [];
  }

  /** While one turn holds a conversation, a second open of the same id
      fails and leaves the registry as it was. */
  lemma MutualExclusion(reg: Registry, conversationId: Option<string>, freshId: string, freshId2: string)
    requires Open(reg, conversationId, freshId).Success?
    requires conversationId.Some? && !IsBlank(conversationId.value)
    ensures Open(Open(reg, conversationId, freshId).value.0, conversationId, freshId2)
              == Failure(Busy(Strip(conversationId.value)))
  {
  }

  /** Open then close: the conversation exists, is free again, and keeps the
      team it got (new or reused); a later open of the same id reuses that
      team and creates none. */
  lemma CloseReleases(reg: Registry, conversationId: Option<string>, freshId: string, freshId2: string)
    requires Open(reg, conversationId, freshId).Success?
    requires conversationId.Some? && !IsBlank(conversationId.value)
    ensures var (reg1, id) := Open(reg, conversationId, freshId).value;
            var reg2 := Close(reg1, id);
            && id in reg2.conversations && !reg2.conversations[id].locked
            && reg2.conversations[id].team == reg1.conversations[id].team
            && var again := Open(reg2, conversationId, freshId2);
               && again.Success?
               && again.value.0.conversations[id].team == reg1.conversations[id].team
               && again.value.0.teamsCreated == reg1.teamsCreated
  {
  }
}

/**
 The in-memory store of command and component interactions: a status that only moves
 forward through guarded writes, one response message and a set of follow-up messages.
 */
module InteractionStore {
  import opened Outcomes

  datatype Status = Pending | Deferred | Responded

  /** An interaction token; its hash is injective, so the store compares tokens directly. */
  datatype Token = Token(hasPrefix: bool, secret: nat)

  datatype Interaction = Interaction(
    id: nat,
    applicationId: nat,
    organizationId: nat,
    spaceId: nat,
    channelId: nat,
    token: Token,
    status: Status,
    responseMessageId: Option<nat>,
    respondedAt: Option<nat>
  )

  datatype CommandError = InvalidInput | Unauthorized | NotFound | AlreadyResponded

  datatype Store = Store(interactions: map<nat, Interaction>, followups: set<(nat, nat)>)

  /** What never changes about an interaction: ids, place and token. */
  function Identity(i: Interaction): (nat, nat, nat, nat, nat, Token) {
    (i.id, i.applicationId, i.organizationId, i.spaceId, i.channelId, i.token)
  }

  function Put(st: Store, i: Interaction): Store {
    st.(interactions := st.interactions[i.id := i])
  }

  function MarkDeferred(st: Store, id: nat, at: nat): (Store, Result<Interaction, CommandError>) {
    if id !in st.interactions then (st, Err(NotFound))
    else if st.interactions[id].status != Pending then (st, Err(AlreadyResponded))
    else
      var i := st.interactions[id].(status := Deferred, respondedAt := Some(at));
      (st.(interactions := st.interactions[id := i]), Ok(i))
  }

  function MarkResponded(st: Store, id: nat, message: Option<nat>, at: nat): (Store, Result<Interaction, CommandError>) {
    if id !in st.interactions then (st, Err(NotFound))
    else if st.interactions[id].status == Responded then (st, Err(AlreadyResponded))
    else
      var i := st.interactions[id];
      var i' := i.(status := Responded,
                   responseMessageId := if message.Some? then message else i.responseMessageId,
                   respondedAt := Some(at));
      (st.(interactions := st.interactions[id := i']), Ok(i'))
  }

  function RecordFollowup(st: Store, id: nat, message: nat): (Store, Result<(), CommandError>) {
    if id !in st.interactions then (st, Err(NotFound))
    else (st.(followups := st.followups + {(id, message)}), Ok(()))
  }

  /** The checks on the snapshot a callback handler reads. */
  function ForCallback(st: Store, id: nat, token: Token): Result<Interaction, CommandError> {
    if !token.hasPrefix then Err(Unauthorized)
    else if id !in st.interactions || st.interactions[id].token != token then Err(Unauthorized)
    else if st.interactions[id].status != Pending then Err(AlreadyResponded)
    else Ok(st.interactions[id])
  }

  ghost predicate Holds(st: Store, id: nat, token: Token) {
    id in st.interactions && st.interactions[id].token == token
  }

  /** The checks a follow-up handler makes on the interaction it found by its token. */
  function ForFollowup(i: Interaction, applicationId: nat): Result<Interaction, CommandError> {
    if i.applicationId != applicationId then Err(Unauthorized)
    else if i.status != Deferred && i.status != Responded then Err(AlreadyResponded)
    else Ok(i)
  }

  function ForOriginal(i: Interaction, applicationId: nat): Result<Interaction, CommandError> {
    if i.applicationId != applicationId then Err(Unauthorized)
    else if i.status != Responded || i.responseMessageId.None? then Err(NotFound)
    else Ok(i)
  }

  class MemoryCommandStore {
    var interactions: map<nat, Interaction>
    var followups: set<(nat, nat)>

    ghost function Contents(): Store
      reads this
    {
      Store(interactions, followups)
    }

    constructor ()
      ensures Contents() == Store(map[], {})
    {
      interactions, followups := map[], {};
    }

    method CreateInteraction(i: Interaction)
      modifies this
      ensures Contents() == Put(old(Contents()), i)
    {
      interactions := interactions[i.id := i];
    }

    /** Finds some interaction holding the token, if there is one. */
    method FindByToken(token: Token) returns (r: Option<Interaction>)
      ensures r.Some? ==> exists id :: Holds(Contents(), id, token) && interactions[id] == r.value
      ensures r.None? ==> forall id :: !Holds(Contents(), id, token)
    {
      var ids := interactions.Keys;
      while ids != {}
        invariant ids <= interactions.Keys
        invariant forall id :: id in interactions && id !in ids ==> interactions[id].token != token
        decreases |ids|
      {
        var id :| id in ids;
        if interactions[id].token == token {
          assert Holds(Contents(), id, token);
          return Some(interactions[id]);
        }
        ids := ids - {id};
      }
      return None;
    }

    /** Only a pending interaction becomes deferred; nothing else changes. */
    method DeferInteraction(id: nat, at: nat) returns (r: Result<Interaction, CommandError>)
      modifies this
      ensures (Contents(), r) == MarkDeferred(old(Contents()), id, at)
      ensures followups == old(followups)
      ensures id !in old(interactions) ==> r == Err(NotFound) && interactions == old(interactions)
      ensures id in old(interactions) && !old(interactions)[id].status.Pending? ==>
                r == Err(AlreadyResponded) && interactions == old(interactions)
      ensures id in old(interactions) && old(interactions)[id].status.Pending? ==>
                && r == Ok(old(interactions)[id].(status := Deferred, respondedAt := Some(at)))
                && interactions == old(interactions)[id := r.value]
    {
      if id !in interactions {
        return Err(NotFound);
      }
      var i := interactions[id];
      if i.status != Pending {
        return Err(AlreadyResponded);
      }
      i := i.(status := Deferred, respondedAt := Some(at));
      interactions := interactions[id := i];
      return Ok(i);
    }

    /** A pending or deferred interaction becomes responded; a message that is not given stays as it was. */
    method RespondInteraction(id: nat, message: Option<nat>, at: nat) returns (r: Result<Interaction, CommandError>)
      modifies this
      ensures (Contents(), r) == MarkResponded(old(Contents()), id, message, at)
      ensures followups == old(followups)
      ensures id !in old(interactions) ==> r == Err(NotFound) && interactions == old(interactions)
      ensures id in old(interactions) && old(interactions)[id].status.Responded? ==>
                r == Err(AlreadyResponded) && interactions == old(interactions)
      ensures id in old(interactions) && !old(interactions)[id].status.Responded? ==>
                && r.Ok? && r.value.status.Responded? && r.value.respondedAt == Some(at)
                && (message.Some? ==> r.value.responseMessageId == message)
                && (message.None? ==> r.value.responseMessageId == old(interactions)[id].responseMessageId)
                && Identity(r.value) == Identity(old(interactions)[id])
                && interactions == old(interactions)[id := r.value]
    {
      if id !in interactions {
        return Err(NotFound);
      }
      var i := interactions[id];
      if i.status != Pending && i.status != Deferred {
        return Err(AlreadyResponded);
      }
      i := i.(status := Responded);
      if message.Some? {
        i := i.(responseMessageId := message);
      }
      i := i.(respondedAt := Some(at));
      interactions := interactions[id := i];
      return Ok(i);
    }

    method RecordFollowupMessage(id: nat, message: nat) returns (r: Result<(), CommandError>)
      modifies this
      ensures (Contents(), r) == RecordFollowup(old(Contents()), id, message)
      ensures interactions == old(interactions)
      ensures r == (if id in interactions then Ok(()) else Err(NotFound))
      ensures forall k, m :: (k, m) in followups <==>
                (k, m) in old(followups) || (id in interactions && k == id && m == message)
    {
      if id !in interactions {
        return Err(NotFound);
      }
      followups := followups + {(id, message)};
      return Ok(());
    }
  }
}

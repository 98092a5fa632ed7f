/**
 Attachments: presigned, uploaded, linked to a message, purged. The store keeps metadata and
 content in two maps that every handler changes together.
 */
module Attachments {
  import opened Outcomes
  import opened Sums
  import T = Text

  const MAX_ATTACHMENT_SIZE_BYTES: int := 10 * 1024 * 1024
  const MAX_ATTACHMENTS_PER_MESSAGE: nat := 10

  datatype Status = Pending | Uploaded | Linked

  /** Where an attachment belongs and who may use it. */
  datatype Place = Place(organizationId: nat, spaceId: nat, channelId: nat, uploaderUserId: nat)

  /**
   File names and content types are numbers here: only equality of normalised ones matters.
   Only sizes that passed the presign check are ever stored, so none is negative.
   */
  datatype Attachment = Attachment(
    place: Place,
    messageId: Option<nat>,
    fileName: nat,
    contentType: nat,
    sizeBytes: nat,
    status: Status,
    createdAt: string
  )

  datatype Content = Content(contentType: nat, bytes: seq<nat>)

  datatype Error = InvalidInput | NotFound

  /** Both maps are keyed by attachment id. */
  datatype Store = Store(attachments: map<nat, Attachment>, contents: map<nat, Content>)

  // ---- store operations ----

  function Create(st: Store, id: nat, a: Attachment): Store {
    st.(attachments := st.attachments[id := a])
  }

  /** Writes the caller's record back, marked as uploaded. */
  function UploadContent(st: Store, id: nat, a: Attachment, c: Content): (Store, Result<Attachment, Error>) {
    if id !in st.attachments then (st, Err(NotFound))
    else
      var a' := a.(status := Uploaded);
      (Store(st.attachments[id := a'], st.contents[id := c]), Ok(a'))
  }

  /** Links one after the other and stops at an id that is not there. */
  function LinkAll(st: Store, messageId: nat, ids: seq<nat>): (Store, bool) {
    if ids == [] then (st, true)
    else
      var (before, ok) := LinkAll(st, messageId, ids[..|ids| - 1]);
      var id := ids[|ids| - 1];
      if !ok || id !in before.attachments then (before, false)
      else (before.(attachments := before.attachments[id :=
              before.attachments[id].(messageId := Some(messageId), status := Linked)]), true)
  }

  predicate Expired(a: Attachment, organizationId: nat, cutoff: Option<string>) {
    a.place.organizationId == organizationId && cutoff.Some? && T.Less(a.createdAt, cutoff.value)
  }

  function ExpiredIds(st: Store, organizationId: nat, cutoff: Option<string>): set<nat> {
    set id | id in st.attachments && Expired(st.attachments[id], organizationId, cutoff)
  }

  function PurgeStore(st: Store, organizationId: nat, cutoff: Option<string>): Store {
    var gone := ExpiredIds(st, organizationId, cutoff);
    Store(st.attachments - gone, st.contents - gone)
  }

  predicate Stored(a: Attachment, organizationId: nat) {
    a.place.organizationId == organizationId && (a.status == Uploaded || a.status == Linked)
  }

  /** The declared sizes of an organization's attachments that are past Pending. */
  ghost function DeclaredSizes(st: Store, organizationId: nat): map<nat, nat> {
    map id | id in st.attachments && Stored(st.attachments[id], organizationId) :: st.attachments[id].sizeBytes
  }

  /** The lengths of the contents held for an organization. */
  ghost function HeldSizes(st: Store, organizationId: nat): map<nat, nat> {
    map id | id in st.contents && id in st.attachments && st.attachments[id].place.organizationId == organizationId
      :: |st.contents[id].bytes|
  }

  class MemoryAttachmentStore {
    var attachmentsById: map<nat, Attachment>
    var contentById: map<nat, Content>

    ghost function Contents(): Store
      reads this
    {
      Store(attachmentsById, contentById)
    }

    constructor ()
      ensures Contents() == Store(map[], map[])
    {
      attachmentsById, contentById := map[], map[];
    }

    method CreateAttachment(id: nat, a: Attachment)
      modifies this
      ensures Contents() == Create(old(Contents()), id, a)
    {
      attachmentsById := attachmentsById[id := a];
    }

    method Upload(id: nat, a: Attachment, c: Content) returns (r: Result<Attachment, Error>)
      modifies this
      ensures (Contents(), r) == UploadContent(old(Contents()), id, a, c)
      ensures id !in old(attachmentsById) ==> r == Err(NotFound) && Contents() == old(Contents())
      ensures id in old(attachmentsById) ==>
                && r == Ok(a.(status := Uploaded))
                && attachmentsById == old(attachmentsById)[id := r.value] && contentById == old(contentById)[id := c]
    {
      if id !in attachmentsById {
        return Err(NotFound);
      }
      var a' := a.(status := Uploaded);
      contentById := contentById[id := c];
      attachmentsById := attachmentsById[id := a'];
      return Ok(a');
    }

    method LinkToMessage(messageId: nat, ids: seq<nat>) returns (r: Result<seq<Attachment>, Error>)
      modifies this
      ensures (Contents(), r.Ok?) == LinkAll(old(Contents()), messageId, ids)
      ensures r.Ok? <==> forall i :: 0 <= i < |ids| ==> ids[i] in attachmentsById
      ensures r.Ok? ==> |r.value| == |ids| && forall i :: 0 <= i < |ids| ==> ids[i] in attachmentsById && r.value[i] == attachmentsById[ids[i]]
      ensures contentById == old(contentById)
      ensures LinksReached(old(attachmentsById), attachmentsById, messageId, ids)
    {
      var linked := [];
      LinkAllExact(Contents(), messageId, ids);
      for i := 0 to |ids|
        invariant (Contents(), true) == LinkAll(old(Contents()), messageId, ids[..i])
        invariant |linked| == i
        invariant forall k :: 0 <= k < i ==> ids[k] in attachmentsById && linked[k] == attachmentsById[ids[k]]
        invariant forall k :: 0 <= k < i ==> attachmentsById[ids[k]].messageId == Some(messageId) && attachmentsById[ids[k]].status == Linked
      {
        assert ids[..i + 1][..i] == ids[..i];
        if ids[i] !in attachmentsById {
          LinkStops(old(Contents()), messageId, ids, i);
          return Err(NotFound);
        }
        var a := attachmentsById[ids[i]].(messageId := Some(messageId), status := Linked);
        attachmentsById := attachmentsById[ids[i] := a];
        linked := linked + [a];
      }
      assert ids[..|ids|] == ids;
      return Ok(linked);
    }

    /** The sum of the declared sizes, taken over the values in any order. */
    method StoredBytesForOrganization(organizationId: nat) returns (total: nat)
      ensures total == Total(DeclaredSizes(Contents(), organizationId))
    {
      total := 0;
      var rest := attachmentsById.Keys;
      ghost var counted: map<nat, nat> := map[];
      ghost var sizes := DeclaredSizes(Contents(), organizationId);
      while rest != {}
        invariant rest <= attachmentsById.Keys
        invariant counted == map id | id in sizes && id !in rest :: sizes[id]
        invariant total == Total(counted)
        decreases |rest|
      {
        var id :| id in rest;
        if Stored(attachmentsById[id], organizationId) {
          TotalPut(counted, id, attachmentsById[id].sizeBytes);
          total := total + attachmentsById[id].sizeBytes;
          counted := counted[id := attachmentsById[id].sizeBytes];
        }
        rest := rest - {id};
      }
      assert counted == sizes;
    }

    method PurgeForRetention(organizationId: nat, cutoff: Option<string>, dryRun: bool) returns (purged: nat)
      modifies this
      ensures purged == |ExpiredIds(old(Contents()), organizationId, cutoff)|
      ensures Contents() == if dryRun then old(Contents()) else PurgeStore(old(Contents()), organizationId, cutoff)
    {
      var expired := set id | id in attachmentsById && Expired(attachmentsById[id], organizationId, cutoff);
      purged := |expired|;
      if !dryRun {
        var rest := expired;
        while rest != {}
          invariant rest <= expired
          invariant attachmentsById == old(attachmentsById) - (expired - rest)
          invariant contentById == old(contentById) - (expired - rest)
          decreases |rest|
        {
          var id :| id in rest;
          attachmentsById := attachmentsById - {id};
          contentById := contentById - {id};
          rest := rest - {id};
        }
      }
    }
  }

  /** The id is in the list, and every id up to it is known. */
  ghost predicate ReachedBy(known: set<nat>, ids: seq<nat>, id: nat) {
    exists i :: 0 <= i < |ids| && ids[i] == id && forall j :: 0 <= j <= i ==> ids[j] in known
  }

  /** Exactly the ids before the first unknown one are linked; nothing else changes. */
  ghost predicate LinksReached(before: map<nat, Attachment>, after: map<nat, Attachment>, messageId: nat, ids: seq<nat>) {
    && after.Keys == before.Keys
    && forall id :: id in before ==>
         after[id] == if ReachedBy(before.Keys, ids, id) then before[id].(messageId := Some(messageId), status := Linked)
                      else before[id]
  }

  ghost predicate AllKnown(known: set<nat>, ids: seq<nat>) {
    forall i :: 0 <= i < |ids| ==> ids[i] in known
  }

  lemma ReachedLast(known: set<nat>, ids: seq<nat>, id: nat)
    requires ids != []
    ensures var init, last := ids[..|ids| - 1], ids[|ids| - 1];
            && (AllKnown(known, ids) <==> AllKnown(known, init) && last in known)
            && (ReachedBy(known, ids, id) <==> ReachedBy(known, init, id) || (AllKnown(known, ids) && id == last))
  {
    var n := |ids| - 1;
    var init := ids[..n];
    assert forall j :: 0 <= j < n ==> init[j] == ids[j];
    if AllKnown(known, ids) && id == ids[n] { assert ids[n] == id && forall j :: 0 <= j <= n ==> ids[j] in known; }
  }

  lemma {:induction false} LinkAllExact(st: Store, messageId: nat, ids: seq<nat>)
    ensures var (st', ok) := LinkAll(st, messageId, ids);
            && (ok <==> AllKnown(st.attachments.Keys, ids)) && st'.contents == st.contents
            && LinksReached(st.attachments, st'.attachments, messageId, ids)
  {
    if ids != [] {
      LinkAllExact(st, messageId, ids[..|ids| - 1]);
      forall id ensures var init, last := ids[..|ids| - 1], ids[|ids| - 1];
                        && (AllKnown(st.attachments.Keys, ids) <==> AllKnown(st.attachments.Keys, init) && last in st.attachments.Keys)
                        && (ReachedBy(st.attachments.Keys, ids, id) <==>
                              ReachedBy(st.attachments.Keys, init, id) || (AllKnown(st.attachments.Keys, ids) && id == last)) {
        ReachedLast(st.attachments.Keys, ids, id);
      }
    }
  }

  lemma {:induction false} LinkStops(st: Store, messageId: nat, ids: seq<nat>, i: nat)
    requires i < |ids| && LinkAll(st, messageId, ids[..i]).1 && ids[i] !in LinkAll(st, messageId, ids[..i]).0.attachments
    ensures LinkAll(st, messageId, ids) == (LinkAll(st, messageId, ids[..i]).0, false)
  {
    var init := ids[..|ids| - 1];
    if i < |init| {
      assert init[..i] == ids[..i];
      LinkStops(st, messageId, init, i);
    } else {
      assert init == ids[..i];
    }
  }
}

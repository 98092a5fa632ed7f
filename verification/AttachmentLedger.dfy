/**
 The handlers over the attachment store, each taken as one step, and what every run of them
 keeps: content and metadata agree, links never change, and the reported bytes are the bytes held.
 */
module AttachmentLedger {
  import opened Outcomes
  import opened Lists
  import opened Sums
  import opened Attachments

  /** A presign request; an unusable name or content type is absent. */
  datatype NewAttachment = NewAttachment(place: Place, fileName: Option<nat>, contentType: Option<nat>, sizeBytes: int)

  function CreatePending(st: Store, id: nat, input: NewAttachment, at: string): (Store, Result<Attachment, Error>) {
    if input.fileName.None? || input.contentType.None? || !(1 <= input.sizeBytes <= MAX_ATTACHMENT_SIZE_BYTES)
    then (st, Err(InvalidInput))
    else
      var a := Attachment(input.place, None, input.fileName.value, input.contentType.value, input.sizeBytes, Pending, at);
      (Create(st, id, a), Ok(a))
  }

  /** The checks of an upload on the record the handler has read. */
  function Upload(st: Store, id: nat, a: Attachment, user: nat, contentType: Option<nat>, bytes: seq<nat>): (Store, Result<Attachment, Error>) {
    if a.place.uploaderUserId != user then (st, Err(NotFound))
    else if a.status == Linked then (st, Err(InvalidInput))
    else if |bytes| != a.sizeBytes then (st, Err(InvalidInput))
    else if contentType.None? || contentType.value != a.contentType then (st, Err(InvalidInput))
    else UploadContent(st, id, a, Content(contentType.value, bytes))
  }

  predicate Attachable(st: Store, place: Place, id: nat) {
    && id in st.attachments
    && st.attachments[id].place == place && st.attachments[id].messageId.None? && st.attachments[id].status == Uploaded
  }

  predicate ValidForMessage(st: Store, place: Place, ids: seq<nat>) {
    |ids| <= MAX_ATTACHMENTS_PER_MESSAGE && Distinct(ids) && forall i :: 0 <= i < |ids| ==> Attachable(st, place, ids[i])
  }

  /** The loop with its set of ids already seen decides exactly that. */
  method ValidateForMessage(store: MemoryAttachmentStore, place: Place, ids: seq<nat>) returns (r: Result<(), Error>)
    ensures r.Ok? <==> ValidForMessage(store.Contents(), place, ids)
    ensures r.Ok? <==>
              && |ids| <= 10 && (forall i, j :: 0 <= i < j < |ids| ==> ids[i] != ids[j])
              && forall id :: id in ids ==>
                   && id in store.attachmentsById && store.attachmentsById[id].place == place
                   && store.attachmentsById[id].status.Uploaded? && store.attachmentsById[id].messageId.None?
    ensures r == Err(NotFound) <==>
              && |ids| <= 10
              && exists i :: 0 <= i < |ids| && ids[i] !in store.attachmentsById && Distinct(ids[..i + 1])
                             && forall j :: 0 <= j < i ==> Attachable(store.Contents(), place, ids[j])
  {
    if |ids| > MAX_ATTACHMENTS_PER_MESSAGE {
      return Err(InvalidInput);
    }
    var seen: set<nat> := {};
    for i := 0 to |ids|
      invariant seen == set k | 0 <= k < i :: ids[k]
      invariant Distinct(ids[..i])
      invariant forall k :: 0 <= k < i ==> Attachable(store.Contents(), place, ids[k])
    {
      if ids[i] in seen {
        return Err(InvalidInput);
      }
      seen := seen + {ids[i]};
      if ids[i] !in store.attachmentsById {
        return Err(NotFound);
      }
      var a := store.attachmentsById[ids[i]];
      if a.place != place || a.messageId.Some? || a.status != Uploaded {
        return Err(InvalidInput);
      }
    }
    return Ok(());
  }

  // ---- runs ----

  /** A file of a bot message, with the id its attachment will get. */
  datatype BotFile = BotFile(id: nat, fileName: Option<nat>, contentType: Option<nat>, bytes: seq<nat>)

  datatype Step =
    | Presign(id: nat, input: NewAttachment, at: string)
    | PutContent(id: nat, user: nat, contentType: Option<nat>, bytes: seq<nat>)
    | CreateMessage(messageId: nat, place: Place, ids: seq<nat>, accepted: bool)      // accepted: the message itself is fine
    | CreateBotMessage(messageId: nat, place: Place, files: seq<BotFile>, at: string, accepted: bool)
    | Purge(organizationId: nat, cutoff: Option<string>, dryRun: bool)

  /** `used` holds every attachment id ever handed out: ids are never reused. */
  datatype World = World(store: Store, used: set<nat>)

  function FileIds(files: seq<BotFile>): (ids: seq<nat>)
    ensures |ids| == |files|
    ensures forall i :: 0 <= i < |ids| ==> ids[i] == files[i].id
  {
    seq(|files|, i requires 0 <= i < |files| => files[i].id)
  }

  predicate Enabled(w: World, s: Step) {
    match s
    case Presign(id, _, _) => id !in w.used
    case CreateBotMessage(_, _, files, _, _) =>
      Distinct(FileIds(files)) && forall i :: 0 <= i < |files| ==> files[i].id !in w.used
    case _ => true
  }

  /** One file: presigned with its own length, then uploaded. */
  function AddFile(st: Store, place: Place, f: BotFile, at: string): (Store, bool) {
    if |f.bytes| > MAX_ATTACHMENT_SIZE_BYTES then (st, false)
    else
      var (created, a) := CreatePending(st, f.id, NewAttachment(place, f.fileName, f.contentType, |f.bytes|), at);
      if a.Err? then (created, false)
      else
        var (uploaded, r) := Upload(created, f.id, a.value, place.uploaderUserId, f.contentType, f.bytes);
        (uploaded, r.Ok?)
  }

  /** The files in order; the first that fails ends the request and leaves the earlier ones. */
  function AddFiles(st: Store, place: Place, files: seq<BotFile>, at: string): (Store, bool) {
    if files == [] then (st, true)
    else
      var (before, ok) := AddFiles(st, place, files[..|files| - 1], at);
      if !ok then (before, false) else AddFile(before, place, files[|files| - 1], at)
  }

  function Apply(w: World, s: Step): World {
    match s
    case Presign(id, input, at) => World(CreatePending(w.store, id, input, at).0, w.used + {id})
    case PutContent(id, user, contentType, bytes) =>
      if id !in w.store.attachments then w
      else w.(store := Upload(w.store, id, w.store.attachments[id], user, contentType, bytes).0)
    case CreateMessage(messageId, place, ids, accepted) =>
      if !ValidForMessage(w.store, place, ids) || !accepted then w
      else w.(store := LinkAll(w.store, messageId, ids).0)
    case CreateBotMessage(messageId, place, files, at, accepted) =>
      var (st, ok) := AddFiles(w.store, place, files, at);
      World(if ok && accepted then LinkAll(st, messageId, FileIds(files)).0 else st,
            w.used + set i | 0 <= i < |files| :: files[i].id)
    case Purge(organizationId, cutoff, dryRun) =>
      if dryRun then w else w.(store := PurgeStore(w.store, organizationId, cutoff))
  }

  ghost predicate IsRun(steps: seq<Step>) {
    steps == [] || (IsRun(steps[..|steps| - 1]) && Enabled(After(steps[..|steps| - 1]), steps[|steps| - 1]))
  }

  function After(steps: seq<Step>): World {
    if steps == [] then World(Store(map[], map[]), {}) else Apply(After(steps[..|steps| - 1]), steps[|steps| - 1])
  }

  // ---- the invariant ----

  ghost predicate AttachmentOk(st: Store, id: nat)
    requires id in st.attachments
  {
    var a := st.attachments[id];
    && 1 <= a.sizeBytes <= MAX_ATTACHMENT_SIZE_BYTES
    && (id in st.contents <==> a.status != Pending)
    && (id in st.contents ==> |st.contents[id].bytes| == a.sizeBytes && st.contents[id].contentType == a.contentType)
    && (a.status == Linked <==> a.messageId.Some?)
  }

  ghost predicate StoreOk(st: Store) {
    && (forall id :: id in st.attachments ==> AttachmentOk(st, id))
    && (forall id :: id in st.contents ==> id in st.attachments)
  }

  /** From `a` to `b`: records stay or are purged; what stays keeps its identity and its link. */
  ghost predicate Grows(a: Store, b: Store, fresh_: set<nat>) {
    forall id :: id in b.attachments ==>
      || id in fresh_
      || (id in a.attachments && Keeps(a.attachments[id], b.attachments[id]))
  }

  ghost predicate Keeps(a: Attachment, b: Attachment) {
    && b.place == a.place && b.fileName == a.fileName && b.contentType == a.contentType
    && b.sizeBytes == a.sizeBytes && b.createdAt == a.createdAt
    && (a.messageId.Some? ==> b.messageId == a.messageId)
    && (a.status == Pending || b.status != Pending)
  }

  lemma PresignKeeps(st: Store, id: nat, input: NewAttachment, at: string)
    requires StoreOk(st) && id !in st.attachments
    ensures StoreOk(CreatePending(st, id, input, at).0) && Grows(st, CreatePending(st, id, input, at).0, {id})
    ensures CreatePending(st, id, input, at).0.attachments.Keys <= st.attachments.Keys + {id}
  {
    var st' := CreatePending(st, id, input, at).0;
    forall k | k in st'.attachments ensures AttachmentOk(st', k) {
      if k in st.attachments { assert AttachmentOk(st, k); }
    }
  }

  lemma UploadKeeps(st: Store, id: nat, user: nat, contentType: Option<nat>, bytes: seq<nat>)
    requires StoreOk(st) && id in st.attachments
    ensures var st' := Upload(st, id, st.attachments[id], user, contentType, bytes).0;
            StoreOk(st') && Grows(st, st', {}) && st'.attachments.Keys == st.attachments.Keys
  {
    var st' := Upload(st, id, st.attachments[id], user, contentType, bytes).0;
    assert AttachmentOk(st, id);
    forall k | k in st'.attachments ensures AttachmentOk(st', k) { assert AttachmentOk(st, k); }
  }

  /** Linking attachments that have content and no message yet. */
  lemma LinkKeeps(st: Store, messageId: nat, ids: seq<nat>)
    requires StoreOk(st)
    requires forall i :: 0 <= i < |ids| ==>
               ids[i] in st.attachments && st.attachments[ids[i]].status == Uploaded
    ensures var (st', ok) := LinkAll(st, messageId, ids);
            && ok && StoreOk(st') && Grows(st, st', {}) && st'.attachments.Keys == st.attachments.Keys
            && st'.contents == st.contents
            && (forall id :: id in st.attachments && id !in ids ==> st'.attachments[id] == st.attachments[id])
            && (forall i :: 0 <= i < |ids| ==>
                  st'.attachments[ids[i]] == st.attachments[ids[i]].(messageId := Some(messageId), status := Linked))
  {
    LinkAllExact(st, messageId, ids);
    var st' := LinkAll(st, messageId, ids).0;
    forall i | 0 <= i < |ids|
      ensures st'.attachments[ids[i]] == st.attachments[ids[i]].(messageId := Some(messageId), status := Linked)
    {
      assert ReachedBy(st.attachments.Keys, ids, ids[i]);
    }
    forall k | k in st'.attachments ensures AttachmentOk(st', k) && Keeps(st.attachments[k], st'.attachments[k]) {
      assert AttachmentOk(st, k);
    }
  }

  lemma FileShape(st: Store, place: Place, f: BotFile, at: string)
    requires AddFile(st, place, f, at).1
    ensures 1 <= |f.bytes| <= MAX_ATTACHMENT_SIZE_BYTES && f.fileName.Some? && f.contentType.Some?
    ensures AddFile(st, place, f, at).0 ==
              Store(st.attachments[f.id := Attachment(place, None, f.fileName.value, f.contentType.value, |f.bytes|, Uploaded, at)],
                    st.contents[f.id := Content(f.contentType.value, f.bytes)])
  {
    var a := Attachment(place, None, f.fileName.value, f.contentType.value, |f.bytes|, Pending, at);
    assert st.attachments[f.id := a][f.id := a.(status := Uploaded)] == st.attachments[f.id := a.(status := Uploaded)];
  }

  lemma FileRefused(st: Store, place: Place, f: BotFile, at: string)
    requires !AddFile(st, place, f, at).1
    ensures AddFile(st, place, f, at).0 == st
  {
  }

  /** `b` is `a` with records added under ids that were free, all of them among `new_`. */
  ghost predicate Extends(a: Store, b: Store, new_: set<nat>) {
    && (forall id :: id in a.attachments ==> id in b.attachments && b.attachments[id] == a.attachments[id])
    && (forall id :: id in b.attachments ==> id in a.attachments || id in new_)
  }

  lemma FileKeeps(st: Store, place: Place, f: BotFile, at: string)
    requires StoreOk(st) && f.id !in st.attachments
    ensures var (st', ok) := AddFile(st, place, f, at);
            && StoreOk(st') && Extends(st, st', {f.id})
            && (ok ==> f.id in st'.attachments && st'.attachments[f.id].status == Uploaded)
  {
    var (st', ok) := AddFile(st, place, f, at);
    if ok {
      FileShape(st, place, f, at);
      forall k | k in st'.attachments ensures AttachmentOk(st', k) {
        if k != f.id { assert AttachmentOk(st, k); }
      }
    } else {
      FileRefused(st, place, f, at);
    }
  }

  function IdSet(files: seq<BotFile>): set<nat> {
    if files == [] then {} else IdSet(files[..|files| - 1]) + {files[|files| - 1].id}
  }

  lemma {:induction false} IdSetMembers(files: seq<BotFile>)
    ensures IdSet(files) == set i | 0 <= i < |files| :: files[i].id
  {
    if files != [] {
      var init := files[..|files| - 1];
      IdSetMembers(init);
      assert forall i :: 0 <= i < |init| ==> init[i] == files[i];
    }
  }

  ghost predicate AllUploaded(st: Store, files: seq<BotFile>) {
    forall i :: 0 <= i < |files| ==> files[i].id in st.attachments && st.attachments[files[i].id].status == Uploaded
  }

  lemma NewId(files: seq<BotFile>)
    requires files != [] && Distinct(FileIds(files))
    ensures files[|files| - 1].id !in IdSet(files[..|files| - 1])
    ensures Distinct(FileIds(files[..|files| - 1]))
  {
    var init, ids := files[..|files| - 1], FileIds(files);
    IdSetMembers(init);
    forall i | 0 <= i < |init| ensures init[i].id != files[|files| - 1].id { assert ids[i] != ids[|init|]; }
    forall i, j | 0 <= i < j < |init| ensures FileIds(init)[i] != FileIds(init)[j] { assert ids[i] != ids[j]; }
  }

  lemma {:induction false} FilesKeep(st: Store, place: Place, files: seq<BotFile>, at: string)
    requires StoreOk(st) && Distinct(FileIds(files))
    requires forall i :: 0 <= i < |files| ==> files[i].id !in st.attachments
    ensures var (st', ok) := AddFiles(st, place, files, at);
            StoreOk(st') && Extends(st, st', IdSet(files)) && (ok ==> AllUploaded(st', files))
  {
    if files != [] {
      var init, f := files[..|files| - 1], files[|files| - 1];
      NewId(files);
      FilesKeep(st, place, init, at);
      var (before, ok) := AddFiles(st, place, init, at);
      if ok {
        FileKeeps(before, place, f, at);
        var (st', ok') := AddFiles(st, place, files, at);
        assert Extends(st, st', IdSet(files));
        if ok' {
          forall i | 0 <= i < |files| ensures files[i].id in st'.attachments && st'.attachments[files[i].id].status == Uploaded {
            if i < |init| { assert files[i] == init[i]; }
          }
        }
      }
    }
  }

  lemma BotMessageKeeps(st: Store, messageId: nat, place: Place, files: seq<BotFile>, at: string, accepted: bool)
    requires StoreOk(st) && Distinct(FileIds(files))
    requires forall i :: 0 <= i < |files| ==> files[i].id !in st.attachments
    ensures var (added, ok) := AddFiles(st, place, files, at);
            var st' := if ok && accepted then LinkAll(added, messageId, FileIds(files)).0 else added;
            StoreOk(st') && Grows(st, st', IdSet(files)) && st'.attachments.Keys <= st.attachments.Keys + IdSet(files)
  {
    FilesKeep(st, place, files, at);
    var (added, ok) := AddFiles(st, place, files, at);
    if ok && accepted {
      var ids := FileIds(files);
      assert forall i :: 0 <= i < |ids| ==> ids[i] == files[i].id;
      LinkKeeps(added, messageId, ids);
    }
  }

  lemma PurgeKeeps(st: Store, organizationId: nat, cutoff: Option<string>)
    requires StoreOk(st)
    ensures StoreOk(PurgeStore(st, organizationId, cutoff)) && Grows(st, PurgeStore(st, organizationId, cutoff), {})
  {
    var st' := PurgeStore(st, organizationId, cutoff);
    forall k | k in st'.attachments ensures AttachmentOk(st', k) { assert AttachmentOk(st, k); }
  }

  ghost predicate WorldOk(w: World) {
    StoreOk(w.store) && w.store.attachments.Keys <= w.used
  }

  function NewIds(s: Step): set<nat> {
    match s
    case Presign(id, _, _) => {id}
    case CreateBotMessage(_, _, files, _, _) => IdSet(files)
    case _ => {}
  }

  lemma StepKeeps(w: World, s: Step)
    requires WorldOk(w) && Enabled(w, s)
    ensures WorldOk(Apply(w, s)) && Grows(w.store, Apply(w, s).store, NewIds(s))
    ensures Apply(w, s).used == w.used + NewIds(s) && NewIds(s) !! w.used
  {
    match s
    case Presign(id, input, at) => PresignKeeps(w.store, id, input, at);
    case PutContent(id, user, contentType, bytes) =>
      if id in w.store.attachments { UploadKeeps(w.store, id, user, contentType, bytes); }
    case CreateMessage(messageId, place, ids, accepted) =>
      if ValidForMessage(w.store, place, ids) {
        forall i | 0 <= i < |ids| ensures ids[i] in w.store.attachments && w.store.attachments[ids[i]].status == Uploaded {
          assert Attachable(w.store, place, ids[i]);
        }
        LinkKeeps(w.store, messageId, ids);
      }
    case CreateBotMessage(messageId, place, files, at, accepted) =>
      IdSetMembers(files);
      BotMessageKeeps(w.store, messageId, place, files, at, accepted);
    case Purge(organizationId, cutoff, _) => PurgeKeeps(w.store, organizationId, cutoff);
  }

  lemma {:induction false} RunKeeps(steps: seq<Step>)
    requires IsRun(steps)
    ensures WorldOk(After(steps))
  {
    if steps != [] {
      RunKeeps(steps[..|steps| - 1]);
      StepKeeps(After(steps[..|steps| - 1]), steps[|steps| - 1]);
    }
  }

  // ---- main results ----

  /**
   In every run: an attachment has content exactly when it is past Pending, of the declared
   length, it is linked exactly when it has a message, and the bytes reported for an
   organization are the bytes held for it.
   */
  lemma LedgerHolds(steps: seq<Step>, organizationId: nat)
    requires IsRun(steps)
    ensures var st := After(steps).store;
            StoreOk(st) && Total(DeclaredSizes(st, organizationId)) == Total(HeldSizes(st, organizationId))
  {
    RunKeeps(steps);
    SizesAgree(After(steps).store, organizationId);
  }

  lemma SizesAgree(st: Store, organizationId: nat)
    requires StoreOk(st)
    ensures DeclaredSizes(st, organizationId) == HeldSizes(st, organizationId)
  {
    var declared, held := DeclaredSizes(st, organizationId), HeldSizes(st, organizationId);
    forall id ensures id in declared <==> id in held {
      if id in st.attachments { assert AttachmentOk(st, id); }
    }
    forall id | id in declared ensures declared[id] == held[id] { assert AttachmentOk(st, id); }
  }

  lemma KeepsTransitive(a: Attachment, b: Attachment, c: Attachment)
    requires Keeps(a, b) && Keeps(b, c)
    ensures Keeps(a, c)
  {
  }

  /**
   Between two points of a run, an id that is there at the second point and was handed out
   before the first was there at the first with the same owner, size and link.
   */
  lemma {:induction false} LinksNeverChange(steps: seq<Step>, n: nat, id: nat)
    requires IsRun(steps) && n <= |steps|
    requires id in After(steps).store.attachments && id in After(steps[..n]).used
    ensures IsRun(steps[..n]) && id in After(steps[..n]).store.attachments
    ensures Keeps(After(steps[..n]).store.attachments[id], After(steps).store.attachments[id])
  {
    if n == |steps| {
      assert steps[..n] == steps;
    } else {
      var init, s := steps[..|steps| - 1], steps[|steps| - 1];
      assert init[..n] == steps[..n];
      RunKeeps(init);
      StepKeeps(After(init), s);
      UsedGrows(init, n, id);
      LinksNeverChange(init, n, id);
      KeepsTransitive(After(steps[..n]).store.attachments[id], After(init).store.attachments[id], After(steps).store.attachments[id]);
    }
  }

  lemma {:induction false} UsedGrows(steps: seq<Step>, n: nat, id: nat)
    requires IsRun(steps) && n <= |steps| && id in After(steps[..n]).used
    ensures id in After(steps).used
  {
    if n == |steps| {
      assert steps[..n] == steps;
    } else {
      var init := steps[..|steps| - 1];
      assert init[..n] == steps[..n];
      UsedGrows(init, n, id);
      RunKeeps(init);
      StepKeeps(After(init), steps[|steps| - 1]);
    }
  }

  // ---- what each step does to the bytes of an organization ----

  lemma UploadSizes(st: Store, id: nat, user: nat, contentType: Option<nat>, bytes: seq<nat>, organizationId: nat)
    requires id in st.attachments && AttachmentOk(st, id)
    requires Upload(st, id, st.attachments[id], user, contentType, bytes).1.Ok?
    ensures var a, before := st.attachments[id], HeldSizes(st, organizationId);
            var first := a.status == Pending && a.place.organizationId == organizationId;
            && (first ==> id !in before)
            && HeldSizes(Upload(st, id, a, user, contentType, bytes).0, organizationId) ==
                 if first then before[id := |bytes|] else before
  {
  }

  /** The first upload adds its length to its own organization; uploading again adds nothing. */
  lemma UploadBytes(w: World, s: Step, organizationId: nat)
    requires WorldOk(w) && s.PutContent? && s.id in w.store.attachments
    requires Upload(w.store, s.id, w.store.attachments[s.id], s.user, s.contentType, s.bytes).1.Ok?
    ensures var a := w.store.attachments[s.id];
            Total(HeldSizes(Apply(w, s).store, organizationId)) ==
              Total(HeldSizes(w.store, organizationId))
              + (if a.status == Pending && a.place.organizationId == organizationId then |s.bytes| else 0)
  {
    var a := w.store.attachments[s.id];
    UploadSizes(w.store, s.id, s.user, s.contentType, s.bytes, organizationId);
    if a.status == Pending && a.place.organizationId == organizationId {
      TotalPut(HeldSizes(w.store, organizationId), s.id, |s.bytes|);
    }
  }

  /** Linking moves no bytes. */
  lemma MessageBytes(w: World, s: Step, organizationId: nat)
    requires WorldOk(w) && s.CreateMessage?
    ensures HeldSizes(Apply(w, s).store, organizationId) == HeldSizes(w.store, organizationId)
  {
    if ValidForMessage(w.store, s.place, s.ids) {
      forall i | 0 <= i < |s.ids| ensures s.ids[i] in w.store.attachments && w.store.attachments[s.ids[i]].status == Uploaded {
        assert Attachable(w.store, s.place, s.ids[i]);
      }
      LinkKeeps(w.store, s.messageId, s.ids);
    }
  }

  /** A purge takes away exactly the bytes of the attachments it removes, all of one organization. */
  lemma PurgeBytes(w: World, s: Step, organizationId: nat)
    requires WorldOk(w) && s.Purge? && !s.dryRun
    ensures var held, gone := HeldSizes(w.store, organizationId), ExpiredIds(w.store, s.organizationId, s.cutoff);
            && Total(held) == Total(HeldSizes(Apply(w, s).store, organizationId)) + Total(map id | id in held && id in gone :: held[id])
            && (organizationId != s.organizationId ==> HeldSizes(Apply(w, s).store, organizationId) == held)
  {
    var held, gone := HeldSizes(w.store, organizationId), ExpiredIds(w.store, s.organizationId, s.cutoff);
    TotalSplit(held, gone);
    assert HeldSizes(Apply(w, s).store, organizationId) == held - gone;
    assert organizationId != s.organizationId ==> held - gone == held;
  }
}

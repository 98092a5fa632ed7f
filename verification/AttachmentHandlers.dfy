/**
 The attachment handlers one by one: exactly when each is refused and what it leaves, and whose
 bytes an attachment holds in any run.
 */
module AttachmentHandlers {
  import opened Outcomes
  import opened Lists
  import opened Attachments
  import opened AttachmentLedger

  // ---- presign and upload ----

  /** Exactly the files with a usable name and type and from one byte to ten mebibytes are presigned, as pending. */
  lemma PresignExact(st: Store, id: nat, input: NewAttachment, at: string)
    ensures var (st', r) := CreatePending(st, id, input, at);
            if input.fileName.Some? && input.contentType.Some? && 1 <= input.sizeBytes <= 10_485_760 then
              && r == Ok(Attachment(input.place, None, input.fileName.value, input.contentType.value, input.sizeBytes, Pending, at))
              && st'.attachments == st.attachments[id := r.value] && st'.contents == st.contents
            else r == Err(InvalidInput) && st' == st
  {
  }

  /**
   An upload by anyone else finds nothing; the uploader's is refused once the attachment is linked
   and unless size and type are the presigned ones. A refused upload changes nothing; an accepted
   one stores exactly the bytes sent.
   */
  lemma UploadExact(st: Store, id: nat, user: nat, contentType: Option<nat>, bytes: seq<nat>)
    requires id in st.attachments
    ensures var a := st.attachments[id];
            var (st', r) := Upload(st, id, a, user, contentType, bytes);
            && (r == Err(NotFound) <==> user != a.place.uploaderUserId)
            && (r == Err(InvalidInput) <==>
                  user == a.place.uploaderUserId
                  && (a.status.Linked? || |bytes| != a.sizeBytes || contentType != Some(a.contentType)))
            && (r.Err? ==> st' == st)
            && (r.Ok? ==>
                  && r.value == a.(status := Uploaded)
                  && st'.attachments == st.attachments[id := r.value]
                  && st'.contents == st.contents[id := Content(a.contentType, bytes)])
  {
  }

  // ---- messages ----

  /** A file that a bot message may carry. */
  predicate FileGood(f: BotFile) {
    f.fileName.Some? && f.contentType.Some? && 1 <= |f.bytes| <= 10_485_760
  }

  lemma FileGoodExactly(st: Store, place: Place, f: BotFile, at: string)
    ensures AddFile(st, place, f, at).1 <==> FileGood(f)
  {
  }

  /** The record of a file of a bot message. */
  function FileRecord(place: Place, f: BotFile, at: string, messageId: Option<nat>): Attachment
    requires FileGood(f)
  {
    Attachment(place, messageId, f.fileName.value, f.contentType.value, |f.bytes|,
               if messageId.Some? then Linked else Uploaded, at)
  }

  /** The files up to here are all good. */
  ghost predicate GoodUpTo(files: seq<BotFile>, i: int) {
    forall j :: 0 <= j <= i && j < |files| ==> FileGood(files[j])
  }

  /** The file is stored with its record and its bytes, or not there at all. */
  ghost predicate FileAt(st: Store, place: Place, f: BotFile, at: string, messageId: Option<nat>, kept: bool) {
    if kept then
      && FileGood(f) && f.id in st.attachments && f.id in st.contents
      && st.attachments[f.id] == FileRecord(place, f, at, messageId)
      && st.contents[f.id] == Content(f.contentType.value, f.bytes)
    else f.id !in st.attachments
  }

  ghost predicate SameAt(st: Store, st': Store, id: nat) {
    && (id in st'.attachments <==> id in st.attachments) && (id in st'.contents <==> id in st.contents)
    && (id in st.attachments ==> st'.attachments[id] == st.attachments[id])
    && (id in st.contents ==> st'.contents[id] == st.contents[id])
  }

  ghost predicate OthersSame(st: Store, st': Store, ids: seq<nat>) {
    forall id :: id !in ids ==> SameAt(st, st', id)
  }

  /** Exactly the files before the first bad one are stored, as uploaded or, with a message, as linked. */
  ghost predicate Stored(st: Store, st': Store, place: Place, files: seq<BotFile>, at: string, messageId: Option<nat>) {
    && (forall i :: 0 <= i < |files| ==> FileAt(st', place, files[i], at, messageId, GoodUpTo(files, i)))
    && OthersSame(st, st', FileIds(files))
  }

  lemma IdsOfFiles(files: seq<BotFile>)
    requires files != []
    ensures FileIds(files) == FileIds(files[..|files| - 1]) + [files[|files| - 1].id]
  {
  }

  lemma LastIdIsNew(files: seq<BotFile>)
    requires files != [] && Distinct(FileIds(files))
    ensures files[|files| - 1].id !in FileIds(files[..|files| - 1])
    ensures forall i :: 0 <= i < |files| - 1 ==> files[i].id != files[|files| - 1].id
  {
    var ids := FileIds(files);
    forall i | 0 <= i < |files| - 1 ensures files[i].id != files[|files| - 1].id { assert ids[i] != ids[|ids| - 1]; }
  }

  lemma GoodUpToLast(files: seq<BotFile>, i: int)
    requires files != [] && 0 <= i < |files|
    ensures i < |files| - 1 ==> (GoodUpTo(files, i) <==> GoodUpTo(files[..|files| - 1], i))
    ensures i == |files| - 1 ==>
              (GoodUpTo(files, i) <==> GoodUpTo(files[..|files| - 1], i - 1) && FileGood(files[i]))
  {
    var init := files[..|files| - 1];
    assert forall j :: 0 <= j < |init| ==> init[j] == files[j];
  }

  /** A file added to a store: it is there if it is good, and nothing else changes. */
  lemma FileAdded(before: Store, place: Place, f: BotFile, at: string)
    requires f.id !in before.attachments
    ensures var st' := AddFile(before, place, f, at).0;
            FileAt(st', place, f, at, None, FileGood(f)) && forall id :: id != f.id ==> SameAt(before, st', id)
  {
    FileGoodExactly(before, place, f, at);
    if FileGood(f) { FileShape(before, place, f, at); } else { FileRefused(before, place, f, at); }
  }

  lemma OthersThen(st: Store, before: Store, st': Store, ids: seq<nat>, id: nat)
    requires OthersSame(st, before, ids) && forall k :: k != id ==> SameAt(before, st', k)
    ensures OthersSame(st, st', ids + [id])
  {
    forall k | k !in ids + [id] ensures SameAt(st, st', k) {
      assert SameAt(st, before, k) && SameAt(before, st', k);
    }
  }

  /** One more file, after files that were all good. */
  lemma OneMoreFile(st: Store, before: Store, place: Place, files: seq<BotFile>, at: string)
    requires files != [] && Distinct(FileIds(files)) && files[|files| - 1].id !in st.attachments
    requires Stored(st, before, place, files[..|files| - 1], at, None) && GoodUpTo(files[..|files| - 1], |files| - 2)
    ensures Stored(st, AddFile(before, place, files[|files| - 1], at).0, place, files, at, None)
  {
    var n := |files| - 1;
    var init, f := files[..n], files[n];
    var st' := AddFile(before, place, f, at).0;
    IdsOfFiles(files);
    LastIdIsNew(files);
    assert SameAt(st, before, f.id);
    FileAdded(before, place, f, at);
    OthersThen(st, before, st', FileIds(init), f.id);
    forall i | 0 <= i < |files| ensures FileAt(st', place, files[i], at, None, GoodUpTo(files, i)) {
      GoodUpToLast(files, i);
      if i < n {
        assert FileAt(before, place, init[i], at, None, GoodUpTo(init, i)) && SameAt(before, st', files[i].id);
      }
    }
  }

  /** After a bad file no other is looked at. */
  lemma NoMoreFiles(st: Store, before: Store, place: Place, files: seq<BotFile>, at: string)
    requires files != [] && Distinct(FileIds(files)) && files[|files| - 1].id !in st.attachments
    requires Stored(st, before, place, files[..|files| - 1], at, None) && !GoodUpTo(files[..|files| - 1], |files| - 2)
    ensures Stored(st, before, place, files, at, None)
  {
    var n := |files| - 1;
    var init := files[..n];
    IdsOfFiles(files);
    LastIdIsNew(files);
    assert SameAt(st, before, files[n].id);
    OthersThen(st, before, before, FileIds(init), files[n].id);
    forall i | 0 <= i < |files| ensures FileAt(before, place, files[i], at, None, GoodUpTo(files, i)) {
      GoodUpToLast(files, i);
      if i < n { assert FileAt(before, place, init[i], at, None, GoodUpTo(init, i)); }
    }
  }

  lemma {:induction false} FilesExact(st: Store, place: Place, files: seq<BotFile>, at: string)
    requires Distinct(FileIds(files)) && forall i :: 0 <= i < |files| ==> files[i].id !in st.attachments
    ensures Stored(st, AddFiles(st, place, files, at).0, place, files, at, None)
    ensures AddFiles(st, place, files, at).1 <==> GoodUpTo(files, |files| - 1)
  {
    if files != [] {
      var n := |files| - 1;
      var init := files[..n];
      NewId(files);
      FilesExact(st, place, init, at);
      GoodUpToLast(files, n);
      var (before, ok) := AddFiles(st, place, init, at);
      if ok {
        FileGoodExactly(before, place, files[n], at);
        OneMoreFile(st, before, place, files, at);
      } else {
        NoMoreFiles(st, before, place, files, at);
      }
    }
  }

  /** Linking a list of files that are all stored. */
  lemma LinkStored(st: Store, added: Store, messageId: nat, place: Place, files: seq<BotFile>, at: string)
    requires StoreOk(added) && Distinct(FileIds(files)) && GoodUpTo(files, |files| - 1)
    requires Stored(st, added, place, files, at, None)
    ensures Stored(st, LinkAll(added, messageId, FileIds(files)).0, place, files, at, Some(messageId))
  {
    var ids := FileIds(files);
    forall i | 0 <= i < |ids| ensures ids[i] in added.attachments && added.attachments[ids[i]].status == Uploaded {
      assert FileAt(added, place, files[i], at, None, GoodUpTo(files, i));
    }
    LinkKeeps(added, messageId, ids);
    var st' := LinkAll(added, messageId, ids).0;
    forall i | 0 <= i < |files| ensures FileAt(st', place, files[i], at, Some(messageId), GoodUpTo(files, i)) {
      assert FileAt(added, place, files[i], at, None, GoodUpTo(files, i)) && ids[i] == files[i].id;
    }
    forall id | id !in ids ensures SameAt(st, st', id) { assert SameAt(st, added, id); }
  }

  /**
   A bot message with files: exactly the files before the first bad one are stored; they are
   linked to the message exactly when all files are good and the message itself is accepted.
   */
  lemma BotMessageExact(w: World, s: Step)
    requires WorldOk(w) && s.CreateBotMessage? && Enabled(w, s)
    ensures Stored(w.store, Apply(w, s).store, s.place, s.files, s.at,
                   if GoodUpTo(s.files, |s.files| - 1) && s.accepted then Some(s.messageId) else None)
  {
    FilesExact(w.store, s.place, s.files, s.at);
    FilesKeep(w.store, s.place, s.files, s.at);
    if GoodUpTo(s.files, |s.files| - 1) && s.accepted {
      LinkStored(w.store, AddFiles(w.store, s.place, s.files, s.at).0, s.messageId, s.place, s.files, s.at);
    }
  }

  /**
   A message with attachments: if it is accepted, and its ids are at most ten, distinct and all of
   uploaded attachments of this user in this channel without a message, exactly they are linked
   to it; otherwise nothing changes.
   */
  lemma MessageExact(w: World, s: Step)
    requires WorldOk(w) && s.CreateMessage?
    ensures var st, st' := w.store, Apply(w, s).store;
            if s.accepted && |s.ids| <= 10 && (forall i, j :: 0 <= i < j < |s.ids| ==> s.ids[i] != s.ids[j])
               && (forall id :: id in s.ids ==>
                     && id in st.attachments && st.attachments[id].place == s.place
                     && st.attachments[id].status.Uploaded? && st.attachments[id].messageId.None?)
            then
              && st'.contents == st.contents && st'.attachments.Keys == st.attachments.Keys
              && forall id :: id in st.attachments ==>
                   st'.attachments[id] ==
                     if id in s.ids then st.attachments[id].(messageId := Some(s.messageId), status := Linked)
                     else st.attachments[id]
            else st' == st
  {
    assert ValidForMessage(w.store, s.place, s.ids) <==>
             && |s.ids| <= 10 && Distinct(s.ids) && forall id :: id in s.ids ==> Attachable(w.store, s.place, id);
    if s.accepted && ValidForMessage(w.store, s.place, s.ids) {
      forall i | 0 <= i < |s.ids| ensures s.ids[i] in w.store.attachments && w.store.attachments[s.ids[i]].status == Uploaded {
        assert Attachable(w.store, s.place, s.ids[i]);
      }
      LinkKeeps(w.store, s.messageId, s.ids);
      var st' := LinkAll(w.store, s.messageId, s.ids).0;
      forall id | id in w.store.attachments && id in s.ids
        ensures st'.attachments[id] == w.store.attachments[id].(messageId := Some(s.messageId), status := Linked)
      {
        var i :| 0 <= i < |s.ids| && s.ids[i] == id;
      }
    }
  }

  // ---- whose bytes ----

  /** The step sends this content for the attachment, in the name of its uploader. */
  ghost predicate Sends(s: Step, id: nat, uploader: nat, c: Content) {
    || (s.PutContent? && s.id == id && s.user == uploader && s.contentType == Some(c.contentType) && s.bytes == c.bytes)
    || (s.CreateBotMessage? && s.place.uploaderUserId == uploader
        && exists j :: 0 <= j < |s.files| && s.files[j].id == id
                       && s.files[j].contentType == Some(c.contentType) && s.files[j].bytes == c.bytes)
  }

  /** Every content is as its uploader sent it. */
  ghost predicate AllSent(st: Store, steps: seq<Step>) {
    forall id :: id in st.contents && id in st.attachments ==>
      exists k :: 0 <= k < |steps| && Sends(steps[k], id, st.attachments[id].place.uploaderUserId, st.contents[id])
  }

  /** After a step the content is what it was, of the same uploader, or what the step sends for it. */
  lemma ContentAfter(w: World, s: Step, id: nat)
    requires WorldOk(w) && Enabled(w, s) && id in Apply(w, s).store.contents && id in Apply(w, s).store.attachments
    ensures var st, st' := w.store, Apply(w, s).store;
            || Sends(s, id, st'.attachments[id].place.uploaderUserId, st'.contents[id])
            || (id in st.contents && id in st.attachments && st.contents[id] == st'.contents[id]
                && st.attachments[id].place.uploaderUserId == st'.attachments[id].place.uploaderUserId)
  {
    StepKeeps(w, s);
    match s
    case Presign(k, input, at) => PresignExact(w.store, k, input, at);
    case PutContent(k, user, contentType, bytes) =>
      if k in w.store.attachments { UploadExact(w.store, k, user, contentType, bytes); }
    case CreateMessage(_, _, _, _) => MessageExact(w, s);
    case CreateBotMessage(_, place, files, _, _) =>
      BotMessageExact(w, s);
      if id in FileIds(files) {
        var j :| 0 <= j < |files| && FileIds(files)[j] == id;
        assert files[j].id == id;
        assert GoodUpTo(files, j);
      }
    case Purge(_, _, _) =>
  }

  lemma SentBefore(steps: seq<Step>, s: Step, id: nat, uploader: nat, c: Content)
    requires exists k :: 0 <= k < |steps| && Sends(steps[k], id, uploader, c)
    ensures exists k :: 0 <= k < |steps + [s]| && Sends((steps + [s])[k], id, uploader, c)
  {
    var k :| 0 <= k < |steps| && Sends(steps[k], id, uploader, c);
    assert (steps + [s])[k] == steps[k];
  }

  lemma StepSends(w: World, steps: seq<Step>, s: Step)
    requires WorldOk(w) && Enabled(w, s) && AllSent(w.store, steps)
    ensures AllSent(Apply(w, s).store, steps + [s])
  {
    var st, st' := w.store, Apply(w, s).store;
    forall id | id in st'.contents && id in st'.attachments
      ensures exists k :: 0 <= k < |steps + [s]|
                          && Sends((steps + [s])[k], id, st'.attachments[id].place.uploaderUserId, st'.contents[id])
    {
      ContentAfter(w, s, id);
      if Sends(s, id, st'.attachments[id].place.uploaderUserId, st'.contents[id]) {
        assert (steps + [s])[|steps|] == s;
      } else {
        SentBefore(steps, s, id, st.attachments[id].place.uploaderUserId, st.contents[id]);
      }
    }
  }

  /** In every run, the content of an attachment is exactly what its own uploader sent for it in some step. */
  lemma {:induction false} ContentFromUploader(steps: seq<Step>)
    requires IsRun(steps)
    ensures AllSent(After(steps).store, steps)
  {
    if steps != [] {
      var init, s := steps[..|steps| - 1], steps[|steps| - 1];
      ContentFromUploader(init);
      RunKeeps(init);
      StepSends(After(init), init, s);
      assert init + [s] == steps;
    }
  }
}

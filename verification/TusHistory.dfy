/** What becomes of a resumable upload, from acceptance over any run to the row it ends in and the place that row is
    found in. */
module TusHistory {
  import opened Wrappers
  import opened Machine
  import opened Schema
  import opened ObjectKeys
  import opened ApiFolders
  import opened UploadSvc
  import opened Runs
  import opened JobHistory
  import opened Browse
  import opened UploadHistory

  // ---------- acceptance ----------

  /** The folder that the metadata names is one that `user` may upload to. */
  predicate NamesFolderOf(s: Store, user: Id, meta: map<string, string>) {
    var text := Meta(meta, "folder_id");
    text == "" || (ParseUuid(text).Some? && ParseUuid(text).value in s.folders && s.folders[ParseUuid(text).value].user == user)
  }

  /** Which resumable uploads are accepted, and what the others are answered. */
  lemma PreCreateAnswers(s: Store, user: Option<Id>, meta: map<string, string>, size: Int64, uploadId: string)
    ensures var o := AfterPreCreate(s, user, meta, size, uploadId);
            var named := Meta(meta, "filename") != "" || Meta(meta, "name") != "";
            && (o.reply == Unauthorized <==> user.None?)
            && (o.reply == BadRequest <==> user.Some? && !(named && NamesFolderOf(s, user.value, meta)))
            && (user.Some? && named && NamesFolderOf(s, user.value, meta) ==>
                  o.reply == QuotaVerdict(s.quotas, s.files, user.value, size))
            && (o.reply != Success ==> o.store == s)
  {
    FirstOfTwo(Meta(meta, "filename"), Meta(meta, "name"));
  }

  lemma FirstOfTwo(a: string, b: string)
    ensures FirstNonEmpty([a, b]) == if a != "" then a else b
  {
    assert [a, b][1..] == [b] && [b][1..] == [];
    assert FirstNonEmpty([b]) == b;
  }

  lemma FirstOfThree(a: string, b: string, c: string)
    ensures FirstNonEmpty([a, b, c]) == if a != "" then a else if b != "" then b else c
  {
    assert [a, b, c][1..] == [b, c];
    FirstOfTwo(b, c);
  }

  /** An accepted upload is kept under the caller's own id, whatever owner its metadata claimed, with all else that
      the client said. */
  ghost predicate KeptFor(upload: Upload, user: Id, meta: map<string, string>) {
    && OwnerOf(upload) == Some(user)
    && forall key | key != "user_id" :: Meta(upload.meta, key) == Meta(meta, key)
  }

  lemma AcceptedKept(s: Store, user: Id, meta: map<string, string>, size: Int64, uploadId: string)
    requires AfterPreCreate(s, Some(user), meta, size, uploadId).reply == Success
    ensures var t := AfterPreCreate(s, Some(user), meta, size, uploadId).store;
            && uploadId in t.uploads && t == s.(uploads := s.uploads[uploadId := t.uploads[uploadId]])
            && KeptFor(t.uploads[uploadId], user, meta)
  {
    UuidTextParses(user);
    StampedKept(meta, user);
  }

  lemma StampedKept(meta: map<string, string>, user: Id)
    ensures forall key | key != "user_id" :: Meta(Stamped(meta, user), key) == Meta(meta, key)
    ensures Meta(Stamped(meta, user), "user_id") == UuidText(user)
  {
  }

  // ---------- over runs ----------

  /** The upload was meant for no folder, or for one that is the owner's as long as it exists. */
  ghost predicate UploadOk(s: Store, upload: Upload) {
    && OwnerOf(upload).Some?
    && MetaFolder(upload.meta) != Malformed
    && (MetaFolder(upload.meta).Given? ==>
          && MetaFolder(upload.meta).id in s.issued
          && (MetaFolder(upload.meta).id in s.folders ==>
                s.folders[MetaFolder(upload.meta).id].user == OwnerOf(upload).value))
  }

  ghost predicate UploadsOk(s: Store) {
    forall u {:trigger s.uploads[u]} | u in s.uploads :: UploadOk(s, s.uploads[u])
  }

  /** Folders keep their owners, and new ones have new ids. */
  ghost predicate FoldersKeepOwners(s: Store, t: Store) {
    && s.issued <= t.issued
    && forall d | d in t.folders :: if d in s.folders then t.folders[d].user == s.folders[d].user else d !in s.issued
  }

  /** The upload `gone` is over, if any; the others are under way as before. */
  ghost predicate UploadsKept(s: Store, t: Store, gone: Option<string>) {
    && (forall u | u in s.uploads && gone != Some(u) :: u in t.uploads)
    && (forall u | u in t.uploads :: u in s.uploads && t.uploads[u].meta == s.uploads[u].meta)
  }

  function Finished(e: Event): Option<string> {
    if e.FinishTusEv? then Some(e.uploadId) else None
  }

  lemma FolderOwnersKept(s: Store, e: Event)
    requires IdsOk(s) && Valid(s, e)
    ensures FoldersKeepOwners(s, Apply(s, e))
  {
    IssuedGrows(s, e);
    if e.CreateFolderEv? {
      CreateFolderOwners(s, e.user, e.name, e.at, e.newId);
    } else if e.UpdateFolderEv? {
      UpdateFolderOwners(s, e.user, e.id, e.name, e.at);
    } else if e.DeleteFolderEv? {
      DeleteFolderOwners(s, e.user, e.id, e.faults);
    } else {
      OtherFolders(s, e);
    }
  }

  lemma CreateFolderOwners(s: Store, user: Id, name: string, at: FolderArg, newId: Id)
    requires IdsOk(s) && newId !in s.issued
    ensures FoldersKeepOwners(s, AfterCreateFolder(s, user, name, at, newId).store)
  {
  }

  lemma UpdateFolderOwners(s: Store, user: Id, id: Id, name: string, at: FolderArg)
    ensures FoldersKeepOwners(s, AfterUpdateFolder(s, user, id, name, at).store)
  {
  }

  lemma DeleteFolderOwners(s: Store, user: Id, id: Id, faults: StorageFaults)
    ensures FoldersKeepOwners(s, AfterDeleteFolder(s, user, id, faults).store)
  {
  }

  lemma OtherFolders(s: Store, e: Event)
    requires Valid(s, e) && !e.CreateFolderEv? && !e.UpdateFolderEv? && !e.DeleteFolderEv?
    ensures Apply(s, e).folders == s.folders
  {
    if LeavesRows(e) {
      RowsLeft(s, e);
    } else if e.CompleteEv? {
      CompleteFolders(s, e.user, e.id, e.jobId, e.enqueued);
    } else if e.FinishTusEv? {
      FinishTusRows(s, e.uploadId, s.uploads[e.uploadId].meta, e.size, e.newId, e.jobId, e.stored, e.enqueued);
    }
  }

  lemma CompleteFolders(s: Store, user: Id, id: Id, jobId: Id, enqueued: bool)
    ensures var t := AfterComplete(s, user, id, jobId, enqueued).store; t.folders == s.folders && t.uploads == s.uploads
  {
  }

  lemma OtherUploads(s: Store, e: Event)
    requires Valid(s, e) && !e.AcceptTusEv?
    ensures UploadsKept(s, Apply(s, e), Finished(e))
  {
    if e.FinishTusEv? {
      FinishUploads(s, e.uploadId, s.uploads[e.uploadId].meta, e.size, e.newId, e.jobId, e.stored, e.enqueued);
    } else if e.CompleteEv? {
      CompleteFolders(s, e.user, e.id, e.jobId, e.enqueued);
    } else if e.PresignEv? {
      PresignUploads(s, e.user, e.name, e.size, e.mime, e.at, e.newId);
    } else if e.PresignVersionEv? {
      VersionUploads(s, e.user, e.id, e.size, e.mime, e.newId);
    } else {
      SameUploads(s, e);
    }
  }

  lemma PresignUploads(s: Store, user: Id, name: string, size: Int64, mime: string, at: FolderArg, newId: Id)
    ensures UploadsKept(s, AfterPresign(s, user, name, size, mime, at, newId).store, None)
  {
  }

  lemma VersionUploads(s: Store, user: Id, id: Id, size: Int64, mime: string, newId: Id)
    ensures UploadsKept(s, AfterPresignVersion(s, user, id, size, mime, newId).store, None)
  {
  }

  lemma SameUploads(s: Store, e: Event)
    requires Valid(s, e) && !e.AcceptTusEv? && !e.FinishTusEv? && !e.CompleteEv? && !e.PresignEv? && !e.PresignVersionEv?
    ensures Apply(s, e).uploads == s.uploads
  {
  }

  lemma FinishUploads(s: Store, uploadId: string, meta: map<string, string>, size: Int64,
                      newId: Id, jobId: Id, stored: bool, enqueued: bool)
    ensures UploadsKept(s, AfterFinishTus(s, uploadId, meta, size, newId, jobId, stored, enqueued), Some(uploadId))
  {
    var owner := ParseUuid(Meta(meta, "user_id"));
    if owner.Some? && stored {
      var row := TusRow(meta, uploadId, owner.value, size, newId);
      LandedUploads(s, uploadId, newId, row, Covered(s.uploads, uploadId), jobId, enqueued);
    }
  }

  lemma LandedUploads(s: Store, uploadId: string, newId: Id, row: File, covered: int, jobId: Id, enqueued: bool)
    ensures var w := WithTusRow(s.(uploads := s.uploads - {uploadId}), newId, row, covered);
            UploadsKept(s, AfterEnqueue(w, row.mime, newId, jobId, enqueued), Some(uploadId))
  {
    EnqueueRows(WithTusRow(s.(uploads := s.uploads - {uploadId}), newId, row, covered), row.mime, newId, jobId, enqueued);
  }

  lemma KeptOk(s: Store, t: Store, upload: Upload, kept: Upload)
    requires UploadOk(s, upload) && FoldersKeepOwners(s, t) && kept.meta == upload.meta
    ensures UploadOk(t, kept)
  {
  }

  lemma AcceptedOk(s: Store, user: Option<Id>, meta: map<string, string>, size: Int64, uploadId: string)
    requires IdsOk(s) && UploadsOk(s)
    ensures UploadsOk(AfterPreCreate(s, user, meta, size, uploadId).store)
  {
    var t := AfterPreCreate(s, user, meta, size, uploadId).store;
    PreCreateAnswers(s, user, meta, size, uploadId);
    if AfterPreCreate(s, user, meta, size, uploadId).reply == Success {
      AcceptedKept(s, user.value, meta, size, uploadId);
      var upload := t.uploads[uploadId];
      assert Meta(upload.meta, "folder_id") == Meta(meta, "folder_id");
      assert UploadOk(t, upload);
      forall u | u in t.uploads && u != uploadId ensures UploadOk(t, t.uploads[u]) { assert UploadOk(s, s.uploads[u]); }
    }
  }

  lemma StepKeepsUploads(s: Store, e: Event)
    requires IdsOk(s) && Valid(s, e) && UploadsOk(s)
    ensures UploadsOk(Apply(s, e))
  {
    if e.AcceptTusEv? {
      AcceptedOk(s, e.caller, e.meta, e.size, e.uploadId);
    } else {
      FolderOwnersKept(s, e);
      OtherUploads(s, e);
      var t := Apply(s, e);
      forall u | u in t.uploads ensures UploadOk(t, t.uploads[u]) { KeptOk(s, t, s.uploads[u], t.uploads[u]); }
    }
  }

  /** In every state that a run reaches, each upload under way was accepted for a folder that is still its owner's, or
      gone. */
  lemma {:induction false} RunKeepsUploads(s: Store, es: seq<Event>)
    requires Inv(s) && ValidRun(s, es) && UploadsOk(s)
    ensures UploadsOk(Run(s, es))
    decreases |es|
  {
    if es != [] {
      StepKeepsInv(s, es[0]);
      StepKeepsUploads(s, es[0]);
      RunKeepsUploads(Apply(s, es[0]), es[1..]);
    }
  }

  predicate FinishAmong(es: seq<Event>, uploadId: string) {
    es != [] && (Finished(es[0]) == Some(uploadId) || FinishAmong(es[1..], uploadId))
  }

  lemma StepKeepsUnderWay(s: Store, e: Event, uploadId: string)
    requires Valid(s, e) && uploadId in s.uploads && Finished(e) != Some(uploadId)
    ensures uploadId in Apply(s, e).uploads && Apply(s, e).uploads[uploadId].meta == s.uploads[uploadId].meta
  {
    if e.AcceptTusEv? {
      AcceptKeepsOthers(s, e.caller, e.meta, e.size, e.uploadId, uploadId);
    } else {
      OtherUploads(s, e);
    }
  }

  lemma AcceptKeepsOthers(s: Store, user: Option<Id>, meta: map<string, string>, size: Int64, uploadId: string, other: string)
    requires other in s.uploads && other != uploadId
    ensures var t := AfterPreCreate(s, user, meta, size, uploadId).store;
            other in t.uploads && t.uploads[other] == s.uploads[other]
  {
    if AfterPreCreate(s, user, meta, size, uploadId).reply == Success {
      AcceptedKept(s, user.value, meta, size, uploadId);
    } else {
      PreCreateAnswers(s, user, meta, size, uploadId);
    }
  }

  /** Nothing but its own finish ends or alters an upload that was accepted. */
  lemma {:induction false} StaysUnderWay(s: Store, es: seq<Event>, uploadId: string)
    requires ValidRun(s, es) && uploadId in s.uploads && !FinishAmong(es, uploadId)
    ensures uploadId in Run(s, es).uploads && Run(s, es).uploads[uploadId].meta == s.uploads[uploadId].meta
    decreases |es|
  {
    if es != [] {
      StepKeepsUnderWay(s, es[0], uploadId);
      StaysUnderWay(Apply(s, es[0]), es[1..], uploadId);
    }
  }

  // ---------- the row it ends in ----------

  /** The row that an upload of `user` with metadata `meta` should become. */
  ghost predicate RowAsMeant(f: File, id: Id, user: Id, meta: map<string, string>, size: int) {
    var name := if Meta(meta, "filename") != "" then Meta(meta, "filename") else Meta(meta, "name");
    var mime := if Meta(meta, "filetype") != "" then Meta(meta, "filetype") else "application/octet-stream";
    var folder := if Meta(meta, "folder_id") == "" then None else ParseUuid(Meta(meta, "folder_id"));
    FreshRow(f, id, user, name, folder, size, mime)
  }

  lemma TusRowAsMeant(uploadId: string, meta: map<string, string>, user: Id, size: Int64, newId: Id)
    requires Meta(meta, "filename") != "" || Meta(meta, "name") != ""
    ensures RowAsMeant(TusRow(meta, uploadId, user, size, newId), newId, user, meta, size)
  {
    FirstOfThree(Meta(meta, "filename"), Meta(meta, "name"), uploadId);
  }

  lemma FinishedRow(s: Store, uploadId: string, meta: map<string, string>, size: Int64, newId: Id, jobId: Id,
                    enqueued: bool, user: Id)
    requires ParseUuid(Meta(meta, "user_id")) == Some(user)
    requires Meta(meta, "filename") != "" || Meta(meta, "name") != ""
    requires newId !in s.files && newId !in s.stranded && jobId !in s.jobs
    ensures var t := AfterFinishTus(s, uploadId, meta, size, newId, jobId, true, enqueued);
            && newId in t.files && t.files == s.files[newId := t.files[newId]] && t.folders == s.folders
            && RowAsMeant(t.files[newId], newId, user, meta, size)
            && t.files[newId].version == 1 && t.files[newId].parent == None
            && HandedOver(s, t, newId, jobId, enqueued)
            && t.objects == s.objects[t.files[newId].storageKey := size]
  {
    var row := TusRow(meta, uploadId, user, size, newId);
    TusRowAsMeant(uploadId, meta, user, size, newId);
    var w := WithTusRow(s.(uploads := s.uploads - {uploadId}), newId, row, Covered(s.uploads, uploadId));
    EnqueueHandsOver(w, row.mime, newId, jobId, enqueued);
    EnqueueRows(w, row.mime, newId, jobId, enqueued);
  }

  /** An upload whose object the storage does not take is over and leaves nothing behind. */
  lemma UnstoredLeavesNothing(s: Store, e: Event)
    requires e.FinishTusEv? && !e.stored && Valid(s, e)
    ensures Apply(s, e) == s.(uploads := s.uploads - {e.uploadId})
  {
  }

  lemma SameMeaning(f: File, id: Id, user: Id, meta: map<string, string>, kept: map<string, string>, size: int)
    requires RowAsMeant(f, id, user, kept, size) && forall key | key != "user_id" :: Meta(kept, key) == Meta(meta, key)
    ensures RowAsMeant(f, id, user, meta, size)
  {
    assert Meta(kept, "filename") == Meta(meta, "filename") && Meta(kept, "name") == Meta(meta, "name");
    assert Meta(kept, "filetype") == Meta(meta, "filetype") && Meta(kept, "folder_id") == Meta(meta, "folder_id");
  }

  /** From acceptance to row, whatever happens in between: the upload is still there to finish, and when it does, it
      becomes a current row of the caller's with the name, type and folder that were asked for, and a task if it is an
      image or a video. */
  lemma AcceptedUploadLands(s: Store, user: Id, meta: map<string, string>, accepted: Int64, uploadId: string,
                            es: seq<Event>, size: Int64, newId: Id, jobId: Id, enqueued: bool)
    requires Inv(s) && 0 <= accepted && 0 <= size && uploadId !in s.uploads
    requires AfterPreCreate(s, Some(user), meta, accepted, uploadId).reply == Success
    requires var t := AfterPreCreate(s, Some(user), meta, accepted, uploadId).store;
             && ValidRun(t, es) && !FinishAmong(es, uploadId)
             && newId !in Run(t, es).issued && jobId !in Run(t, es).issued && newId != jobId
    ensures var u := Run(AfterPreCreate(s, Some(user), meta, accepted, uploadId).store, es);
            var e := FinishTusEv(uploadId, size, newId, jobId, true, enqueued);
            && Valid(u, e)
            && var v := Apply(u, e);
               && newId in v.files && RowAsMeant(v.files[newId], newId, user, meta, size)
               && HandedOver(u, v, newId, jobId, enqueued)
  {
    var t := AfterPreCreate(s, Some(user), meta, accepted, uploadId).store;
    PreCreateAnswers(s, Some(user), meta, accepted, uploadId);
    AcceptedKept(s, user, meta, accepted, uploadId);
    StepKeepsInv(s, AcceptTusEv(Some(user), meta, accepted, uploadId));
    RunKeepsInv(t, es);
    StaysUnderWay(t, es, uploadId);
    LandsAsMeant(Run(t, es), t.uploads[uploadId], user, meta, uploadId, size, newId, jobId, enqueued);
  }

  lemma LandsAsMeant(u: Store, upload: Upload, user: Id, meta: map<string, string>, uploadId: string,
                     size: Int64, newId: Id, jobId: Id, enqueued: bool)
    requires Inv(u) && KeptFor(upload, user, meta) && uploadId in u.uploads && u.uploads[uploadId].meta == upload.meta
    requires Meta(meta, "filename") != "" || Meta(meta, "name") != ""
    requires 0 <= size && newId !in u.issued && jobId !in u.issued && newId != jobId
    ensures var e := FinishTusEv(uploadId, size, newId, jobId, true, enqueued);
            && Valid(u, e)
            && var v := Apply(u, e);
               && newId in v.files && RowAsMeant(v.files[newId], newId, user, meta, size)
               && HandedOver(u, v, newId, jobId, enqueued)
  {
    var kept := u.uploads[uploadId].meta;
    assert Meta(kept, "filename") == Meta(meta, "filename") && Meta(kept, "name") == Meta(meta, "name");
    FinishedRow(u, uploadId, kept, size, newId, jobId, enqueued, user);
    SameMeaning(Apply(u, FinishTusEv(uploadId, size, newId, jobId, true, enqueued)).files[newId], newId, user, meta, kept, size);
  }

  /** And the file can be found by browsing exactly when the folder it was meant for still exists then: that the
      folder is the caller's was settled when the upload was accepted. */
  lemma FinishedBrowsableIff(quotas: map<Id, int>, es: seq<Event>, e: Event)
    requires forall u | u in quotas :: 0 <= quotas[u] <= INT64_MAX
    requires ValidRun(Init(quotas), es) && e.FinishTusEv? && e.stored && Valid(Run(Init(quotas), es), e)
    ensures var s := Run(Init(quotas), es);
            var t := Apply(s, e);
            && e.newId in t.files && t.files[e.newId].current
            && (Browsable(t, e.newId) <==>
                  (t.files[e.newId].folder.Some? ==> t.files[e.newId].folder.value in s.folders))
  {
    var s := Run(Init(quotas), es);
    InitInv(quotas);
    RunKeepsInv(Init(quotas), es);
    RunKeepsUploads(Init(quotas), es);
    StepKeepsInv(s, e);
    assert UploadOk(s, s.uploads[e.uploadId]);
    FinishTusRows(s, e.uploadId, s.uploads[e.uploadId].meta, e.size, e.newId, e.jobId, e.stored, e.enqueued);
    BrowsableIffPlaced(Apply(s, e), e.newId);
  }
}

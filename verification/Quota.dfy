/** How far a user's stored bytes can exceed the quota. */
module Quota {
  import opened Machine
  import opened Wrappers
  import opened Schema
  import opened Sums
  import opened Forest
  import opened Lineage
  import opened ObjectKeys
  import opened ApiVersions
  import opened ApiFiles
  import opened ApiFolders
  import opened UploadSvc
  import opened Workers
  import opened Invariants
  import opened Runs

  function Min(a: int, b: int): int {
    if a < b then a else b
  }

  /** The part of each row that a quota check covered, and the part that none did. A presigned upload is
      covered as far as it was declared. A resumable one is covered for the size it was accepted for if no other
      bytes of its owner landed between acceptance and finish. A size that overflowed the sum of its check is
      not covered at all. */
  function Checked(s: Store, user: Id): map<Id, int> {
    map id | id in s.files && id in s.declared && s.files[id].user == user :: Min(s.files[id].size, s.declared[id])
  }

  function Excess(s: Store, user: Id): map<Id, int> {
    map id | id in s.files && id in s.declared && s.files[id].user == user ::
      s.files[id].size - Min(s.files[id].size, s.declared[id])
  }

  ghost predicate RowSized(f: File, declared: int) {
    && 0 <= f.size && 0 <= declared
    && (f.status == Pending ==> declared <= f.size)
  }

  ghost predicate ObjectsSized(objects: map<Key, int>) {
    forall key | key in objects :: 0 <= objects[key]
  }

  /** No size is negative, and a pending row is covered at most for its declared size. */
  ghost predicate SizesOk(s: Store) {
    && s.files.Keys <= s.declared.Keys
    && (forall id {:trigger RowSized(s.files[id], s.declared[id])} | id in s.files :: RowSized(s.files[id], s.declared[id]))
    && ObjectsSized(s.objects)
    && (forall u | u in s.quotas :: 0 <= s.quotas[u] <= INT64_MAX)
  }

  ghost predicate CheckedFits(s: Store, user: Id) {
    user in s.quotas && Sum(Checked(s, user)) <= s.quotas[user]
  }

  /** There is still room for an upload that has been alone since it was accepted. */
  ghost predicate UploadFits(s: Store, upload: Upload) {
    && 0 <= upload.size
    && forall user | OwnerOf(upload) == Some(user) && user in s.quotas ::
         Sum(Checked(s, user)) + upload.size <= s.quotas[user]
  }

  ghost predicate AloneFit(s: Store) {
    forall u {:trigger s.uploads[u]} | u in s.uploads && s.uploads[u].alone :: UploadFits(s, s.uploads[u])
  }

  ghost predicate QuotaOk(s: Store) {
    && SizesOk(s)
    && (forall u {:trigger CheckedFits(s, u)} | u in s.quotas :: CheckedFits(s, u))
    && AloneFit(s)
  }

  /** Uploads that are alone afterwards were alone before. */
  ghost predicate AloneKept(us: map<string, Upload>, vs: map<string, Upload>) {
    forall u | u in vs && vs[u].alone :: u in us && us[u] == vs[u]
  }

  lemma AloneStillFit(s: Store, t: Store)
    requires AloneFit(s) && AloneKept(s.uploads, t.uploads) && t.quotas == s.quotas
    requires forall u, user | u in t.uploads && t.uploads[u].alone && OwnerOf(t.uploads[u]) == Some(user) ::
               Sum(Checked(t, user)) <= Sum(Checked(s, user))
    ensures AloneFit(t)
  {
    forall u | u in t.uploads && t.uploads[u].alone
      ensures UploadFits(t, t.uploads[u])
    {
      assert UploadFits(s, s.uploads[u]);
    }
  }

  /** Used bytes are the checked part plus the excess. */
  lemma UsedSplits(s: Store, user: Id)
    requires SizesOk(s)
    ensures Used(s.files, user) == Sum(Checked(s, user)) + Sum(Excess(s, user))
    ensures 0 <= Sum(Checked(s, user)) && 0 <= Sum(Excess(s, user))
  {
    forall id | id in s.files ensures RowSized(s.files[id], s.declared[id]) {}
    SumPointwise(SizesOf(s.files, user), Checked(s, user), Excess(s, user));
    SumNonNegative(Checked(s, user));
    SumNonNegative(Excess(s, user));
  }

  /** The bound: usage is at most the quota plus what uploads exceeded their declared sizes by. */
  lemma UsageBounded(s: Store, user: Id)
    requires QuotaOk(s) && user in s.quotas
    ensures Used(s.files, user) <= s.quotas[user] + Sum(Excess(s, user))
  {
    UsedSplits(s, user);
    assert CheckedFits(s, user);
  }

  /** A user whose stored files are no larger than declared is within quota. */
  lemma HonestUsageWithinQuota(s: Store, user: Id)
    requires QuotaOk(s) && user in s.quotas
    requires forall id | id in s.files && s.files[id].user == user :: s.files[id].size <= s.declared[id]
    ensures Used(s.files, user) <= s.quotas[user]
  {
    UsageBounded(s, user);
    forall id | id in s.files ensures RowSized(s.files[id], s.declared[id]) {}
    SumZero(Excess(s, user));
  }

  // ---------- steps ----------

  /** What the check covers of an admitted size fits; a size that overflows its sum is not covered. */
  lemma AdmittedFits(s: Store, user: Id, size: Int64)
    requires QuotaOk(s) && 0 <= size && QuotaVerdict(s.quotas, s.files, user, size) == Success
    ensures user in s.quotas && Sum(Checked(s, user)) + Fitting(s.files, user, size) <= s.quotas[user]
    ensures 0 <= Fitting(s.files, user, size) <= size
  {
    UsedSplits(s, user);
    assert CheckedFits(s, user);
    assert 0 <= s.quotas[user] <= INT64_MAX;
    assert FitsInt64(size);
    QuotaVerdictExact(s.quotas, s.files, user, size);
  }

  /** A new row whose declared size is `counted`. */
  lemma InsertKeepsQuota(s: Store, t: Store, id: Id, counted: int)
    requires QuotaOk(s) && id !in s.files && t.quotas == s.quotas && ObjectsSized(t.objects)
    requires t.files.Keys == s.files.Keys + {id} && t.declared == s.declared[id := counted]
    requires RowSized(t.files[id], counted) && RowsShrunk(s.files, t.files - {id})
    requires AloneKept(s.uploads, t.uploads)
    requires forall u | u in t.uploads && t.uploads[u].alone :: OwnerOf(t.uploads[u]) != Some(t.files[id].user)
    requires t.files[id].user in s.quotas ==> Sum(Checked(s, t.files[id].user)) + counted <= s.quotas[t.files[id].user]
    ensures QuotaOk(t)
  {
    forall a | a in t.files
      ensures RowSized(t.files[a], t.declared[a])
      ensures a != id ==> t.files[a].user == s.files[a].user && t.files[a].size == s.files[a].size
    {
      if a != id { ShrunkRow(s.files, t.files - {id}, a); assert RowSized(s.files[a], s.declared[a]); }
    }
    forall u | u in t.quotas
      ensures CheckedFits(t, u)
    {
      assert CheckedFits(s, u);
      InsertChecked(s, t, id, u);
    }
    forall u, user | u in t.uploads && t.uploads[u].alone && OwnerOf(t.uploads[u]) == Some(user)
      ensures Sum(Checked(t, user)) <= Sum(Checked(s, user))
    {
      InsertChecked(s, t, id, user);
    }
    AloneStillFit(s, t);
  }

  lemma CheckedRows(s: Store, t: Store, id: Id, u: Id)
    requires s.files.Keys <= s.declared.Keys && id !in s.files && t.files.Keys == s.files.Keys + {id}
    requires id in t.declared && t.declared == s.declared[id := t.declared[id]]
    requires forall a | a in s.files :: t.files[a].user == s.files[a].user && t.files[a].size == s.files[a].size
    ensures id !in Checked(s, u)
    ensures Checked(t, u) ==
            if u == t.files[id].user then Checked(s, u)[id := Min(t.files[id].size, t.declared[id])] else Checked(s, u)
  {
    forall a | a != id
      ensures a in Checked(t, u) <==> a in Checked(s, u)
      ensures a in Checked(t, u) && a in Checked(s, u) ==> Checked(t, u)[a] == Checked(s, u)[a]
    {
      assert a in t.files <==> a in s.files;
    }
  }

  lemma InsertChecked(s: Store, t: Store, id: Id, u: Id)
    requires s.files.Keys <= s.declared.Keys && id !in s.files && t.files.Keys == s.files.Keys + {id}
    requires id in t.declared && t.declared == s.declared[id := t.declared[id]]
    requires forall a | a in s.files :: t.files[a].user == s.files[a].user && t.files[a].size == s.files[a].size
    ensures Sum(Checked(t, u)) ==
            Sum(Checked(s, u)) + if u == t.files[id].user then Min(t.files[id].size, t.declared[id]) else 0
  {
    CheckedRows(s, t, id, u);
    if u == t.files[id].user {
      SumAdded(Checked(s, u), id, Min(t.files[id].size, t.declared[id]));
    }
  }

  /** Rows removed, or kept with their owner and size. */
  ghost predicate RowsShrunk(files: Files, gs: Files) {
    forall a {:trigger ShrunkFrom(files, gs, a)} | a in gs :: ShrunkFrom(files, gs, a)
  }

  ghost predicate ShrunkFrom(files: Files, gs: Files, a: Id) {
    && a in gs && a in files
    && gs[a].user == files[a].user && gs[a].size == files[a].size && gs[a].storageKey == files[a].storageKey
    && (gs[a].status == Pending <==> files[a].status == Pending)
  }

  lemma ShrunkRow(files: Files, gs: Files, a: Id)
    requires RowsShrunk(files, gs) && a in gs
    ensures ShrunkFrom(files, gs, a)
  {
  }

  lemma ShrinkKeepsQuota(s: Store, t: Store)
    requires QuotaOk(s) && t.quotas == s.quotas && t.declared == s.declared && ObjectsSized(t.objects)
    requires RowsShrunk(s.files, t.files) && AloneKept(s.uploads, t.uploads)
    ensures QuotaOk(t)
  {
    forall a | a in t.files
      ensures a in s.files && t.files[a].user == s.files[a].user && t.files[a].size == s.files[a].size
      ensures RowSized(t.files[a], t.declared[a])
    {
      ShrunkRow(s.files, t.files, a);
      assert RowSized(s.files[a], s.declared[a]);
    }
    forall u | u in t.quotas
      ensures CheckedFits(t, u)
    {
      assert CheckedFits(s, u);
      ShrinkChecked(s, t, u);
    }
    forall user
      ensures Sum(Checked(t, user)) <= Sum(Checked(s, user))
    {
      ShrinkChecked(s, t, user);
    }
    AloneStillFit(s, t);
  }

  lemma ShrinkChecked(s: Store, t: Store, u: Id)
    requires SizesOk(s) && t.declared == s.declared
    requires forall a | a in t.files :: a in s.files && t.files[a].user == s.files[a].user && t.files[a].size == s.files[a].size
    ensures Sum(Checked(t, u)) <= Sum(Checked(s, u))
  {
    forall id | id in s.files ensures RowSized(s.files[id], s.declared[id]) {}
    SumRestricted(Checked(s, u), Checked(t, u));
  }

  /** Completion replaces a declared size by the observed one. */
  lemma ResizeKeepsQuota(s: Store, t: Store, id: Id, row: File)
    requires QuotaOk(s) && t.quotas == s.quotas && t.declared == s.declared && t.objects == s.objects && id in s.files
    requires t.uploads == s.uploads
    requires t.files == s.files[id := row] && row.user == s.files[id].user && s.files[id].status == Pending
    requires 0 <= row.size && row.status != Pending
    ensures QuotaOk(t)
  {
    assert RowSized(s.files[id], s.declared[id]);
    forall a | a in t.files
      ensures RowSized(t.files[a], t.declared[a])
    {
      assert RowSized(s.files[a], s.declared[a]);
    }
    forall u | u in t.quotas
      ensures CheckedFits(t, u)
    {
      assert CheckedFits(s, u);
      ResizeChecked(s, t, id, u);
    }
    forall user
      ensures Sum(Checked(t, user)) <= Sum(Checked(s, user))
    {
      ResizeChecked(s, t, id, user);
    }
    AloneStillFit(s, t);
  }

  lemma ResizeChecked(s: Store, t: Store, id: Id, u: Id)
    requires s.files.Keys <= s.declared.Keys && id in s.files && t.declared == s.declared
    requires id in t.files && t.files == s.files[id := t.files[id]] && t.files[id].user == s.files[id].user
    requires s.files[id].size >= s.declared[id]
    ensures Sum(Checked(t, u)) <= Sum(Checked(s, u))
  {
    if u == s.files[id].user {
      var v := Min(t.files[id].size, s.declared[id]);
      assert Checked(t, u) == Checked(s, u)[id := v];
      SumChanged(Checked(s, u), id, v);
    } else {
      assert Checked(t, u) == Checked(s, u);
    }
  }

  lemma PresignKeepsQuota(s: Store, user: Id, name: string, size: Int64, mime: string, folder: FolderArg, newId: Id)
    requires IdsOk(s) && QuotaOk(s) && newId !in s.issued
    ensures QuotaOk(AfterPresign(s, user, name, size, mime, folder, newId).store)
  {
    var o := AfterPresign(s, user, name, size, mime, folder, newId);
    if o.reply == Success {
      AdmittedFits(s, user, size);
      assert o.store.files - {newId} == s.files;
      forall a | a in s.files ensures ShrunkFrom(s.files, s.files, a) {}
      InsertKeepsQuota(s, o.store, newId, Fitting(s.files, user, size));
    }
  }

  lemma PresignVersionKeepsQuota(s: Store, user: Id, id: Id, size: Int64, mime: string, newId: Id)
    requires IdsOk(s) && QuotaOk(s) && newId !in s.issued
    ensures QuotaOk(AfterPresignVersion(s, user, id, size, mime, newId).store)
  {
    if VersionVerdict(s, user, id, size, mime) == Success {
      AdmittedFits(s, user, size);
      var row := VersionRow(s.files, user, id, size, mime, newId);
      VersionRowKeepsQuota(s, user, Root(s.files, id), newId, row);
    }
  }

  lemma VersionRowKeepsQuota(s: Store, user: Id, root: Id, newId: Id, row: File)
    requires IdsOk(s) && QuotaOk(s) && newId !in s.issued && row.user == user && 0 <= row.size
    requires user in s.quotas && Sum(Checked(s, user)) + Fitting(s.files, user, row.size) <= s.quotas[user]
    requires 0 <= Fitting(s.files, user, row.size) <= row.size
    ensures QuotaOk(WithVersion(s, user, root, newId, row))
  {
    var t := WithVersion(s, user, root, newId, row);
    assert t.files - {newId} == Superseded(s.files, user, root);
    forall a | a in t.files - {newId} ensures ShrunkFrom(s.files, t.files - {newId}, a) {}
    InsertKeepsQuota(s, t, newId, Fitting(s.files, user, row.size));
  }

  lemma CompleteKeepsQuota(s: Store, user: Id, id: Id, jobId: Id, enqueued: bool)
    requires QuotaOk(s)
    ensures QuotaOk(AfterComplete(s, user, id, jobId, enqueued).store)
  {
    var o := AfterComplete(s, user, id, jobId, enqueued);
    if o.reply == Success {
      assert o.store.files == s.files[id := o.store.files[id]];
      ResizeKeepsQuota(s, o.store, id, o.store.files[id]);
    }
  }

  lemma AcceptKeepsQuota(s: Store, user: Option<Id>, meta: map<string, string>, size: Int64, uploadId: string)
    requires QuotaOk(s) && 0 <= size
    ensures QuotaOk(AfterPreCreate(s, user, meta, size, uploadId).store)
  {
    if PreCreateVerdict(s, user, meta, size) == Success {
      var t := AfterPreCreate(s, user, meta, size, uploadId).store;
      AdmittedFits(s, user.value, size);
      UuidTextParses(user.value);
      AcceptedFits(s, t, user.value, uploadId);
    }
  }

  lemma AcceptedFits(s: Store, t: Store, user: Id, uploadId: string)
    requires QuotaOk(s) && uploadId in t.uploads && t == s.(uploads := s.uploads[uploadId := t.uploads[uploadId]])
    requires OwnerOf(t.uploads[uploadId]) == Some(user) && 0 <= t.uploads[uploadId].size
    requires t.uploads[uploadId].alone ==>
               user in s.quotas && Sum(Checked(s, user)) + t.uploads[uploadId].size <= s.quotas[user]
    ensures QuotaOk(t)
  {
    forall u ensures Checked(t, u) == Checked(s, u) {}
    forall u | u in t.quotas ensures CheckedFits(t, u) { assert CheckedFits(s, u); }
    forall u | u in t.uploads && t.uploads[u].alone
      ensures UploadFits(t, t.uploads[u])
    {
      if u != uploadId { assert UploadFits(s, s.uploads[u]); }
    }
  }

  lemma TusRowKeepsQuota(s: Store, id: Id, row: File, covered: int, jobId: Id, enqueued: bool)
    requires IdsOk(s) && QuotaOk(s) && id !in s.issued && 0 <= row.size && row.status != Pending && 0 <= covered
    requires row.user in s.quotas ==> Sum(Checked(s, row.user)) + covered <= s.quotas[row.user]
    ensures QuotaOk(AfterEnqueue(WithTusRow(s, id, row, covered), row.mime, id, jobId, enqueued))
  {
    var t := WithTusRow(s, id, row, covered);
    assert t.files - {id} == s.files;
    forall a | a in s.files ensures ShrunkFrom(s.files, s.files, a) {}
    InsertKeepsQuota(s, t, id, covered);
    var u := AfterEnqueue(t, row.mime, id, jobId, enqueued);
    EnqueueRows(t, row.mime, id, jobId, enqueued);
    OtherKeepsQuota(t, u);
  }

  /** What the quota check still covers fits when the upload finishes. */
  lemma CoveredFits(s: Store, uploadId: string, user: Id)
    requires QuotaOk(s) && uploadId in s.uploads && OwnerOf(s.uploads[uploadId]) == Some(user) && user in s.quotas
    ensures Sum(Checked(s, user)) + Covered(s.uploads, uploadId) <= s.quotas[user]
  {
    assert CheckedFits(s, user);
    assert s.uploads[uploadId].alone ==> UploadFits(s, s.uploads[uploadId]);
  }

  lemma FinishTusKeepsQuota(s: Store, e: Event)
    requires e.FinishTusEv? && IdsOk(s) && QuotaOk(s) && Valid(s, e)
    ensures QuotaOk(Apply(s, e))
  {
    var upload := s.uploads[e.uploadId];
    var t := s.(uploads := s.uploads - {e.uploadId});
    OtherKeepsQuota(s, t);
    if OwnerOf(upload).Some? && e.stored {
      var user, covered := OwnerOf(upload).value, Covered(s.uploads, e.uploadId);
      assert upload.alone ==> UploadFits(s, upload);
      assert Checked(t, user) == Checked(s, user);
      if user in s.quotas { CoveredFits(s, e.uploadId, user); }
      TusRowKeepsQuota(t, e.newId, TusRow(upload.meta, e.uploadId, user, e.size, e.newId), covered, e.jobId, e.enqueued);
    }
  }

  /** Nothing but the queue and the list of uploads under way changes. */
  lemma OtherKeepsQuota(s: Store, t: Store)
    requires QuotaOk(s) && SameRows(s, t) && AloneKept(s.uploads, t.uploads) && ObjectsSized(t.objects)
    ensures QuotaOk(t)
  {
    forall a | a in s.files ensures ShrunkFrom(s.files, s.files, a) {}
    ShrinkKeepsQuota(s, t);
  }

  // ---------- every other step ----------

  /** Rows dropped or kept in size, and the accounts left alone. */
  ghost predicate Shrunk(s: Store, t: Store) {
    && RowsShrunk(s.files, t.files)
    && t.quotas == s.quotas && t.declared == s.declared && AloneKept(s.uploads, t.uploads)
    && (ObjectsSized(s.objects) ==> ObjectsSized(t.objects))
  }

  lemma SameRowsShrunk(s: Store, t: Store)
    requires SameRows(s, t) && t.uploads == s.uploads && (ObjectsSized(s.objects) ==> ObjectsSized(t.objects))
    ensures Shrunk(s, t)
  {
    forall a | a in t.files ensures ShrunkFrom(s.files, t.files, a) {}
  }

  /** Folders, links and object writes. */
  lemma FolderShrinks(s: Store, e: Event)
    requires Valid(s, e) && (e.CreateFolderEv? || e.UpdateFolderEv?)
    ensures Shrunk(s, Apply(s, e))
  {
    forall a | a in s.files ensures ShrunkFrom(s.files, s.files, a) {}
    if e.CreateFolderEv? {
      CreateFolderRows(s, e.user, e.name, e.at, e.newId);
    } else {
      UpdateFolderRows(s, e.user, e.id, e.name, e.at);
    }
  }

  lemma CreateFolderRows(s: Store, user: Id, name: string, at: FolderArg, newId: Id)
    ensures var t := AfterCreateFolder(s, user, name, at, newId).store;
            t == s.(folders := t.folders, issued := t.issued)
  {
  }

  lemma UpdateFolderRows(s: Store, user: Id, id: Id, name: string, at: FolderArg)
    ensures var t := AfterUpdateFolder(s, user, id, name, at).store;
            t == s.(folders := t.folders)
  {
  }

  lemma ObjectStepShrinks(s: Store, e: Event)
    requires Valid(s, e) && LeavesRows(e) && !e.AcceptTusEv?
    ensures Shrunk(s, Apply(s, e))
  {
    RowsLeft(s, e);
    UploadsLeft(s, e);
    SameRowsShrunk(s, Apply(s, e));
  }

  lemma UploadsLeft(s: Store, e: Event)
    requires Valid(s, e) && LeavesRows(e) && !e.AcceptTusEv?
    ensures Apply(s, e).uploads == s.uploads && (ObjectsSized(s.objects) ==> ObjectsSized(Apply(s, e).objects))
  {
    match e
    case ClientPutEv(_, _) =>
    case CreateShareEv(_, _, _, _, _, _, _, _) =>
    case DeleteShareEv(_, _) =>
    case DownloadEv(_, _, _, _) =>
    case WorkerPutEv(_, _, _) =>
  }

  lemma AttemptShrinks(s: Store, jobId: Id, result: Result)
    requires JobsOk(s.files, s.jobs, s.stranded, s.issued) && IsLive(s, jobId)
    ensures Shrunk(s, AfterAttempt(s, jobId, result))
  {
    var job, gs := s.jobs[jobId], AfterAttempt(s, jobId, result).files;
    if job.file in s.files { LiveJobRow(s.files, s.jobs, s.stranded, s.issued, jobId); }
    forall a | a in gs ensures ShrunkFrom(s.files, gs, a) {}
  }

  /** Rows removed, and objects with them. */
  lemma DeleteShrinks(s: Store, t: Store, dead: set<Id>)
    requires t.files == s.files - dead && t.declared == s.declared && t.quotas == s.quotas && t.uploads == s.uploads
    requires forall key | key in t.objects :: key in s.objects && t.objects[key] == s.objects[key]
    ensures Shrunk(s, t)
  {
    forall a | a in t.files ensures ShrunkFrom(s.files, t.files, a) {}
  }

  lemma DeleteFolderShrinks(s: Store, user: Id, id: Id, faults: StorageFaults)
    ensures Shrunk(s, AfterDeleteFolder(s, user, id, faults).store)
  {
    var dead := if OwnsFolder(s.folders, user, id) then DoomedRows(s.files, user, Subtree(s.folders, id)) else {};
    DeleteShrinks(s, AfterDeleteFolder(s, user, id, faults).store, dead);
  }

  lemma DeleteFileShrinks(s: Store, user: Id, id: Id, faults: StorageFaults)
    ensures Shrunk(s, AfterDeleteFile(s, user, id, faults).store)
  {
    var dead := if OwnsFile(s.files, user, id) then Selected(s.files, user, Root(s.files, id)) else {};
    DeleteShrinks(s, AfterDeleteFile(s, user, id, faults).store, dead);
  }

  lemma RestoreShrinks(s: Store, user: Id, id: Id, version: Id)
    ensures Shrunk(s, AfterRestore(s, user, id, version).store)
  {
    var t := AfterRestore(s, user, id, version).store;
    if t != s {
      FlagShrinks(s.files, user, Root(s.files, id), version);
    } else {
      SameRowsShrunk(s, s);
    }
  }

  lemma FlagShrinks(files: Files, user: Id, root: Id, target: Id)
    ensures RowsShrunk(files, Flagged(files, user, root, target))
  {
    var gs := Flagged(files, user, root, target);
    forall a | a in gs ensures ShrunkFrom(files, gs, a) {}
  }

  lemma UpdateFileShrinks(s: Store, user: Id, id: Id, name: Option<string>, folder: FolderArg)
    ensures Shrunk(s, AfterUpdateFile(s, user, id, name, folder).store)
  {
    if AfterUpdateFile(s, user, id, name, folder).reply == Success {
      var gs := s.files[id := Edited(s.files[id], name, folder)];
      forall a | a in gs ensures ShrunkFrom(s.files, gs, a) {}
    } else {
      SameRowsShrunk(s, s);
    }
  }

  lemma EditShrinks(s: Store, e: Event)
    requires Valid(s, e) && (e.DeleteFolderEv? || e.DeleteFileEv? || e.RestoreEv? || e.UpdateFileEv?)
    ensures Shrunk(s, Apply(s, e))
  {
    match e
    case DeleteFolderEv(user, id, faults) => DeleteFolderShrinks(s, user, id, faults);
    case DeleteFileEv(user, id, faults) => DeleteFileShrinks(s, user, id, faults);
    case RestoreEv(user, id, version) => RestoreShrinks(s, user, id, version);
    case UpdateFileEv(user, id, rename, at) => UpdateFileShrinks(s, user, id, rename, at);
  }

  predicate IsUpload(e: Event) {
    e.PresignEv? || e.PresignVersionEv? || e.CompleteEv? || e.AcceptTusEv? || e.FinishTusEv?
  }

  lemma OtherStepShrinks(s: Store, e: Event)
    requires Inv(s) && Valid(s, e) && !IsUpload(e)
    ensures Shrunk(s, Apply(s, e))
  {
    if LeavesRows(e) {
      ObjectStepShrinks(s, e);
    } else if e.CreateFolderEv? || e.UpdateFolderEv? {
      FolderShrinks(s, e);
    } else if e.WorkerEndEv? {
      AttemptShrinks(s, e.jobId, e.result);
    } else {
      EditShrinks(s, e);
    }
  }

  lemma UploadStepKeepsQuota(s: Store, e: Event)
    requires IdsOk(s) && QuotaOk(s) && Valid(s, e) && IsUpload(e)
    ensures QuotaOk(Apply(s, e))
  {
    match e
    case PresignEv(user, name, size, mime, at, newId) => PresignKeepsQuota(s, user, name, size, mime, at, newId);
    case PresignVersionEv(user, id, size, mime, newId) => PresignVersionKeepsQuota(s, user, id, size, mime, newId);
    case CompleteEv(user, id, jobId, enqueued) => CompleteKeepsQuota(s, user, id, jobId, enqueued);
    case AcceptTusEv(caller, meta, size, uploadId) => AcceptKeepsQuota(s, caller, meta, size, uploadId);
    case FinishTusEv(_, _, _, _, _, _) => FinishTusKeepsQuota(s, e);
  }

  /** Every step keeps the accounts. */
  lemma StepKeepsQuota(s: Store, e: Event)
    requires Inv(s) && QuotaOk(s) && Valid(s, e)
    ensures QuotaOk(Apply(s, e))
  {
    if IsUpload(e) {
      UploadStepKeepsQuota(s, e);
    } else {
      OtherStepShrinks(s, e);
      ShrinkKeepsQuota(s, Apply(s, e));
    }
  }

  lemma {:induction false} RunKeepsQuota(s: Store, es: seq<Event>)
    requires Inv(s) && QuotaOk(s) && ValidRun(s, es)
    ensures QuotaOk(Run(s, es))
    decreases |es|
  {
    if es != [] {
      StepKeepsInv(s, es[0]);
      StepKeepsQuota(s, es[0]);
      RunKeepsQuota(Apply(s, es[0]), es[1..]);
    }
  }

  lemma InitQuota(quotas: map<Id, int>)
    requires forall u | u in quotas :: 0 <= quotas[u] <= INT64_MAX
    ensures QuotaOk(Init(quotas))
  {
    forall u | u in quotas
      ensures CheckedFits(Init(quotas), u)
    {
      assert Checked(Init(quotas), u) == map[];
    }
  }

  /** After any run from empty tables, usage is within quota up to the bytes that no quota check covered. */
  lemma QuotaOverRuns(quotas: map<Id, int>, es: seq<Event>, user: Id)
    requires forall u | u in quotas :: 0 <= quotas[u] <= INT64_MAX
    requires ValidRun(Init(quotas), es) && user in Run(Init(quotas), es).quotas
    ensures var t := Run(Init(quotas), es);
            Used(t.files, user) <= t.quotas[user] + Sum(Excess(t, user))
  {
    InitInv(quotas);
    InitQuota(quotas);
    RunKeepsQuota(Init(quotas), es);
    UsageBounded(Run(Init(quotas), es), user);
  }

  // ---------- honest users ----------

  ghost predicate RowHonest(s: Store, id: Id) {
    id in s.files && id in s.declared && s.files[id].size <= s.declared[id]
  }

  ghost predicate RowsHonest(s: Store) {
    forall id {:trigger RowHonest(s, id)} | id in s.files :: RowHonest(s, id)
  }

  /** An admitted size does not overflow the sum of its check, and a presigned upload is no larger than declared;
      a resumable one is no larger than accepted, and no other bytes of its owner landed while it was under way. */
  ghost predicate HonestStep(s: Store, e: Event)
    requires Valid(s, e)
  {
    match e
    case PresignEv(user, name, size, mime, at, newId) =>
      AfterPresign(s, user, name, size, mime, at, newId).reply == Success ==> size <= INT64_MAX - Used(s.files, user)
    case PresignVersionEv(user, id, size, mime, _) =>
      VersionVerdict(s, user, id, size, mime) == Success ==> size <= INT64_MAX - Used(s.files, user)
    case CompleteEv(user, id, jobId, enqueued) =>
      AfterComplete(s, user, id, jobId, enqueued).reply == Success ==> s.objects[s.files[id].storageKey] <= s.files[id].size
    case FinishTusEv(uploadId, size, _, _, stored, _) =>
      stored ==> s.uploads[uploadId].alone && size <= s.uploads[uploadId].size
    case _ => true
  }

  lemma ShrinkKeepsHonest(s: Store, t: Store)
    requires RowsHonest(s) && Shrunk(s, t)
    ensures RowsHonest(t)
  {
    forall a | a in t.files
      ensures RowHonest(t, a)
    {
      ShrunkRow(s.files, t.files, a);
      assert RowHonest(s, a);
    }
  }

  /** One row new or resized, and no larger than declared; the others in size as before. */
  lemma RowKeepsHonest(s: Store, t: Store, id: Id)
    requires RowsHonest(s) && (id in t.files ==> RowHonest(t, id))
    requires forall a | a in t.files && a != id ::
               a in s.files && a in s.declared && a in t.declared && t.files[a].size == s.files[a].size && t.declared[a] == s.declared[a]
    ensures RowsHonest(t)
  {
    forall a | a in t.files
      ensures RowHonest(t, a)
    {
      if a != id { assert RowHonest(s, a); }
    }
  }

  lemma PresignKeepsHonest(s: Store, user: Id, name: string, size: Int64, mime: string, folder: FolderArg, newId: Id)
    requires RowsHonest(s) && s.files.Keys <= s.declared.Keys
    requires AfterPresign(s, user, name, size, mime, folder, newId).reply == Success ==> size <= INT64_MAX - Used(s.files, user)
    ensures RowsHonest(AfterPresign(s, user, name, size, mime, folder, newId).store)
  {
    var o := AfterPresign(s, user, name, size, mime, folder, newId);
    if o.reply == Success { RowKeepsHonest(s, o.store, newId); }
  }

  lemma PresignVersionKeepsHonest(s: Store, user: Id, id: Id, size: Int64, mime: string, newId: Id)
    requires RowsHonest(s) && s.files.Keys <= s.declared.Keys
    requires VersionVerdict(s, user, id, size, mime) == Success ==> size <= INT64_MAX - Used(s.files, user)
    ensures RowsHonest(AfterPresignVersion(s, user, id, size, mime, newId).store)
  {
    if VersionVerdict(s, user, id, size, mime) == Success {
      var row := VersionRow(s.files, user, id, size, mime, newId);
      RowKeepsHonest(s, WithVersion(s, user, Root(s.files, id), newId, row), newId);
    }
  }

  lemma CompleteKeepsHonest(s: Store, user: Id, id: Id, jobId: Id, enqueued: bool)
    requires RowsHonest(s) && SizesOk(s)
    requires AfterComplete(s, user, id, jobId, enqueued).reply == Success ==>
               s.objects[s.files[id].storageKey] <= s.files[id].size
    ensures RowsHonest(AfterComplete(s, user, id, jobId, enqueued).store)
  {
    if AfterComplete(s, user, id, jobId, enqueued).reply == Success {
      assert RowHonest(s, id);
      RowKeepsHonest(s, AfterComplete(s, user, id, jobId, enqueued).store, id);
    }
  }

  lemma FinishTusKeepsHonest(s: Store, e: Event)
    requires RowsHonest(s) && s.files.Keys <= s.declared.Keys && e.FinishTusEv? && Valid(s, e) && HonestStep(s, e)
    ensures RowsHonest(Apply(s, e))
  {
    var upload := s.uploads[e.uploadId];
    var t := s.(uploads := s.uploads - {e.uploadId});
    HonestSameRows(s, t);
    if OwnerOf(upload).Some? && e.stored {
      var row := TusRow(upload.meta, e.uploadId, OwnerOf(upload).value, e.size, e.newId);
      TusRowKeepsHonest(t, e.newId, row, Covered(s.uploads, e.uploadId), e.jobId, e.enqueued);
    }
  }

  lemma TusRowKeepsHonest(s: Store, id: Id, row: File, covered: int, jobId: Id, enqueued: bool)
    requires RowsHonest(s) && s.files.Keys <= s.declared.Keys && row.size <= covered
    ensures RowsHonest(AfterEnqueue(WithTusRow(s, id, row, covered), row.mime, id, jobId, enqueued))
  {
    var w := WithTusRow(s, id, row, covered);
    RowKeepsHonest(s, w, id);
    EnqueueRows(w, row.mime, id, jobId, enqueued);
    HonestSameRows(w, AfterEnqueue(w, row.mime, id, jobId, enqueued));
  }

  lemma UploadKeepsHonest(s: Store, e: Event)
    requires SizesOk(s) && RowsHonest(s) && Valid(s, e) && HonestStep(s, e) && IsUpload(e)
    ensures RowsHonest(Apply(s, e))
  {
    match e
    case PresignEv(user, name, size, mime, at, newId) => PresignKeepsHonest(s, user, name, size, mime, at, newId);
    case PresignVersionEv(user, id, size, mime, newId) => PresignVersionKeepsHonest(s, user, id, size, mime, newId);
    case CompleteEv(user, id, jobId, enqueued) => CompleteKeepsHonest(s, user, id, jobId, enqueued);
    case AcceptTusEv(caller, meta, size, uploadId) =>
      AcceptLeavesRows(s, caller, meta, size, uploadId);
      HonestSameRows(s, AfterPreCreate(s, caller, meta, size, uploadId).store);
    case FinishTusEv(_, _, _, _, _, _) => FinishTusKeepsHonest(s, e);
  }

  lemma StepKeepsHonest(s: Store, e: Event)
    requires Inv(s) && QuotaOk(s) && RowsHonest(s) && Valid(s, e) && HonestStep(s, e)
    ensures RowsHonest(Apply(s, e))
  {
    if IsUpload(e) {
      UploadKeepsHonest(s, e);
    } else {
      OtherStepShrinks(s, e);
      ShrinkKeepsHonest(s, Apply(s, e));
    }
  }

  lemma HonestSameRows(s: Store, t: Store)
    requires RowsHonest(s) && SameRows(s, t)
    ensures RowsHonest(t)
  {
    forall a | a in t.files ensures RowHonest(t, a) { assert RowHonest(s, a); }
  }

  ghost predicate HonestRun(s: Store, es: seq<Event>)
    requires ValidRun(s, es)
    decreases |es|
  {
    es == [] || (HonestStep(s, es[0]) && HonestRun(Apply(s, es[0]), es[1..]))
  }

  lemma {:induction false} RunKeepsHonest(s: Store, es: seq<Event>)
    requires Inv(s) && QuotaOk(s) && RowsHonest(s) && ValidRun(s, es) && HonestRun(s, es)
    ensures QuotaOk(Run(s, es)) && RowsHonest(Run(s, es))
    decreases |es|
  {
    if es != [] {
      StepKeepsInv(s, es[0]);
      StepKeepsQuota(s, es[0]);
      StepKeepsHonest(s, es[0]);
      RunKeepsHonest(Apply(s, es[0]), es[1..]);
    }
  }

  /** Over a whole run of honest uploads, presigned and resumable, no user ever exceeds the quota. */
  lemma HonestRunWithinQuota(quotas: map<Id, int>, es: seq<Event>, user: Id)
    requires forall u | u in quotas :: 0 <= quotas[u] <= INT64_MAX
    requires ValidRun(Init(quotas), es) && HonestRun(Init(quotas), es)
    requires user in Run(Init(quotas), es).quotas
    ensures Used(Run(Init(quotas), es).files, user) <= Run(Init(quotas), es).quotas[user]
  {
    InitInv(quotas);
    InitQuota(quotas);
    RunKeepsHonest(Init(quotas), es);
    var t := Run(Init(quotas), es);
    forall id | id in t.files ensures RowHonest(t, id) {}
    HonestUsageWithinQuota(t, user);
  }
}

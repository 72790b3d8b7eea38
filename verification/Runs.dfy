/** The whole backend as one state machine: handlers, clients' uploads and worker steps in any order. */
module Runs {
  import opened Machine
  import opened Wrappers
  import opened Schema
  import opened Forest
  import opened Lineage
  import opened ObjectKeys
  import opened ApiVersions
  import opened ApiFiles
  import opened ApiFolders
  import opened UploadSvc
  import opened Shares
  import opened Workers
  import opened Invariants

  datatype Event =
    | CreateFolderEv(user: Id, name: string, at: FolderArg, newId: Id)
    | UpdateFolderEv(user: Id, id: Id, name: string, at: FolderArg)
    | DeleteFolderEv(user: Id, id: Id, faults: StorageFaults)
    | PresignEv(user: Id, name: string, size: Int64, mime: string, at: FolderArg, newId: Id)
    | PresignVersionEv(user: Id, id: Id, size: Int64, mime: string, newId: Id)
    | ClientPutEv(key: Key, size: Int64)
    | CompleteEv(user: Id, id: Id, jobId: Id, enqueued: bool)
    | AcceptTusEv(caller: Option<Id>, meta: map<string, string>, size: Int64, uploadId: string)
    | FinishTusEv(uploadId: string, size: Int64, newId: Id, jobId: Id, stored: bool, enqueued: bool)
    | UpdateFileEv(user: Id, id: Id, rename: Option<string>, at: FolderArg)
    | DeleteFileEv(user: Id, id: Id, faults: StorageFaults)
    | RestoreEv(user: Id, id: Id, version: Id)
    | CreateShareEv(user: Id, id: Id, hours: Option<int>, password: Option<string>, maxDownloads: Option<int>,
                    token: string, now: int, newId: Id)
    | DeleteShareEv(user: Id, id: Id)
    | DownloadEv(token: string, password: Option<string>, now: int, counted: bool)
    | WorkerPutEv(jobId: Id, key: Key, size: Int64)
    | WorkerEndEv(jobId: Id, result: Result)

  /** What the environment guarantees: new UUIDs and upload ids are fresh, clients upload to keys they were
      given, tusd reports an accepted upload once with the metadata kept for it, and workers run only live
      jobs. That a successful attempt has written its objects is what their code does: see module Attempts. */
  ghost predicate Valid(s: Store, e: Event) {
    match e
    case CreateFolderEv(_, _, _, newId) => newId !in s.issued
    case PresignEv(_, _, _, _, _, newId) => newId !in s.issued
    case PresignVersionEv(_, _, _, _, newId) => newId !in s.issued
    case CreateShareEv(_, _, _, _, _, _, _, newId) => newId !in s.issued
    case ClientPutEv(key, size) =>
      key.Original? && 0 <= size && key.id in s.issued && (key.id in s.files ==> key == s.files[key.id].storageKey)
    case CompleteEv(_, _, jobId, _) => jobId !in s.issued
    case AcceptTusEv(_, _, size, uploadId) => 0 <= size && uploadId !in s.uploads
    case FinishTusEv(uploadId, size, newId, jobId, _, _) =>
      uploadId in s.uploads && 0 <= size && newId !in s.issued && jobId !in s.issued && newId != jobId
    case WorkerPutEv(jobId, key, size) =>
      IsLive(s, jobId) && MayWrite(s.jobs[jobId].kind, s.jobs[jobId].file, key) && 0 <= size
    case WorkerEndEv(jobId, result) =>
      IsLive(s, jobId) && (result == Finished ==> WroteResults(s.jobs[jobId]))
    case _ => true
  }

  ghost function Apply(s: Store, e: Event): Store
    requires Valid(s, e)
  {
    match e
    case CreateFolderEv(user, name, at, newId) => AfterCreateFolder(s, user, name, at, newId).store
    case UpdateFolderEv(user, id, name, at) => AfterUpdateFolder(s, user, id, name, at).store
    case DeleteFolderEv(user, id, faults) => AfterDeleteFolder(s, user, id, faults).store
    case PresignEv(user, name, size, mime, at, newId) => AfterPresign(s, user, name, size, mime, at, newId).store
    case PresignVersionEv(user, id, size, mime, newId) => AfterPresignVersion(s, user, id, size, mime, newId).store
    case ClientPutEv(key, size) => s.(objects := s.objects[key := size])
    case CompleteEv(user, id, jobId, enqueued) => AfterComplete(s, user, id, jobId, enqueued).store
    case AcceptTusEv(user, meta, size, uploadId) => AfterPreCreate(s, user, meta, size, uploadId).store
    case FinishTusEv(uploadId, size, newId, jobId, stored, enqueued) =>
      AfterFinishTus(s, uploadId, s.uploads[uploadId].meta, size, newId, jobId, stored, enqueued)
    case UpdateFileEv(user, id, rename, at) => AfterUpdateFile(s, user, id, rename, at).store
    case DeleteFileEv(user, id, faults) => AfterDeleteFile(s, user, id, faults).store
    case RestoreEv(user, id, version) => AfterRestore(s, user, id, version).store
    case CreateShareEv(user, id, hours, password, maxDownloads, token, now, newId) =>
      AfterCreateShare(s, user, id, hours, password, maxDownloads, token, now, newId).store
    case DeleteShareEv(user, id) => AfterDeleteShare(s, user, id).store
    case DownloadEv(token, password, now, counted) => AfterDownload(s, token, password, now, counted).store
    case WorkerPutEv(jobId, key, size) => AfterPut(s, jobId, key, size)
    case WorkerEndEv(jobId, result) => AfterAttempt(s, jobId, result)
  }

  ghost predicate ValidRun(s: Store, es: seq<Event>)
    decreases |es|
  {
    es == [] || (Valid(s, es[0]) && ValidRun(Apply(s, es[0]), es[1..]))
  }

  ghost function Run(s: Store, es: seq<Event>): Store
    requires ValidRun(s, es)
    decreases |es|
  {
    if es == [] then s else Run(Apply(s, es[0]), es[1..])
  }

  lemma {:induction false} RunThen(s: Store, a: seq<Event>, b: seq<Event>)
    requires ValidRun(s, a) && ValidRun(Run(s, a), b)
    ensures ValidRun(s, a + b) && Run(s, a + b) == Run(Run(s, a), b)
    decreases |a|
  {
    if a == [] {
      assert a + b == b;
    } else {
      assert (a + b)[0] == a[0] && (a + b)[1..] == a[1..] + b;
      RunThen(Apply(s, a[0]), a[1..], b);
    }
  }

  lemma LastStep(s: Store, e: Event)
    requires Valid(s, e)
    ensures ValidRun(s, [e]) && Run(s, [e]) == Apply(s, e)
  {
    assert ValidRun(Apply(s, e), [e][1..]);
  }

  lemma RunStep(s: Store, e: Event, t: Store, rest: seq<Event>)
    requires Valid(s, e) && Apply(s, e) == t && ValidRun(t, rest)
    ensures ValidRun(s, [e] + rest) && Run(s, [e] + rest) == Run(t, rest)
  {
    assert ([e] + rest)[1..] == rest;
  }

  lemma RunThree(s: Store, e1: Event, s1: Store, e2: Event, s2: Store, e3: Event, t: Store)
    requires Valid(s, e1) && Apply(s, e1) == s1 && Valid(s1, e2) && Apply(s1, e2) == s2 && Valid(s2, e3) && Apply(s2, e3) == t
    ensures ValidRun(s, [e1] + ([e2] + [e3])) && Run(s, [e1] + ([e2] + [e3])) == t
  {
    LastStep(s2, e3);
    RunStep(s1, e2, s2, [e3]);
    RunStep(s, e1, s1, [e2] + [e3]);
  }

  function Init(quotas: map<Id, int>): Store {
    Store(quotas, map[], map[], map[], map[], map[], map[], map[], {}, {})
  }

  /** Steps that neither add, drop nor change a file row. */
  predicate LeavesRows(e: Event) {
    e.ClientPutEv? || e.AcceptTusEv? || e.CreateShareEv? || e.DeleteShareEv? || e.DownloadEv? || e.WorkerPutEv?
  }

  ghost predicate SameRows(s: Store, t: Store) {
    t.folders == s.folders && t.files == s.files && t.declared == s.declared && t.quotas == s.quotas
  }

  lemma AcceptLeavesRows(s: Store, user: Option<Id>, meta: map<string, string>, size: Int64, uploadId: string)
    ensures SameRows(s, AfterPreCreate(s, user, meta, size, uploadId).store)
  {
    if PreCreateVerdict(s, user, meta, size) == Success {
      assert SameRows(s, s.(uploads := s.uploads[uploadId := Accepted(s.files, meta, user.value, size)]));
    }
  }

  lemma CreateShareLeavesRows(s: Store, user: Id, file: Id, hours: Option<int>, password: Option<string>,
                              maxDownloads: Option<int>, token: string, now: int, newId: Id)
    ensures SameRows(s, AfterCreateShare(s, user, file, hours, password, maxDownloads, token, now, newId).store)
  {
  }

  lemma DownloadLeavesRows(s: Store, token: string, password: Option<string>, now: int, counted: bool)
    ensures SameRows(s, AfterDownload(s, token, password, now, counted).store)
  {
  }

  lemma RowsLeft(s: Store, e: Event)
    requires Valid(s, e) && LeavesRows(e)
    ensures SameRows(s, Apply(s, e))
  {
    match e
    case ClientPutEv(_, _) =>
    case AcceptTusEv(user, meta, size, uploadId) => AcceptLeavesRows(s, user, meta, size, uploadId);
    case CreateShareEv(user, id, hours, password, maxDownloads, token, now, newId) =>
      CreateShareLeavesRows(s, user, id, hours, password, maxDownloads, token, now, newId);
    case DeleteShareEv(_, _) =>
    case DownloadEv(token, password, now, counted) => DownloadLeavesRows(s, token, password, now, counted);
    case WorkerPutEv(_, _, _) =>
  }

  // ---------- the invariant ----------

  ghost predicate IdsOk(s: Store) {
    s.folders.Keys + s.files.Keys + s.shares.Keys + s.jobs.Keys <= s.issued
  }

  ghost predicate Inv(s: Store) {
    && IsForest(s.folders)
    && LineageInv(s.files)
    && JobsOk(s.files, s.jobs, s.stranded, s.issued)
    && ObjectsOk(s.files, s.jobs, s.objects, s.issued)
    && SharesOk(s.files, s.shares)
    && IdsOk(s)
  }

  lemma InitInv(quotas: map<Id, int>)
    ensures Inv(Init(quotas))
  {
  }

  /** Rows `dead` of one user gone, with their links and objects. */
  lemma DeleteRowsInv(s: Store, t: Store, user: Id, dead: set<Id>, faults: StorageFaults)
    requires Inv(s) && IsForest(t.folders) && t.folders.Keys <= s.folders.Keys && LineageInv(s.files - dead)
    requires forall id | id in dead && id in s.files :: s.files[id].user == user
    requires t == WithoutRows(s, user, dead).(folders := t.folders, objects := AfterSweep(s.objects, s.files, dead, faults))
    ensures Inv(t)
  {
    JobsKeptByRows(s.files, t.files, s.jobs, s.stranded, s.issued);
    ObjectsKeptByDelete(s, t.files, dead, faults);
    SharesKeptByDelete(s.files, s.shares, user, dead);
  }

  lemma DeleteFileInv(s: Store, user: Id, id: Id, faults: StorageFaults)
    requires Inv(s)
    ensures Inv(AfterDeleteFile(s, user, id, faults).store)
  {
    if OwnsFile(s.files, user, id) {
      DeleteRemovesLineage(s, user, id, faults);
      DeleteRowsInv(s, AfterDeleteFile(s, user, id, faults).store, user, Selected(s.files, user, Root(s.files, id)), faults);
    }
  }

  lemma DeleteFolderInv(s: Store, user: Id, id: Id, faults: StorageFaults)
    requires Inv(s)
    ensures Inv(AfterDeleteFolder(s, user, id, faults).store)
  {
    if OwnsFolder(s.folders, user, id) {
      DeleteKeepsForest(s, user, id, faults);
      DeleteKeepsLineages(s, user, id, faults);
      DeleteRowsInv(s, AfterDeleteFolder(s, user, id, faults).store, user,
                    DoomedRows(s.files, user, Subtree(s.folders, id)), faults);
    }
  }

  /** Rows changed only in name, place, version or flag. */
  lemma EditRowsInv(s: Store, gs: Files)
    requires Inv(s) && LineageInv(gs) && gs.Keys == s.files.Keys && WorkKept(s.files, gs)
    ensures Inv(s.(files := gs))
  {
    JobsKeptByRows(s.files, gs, s.jobs, s.stranded, s.issued);
    ObjectsKeptByRows(s.files, gs, s.jobs, s.objects, s.issued);
    SharesKeptByRows(s.files, gs, s.shares);
  }

  lemma UpdateFileInv(s: Store, user: Id, id: Id, name: Option<string>, folder: FolderArg)
    requires Inv(s)
    ensures Inv(AfterUpdateFile(s, user, id, name, folder).store)
  {
    var o := AfterUpdateFile(s, user, id, name, folder);
    if o.reply == Success {
      SamePlacesKeep(s.files, o.store.files);
      EditRowsInv(s, o.store.files);
    }
  }

  lemma RestoreInv(s: Store, user: Id, id: Id, version: Id)
    requires Inv(s)
    ensures Inv(AfterRestore(s, user, id, version).store)
  {
    var o := AfterRestore(s, user, id, version);
    RestoreKeepsLineages(s, user, id, version);
    if o.reply == Success { EditRowsInv(s, o.store.files); }
  }

  /** A new pending row, other rows keeping their work. */
  lemma InsertRowInv(s: Store, t: Store, id: Id)
    requires Inv(s) && id !in s.issued && LineageInv(t.files)
    requires t.files.Keys == s.files.Keys + {id} && WorkKept(s.files, t.files - {id})
    requires t.files[id].status == Pending && NoKeys(t.files[id])
    requires t.files[id].storageKey.Original? && t.files[id].storageKey.id == id
    requires t == s.(files := t.files, uploads := t.uploads, declared := t.declared, issued := s.issued + {id})
    ensures Inv(t)
  {
    JobsKeptByInsert(s.files, t.files, id, s.jobs, s.stranded, s.issued);
    ObjectsKeptByInsert(s.files, t.files, id, s.jobs, s.objects, s.issued);
    forall a | a in s.files
      ensures a in t.files && t.files[a].user == s.files[a].user
    {
      assert a in t.files - {id};
    }
    SharesKeptByRows(s.files, t.files, s.shares);
  }

  lemma PresignInv(s: Store, user: Id, name: string, size: Int64, mime: string, folder: FolderArg, newId: Id)
    requires Inv(s) && newId !in s.issued
    ensures Inv(AfterPresign(s, user, name, size, mime, folder, newId).store)
  {
    var o := AfterPresign(s, user, name, size, mime, folder, newId);
    if o.reply == Success {
      InsertRoot(s.files, newId, o.store.files[newId]);
      assert o.store.files - {newId} == s.files;
      InsertRowInv(s, o.store, newId);
    }
  }

  lemma PresignVersionInv(s: Store, user: Id, id: Id, size: Int64, mime: string, newId: Id)
    requires Inv(s) && newId !in s.issued
    ensures Inv(AfterPresignVersion(s, user, id, size, mime, newId).store)
  {
    PresignVersionKeepsLineages(s, user, id, size, mime, newId);
    if VersionVerdict(s, user, id, size, mime) == Success {
      var row := VersionRow(s.files, user, id, size, mime, newId);
      NewVersionInv(s, user, Root(s.files, id), newId, row);
    }
  }

  lemma NewVersionInv(s: Store, user: Id, root: Id, newId: Id, row: File)
    requires Inv(s) && newId !in s.issued && LineageInv(WithVersion(s, user, root, newId, row).files)
    requires row.status == Pending && NoKeys(row) && row.storageKey.Original? && row.storageKey.id == newId
    ensures Inv(WithVersion(s, user, root, newId, row))
  {
    var t := WithVersion(s, user, root, newId, row);
    assert t.files - {newId} == Superseded(s.files, user, root);
    InsertRowInv(s, t, newId);
  }

  /** One row rewritten in place, its work and objects still in order: lineages and links do not notice. */
  lemma RowRewritten(s: Store, t: Store, id: Id, row: File)
    requires Inv(s) && id in s.files
    requires var f := s.files[id];
             row.parent == f.parent && row.user == f.user && row.version == f.version && row.current == f.current
    requires t.folders == s.folders && t.shares == s.shares && t.files == s.files[id := row]
    requires JobsOk(t.files, t.jobs, t.stranded, t.issued) && ObjectsOk(t.files, t.jobs, t.objects, t.issued) && IdsOk(t)
    ensures Inv(t)
  {
    SamePlacesKeep(s.files, t.files);
    SharesKeptByRows(s.files, t.files, s.shares);
  }

  /** A new row that is a file of its own, its work and objects in order. */
  lemma RootInserted(s: Store, t: Store, id: Id, row: File)
    requires Inv(s) && id !in s.files && row.parent == None && row.version == 1 && row.current
    requires t.folders == s.folders && t.shares == s.shares && t.files == s.files[id := row]
    requires JobsOk(t.files, t.jobs, t.stranded, t.issued) && ObjectsOk(t.files, t.jobs, t.objects, t.issued) && IdsOk(t)
    ensures Inv(t)
  {
    InsertRoot(s.files, id, row);
    SharesKeptByRows(s.files, t.files, s.shares);
  }

  lemma CompleteInv(s: Store, user: Id, id: Id, jobId: Id, enqueued: bool)
    requires Inv(s) && jobId !in s.issued
    ensures Inv(AfterComplete(s, user, id, jobId, enqueued).store)
  {
    var o := AfterComplete(s, user, id, jobId, enqueued);
    if o.reply == Success {
      var f := s.files[id];
      var row := f.(size := s.objects[f.storageKey], status := if KindOf(f.mime).Some? then Processing else Ready);
      HandOverInv(s, id, row, jobId, enqueued);
    }
  }

  /** A pending row whose object has arrived goes to the queue, or straight to ready. */
  lemma HandOverInv(s: Store, id: Id, row: File, jobId: Id, enqueued: bool)
    requires Inv(s) && jobId !in s.issued && id in s.files && s.files[id].status == Pending
    requires s.files[id].storageKey in s.objects
    requires row == s.files[id].(size := row.size, status := if KindOf(row.mime).Some? then Processing else Ready)
    ensures Inv(AfterEnqueue(s.(files := s.files[id := row]), row.mime, id, jobId, enqueued))
  {
    HandOverWork(s, id, row, jobId, enqueued);
    EnqueueRows(s.(files := s.files[id := row]), row.mime, id, jobId, enqueued);
    RowRewritten(s, AfterEnqueue(s.(files := s.files[id := row]), row.mime, id, jobId, enqueued), id, row);
  }

  lemma HandOverWork(s: Store, id: Id, row: File, jobId: Id, enqueued: bool)
    requires JobsOk(s.files, s.jobs, s.stranded, s.issued) && ObjectsOk(s.files, s.jobs, s.objects, s.issued)
    requires jobId !in s.issued && jobId !in s.jobs && id in s.files && s.files[id].status == Pending
    requires s.files[id].storageKey in s.objects
    requires row == s.files[id].(size := row.size, status := if KindOf(row.mime).Some? then Processing else Ready)
    ensures var t := AfterEnqueue(s.(files := s.files[id := row]), row.mime, id, jobId, enqueued);
            JobsOk(t.files, t.jobs, t.stranded, t.issued) && ObjectsOk(t.files, t.jobs, t.objects, t.issued)
  {
    assert StatusOk(id, s.files[id], s.jobs, s.stranded) && RowObjects(id, s.files[id], s.objects);
    JobsKeptByEnqueue(s, id, row, jobId, enqueued);
    ObjectsKeptByEnqueue(s, id, row, jobId, enqueued);
  }

  lemma FinishTusInv(s: Store, uploadId: string, meta: map<string, string>, size: Int64,
                     newId: Id, jobId: Id, stored: bool, enqueued: bool)
    requires Inv(s) && newId !in s.issued && jobId !in s.issued && newId != jobId
    ensures Inv(AfterFinishTus(s, uploadId, meta, size, newId, jobId, stored, enqueued))
  {
    var owner := ParseUuid(Meta(meta, "user_id"));
    if owner.Some? && stored {
      var row := TusRow(meta, uploadId, owner.value, size, newId);
      TusRowInv(s.(uploads := s.uploads - {uploadId}), newId, row, Covered(s.uploads, uploadId), jobId, enqueued);
    }
  }

  lemma TusRowInv(s: Store, id: Id, row: File, covered: int, jobId: Id, enqueued: bool)
    requires Inv(s) && id !in s.issued && jobId !in s.issued && id != jobId
    requires row.parent == None && row.version == 1 && row.current && NoKeys(row)
    requires row.storageKey.Original? && row.storageKey.id == id
    requires row.status == if KindOf(row.mime).Some? then Processing else Ready
    ensures Inv(AfterEnqueue(WithTusRow(s, id, row, covered), row.mime, id, jobId, enqueued))
  {
    var u := s.(objects := s.objects[row.storageKey := row.size], uploads := Crowded(s.uploads, row.user),
                declared := s.declared[id := covered], issued := s.issued + {id});
    var w := WithTusRow(s, id, row, covered);
    assert w == u.(files := u.files[id := row]);
    TusRowWork(s, u, id, row, jobId, enqueued);
    EnqueueRows(w, row.mime, id, jobId, enqueued);
    RootInserted(s, AfterEnqueue(w, row.mime, id, jobId, enqueued), id, row);
  }

  lemma TusRowWork(s: Store, u: Store, id: Id, row: File, jobId: Id, enqueued: bool)
    requires Inv(s) && id !in s.issued && jobId !in s.issued && id != jobId
    requires NoKeys(row) && row.storageKey.Original? && row.storageKey.id == id
    requires row.status == if KindOf(row.mime).Some? then Processing else Ready
    requires u == s.(objects := s.objects[row.storageKey := row.size], uploads := u.uploads, declared := u.declared,
                     issued := s.issued + {id})
    ensures var t := AfterEnqueue(u.(files := u.files[id := row]), row.mime, id, jobId, enqueued);
            JobsOk(t.files, t.jobs, t.stranded, t.issued) && ObjectsOk(t.files, t.jobs, t.objects, t.issued)
  {
    TusObjectsInv(s, u, id, row);
    JobsKeptByEnqueue(u, id, row, jobId, enqueued);
    ObjectsKeptByEnqueue(u, id, row, jobId, enqueued);
  }

  lemma TusObjectsInv(s: Store, u: Store, id: Id, row: File)
    requires Inv(s) && id !in s.issued && row.storageKey.Original? && row.storageKey.id == id && NoKeys(row)
    requires u == s.(objects := s.objects[row.storageKey := row.size], uploads := u.uploads, declared := u.declared,
                     issued := s.issued + {id})
    ensures JobsOk(u.files, u.jobs, u.stranded, u.issued) && ObjectsOk(u.files, u.jobs, u.objects, u.issued)
    ensures NoJob(u.jobs, id) && RowObjects(id, row, u.objects)
  {
    JobsGrowIssued(s.files, s.jobs, s.stranded, s.issued, {id});
    ObjectsKeptByUpload(s.files, s.jobs, s.objects, s.issued, row.storageKey, row.size);
  }

  lemma ClientPutInv(s: Store, key: Key, size: int)
    requires Inv(s) && key.Original? && key.id in s.issued && (key.id in s.files ==> key == s.files[key.id].storageKey)
    ensures Inv(s.(objects := s.objects[key := size]))
  {
    ObjectsKeptByUpload(s.files, s.jobs, s.objects, s.issued, key, size);
    assert s.issued + {key.id} == s.issued;
  }

  lemma WorkerPutInv(s: Store, jobId: Id, key: Key, size: int)
    requires Inv(s) && IsLive(s, jobId) && MayWrite(s.jobs[jobId].kind, s.jobs[jobId].file, key)
    ensures Inv(AfterPut(s, jobId, key, size))
  {
    JobsKeptByPut(s, jobId, key, size);
    ObjectsKeptByPut(s, jobId, key, size);
  }

  lemma WorkerEndInv(s: Store, jobId: Id, result: Result)
    requires Inv(s) && IsLive(s, jobId) && (result == Finished ==> WroteResults(s.jobs[jobId]))
    ensures Inv(AfterAttempt(s, jobId, result))
  {
    JobsKeptByAttempt(s, jobId, result);
    ObjectsKeptByAttempt(s, jobId, result);
    AttemptKeepsPlaces(s, s.jobs[jobId], result);
  }

  lemma AttemptKeepsPlaces(s: Store, job: Job, result: Result)
    requires Inv(s)
    ensures LineageInv(RowAfter(s.files, job, result)) && SharesOk(RowAfter(s.files, job, result), s.shares)
    ensures RowAfter(s.files, job, result).Keys == s.files.Keys
  {
    if job.file in s.files {
      var gs := RowAfter(s.files, job, result);
      assert gs == s.files[job.file := gs[job.file]];
      SamePlacesKeep(s.files, gs);
      SharesKeptByRows(s.files, gs, s.shares);
    }
  }

  lemma CreateFolderInv(s: Store, user: Id, name: string, at: FolderArg, newId: Id)
    requires Inv(s) && newId !in s.issued
    ensures Inv(AfterCreateFolder(s, user, name, at, newId).store)
  {
    CreateKeepsForest(s, user, name, at, newId);
    JobsGrowIssued(s.files, s.jobs, s.stranded, s.issued, {newId});
    ObjectsGrowIssued(s.files, s.jobs, s.objects, s.issued, {newId});
  }

  lemma CreateShareInv(s: Store, user: Id, file: Id, hours: Option<int>, password: Option<string>,
                       maxDownloads: Option<int>, token: string, now: int, newId: Id)
    requires Inv(s) && newId !in s.issued
    ensures Inv(AfterCreateShare(s, user, file, hours, password, maxDownloads, token, now, newId).store)
  {
    SharesKeptByCreate(s, user, file, hours, password, maxDownloads, token, now, newId);
    JobsGrowIssued(s.files, s.jobs, s.stranded, s.issued, {newId});
    ObjectsGrowIssued(s.files, s.jobs, s.objects, s.issued, {newId});
  }

  lemma AcceptInv(s: Store, user: Option<Id>, meta: map<string, string>, size: Int64, uploadId: string)
    requires Inv(s)
    ensures Inv(AfterPreCreate(s, user, meta, size, uploadId).store)
  {
  }

  lemma UploadStepInv(s: Store, e: Event)
    requires Inv(s) && Valid(s, e)
    requires e.PresignEv? || e.PresignVersionEv? || e.CompleteEv? || e.AcceptTusEv? || e.FinishTusEv?
    ensures Inv(Apply(s, e))
  {
    match e
    case PresignEv(user, name, size, mime, at, newId) => PresignInv(s, user, name, size, mime, at, newId);
    case PresignVersionEv(user, id, size, mime, newId) => PresignVersionInv(s, user, id, size, mime, newId);
    case CompleteEv(user, id, jobId, enqueued) => CompleteInv(s, user, id, jobId, enqueued);
    case AcceptTusEv(user, meta, size, uploadId) => AcceptInv(s, user, meta, size, uploadId);
    case FinishTusEv(uploadId, size, newId, jobId, stored, enqueued) =>
      FinishTusInv(s, uploadId, s.uploads[uploadId].meta, size, newId, jobId, stored, enqueued);
  }

  lemma TreeStepInv(s: Store, e: Event)
    requires Inv(s) && Valid(s, e)
    requires e.CreateFolderEv? || e.UpdateFolderEv? || e.DeleteFolderEv? || e.UpdateFileEv? || e.DeleteFileEv? || e.RestoreEv?
    ensures Inv(Apply(s, e))
  {
    match e
    case CreateFolderEv(user, name, at, newId) => CreateFolderInv(s, user, name, at, newId);
    case UpdateFolderEv(user, id, name, at) => UpdateKeepsForest(s, user, id, name, at);
    case DeleteFolderEv(user, id, faults) => DeleteFolderInv(s, user, id, faults);
    case UpdateFileEv(user, id, rename, at) => UpdateFileInv(s, user, id, rename, at);
    case DeleteFileEv(user, id, faults) => DeleteFileInv(s, user, id, faults);
    case RestoreEv(user, id, version) => RestoreInv(s, user, id, version);
  }

  lemma OtherStepInv(s: Store, e: Event)
    requires Inv(s) && Valid(s, e)
    requires e.ClientPutEv? || e.CreateShareEv? || e.DeleteShareEv? || e.DownloadEv? || e.WorkerPutEv? || e.WorkerEndEv?
    ensures Inv(Apply(s, e))
  {
    match e
    case ClientPutEv(key, size) => ClientPutInv(s, key, size);
    case CreateShareEv(user, id, hours, password, maxDownloads, token, now, newId) =>
      CreateShareInv(s, user, id, hours, password, maxDownloads, token, now, newId);
    case DeleteShareEv(user, id) =>
    case DownloadEv(token, password, now, counted) => SharesKeptByDownload(s, token, password, now, counted);
    case WorkerPutEv(jobId, key, size) => WorkerPutInv(s, jobId, key, size);
    case WorkerEndEv(jobId, result) => WorkerEndInv(s, jobId, result);
  }

  /** Every step of every service and worker keeps the invariant. */
  lemma StepKeepsInv(s: Store, e: Event)
    requires Inv(s) && Valid(s, e)
    ensures Inv(Apply(s, e))
  {
    if e.PresignEv? || e.PresignVersionEv? || e.CompleteEv? || e.AcceptTusEv? || e.FinishTusEv? {
      UploadStepInv(s, e);
    } else if e.CreateFolderEv? || e.UpdateFolderEv? || e.DeleteFolderEv? || e.UpdateFileEv? || e.DeleteFileEv? || e.RestoreEv? {
      TreeStepInv(s, e);
    } else {
      OtherStepInv(s, e);
    }
  }

  /** The invariant holds after every run, and so in every reachable state. */
  lemma {:induction false} RunKeepsInv(s: Store, es: seq<Event>)
    requires Inv(s) && ValidRun(s, es)
    ensures Inv(Run(s, es))
    decreases |es|
  {
    if es != [] {
      StepKeepsInv(s, es[0]);
      RunKeepsInv(Apply(s, es[0]), es[1..]);
    }
  }
}

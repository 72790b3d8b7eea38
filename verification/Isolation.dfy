/** No request of one user changes what is another's: folders, file rows, links and stored objects. */
module Isolation {
  import opened Wrappers
  import opened Machine
  import opened Schema
  import opened Forest
  import opened Lineage
  import opened ObjectKeys
  import opened ApiVersions
  import opened ApiFiles
  import opened ApiFolders
  import opened UploadSvc
  import opened Shares
  import opened Runs
  import opened Browse
  import opened Deletion
  import opened RowHistory
  import opened UploadHistory
  import opened ShareHistory

  /** On whose behalf a step runs: the authenticated caller, or the owner of the resumable upload that finishes. Steps of
      the workers, and requests that only carry a link's token or an upload URL, are on nobody's. */
  function Actor(s: Store, e: Event): Option<Id> {
    match e
    case CreateFolderEv(user, _, _, _) => Some(user)
    case UpdateFolderEv(user, _, _, _) => Some(user)
    case DeleteFolderEv(user, _, _) => Some(user)
    case PresignEv(user, _, _, _, _, _) => Some(user)
    case PresignVersionEv(user, _, _, _, _) => Some(user)
    case CompleteEv(user, _, _, _) => Some(user)
    case AcceptTusEv(caller, _, _, _) => caller
    case FinishTusEv(uploadId, _, _, _, _, _) => if uploadId in s.uploads then OwnerOf(s.uploads[uploadId]) else None
    case UpdateFileEv(user, _, _, _) => Some(user)
    case DeleteFileEv(user, _, _) => Some(user)
    case RestoreEv(user, _, _) => Some(user)
    case CreateShareEv(user, _, _, _, _, _, _, _) => Some(user)
    case DeleteShareEv(user, _) => Some(user)
    case _ => None
  }

  ghost predicate FoldersUntouched(fs: Folders, gs: Folders, u: Id) {
    && (forall d | d in fs && fs[d].user == u :: d in gs && gs[d] == fs[d])
    && (forall d | d in gs && gs[d].user == u :: d in fs && fs[d].user == u)
  }

  ghost predicate FilesUntouched(files: Files, gs: Files, u: Id) {
    && (forall a | a in files && files[a].user == u :: a in gs && gs[a] == files[a])
    && (forall a | a in gs && gs[a].user == u :: a in files && files[a].user == u)
  }

  ghost predicate LinksUntouched(shares: ShareTable, rest: ShareTable, u: Id) {
    && (forall x | x in shares && shares[x].user == u :: x in rest && rest[x] == shares[x])
    && (forall x | x in rest && rest[x].user == u :: x in shares && shares[x].user == u)
  }

  ghost predicate ObjectsUntouched(s: Store, t: Store, u: Id) {
    forall key: Key | key.id in s.files && s.files[key.id].user == u ::
      && (key in s.objects <==> key in t.objects)
      && (key in s.objects ==> t.objects[key] == s.objects[key])
  }

  ghost predicate Untouched(s: Store, t: Store, u: Id) {
    && FoldersUntouched(s.folders, t.folders, u) && FilesUntouched(s.files, t.files, u)
    && LinksUntouched(s.shares, t.shares, u) && ObjectsUntouched(s, t, u)
  }

  /** One row of `user`'s is added or replaced. */
  lemma FolderPut(fs: Folders, id: Id, row: Folder, user: Id, u: Id)
    requires row.user == user && user != u && (id in fs ==> fs[id].user == user)
    ensures FoldersUntouched(fs, fs[id := row], u)
  {
  }

  lemma FilePut(files: Files, id: Id, row: File, user: Id, u: Id)
    requires row.user == user && user != u && (id in files ==> files[id].user == user)
    ensures FilesUntouched(files, files[id := row], u)
  {
  }

  lemma LinkPut(shares: ShareTable, id: Id, share: Share, user: Id, u: Id)
    requires share.user == user && user != u && id !in shares
    ensures LinksUntouched(shares, shares[id := share], u)
  {
  }

  lemma SameUntouched(s: Store, u: Id)
    ensures Untouched(s, s, u)
  {
  }

  // ---------- folders ----------

  lemma CreateFolderIsolated(s: Store, user: Id, name: string, at: FolderArg, newId: Id, u: Id)
    requires newId !in s.folders && user != u
    ensures Untouched(s, AfterCreateFolder(s, user, name, at, newId).store, u)
  {
    var o := AfterCreateFolder(s, user, name, at, newId);
    if o.reply == Success {
      CreateFolderLists(s, user, name, at, newId, None);
      FolderPut(s.folders, newId, o.store.folders[newId], user, u);
    } else {
      CreateFolderAnswers(s, user, name, at, newId);
      SameUntouched(s, u);
    }
  }

  lemma UpdateFolderIsolated(s: Store, user: Id, id: Id, name: string, at: FolderArg, u: Id)
    requires IsForest(s.folders) && user != u
    ensures Untouched(s, AfterUpdateFolder(s, user, id, name, at).store, u)
  {
    var o := AfterUpdateFolder(s, user, id, name, at);
    UpdateFolderAnswers(s, user, id, name, at);
    if o.reply == Success {
      UpdateFolderLists(s, user, id, name, at, None);
      FolderPut(s.folders, id, o.store.folders[id], user, u);
    } else {
      SameUntouched(s, u);
    }
  }

  /** A folder is deleted with everything below it, and all of that is its owner's. */
  lemma DeleteFolderIsolated(s: Store, user: Id, id: Id, faults: StorageFaults, u: Id)
    requires Inv(s) && user != u
    ensures Untouched(s, AfterDeleteFolder(s, user, id, faults).store, u)
  {
    if OwnsFolder(s.folders, user, id) {
      forall d | d in Subtree(s.folders, id) ensures s.folders[d].user == user { SubtreeOwner(s.folders, user, id, d); }
      var dead := DoomedRows(s.files, user, Subtree(s.folders, id));
      FolderDeletion(s, user, id, faults);
      SweepIsolated(s, AfterDeleteFolder(s, user, id, faults).store, dead, faults, user, u);
      DropIsolated(s, user, dead, u);
    }
  }

  lemma SweepIsolated(s: Store, t: Store, dead: set<Id>, faults: StorageFaults, user: Id, u: Id)
    requires Inv(s) && IsDeletion(s, t, dead, faults) && user != u
    requires forall a | a in dead :: OwnsFile(s.files, user, a)
    ensures ObjectsUntouched(s, t, u)
  {
    forall key: Key | key.id in s.files && s.files[key.id].user == u
      ensures key in s.objects <==> key in t.objects
      ensures key in s.objects ==> t.objects[key] == s.objects[key]
    {
      CleanupConfined(s, t, dead, faults, key);
    }
  }

  lemma DropIsolated(s: Store, user: Id, dead: set<Id>, u: Id)
    requires user != u && forall a | a in dead :: OwnsFile(s.files, user, a)
    ensures FilesUntouched(s.files, s.files - dead, u) && LinksUntouched(s.shares, SharesWithout(s.shares, user, dead), u)
  {
  }

  // ---------- files ----------

  lemma DeleteFileIsolated(s: Store, user: Id, id: Id, faults: StorageFaults, u: Id)
    requires Inv(s) && user != u
    ensures Untouched(s, AfterDeleteFile(s, user, id, faults).store, u)
  {
    if OwnsFile(s.files, user, id) {
      var dead := Selected(s.files, user, Root(s.files, id));
      FileDeletion(s, user, id, faults);
      SweepIsolated(s, AfterDeleteFile(s, user, id, faults).store, dead, faults, user, u);
      DropIsolated(s, user, dead, u);
    }
  }

  lemma UpdateFileIsolated(s: Store, user: Id, id: Id, name: Option<string>, at: FolderArg, u: Id)
    requires user != u
    ensures Untouched(s, AfterUpdateFile(s, user, id, name, at).store, u)
  {
    var o := AfterUpdateFile(s, user, id, name, at);
    UpdateFileAnswers(s, user, id, name, at);
    UpdateFileEdits(s, user, id, name, at);
    if o.reply == Success { FilePut(s.files, id, o.store.files[id], user, u); } else { SameUntouched(s, u); }
  }

  lemma FlagsIsolated(files: Files, user: Id, root: Id, target: Id, u: Id)
    requires user != u
    ensures FilesUntouched(files, Flagged(files, user, root, target), u)
  {
  }

  lemma RestoreIsolated(s: Store, user: Id, id: Id, version: Id, u: Id)
    requires user != u
    ensures Untouched(s, AfterRestore(s, user, id, version).store, u)
  {
    if AfterRestore(s, user, id, version).reply == Success { FlagsIsolated(s.files, user, Root(s.files, id), version, u); }
  }

  // ---------- uploads ----------

  lemma PresignIsolated(s: Store, user: Id, name: string, size: Int64, mime: string, at: FolderArg, newId: Id, u: Id)
    requires newId !in s.files && user != u
    ensures Untouched(s, AfterPresign(s, user, name, size, mime, at, newId).store, u)
  {
    var o := AfterPresign(s, user, name, size, mime, at, newId);
    if o.reply == Success {
      PresignOpens(s, user, name, size, mime, at, newId, None);
      FilePut(s.files, newId, o.store.files[newId], user, u);
    } else {
      PresignAnswers(s, user, name, size, mime, at, newId);
      SameUntouched(s, u);
    }
  }

  lemma VersionIsolated(s: Store, user: Id, id: Id, size: Int64, mime: string, newId: Id, u: Id)
    requires newId !in s.files && user != u
    ensures Untouched(s, AfterPresignVersion(s, user, id, size, mime, newId).store, u)
  {
    if VersionVerdict(s, user, id, size, mime) == Success {
      SupersededIsolated(s.files, user, Root(s.files, id), newId, VersionRow(s.files, user, id, size, mime, newId), u);
    }
  }

  lemma SupersededIsolated(files: Files, user: Id, root: Id, newId: Id, row: File, u: Id)
    requires newId !in files && row.user == user && user != u
    ensures FilesUntouched(files, Superseded(files, user, root)[newId := row], u)
  {
  }

  lemma CompleteIsolated(s: Store, user: Id, id: Id, jobId: Id, enqueued: bool, u: Id)
    requires user != u
    ensures Untouched(s, AfterComplete(s, user, id, jobId, enqueued).store, u)
  {
    var o := AfterComplete(s, user, id, jobId, enqueued);
    if o.reply == Success { assert o.store.files == s.files[id := o.store.files[id]] && o.store.objects == s.objects; }
  }

  lemma FinishIsolated(s: Store, uploadId: string, meta: map<string, string>, size: Int64,
                       newId: Id, jobId: Id, stored: bool, enqueued: bool, user: Id, u: Id)
    requires newId !in s.files && ParseUuid(Meta(meta, "user_id")) == Some(user) && user != u
    ensures Untouched(s, AfterFinishTus(s, uploadId, meta, size, newId, jobId, stored, enqueued), u)
  {
    FinishTusRows(s, uploadId, meta, size, newId, jobId, stored, enqueued);
    FinishObjects(s, uploadId, meta, size, newId, jobId, stored, enqueued);
  }

  lemma FinishObjects(s: Store, uploadId: string, meta: map<string, string>, size: Int64,
                      newId: Id, jobId: Id, stored: bool, enqueued: bool)
    ensures var t := AfterFinishTus(s, uploadId, meta, size, newId, jobId, stored, enqueued);
            && t.shares == s.shares
            && forall key: Key | key.id != newId :: (key in s.objects <==> key in t.objects)
                                                   && (key in s.objects ==> t.objects[key] == s.objects[key])
  {
  }

  // ---------- every request ----------

  lemma FolderStepIsolated(s: Store, e: Event, u: Id)
    requires Inv(s) && Valid(s, e) && (e.CreateFolderEv? || e.UpdateFolderEv? || e.DeleteFolderEv?) && e.user != u
    ensures Untouched(s, Apply(s, e), u)
  {
    match e
    case CreateFolderEv(user, name, at, newId) => CreateFolderIsolated(s, user, name, at, newId, u);
    case UpdateFolderEv(user, id, name, at) => UpdateFolderIsolated(s, user, id, name, at, u);
    case DeleteFolderEv(user, id, faults) => DeleteFolderIsolated(s, user, id, faults, u);
  }

  lemma FileStepIsolated(s: Store, e: Event, u: Id)
    requires Inv(s) && Valid(s, e) && (e.UpdateFileEv? || e.DeleteFileEv? || e.RestoreEv?) && e.user != u
    ensures Untouched(s, Apply(s, e), u)
  {
    match e
    case UpdateFileEv(user, id, name, at) => UpdateFileIsolated(s, user, id, name, at, u);
    case DeleteFileEv(user, id, faults) => DeleteFileIsolated(s, user, id, faults, u);
    case RestoreEv(user, id, version) => RestoreIsolated(s, user, id, version, u);
  }

  lemma UploadStepIsolated(s: Store, e: Event, a: Id, u: Id)
    requires Inv(s) && Valid(s, e) && (e.PresignEv? || e.PresignVersionEv? || e.CompleteEv? || e.AcceptTusEv? || e.FinishTusEv?)
    requires Actor(s, e) == Some(a) && a != u
    ensures Untouched(s, Apply(s, e), u)
  {
    match e
    case PresignEv(user, name, size, mime, at, newId) => PresignIsolated(s, user, name, size, mime, at, newId, u);
    case PresignVersionEv(user, id, size, mime, newId) => VersionIsolated(s, user, id, size, mime, newId, u);
    case CompleteEv(user, id, jobId, enqueued) => CompleteIsolated(s, user, id, jobId, enqueued, u);
    case AcceptTusEv(caller, meta, size, uploadId) => AcceptIsolated(s, caller, meta, size, uploadId, u);
    case FinishTusEv(uploadId, size, newId, jobId, stored, enqueued) =>
      FinishIsolated(s, uploadId, s.uploads[uploadId].meta, size, newId, jobId, stored, enqueued, a, u);
  }

  lemma AcceptIsolated(s: Store, user: Option<Id>, meta: map<string, string>, size: Int64, uploadId: string, u: Id)
    ensures Untouched(s, AfterPreCreate(s, user, meta, size, uploadId).store, u)
  {
    AcceptLeavesRows(s, user, meta, size, uploadId);
    AcceptLeavesRest(s, user, meta, size, uploadId);
  }

  lemma AcceptLeavesRest(s: Store, user: Option<Id>, meta: map<string, string>, size: Int64, uploadId: string)
    ensures var t := AfterPreCreate(s, user, meta, size, uploadId).store; t.shares == s.shares && t.objects == s.objects
  {
  }

  lemma ShareStepIsolated(s: Store, e: Event, u: Id)
    requires Inv(s) && Valid(s, e) && (e.CreateShareEv? || e.DeleteShareEv?) && e.user != u
    ensures Untouched(s, Apply(s, e), u)
  {
    if e.CreateShareEv? {
      CreateShareIsolated(s, e.user, e.id, e.hours, e.password, e.maxDownloads, e.token, e.now, e.newId, u);
    } else {
      DeleteShareIsolated(s, e.user, e.id, u);
    }
  }

  lemma DeleteShareIsolated(s: Store, user: Id, id: Id, u: Id)
    requires user != u
    ensures Untouched(s, AfterDeleteShare(s, user, id).store, u)
  {
    DeletedIff(s, user, id);
  }

  lemma CreateShareIsolated(s: Store, user: Id, file: Id, hours: Option<int>, password: Option<string>,
                            maxDownloads: Option<int>, token: string, now: int, newId: Id, u: Id)
    requires newId !in s.shares && user != u
    ensures Untouched(s, AfterCreateShare(s, user, file, hours, password, maxDownloads, token, now, newId).store, u)
  {
    var o := AfterCreateShare(s, user, file, hours, password, maxDownloads, token, now, newId);
    if o.reply == Success {
      CreatedAsAsked(s, user, file, hours, password, maxDownloads, token, now, newId);
      LinkPut(s.shares, newId, o.store.shares[newId], user, u);
    } else {
      CreatedIff(s, user, file, hours, password, maxDownloads, token, now, newId);
      SameUntouched(s, u);
    }
  }

  /** A request on behalf of one user leaves every folder, row, link and object of every other user as it is, and adds
      none to them. */
  lemma StepIsolated(s: Store, e: Event, u: Id)
    requires Inv(s) && Valid(s, e) && Actor(s, e).Some? && Actor(s, e) != Some(u)
    ensures Untouched(s, Apply(s, e), u)
  {
    if e.CreateFolderEv? || e.UpdateFolderEv? || e.DeleteFolderEv? {
      FolderStepIsolated(s, e, u);
    } else if e.UpdateFileEv? || e.DeleteFileEv? || e.RestoreEv? {
      FileStepIsolated(s, e, u);
    } else if e.CreateShareEv? || e.DeleteShareEv? {
      ShareStepIsolated(s, e, u);
    } else {
      UploadStepIsolated(s, e, Actor(s, e).value, u);
    }
  }

  ghost predicate OnlyOthersAct(s: Store, es: seq<Event>, u: Id)
    requires ValidRun(s, es)
    decreases |es|
  {
    es == [] || (Actor(s, es[0]).Some? && Actor(s, es[0]) != Some(u) && OnlyOthersAct(Apply(s, es[0]), es[1..], u))
  }

  lemma UntouchedTwice(s: Store, t: Store, v: Store, u: Id)
    requires Untouched(s, t, u) && Untouched(t, v, u)
    ensures Untouched(s, v, u)
  {
  }

  /** So whatever the other users do, and however long, a user finds everything as it was. */
  lemma {:induction false} RunIsolated(s: Store, es: seq<Event>, u: Id)
    requires Inv(s) && ValidRun(s, es) && OnlyOthersAct(s, es, u)
    ensures Untouched(s, Run(s, es), u)
    decreases |es|
  {
    if es != [] {
      StepKeepsInv(s, es[0]);
      StepIsolated(s, es[0], u);
      RunIsolated(Apply(s, es[0]), es[1..], u);
      UntouchedTwice(s, Apply(s, es[0]), Run(s, es), u);
    }
  }
}

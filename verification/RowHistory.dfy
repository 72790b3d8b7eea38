/** Which requests may change which columns of a file row, and what the edits of rows and folders leave. */
module RowHistory {
  import opened Wrappers
  import opened Machine
  import opened Schema
  import opened Lineage
  import opened Forest
  import opened ApiVersions
  import opened ApiFiles
  import opened ApiFolders
  import opened UploadSvc
  import opened Workers
  import opened Runs
  import opened JobHistory
  import opened Browse

  // ---------- columns ----------

  /** Owner, object key, type, number and root: what a row is created with and keeps. */
  predicate SameOrigin(f: File, g: File) {
    && g.user == f.user && g.storageKey == f.storageKey && g.mime == f.mime
    && g.version == f.version && g.parent == f.parent
  }

  predicate SamePlace(f: File, g: File) {
    g.name == f.name && g.folder == f.folder
  }

  ghost predicate RowStays(files: Files, gs: Files, id: Id) {
    id in files && id in gs ==> SameOrigin(files[id], gs[id]) && SamePlace(files[id], gs[id])
  }

  lemma UploadStays(s: Store, e: Event, id: Id)
    requires IdsOk(s) && Valid(s, e) && id in s.files && (e.PresignEv? || e.PresignVersionEv? || e.FinishTusEv? || e.CompleteEv?)
    ensures RowStays(s.files, Apply(s, e).files, id)
  {
    match e
    case PresignEv(user, name, size, mime, at, newId) => PresignStays(s, user, name, size, mime, at, newId, id);
    case PresignVersionEv(user, file, size, mime, newId) => VersionStays(s, user, file, size, mime, newId, id);
    case CompleteEv(user, file, jobId, enqueued) => CompleteStays(s, user, file, jobId, enqueued, id);
    case FinishTusEv(uploadId, size, newId, jobId, stored, enqueued) =>
      FinishTusRows(s, uploadId, s.uploads[uploadId].meta, size, newId, jobId, stored, enqueued);
  }

  lemma PresignStays(s: Store, user: Id, name: string, size: Int64, mime: string, folder: FolderArg, newId: Id, id: Id)
    requires id != newId
    ensures RowStays(s.files, AfterPresign(s, user, name, size, mime, folder, newId).store.files, id)
  {
  }

  lemma VersionStays(s: Store, user: Id, file: Id, size: Int64, mime: string, newId: Id, id: Id)
    requires id != newId
    ensures RowStays(s.files, AfterPresignVersion(s, user, file, size, mime, newId).store.files, id)
  {
    if VersionVerdict(s, user, file, size, mime) == Success {
      SupersededStays(s.files, user, Root(s.files, file), newId, VersionRow(s.files, user, file, size, mime, newId), id);
    }
  }

  lemma SupersededStays(files: Files, user: Id, root: Id, newId: Id, row: File, id: Id)
    requires id != newId
    ensures RowStays(files, Superseded(files, user, root)[newId := row], id)
  {
  }

  lemma CompleteStays(s: Store, user: Id, file: Id, jobId: Id, enqueued: bool, id: Id)
    ensures RowStays(s.files, AfterComplete(s, user, file, jobId, enqueued).store.files, id)
  {
    var o := AfterComplete(s, user, file, jobId, enqueued);
    if o.reply == Success { assert o.store.files == s.files[file := o.store.files[file]]; }
  }

  lemma EditStays(s: Store, e: Event, id: Id)
    requires Valid(s, e) && (e.DeleteFolderEv? || e.DeleteFileEv? || e.RestoreEv? || e.WorkerEndEv?)
    ensures RowStays(s.files, Apply(s, e).files, id)
  {
    match e
    case DeleteFolderEv(user, folder, faults) => DeleteFolderStays(s, user, folder, faults, id);
    case DeleteFileEv(user, file, faults) => DeleteFileStays(s, user, file, faults, id);
    case RestoreEv(user, file, version) => RestoreStays(s, user, file, version, id);
    case WorkerEndEv(jobId, result) => AttemptStays(s, jobId, result, id);
  }

  lemma DeleteFolderStays(s: Store, user: Id, folder: Id, faults: StorageFaults, id: Id)
    ensures RowStays(s.files, AfterDeleteFolder(s, user, folder, faults).store.files, id)
  {
  }

  lemma DeleteFileStays(s: Store, user: Id, file: Id, faults: StorageFaults, id: Id)
    ensures RowStays(s.files, AfterDeleteFile(s, user, file, faults).store.files, id)
  {
    if OwnsFile(s.files, user, file) { DroppedStays(s.files, Selected(s.files, user, Root(s.files, file)), id); }
  }

  lemma RestoreStays(s: Store, user: Id, file: Id, version: Id, id: Id)
    ensures RowStays(s.files, AfterRestore(s, user, file, version).store.files, id)
  {
    if AfterRestore(s, user, file, version).reply == Success { FlaggedStays(s.files, user, Root(s.files, file), version, id); }
  }

  lemma FlaggedStays(files: Files, user: Id, root: Id, target: Id, id: Id)
    ensures RowStays(files, Flagged(files, user, root, target), id)
  {
  }

  lemma DroppedStays(files: Files, dead: set<Id>, id: Id)
    ensures RowStays(files, files - dead, id)
  {
  }

  lemma AttemptStays(s: Store, jobId: Id, result: Result, id: Id)
    requires jobId in s.jobs
    ensures RowStays(s.files, AfterAttempt(s, jobId, result).files, id)
  {
  }

  lemma FolderStays(s: Store, e: Event)
    requires Valid(s, e) && (e.CreateFolderEv? || e.UpdateFolderEv?)
    ensures Apply(s, e).files == s.files
  {
  }

  /** The step is an edit of row `id` that was granted. */
  ghost predicate Edits(s: Store, e: Event, id: Id) {
    e.UpdateFileEv? && e.id == id && AfterUpdateFile(s, e.user, e.id, e.rename, e.at).reply == Success
  }

  lemma OtherStays(s: Store, e: Event, id: Id)
    requires Inv(s) && Valid(s, e) && id in s.files && !e.UpdateFileEv?
    ensures RowStays(s.files, Apply(s, e).files, id)
  {
    if LeavesRows(e) {
      RowsLeft(s, e);
    } else if e.CreateFolderEv? || e.UpdateFolderEv? {
      FolderStays(s, e);
    } else if e.DeleteFolderEv? || e.DeleteFileEv? || e.RestoreEv? || e.WorkerEndEv? {
      EditStays(s, e, id);
    } else {
      UploadStays(s, e, id);
    }
  }

  ghost function NextName(s: Store, e: Event, id: Id, name: string): string {
    if Edits(s, e, id) then e.rename.GetOr(name) else name
  }

  ghost function NextFolder(s: Store, e: Event, id: Id, folder: Option<Id>): Option<Id> {
    if Edits(s, e, id) && e.at != Omitted then PlaceOf(e.at) else folder
  }

  function PlaceOf(at: FolderArg): Option<Id> {
    match at case Given(d) => Some(d) case _ => None
  }

  /** A granted edit changes the name if one is given, the folder if one is named (the empty one being the root), and
      nothing but that one row. */
  lemma UpdateFileEdits(s: Store, user: Id, id: Id, name: Option<string>, at: FolderArg)
    ensures var o := AfterUpdateFile(s, user, id, name, at);
            && o.store == s.(files := o.store.files)
            && (o.reply != Success ==> o.store.files == s.files)
            && (o.reply == Success ==>
                  && id in s.files && id in o.store.files && o.store.files == s.files[id := o.store.files[id]]
                  && SameOrigin(s.files[id], o.store.files[id])
                  && o.store.files[id].name == name.GetOr(s.files[id].name)
                  && o.store.files[id].folder == if at == Omitted then s.files[id].folder else PlaceOf(at))
  {
  }

  /** Only a granted edit changes a row's name or its folder, and nothing ever changes its owner, key, type, version
      number or root. */
  lemma StepKeepsColumns(s: Store, e: Event, id: Id)
    requires Inv(s) && Valid(s, e) && id in s.files && id in Apply(s, e).files
    ensures SameOrigin(s.files[id], Apply(s, e).files[id])
    ensures Apply(s, e).files[id].name == NextName(s, e, id, s.files[id].name)
    ensures Apply(s, e).files[id].folder == NextFolder(s, e, id, s.files[id].folder)
  {
    if e.UpdateFileEv? {
      UpdateFileEdits(s, e.user, e.id, e.rename, e.at);
    } else {
      OtherStays(s, e, id);
    }
  }

  ghost function LastName(s: Store, es: seq<Event>, id: Id, name: string): string
    requires ValidRun(s, es)
    decreases |es|
  {
    if es == [] then name else LastName(Apply(s, es[0]), es[1..], id, NextName(s, es[0], id, name))
  }

  ghost function LastFolder(s: Store, es: seq<Event>, id: Id, folder: Option<Id>): Option<Id>
    requires ValidRun(s, es)
    decreases |es|
  {
    if es == [] then folder else LastFolder(Apply(s, es[0]), es[1..], id, NextFolder(s, es[0], id, folder))
  }

  /** So over any run a surviving row is the row it was created as, under the name and in the folder of the last edits
      that were granted. */
  lemma {:induction false} RunKeepsColumns(s: Store, es: seq<Event>, id: Id)
    requires Inv(s) && ValidRun(s, es) && id in s.files && id in Run(s, es).files
    ensures SameOrigin(s.files[id], Run(s, es).files[id])
    ensures Run(s, es).files[id].name == LastName(s, es, id, s.files[id].name)
    ensures Run(s, es).files[id].folder == LastFolder(s, es, id, s.files[id].folder)
    decreases |es|
  {
    if es != [] {
      StepKeepsInv(s, es[0]);
      StepMovesFrom(s, es[0], id);
      if id !in Apply(s, es[0]).files {
        DeadStaysDead(Apply(s, es[0]), es[1..], id);
      } else {
        StepKeepsColumns(s, es[0], id);
        RunKeepsColumns(Apply(s, es[0]), es[1..], id);
      }
    }
  }

  // ---------- editing a file ----------

  /** A folder that a request may name: none, or one of the caller's. */
  predicate FolderAllowed(s: Store, user: Id, at: FolderArg) {
    at != Malformed && (at.Given? ==> OwnsFolder(s.folders, user, at.id))
  }

  lemma UpdateFileAnswers(s: Store, user: Id, id: Id, name: Option<string>, at: FolderArg)
    ensures var o := AfterUpdateFile(s, user, id, name, at);
            && (o.reply == NotFound <==> !OwnsFile(s.files, user, id))
            && (o.reply == Success <==> OwnsFile(s.files, user, id) && name != Some("") && FolderAllowed(s, user, at))
            && (o.reply != Success ==> o.store == s && o.reply in {NotFound, BadRequest})
  {
  }

  // ---------- folders ----------

  lemma CreateFolderAnswers(s: Store, user: Id, name: string, at: FolderArg, newId: Id)
    ensures var o := AfterCreateFolder(s, user, name, at, newId);
            && (o.reply == Success <==> name != "" && at != Empty && FolderAllowed(s, user, at))
            && (o.reply != Success ==> o.reply == BadRequest && o.store == s)
  {
  }

  /** The new folder is listed in the place it was asked for, under its name, and in no other place. */
  lemma CreateFolderLists(s: Store, user: Id, name: string, at: FolderArg, newId: Id, place: Option<Id>)
    requires newId !in s.folders && AfterCreateFolder(s, user, name, at, newId).reply == Success
    ensures var t := AfterCreateFolder(s, user, name, at, newId).store;
            && t == s.(folders := t.folders, issued := s.issued + {newId})
            && newId in t.folders && t.folders == s.folders[newId := t.folders[newId]]
            && t.folders[newId].name == name && t.folders[newId].user == user
            && ListFolders(t.folders, user, place) ==
               ListFolders(s.folders, user, place) + if place == PlaceOf(at) then {newId} else {}
  {
  }

  lemma UpdateFolderAnswers(s: Store, user: Id, id: Id, name: string, at: FolderArg)
    requires IsForest(s.folders)
    ensures var o := AfterUpdateFolder(s, user, id, name, at);
            && (o.reply == NotFound <==> !OwnsFolder(s.folders, user, id))
            && (o.reply == Success <==> OwnsFolder(s.folders, user, id) && FolderAllowed(s, user, at)
                                        && (at.Given? ==> !Under(s.folders, at.id, id)))
            && (o.reply != Success ==> o.store == s && o.reply in {NotFound, BadRequest})
  {
  }

  /** A moved folder leaves its old listing and appears in the new one; a renamed one stays; no other folder's row,
      and so no other entry of any listing, changes. */
  lemma UpdateFolderLists(s: Store, user: Id, id: Id, name: string, at: FolderArg, place: Option<Id>)
    requires AfterUpdateFolder(s, user, id, name, at).reply == Success
    ensures var t := AfterUpdateFolder(s, user, id, name, at).store;
            var target := if at == Omitted then s.folders[id].parent else PlaceOf(at);
            && t == s.(folders := t.folders) && id in t.folders && t.folders == s.folders[id := t.folders[id]]
            && t.folders[id].user == user && t.folders[id].name == (if name == "" then s.folders[id].name else name)
            && ListFolders(t.folders, user, place) ==
               if place == target then ListFolders(s.folders, user, place) + {id} else ListFolders(s.folders, user, place) - {id}
  {
  }

  // ---------- restoring ----------

  /** A restore is granted exactly for two rows of the caller's that are versions of one file; then that version, and
      no other of the file, is current, and nothing else changes. */
  lemma RestoreAnswers(s: Store, user: Id, id: Id, version: Id)
    requires LineageInv(s.files)
    ensures var o := AfterRestore(s, user, id, version);
            && (o.reply == NotFound <==> !OwnsFile(s.files, user, id) || !OwnsFile(s.files, user, version))
            && (o.reply == Success <==> OwnsFile(s.files, user, id) && version in Members(s.files, Root(s.files, id)))
            && (o.reply != Success ==> o.store == s && o.reply in {NotFound, BadRequest})
            && (o.reply == Success ==>
                  && o.store == s.(files := o.store.files) && o.store.files.Keys == s.files.Keys
                  && forall a | a in s.files ::
                       o.store.files[a] == if a !in Members(s.files, Root(s.files, id)) then s.files[a]
                                           else s.files[a].(current := a == version))
  {
    if OwnsFile(s.files, user, id) {
      var root := Root(s.files, id);
      RootOfRow(s.files, id);
      SelectedIsMembers(s.files, user, root);
      if version in s.files { RootOfRow(s.files, version); }
    }
  }
}

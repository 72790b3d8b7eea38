/** Whether the sizes that rows record, and quotas add up, are those of the objects in the store. */
module StoredSizes {
  import opened Machine
  import opened Wrappers
  import opened Schema
  import opened Lineage
  import opened UploadSvc
  import opened Invariants
  import opened Runs
  import opened JobHistory
  import opened Deletion
  import opened Leftovers
  import opened Quota

  predicate Completed(s: Store, id: Id) {
    id in s.files && s.files[id].status != Pending
  }

  /** The row records the size of its object. */
  predicate Matches(s: Store, id: Id)
    requires id in s.files
  {
    s.files[id].storageKey in s.objects && s.files[id].size == s.objects[s.files[id].storageKey]
  }

  /** The size that clients have last put to the upload URL of row `id` since its upload was completed, if they
      have; `last` tells how things stood before. */
  ghost function PutSince(s: Store, es: seq<Event>, id: Id, last: Option<int>): Option<int>
    requires ValidRun(s, es)
    decreases |es|
  {
    if es == [] then last else PutSince(Apply(s, es[0]), es[1..], id, NextPut(s, es[0], id, last))
  }

  ghost function NextPut(s: Store, e: Event, id: Id, last: Option<int>): Option<int> {
    if ClientPuts(e, id) && Completed(s, id) then Some(e.size) else last
  }

  /** The object of a completed row has the recorded size, or the one put since. */
  ghost predicate Tracked(s: Store, id: Id, last: Option<int>) {
    && (Completed(s, id) ==>
          s.files[id].storageKey in s.objects && s.objects[s.files[id].storageKey] == last.GetOr(s.files[id].size))
    && (id !in s.issued || (id in s.files && !Completed(s, id)) ==> last == None)
  }

  // ---------- rows that a step keeps ----------

  ghost predicate RowKept(s: Store, t: Store, id: Id) {
    && id in s.files && id in t.files
    && t.files[id].size == s.files[id].size && t.files[id].storageKey == s.files[id].storageKey
    && (t.files[id].status == Pending <==> s.files[id].status == Pending)
  }

  lemma OtherKeepsRow(s: Store, e: Event, id: Id)
    requires Inv(s) && Valid(s, e) && !IsUpload(e) && id in Apply(s, e).files
    ensures RowKept(s, Apply(s, e), id)
  {
    OtherStepShrinks(s, e);
    ShrunkRow(s.files, Apply(s, e).files, id);
  }

  lemma PresignKeepsRow(s: Store, user: Id, name: string, size: Int64, mime: string, folder: FolderArg, newId: Id, id: Id)
    requires id in s.files && id != newId
    ensures RowKept(s, AfterPresign(s, user, name, size, mime, folder, newId).store, id)
  {
  }

  lemma VersionKeepsRow(s: Store, user: Id, file: Id, size: Int64, mime: string, newId: Id, id: Id)
    requires id in s.files && id != newId
    ensures RowKept(s, AfterPresignVersion(s, user, file, size, mime, newId).store, id)
  {
    if VersionVerdict(s, user, file, size, mime) == Success {
      WithVersionKeepsRow(s, user, Root(s.files, file), newId, VersionRow(s.files, user, file, size, mime, newId), id);
    }
  }

  lemma WithVersionKeepsRow(s: Store, user: Id, root: Id, newId: Id, row: File, id: Id)
    requires id in s.files && id != newId
    ensures RowKept(s, WithVersion(s, user, root, newId, row), id)
  {
  }

  lemma CompleteKeepsRow(s: Store, user: Id, file: Id, jobId: Id, enqueued: bool, id: Id)
    requires id in s.files && (id != file || Completed(s, id))
    ensures RowKept(s, AfterComplete(s, user, file, jobId, enqueued).store, id)
  {
    var o := AfterComplete(s, user, file, jobId, enqueued);
    if o.reply == Success { assert o.store.files == s.files[file := o.store.files[file]]; }
  }

  /** An upload step keeps every older row but the one that it completes. */
  lemma UploadKeepsRow(s: Store, e: Event, id: Id)
    requires IdsOk(s) && Valid(s, e) && IsUpload(e) && id in s.files
    requires e.CompleteEv? ==> id != e.id || Completed(s, id)
    ensures RowKept(s, Apply(s, e), id)
  {
    match e
    case PresignEv(user, name, size, mime, at, newId) => PresignKeepsRow(s, user, name, size, mime, at, newId, id);
    case PresignVersionEv(user, file, size, mime, newId) => VersionKeepsRow(s, user, file, size, mime, newId, id);
    case CompleteEv(user, file, jobId, enqueued) => CompleteKeepsRow(s, user, file, jobId, enqueued, id);
    case AcceptTusEv(caller, meta, size, uploadId) => AcceptLeavesRows(s, caller, meta, size, uploadId);
    case FinishTusEv(uploadId, size, newId, jobId, stored, enqueued) =>
      FinishTusRows(s, uploadId, s.uploads[uploadId].meta, size, newId, jobId, stored, enqueued);
  }

  // ---------- objects that a step keeps ----------

  ghost predicate ObjectKept(s: Store, t: Store, key: Key) {
    && (key in s.objects <==> key in t.objects)
    && (key in s.objects ==> t.objects[key] == s.objects[key])
  }

  lemma DeleteKeepsObject(s: Store, e: Event, key: Key)
    requires Inv(s) && Valid(s, e) && IsDelete(e) && key.id in Apply(s, e).files
    ensures ObjectKept(s, Apply(s, e), key)
  {
    DeleteIsDeletion(s, e);
    CleanupConfined(s, Apply(s, e), DeadRows(s, Apply(s, e)), e.faults, key);
  }

  lemma TusKeepsObject(s: Store, uploadId: string, meta: map<string, string>, size: Int64,
                       newId: Id, jobId: Id, stored: bool, enqueued: bool, key: Key)
    requires key.id != newId
    ensures ObjectKept(s, AfterFinishTus(s, uploadId, meta, size, newId, jobId, stored, enqueued), key)
  {
  }

  /** Only a client's put to the same URL changes the uploaded object of a row that stays. */
  lemma StepKeepsUpload(s: Store, e: Event, key: Key)
    requires Inv(s) && Valid(s, e) && key.Original? && key.id in s.files && key.id in Apply(s, e).files
    requires !ClientPuts(e, key.id)
    ensures ObjectKept(s, Apply(s, e), key)
  {
    if IsDelete(e) {
      DeleteKeepsObject(s, e, key);
    } else if e.FinishTusEv? {
      TusKeepsObject(s, e.uploadId, s.uploads[e.uploadId].meta, e.size, e.newId, e.jobId, e.stored, e.enqueued, key);
    } else if e.CompleteEv? {
      CompleteObjects(s, e.user, e.id, e.jobId, e.enqueued);
    } else if !e.ClientPutEv? && !e.WorkerPutEv? && !e.WorkerEndEv? {
      OtherObjects(s, e);
    }
  }

  // ---------- over runs ----------

  lemma KeptTracked(s: Store, t: Store, id: Id, last: Option<int>)
    requires Tracked(s, id, last) && RowKept(s, t, id) && ObjectKept(s, t, s.files[id].storageKey) && s.issued <= t.issued
    ensures Tracked(t, id, last)
  {
  }

  lemma TusCreates(s: Store, uploadId: string, meta: map<string, string>, size: Int64,
                   newId: Id, jobId: Id, stored: bool, enqueued: bool)
    requires newId !in s.files
    ensures var t := AfterFinishTus(s, uploadId, meta, size, newId, jobId, stored, enqueued);
            newId in t.files ==> Completed(t, newId) && Matches(t, newId)
  {
    FinishTusRows(s, uploadId, meta, size, newId, jobId, stored, enqueued);
  }

  lemma CompleteCreatesNothing(s: Store, user: Id, id: Id, jobId: Id, enqueued: bool)
    ensures AfterComplete(s, user, id, jobId, enqueued).store.files.Keys == s.files.Keys
  {
    var o := AfterComplete(s, user, id, jobId, enqueued);
    if o.reply == Success { assert o.store.files == s.files[id := o.store.files[id]]; }
  }

  lemma PresignStartsPending(s: Store, user: Id, name: string, size: Int64, mime: string, folder: FolderArg, newId: Id)
    ensures var t := AfterPresign(s, user, name, size, mime, folder, newId).store;
            && t.files.Keys <= s.files.Keys + {newId}
            && (newId in t.files && newId !in s.files ==> t.files[newId].status == Pending)
  {
  }

  lemma VersionStartsPending(s: Store, user: Id, id: Id, size: Int64, mime: string, newId: Id)
    ensures var t := AfterPresignVersion(s, user, id, size, mime, newId).store;
            && t.files.Keys <= s.files.Keys + {newId}
            && (newId in t.files && newId !in s.files ==> t.files[newId].status == Pending)
  {
  }

  /** A row starts out pending, or complete with the size of its object. */
  lemma CreatedTracked(s: Store, e: Event, id: Id)
    requires Inv(s) && Valid(s, e) && id !in s.issued && id in Apply(s, e).files && id in Apply(s, e).issued
    ensures Tracked(Apply(s, e), id, None)
  {
    if !IsUpload(e) {
      OtherKeepsRow(s, e, id);
    } else if e.CompleteEv? {
      CompleteCreatesNothing(s, e.user, e.id, e.jobId, e.enqueued);
    } else if e.PresignEv? {
      PresignStartsPending(s, e.user, e.name, e.size, e.mime, e.at, e.newId);
    } else if e.PresignVersionEv? {
      VersionStartsPending(s, e.user, e.id, e.size, e.mime, e.newId);
    } else if e.FinishTusEv? {
      var meta := s.uploads[e.uploadId].meta;
      FinishTusRows(s, e.uploadId, meta, e.size, e.newId, e.jobId, e.stored, e.enqueued);
      TusCreates(s, e.uploadId, meta, e.size, e.newId, e.jobId, e.stored, e.enqueued);
    }
  }

  /** Completing an upload records the size of its object. */
  lemma CompleteTracked(s: Store, user: Id, id: Id, jobId: Id, enqueued: bool)
    requires id in s.files && !Completed(s, id)
    ensures var o := AfterComplete(s, user, id, jobId, enqueued);
            if o.reply == Success then Completed(o.store, id) && Matches(o.store, id) else o.store == s
  {
  }

  lemma SurvivorTracked(s: Store, e: Event, id: Id, last: Option<int>)
    requires Inv(s) && Valid(s, e) && id in s.files && id in Apply(s, e).files && s.issued <= Apply(s, e).issued
    requires Tracked(s, id, last)
    ensures Tracked(Apply(s, e), id, NextPut(s, e, id, last))
  {
    assert RowObjects(id, s.files[id], s.objects);
    if ClientPuts(e, id) {
    } else if e.CompleteEv? && e.id == id && !Completed(s, id) {
      CompleteTracked(s, e.user, id, e.jobId, e.enqueued);
    } else {
      if IsUpload(e) { UploadKeepsRow(s, e, id); } else { OtherKeepsRow(s, e, id); }
      StepKeepsUpload(s, e, s.files[id].storageKey);
      KeptTracked(s, Apply(s, e), id, last);
    }
  }

  lemma StepTracked(s: Store, e: Event, id: Id, last: Option<int>)
    requires Inv(s) && Valid(s, e) && Tracked(s, id, last)
    ensures Tracked(Apply(s, e), id, NextPut(s, e, id, last))
  {
    IssuedGrows(s, e);
    StepKeepsInv(s, e);
    if id in s.issued { StepMovesFrom(s, e, id); }
    if id in Apply(s, e).files {
      if id in s.files { SurvivorTracked(s, e, id, last); } else { CreatedTracked(s, e, id); }
    }
  }

  lemma {:induction false} RunTracked(s: Store, es: seq<Event>, id: Id, last: Option<int>)
    requires Inv(s) && ValidRun(s, es) && Tracked(s, id, last)
    ensures Tracked(Run(s, es), id, PutSince(s, es, id, last))
    decreases |es|
  {
    if es != [] {
      StepKeepsInv(s, es[0]);
      StepTracked(s, es[0], id, last);
      RunTracked(Apply(s, es[0]), es[1..], id, NextPut(s, es[0], id, last));
    }
  }

  /** Over every run from empty tables: a completed row, presigned or resumable, records the size of the object it
      names exactly when no client has put to its upload URL since its completion, or last with the same size. */
  lemma SizeMatchesIff(quotas: map<Id, int>, es: seq<Event>, id: Id)
    requires forall u | u in quotas :: 0 <= quotas[u] <= INT64_MAX
    requires ValidRun(Init(quotas), es) && Completed(Run(Init(quotas), es), id)
    ensures var t, last := Run(Init(quotas), es), PutSince(Init(quotas), es, id, None);
            Matches(t, id) <==> last == None || last == Some(t.files[id].size)
  {
    InitInv(quotas);
    RunTracked(Init(quotas), es, id, None);
  }

  /** And any completed row can be overwritten so, with any number of bytes that no account shows. */
  lemma LaterPutUncounted(s: Store, id: Id, size: Int64)
    requires Inv(s) && Completed(s, id) && 0 <= size
    ensures var e := ClientPutEv(s.files[id].storageKey, size);
            && Valid(s, e)
            && Apply(s, e).files == s.files && Apply(s, e).objects[s.files[id].storageKey] == size
            && (Matches(Apply(s, e), id) <==> size == s.files[id].size)
  {
    assert RowObjects(id, s.files[id], s.objects);
  }
}

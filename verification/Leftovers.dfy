/** What is left in the object store of deleted files, and what can still get there afterwards. */
module Leftovers {
  import opened Machine
  import opened Wrappers
  import opened Schema
  import opened Forest
  import opened Lineage
  import opened ApiFiles
  import opened ApiFolders
  import opened UploadSvc
  import opened Workers
  import opened Invariants
  import opened Runs
  import opened JobHistory
  import opened ObjectKeys
  import opened Deletion

  // ---------- a delete that leaves an object ----------

  function SegmentKey(id: Id): Key {
    Hls(id, "360p_000.ts")
  }

  /** A transcode stores one segment, fails for good, and the file is deleted. */
  function FailedTranscode(user: Id, id: Id, jobId: Id): seq<Event> {
    [WorkerPutEv(jobId, SegmentKey(id), 1)]
    + ([WorkerEndEv(jobId, SkipRetry)]
       + [DeleteFileEv(user, id, NO_FAULTS)])
  }

  /** From any reachable state with a live transcode of a file, that run leaves the segment in the store although
      the file is gone and every storage call succeeded. */
  lemma FailedTranscodeLeavesSegment(s: Store, user: Id, id: Id, jobId: Id)
    requires Inv(s) && OwnsFile(s.files, user, id) && IsLive(s, jobId)
    requires s.jobs[jobId].file == id && s.jobs[jobId].kind == VideoTranscode
    ensures ValidRun(s, FailedTranscode(user, id, jobId))
    ensures var t := Run(s, FailedTranscode(user, id, jobId));
            id !in t.files && SegmentKey(id) in t.objects
  {
    var e1, e2, e3 := WorkerPutEv(jobId, SegmentKey(id), 1), WorkerEndEv(jobId, SkipRetry), DeleteFileEv(user, id, NO_FAULTS);
    var s1 := AfterPut(s, jobId, SegmentKey(id), 1);
    var s2 := AfterAttempt(s1, jobId, SkipRetry);
    SegmentThenFailure(s, user, id, jobId);
    RunThree(s, e1, s1, e2, s2, e3, AfterDeleteFile(s2, user, id, NO_FAULTS).store);
    DeleteLeavesSegment(s2, user, id);
  }

  lemma SegmentThenFailure(s: Store, user: Id, id: Id, jobId: Id)
    requires Inv(s) && OwnsFile(s.files, user, id) && IsLive(s, jobId)
    requires s.jobs[jobId].file == id && s.jobs[jobId].kind == VideoTranscode
    ensures Valid(s, WorkerPutEv(jobId, SegmentKey(id), 1))
    ensures var s1 := AfterPut(s, jobId, SegmentKey(id), 1);
            && Apply(s, WorkerPutEv(jobId, SegmentKey(id), 1)) == s1
            && Valid(s1, WorkerEndEv(jobId, SkipRetry))
            && var s2 := AfterAttempt(s1, jobId, SkipRetry);
               && Apply(s1, WorkerEndEv(jobId, SkipRetry)) == s2 && Inv(s2)
               && OwnsFile(s2.files, user, id) && SegmentKey(id) in s2.objects
               && s2.files[id].playlist == None && s2.files[id].thumbnail == None
  {
    var s1 := AfterPut(s, jobId, SegmentKey(id), 1);
    StepKeepsInv(s, WorkerPutEv(jobId, SegmentKey(id), 1));
    StepKeepsInv(s1, WorkerEndEv(jobId, SkipRetry));
    FailedKeepsSegment(s1, jobId, id);
  }

  lemma FailedKeepsSegment(s: Store, jobId: Id, id: Id)
    requires Inv(s) && IsLive(s, jobId) && s.jobs[jobId].file == id && id in s.files
    ensures var t := AfterAttempt(s, jobId, SkipRetry);
            && t.objects == s.objects && id in t.files && t.files[id].user == s.files[id].user
            && t.files[id].status == Failed && t.files[id].playlist == None && t.files[id].thumbnail == None
  {
    LiveJobRow(s.files, s.jobs, s.stranded, s.issued, jobId);
  }

  lemma DeleteLeavesSegment(s: Store, user: Id, id: Id)
    requires Inv(s) && OwnsFile(s.files, user, id) && SegmentKey(id) in s.objects
    requires s.files[id].playlist == None && s.files[id].thumbnail == None
    ensures var t := AfterDeleteFile(s, user, id, NO_FAULTS).store;
            id !in t.files && SegmentKey(id) in t.objects
  {
    DeleteRemovesLineage(s, user, id, NO_FAULTS);
    var dead := Selected(s.files, user, Root(s.files, id));
    forall other | other in dead && other in s.files
      ensures !Cleans(other, s.files[other], NO_FAULTS, SegmentKey(id))
    {
      assert RowObjects(other, s.files[other], s.objects) && StatusOk(other, s.files[other], s.jobs, s.stranded);
    }
  }

  /** A video is presigned, uploaded and completed. */
  function UploadVideo(user: Id): seq<Event> {
    [PresignEv(user, "v", 1, "video/mp4", Omitted, 1)]
    + ([ClientPutEv(Original(user, 1, "v"), 1)]
       + [CompleteEv(user, 1, 2, true)])
  }

  lemma UploadedVideo(user: Id, quota: Int64)
    requires quota > 0
    ensures var s := Init(map[user := quota]);
            && ValidRun(s, UploadVideo(user))
            && var t := Run(s, UploadVideo(user));
               && OwnsFile(t.files, user, 1) && IsLive(t, 2)
               && t.jobs[2].file == 1 && t.jobs[2].kind == VideoTranscode
  {
    var s := Init(map[user := quota]);
    var e1, e2, e3 := PresignEv(user, "v", 1, "video/mp4", Omitted, 1), ClientPutEv(Original(user, 1, "v"), 1), CompleteEv(user, 1, 2, true);
    VideoMime();
    var row := NewRow(user, 1, "v", None, 1, "video/mp4", Pending);
    var s1 := s.(files := map[1 := row], uploads := Crowded(map[], user), declared := map[1 := 1], issued := {} + {1});
    PresignedVideo(user, quota);
    var s2 := s1.(objects := map[Original(user, 1, "v") := 1]);
    CompletedVideo(s2, user, row);
    RunThree(s, e1, s1, e2, s2, e3, AfterComplete(s2, user, 1, 2, true).store);
  }

  lemma PresignedVideo(user: Id, quota: Int64)
    requires quota > 0
    ensures var s := Init(map[user := quota]);
            AfterPresign(s, user, "v", 1, "video/mp4", Omitted, 1).store ==
            s.(files := map[1 := NewRow(user, 1, "v", None, 1, "video/mp4", Pending)], uploads := Crowded(map[], user),
               declared := map[1 := 1], issued := {} + {1})
  {
    assert SizesOf(Init(map[user := quota]).files, user) == map[];
  }

  lemma VideoMime()
    ensures KindOf("video/mp4") == Some(VideoTranscode)
  {
    assert "video/mp4"[..6] == "video/";
    assert "video/mp4"[0] == 'v' && "image/"[0] == 'i';
  }

  lemma CompletedVideo(s: Store, user: Id, row: File)
    requires row == NewRow(user, 1, "v", None, 1, "video/mp4", Pending) && s.files == map[1 := row]
    requires row.storageKey in s.objects && KindOf(row.mime) == Some(VideoTranscode)
    ensures var t := AfterComplete(s, user, 1, 2, true).store;
            && OwnsFile(t.files, user, 1) && IsLive(t, 2)
            && t.jobs[2].file == 1 && t.jobs[2].kind == VideoTranscode
  {
  }

  /** So from empty tables there is a run in which a deleted file leaves an object that no clean-up removes. */
  lemma DeleteCanLeaveObjects(user: Id, quota: Int64)
    requires quota > 0
    ensures var s, es := Init(map[user := quota]), UploadVideo(user) + FailedTranscode(user, 1, 2);
            && ValidRun(s, es)
            && 1 !in Run(s, es).files && SegmentKey(1) in Run(s, es).objects
  {
    var s := Init(map[user := quota]);
    InitInv(map[user := quota]);
    UploadedVideo(user, quota);
    RunKeepsInv(s, UploadVideo(user));
    FailedTranscodeLeavesSegment(Run(s, UploadVideo(user)), user, 1, 2);
    RunThen(s, UploadVideo(user), FailedTranscode(user, 1, 2));
  }

  /** A worker that is busy with a video when it is deleted stores a segment afterwards: it does not look at the row. */
  function LateWorker(user: Id, id: Id, jobId: Id): seq<Event> {
    [DeleteFileEv(user, id, NO_FAULTS)] + [WorkerPutEv(jobId, SegmentKey(id), 1)]
  }

  lemma LateWorkerLeavesSegment(s: Store, user: Id, id: Id, jobId: Id)
    requires Inv(s) && OwnsFile(s.files, user, id) && IsLive(s, jobId)
    requires s.jobs[jobId].file == id && s.jobs[jobId].kind == VideoTranscode
    ensures ValidRun(s, LateWorker(user, id, jobId))
    ensures var t := Run(s, LateWorker(user, id, jobId));
            id !in t.files && SegmentKey(id) in t.objects
  {
    var e1, e2 := DeleteFileEv(user, id, NO_FAULTS), WorkerPutEv(jobId, SegmentKey(id), 1);
    var t := AfterDeleteFile(s, user, id, NO_FAULTS).store;
    FileDeletion(s, user, id, NO_FAULTS);
    RootOfRow(s.files, id);
    SelectedIsMembers(s.files, user, Root(s.files, id));
    LastStep(t, e2);
    RunStep(s, e1, t, [e2]);
  }

  /** From empty tables too: at the delete nothing but the upload is stored, and yet a segment is left in the end. */
  lemma LateWorkerCanLeaveObjects(user: Id, quota: Int64)
    requires quota > 0
    ensures var s, es := Init(map[user := quota]), UploadVideo(user) + LateWorker(user, 1, 2);
            && ValidRun(s, es)
            && 1 !in Run(s, es).files && SegmentKey(1) in Run(s, es).objects
  {
    var s := Init(map[user := quota]);
    InitInv(map[user := quota]);
    UploadedVideo(user, quota);
    RunKeepsInv(s, UploadVideo(user));
    LateWorkerLeavesSegment(Run(s, UploadVideo(user)), user, 1, 2);
    RunThen(s, UploadVideo(user), LateWorker(user, 1, 2));
  }

  // ---------- objects under the id of a row that is gone ----------

  predicate ClientPuts(e: Event, id: Id) {
    e.ClientPutEv? && e.key.id == id
  }

  predicate WorkerPuts(e: Event, id: Id) {
    e.WorkerPutEv? && e.key.id == id
  }

  predicate ClientAmong(es: seq<Event>, id: Id) {
    es != [] && (ClientPuts(es[0], id) || ClientAmong(es[1..], id))
  }

  predicate WorkerAmong(es: seq<Event>, id: Id) {
    es != [] && (WorkerPuts(es[0], id) || WorkerAmong(es[1..], id))
  }

  ghost predicate Gone(s: Store, id: Id) {
    id in s.issued && id !in s.files
  }

  ghost predicate NoWorker(s: Store, id: Id) {
    forall j | j in s.jobs && s.jobs[j].phase == Live :: s.jobs[j].file != id
  }

  ghost predicate HasObjects(s: Store, id: Id) {
    exists key :: key in s.objects && key.id == id
  }

  /** Nothing under the id `id` came or went. */
  ghost predicate SameAt(objects: Objects, other: Objects, id: Id) {
    forall key: Key | key.id == id :: key in objects <==> key in other
  }

  lemma CompleteObjects(s: Store, user: Id, file: Id, jobId: Id, enqueued: bool)
    ensures AfterComplete(s, user, file, jobId, enqueued).store.objects == s.objects
  {
  }

  lemma OtherObjects(s: Store, e: Event)
    requires Valid(s, e) && !e.DeleteFileEv? && !e.DeleteFolderEv? && !e.FinishTusEv? && !e.CompleteEv?
    requires !e.ClientPutEv? && !e.WorkerPutEv? && !e.WorkerEndEv?
    ensures Apply(s, e).objects == s.objects
  {
  }

  lemma SweepMisses(s: Store, t: Store, dead: set<Id>, faults: StorageFaults, id: Id)
    requires Inv(s) && IsDeletion(s, t, dead, faults) && id !in dead
    ensures SameAt(s.objects, t.objects, id)
  {
    forall key: Key | key.id == id
      ensures key in s.objects <==> key in t.objects
    {
      CleanupConfined(s, t, dead, faults, key);
    }
  }

  lemma DeleteFileObjects(s: Store, user: Id, file: Id, faults: StorageFaults, id: Id)
    requires Inv(s) && id !in s.files
    ensures SameAt(s.objects, AfterDeleteFile(s, user, file, faults).store.objects, id)
  {
    if OwnsFile(s.files, user, file) {
      FileDeletion(s, user, file, faults);
      SweepMisses(s, AfterDeleteFile(s, user, file, faults).store, Selected(s.files, user, Root(s.files, file)), faults, id);
    }
  }

  lemma DeleteFolderObjects(s: Store, user: Id, folder: Id, faults: StorageFaults, id: Id)
    requires Inv(s) && id !in s.files
    ensures SameAt(s.objects, AfterDeleteFolder(s, user, folder, faults).store.objects, id)
  {
    if OwnsFolder(s.folders, user, folder) {
      FolderDeletion(s, user, folder, faults);
      SweepMisses(s, AfterDeleteFolder(s, user, folder, faults).store,
                  DoomedRows(s.files, user, Subtree(s.folders, folder)), faults, id);
    }
  }

  lemma TusObjects(s: Store, uploadId: string, meta: map<string, string>, size: Int64,
                   newId: Id, jobId: Id, stored: bool, enqueued: bool, id: Id)
    requires newId != id
    ensures SameAt(s.objects, AfterFinishTus(s, uploadId, meta, size, newId, jobId, stored, enqueued).objects, id)
  {
  }

  lemma SameHas(s: Store, t: Store, id: Id)
    requires SameAt(s.objects, t.objects, id)
    ensures HasObjects(t, id) <==> HasObjects(s, id)
  {
  }

  lemma StepObjects(s: Store, e: Event, id: Id)
    requires Inv(s) && Valid(s, e) && Gone(s, id) && !ClientPuts(e, id) && !WorkerPuts(e, id)
    ensures SameAt(s.objects, Apply(s, e).objects, id)
  {
    if e.DeleteFileEv? {
      DeleteFileObjects(s, e.user, e.id, e.faults, id);
    } else if e.DeleteFolderEv? {
      DeleteFolderObjects(s, e.user, e.id, e.faults, id);
    } else if e.FinishTusEv? {
      TusObjects(s, e.uploadId, s.uploads[e.uploadId].meta, e.size, e.newId, e.jobId, e.stored, e.enqueued, id);
    } else if e.CompleteEv? {
      CompleteObjects(s, e.user, e.id, e.jobId, e.enqueued);
    } else if !e.ClientPutEv? && !e.WorkerPutEv? && !e.WorkerEndEv? {
      OtherObjects(s, e);
    }
  }

  lemma StepGone(s: Store, e: Event, id: Id)
    requires Inv(s) && Valid(s, e) && Gone(s, id)
    ensures Gone(Apply(s, e), id)
    ensures HasObjects(Apply(s, e), id) <==> HasObjects(s, id) || ClientPuts(e, id) || WorkerPuts(e, id)
  {
    StepMovesFrom(s, e, id);
    if ClientPuts(e, id) || WorkerPuts(e, id) {
      assert e.key in Apply(s, e).objects;
    } else {
      StepObjects(s, e, id);
      SameHas(s, Apply(s, e), id);
    }
  }

  /** For a row that is gone, of whatever status and by whichever delete, and for every run: there are objects under
      its id exactly when there were some before, or a client or a worker has put one. No request clears them. */
  lemma {:induction false} GoneObjectsIff(s: Store, es: seq<Event>, id: Id)
    requires Inv(s) && ValidRun(s, es) && Gone(s, id)
    ensures Gone(Run(s, es), id)
    ensures HasObjects(Run(s, es), id) <==> HasObjects(s, id) || ClientAmong(es, id) || WorkerAmong(es, id)
    decreases |es|
  {
    if es != [] {
      StepKeepsInv(s, es[0]);
      StepGone(s, es[0], id);
      GoneObjectsIff(Apply(s, es[0]), es[1..], id);
    }
  }

  // ---------- when a worker can still write ----------

  lemma CompleteJobs(s: Store, user: Id, file: Id, jobId: Id, enqueued: bool, id: Id)
    requires id !in s.files && NoWorker(s, id)
    ensures NoWorker(AfterComplete(s, user, file, jobId, enqueued).store, id)
  {
  }

  lemma TusJobs(s: Store, uploadId: string, meta: map<string, string>, size: Int64,
                newId: Id, jobId: Id, stored: bool, enqueued: bool, id: Id)
    requires NoWorker(s, id) && newId != id
    ensures NoWorker(AfterFinishTus(s, uploadId, meta, size, newId, jobId, stored, enqueued), id)
  {
  }

  lemma StepNoWorker(s: Store, e: Event, id: Id)
    requires Inv(s) && Valid(s, e) && Gone(s, id) && NoWorker(s, id)
    ensures NoWorker(Apply(s, e), id) && !WorkerPuts(e, id)
  {
    if e.CompleteEv? {
      CompleteJobs(s, e.user, e.id, e.jobId, e.enqueued, id);
    } else if e.FinishTusEv? {
      TusJobs(s, e.uploadId, s.uploads[e.uploadId].meta, e.size, e.newId, e.jobId, e.stored, e.enqueued, id);
    } else if !e.WorkerPutEv? && !e.WorkerEndEv? {
      QuietStepMovesJob(s, e);
    }
  }

  lemma {:induction false} NoWorkerWrites(s: Store, es: seq<Event>, id: Id)
    requires Inv(s) && ValidRun(s, es) && Gone(s, id) && NoWorker(s, id)
    ensures !WorkerAmong(es, id)
    decreases |es|
  {
    if es != [] {
      StepKeepsInv(s, es[0]);
      StepGone(s, es[0], id);
      StepNoWorker(s, es[0], id);
      NoWorkerWrites(Apply(s, es[0]), es[1..], id);
    }
  }

  lemma LiveWorkerWrites(s: Store, j: Id) returns (es: seq<Event>)
    requires IsLive(s, j)
    ensures ValidRun(s, es) && WorkerAmong(es, s.jobs[j].file) && !ClientAmong(es, s.jobs[j].file)
  {
    var id := s.jobs[j].file;
    var e := WorkerPutEv(j, if s.jobs[j].kind == ImageThumbnail then Thumbnail(id) else MasterKey(id), 0);
    LastStep(s, e);
    es := [e];
  }

  ghost predicate WorkerWritesIn(s: Store, es: seq<Event>, id: Id) {
    ValidRun(s, es) && WorkerAmong(es, id)
  }

  /** A worker can still write under the id of a row that is gone exactly when a live job carries the id. */
  lemma WorkerCanWriteIff(s: Store, id: Id)
    requires Inv(s) && Gone(s, id)
    ensures (exists es :: WorkerWritesIn(s, es, id)) <==> !NoWorker(s, id)
  {
    if NoWorker(s, id) {
      forall es | ValidRun(s, es)
        ensures !WorkerWritesIn(s, es, id)
      {
        NoWorkerWrites(s, es, id);
      }
    } else {
      var j :| j in s.jobs && s.jobs[j].phase == Live && s.jobs[j].file == id;
      var es := LiveWorkerWrites(s, j);
      assert WorkerWritesIn(s, es, id);
    }
  }

  ghost predicate StaysEmpty(s: Store, id: Id) {
    forall es | ValidRun(s, es) && !ClientAmong(es, id) :: !HasObjects(Run(s, es), id)
  }

  lemma GoneStaysEmptyIff(s: Store, id: Id)
    requires Inv(s) && Gone(s, id)
    ensures StaysEmpty(s, id) <==> !HasObjects(s, id) && NoWorker(s, id)
  {
    if !HasObjects(s, id) && NoWorker(s, id) {
      forall es | ValidRun(s, es) && !ClientAmong(es, id)
        ensures !HasObjects(Run(s, es), id)
      {
        GoneObjectsIff(s, es, id);
        NoWorkerWrites(s, es, id);
      }
    } else if HasObjects(s, id) {
      assert ValidRun(s, []) && !ClientAmong([], id) && HasObjects(Run(s, []), id);
    } else {
      var j :| j in s.jobs && s.jobs[j].phase == Live && s.jobs[j].file == id;
      var es := LiveWorkerWrites(s, j);
      GoneObjectsIff(s, es, id);
      assert ValidRun(s, es) && !ClientAmong(es, id) && HasObjects(Run(s, es), id);
    }
  }

  // ---------- both deletes ----------

  predicate IsDelete(e: Event) {
    e.DeleteFileEv? || e.DeleteFolderEv?
  }

  function DeadRows(s: Store, t: Store): set<Id> {
    s.files.Keys - t.files.Keys
  }

  lemma SameSweep(objects: Objects, files: map<Id, File>, a: set<Id>, b: set<Id>, faults: StorageFaults)
    requires forall id | id in files :: id in a <==> id in b
    ensures AfterSweep(objects, files, a, faults) == AfterSweep(objects, files, b, faults)
    ensures files - a == files - b
  {
    forall key
      ensures Swept(files, a, faults, key) <==> Swept(files, b, faults, key)
    {
      assert forall id | id in files && Cleans(id, files[id], faults, key) :: id in a <==> id in b;
    }
  }

  /** Either delete sweeps the objects of exactly the rows it removes. */
  lemma DeleteIsDeletion(s: Store, e: Event)
    requires Valid(s, e) && IsDelete(e)
    ensures IsDeletion(s, Apply(s, e), DeadRows(s, Apply(s, e)), e.faults)
  {
    var t := Apply(s, e);
    var dead := DeletedBy(s, e);
    if dead != {} || t != s {
      if e.DeleteFileEv? {
        FileDeletion(s, e.user, e.id, e.faults);
      } else {
        FolderDeletion(s, e.user, e.id, e.faults);
      }
      SameSweep(s.objects, s.files, dead, DeadRows(s, t), e.faults);
    }
  }

  ghost function DeletedBy(s: Store, e: Event): set<Id>
    requires IsDelete(e)
  {
    if e.DeleteFileEv? then
      if OwnsFile(s.files, e.user, e.id) then Selected(s.files, e.user, Root(s.files, e.id)) else {}
    else
      if OwnsFolder(s.folders, e.user, e.id) then DoomedRows(s.files, e.user, Subtree(s.folders, e.id)) else {}
  }

  /** What the clean-up of a delete leaves: objects of a row that was not ready and had more than its upload. */
  ghost predicate LeavesObjects(s: Store, id: Id)
    requires id in s.files
  {
    s.files[id].status != Ready && exists key :: key in s.objects && key.id == id && !key.Original?
  }

  lemma DeletedRow(s: Store, e: Event, id: Id)
    requires Inv(s) && Valid(s, e) && IsDelete(e) && e.faults == NO_FAULTS && id in s.files && id !in Apply(s, e).files
    ensures var t := Apply(s, e);
            && Inv(t) && Gone(t, id)
            && (HasObjects(t, id) <==> LeavesObjects(s, id))
            && (NoWorker(t, id) <==> NoWorker(s, id))
  {
    var t := Apply(s, e);
    StepKeepsInv(s, e);
    DeleteIsDeletion(s, e);
    NothingLeftIff(s, t, DeadRows(s, t), id);
  }

  /** After either delete, with storage working, and whatever has happened since: there are objects under the id of
      a removed row exactly when the clean-up left some, or a client or a worker has put one. */
  lemma AfterDeleteIff(s: Store, e: Event, id: Id, es: seq<Event>)
    requires Inv(s) && Valid(s, e) && IsDelete(e) && e.faults == NO_FAULTS && id in s.files && id !in Apply(s, e).files
    requires ValidRun(Apply(s, e), es)
    ensures HasObjects(Run(Apply(s, e), es), id) <==> LeavesObjects(s, id) || ClientAmong(es, id) || WorkerAmong(es, id)
  {
    DeletedRow(s, e, id);
    GoneObjectsIff(Apply(s, e), es, id);
  }

  /** The exact condition for a delete to be for good: unless a client puts to the old upload URL, nothing is ever
      stored under the id of a removed row again, now or later, exactly when the clean-up left nothing and no live
      job carried the id. */
  lemma StaysEmptyIff(s: Store, e: Event, id: Id)
    requires Inv(s) && Valid(s, e) && IsDelete(e) && e.faults == NO_FAULTS && id in s.files && id !in Apply(s, e).files
    ensures StaysEmpty(Apply(s, e), id) <==> !LeavesObjects(s, id) && NoWorker(s, id)
  {
    DeletedRow(s, e, id);
    GoneStaysEmptyIff(Apply(s, e), id);
  }

  /** For ready rows neither case arises, so only a client can bring objects back. */
  lemma StaysGoneIff(s: Store, e: Event, id: Id, es: seq<Event>)
    requires Inv(s) && Valid(s, e) && IsDelete(e) && e.faults == NO_FAULTS && id in s.files && id !in Apply(s, e).files
    requires s.files[id].status == Ready && ValidRun(Apply(s, e), es)
    ensures HasObjects(Run(Apply(s, e), es), id) <==> ClientAmong(es, id)
  {
    AfterDeleteIff(s, e, id, es);
    DeletedRow(s, e, id);
    ReadyHasNoWorker(s, id);
    NoWorkerWrites(Apply(s, e), es, id);
  }

  lemma ReadyHasNoWorker(s: Store, id: Id)
    requires Inv(s) && id in s.files && s.files[id].status == Ready
    ensures NoWorker(s, id)
  {
    forall j | j in s.jobs && s.jobs[j].phase == Live
      ensures s.jobs[j].file != id
    {
      if s.jobs[j].file in s.files { LiveJobRow(s.files, s.jobs, s.stranded, s.issued, j); }
    }
  }
}

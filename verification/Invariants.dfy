/** What holds of jobs, file status and stored objects in every reachable state. */
module Invariants {
  import opened Wrappers
  import opened Schema
  import opened Lineage
  import opened ObjectKeys
  import opened ApiFiles
  import opened UploadSvc
  import opened Workers

  type Jobs = map<Id, Job>
  type Objects = map<Key, int>

  // ---------- jobs and status ----------

  ghost predicate HasJob(jobs: Jobs, file: Id, phase: Phase, kind: JobKind) {
    exists j :: j in jobs && jobs[j].file == file && jobs[j].phase == phase && jobs[j].kind == kind
  }

  ghost predicate NoJob(jobs: Jobs, file: Id) {
    forall j | j in jobs :: jobs[j].file != file
  }

  predicate NoKeys(f: File) {
    f.thumbnail == None && f.playlist == None
  }

  /** The keys a finished job of this kind leaves on its row. */
  predicate ResultKeys(f: File, id: Id, kind: JobKind) {
    match kind
    case ImageThumbnail => f.thumbnail == Some(Thumbnail(id)) && f.playlist == None
    case VideoTranscode => f.thumbnail == Some(PosterKey(id)) && f.playlist == Some(MasterKey(id))
  }

  /** The status of a row tells the state of its job, and the job the status. */
  ghost predicate StatusOk(id: Id, f: File, jobs: Jobs, stranded: set<Id>) {
    match f.status
    case Pending => NoJob(jobs, id) && id !in stranded && NoKeys(f)
    case Processing =>
      && NoKeys(f) && KindOf(f.mime).Some?
      && if id in stranded then NoJob(jobs, id) else HasJob(jobs, id, Live, KindOf(f.mime).value)
    case Ready =>
      && id !in stranded
      && (match KindOf(f.mime)
          case None => NoJob(jobs, id) && NoKeys(f)
          case Some(kind) => HasJob(jobs, id, Done, kind) && ResultKeys(f, id, kind))
    case Failed =>
      && id !in stranded && NoKeys(f) && KindOf(f.mime).Some?
      && HasJob(jobs, id, Archived, KindOf(f.mime).value)
  }

  ghost predicate JobOk(job: Job) {
    && job.maxRetry == NewJob(job.kind, job.file).maxRetry
    && job.retried <= job.maxRetry
    && job.attempts == (if job.phase == Live then job.retried else job.retried + 1)
    && forall key | key in job.stored :: MayWrite(job.kind, job.file, key)
  }

  ghost predicate JobsOk(files: Files, jobs: Jobs, stranded: set<Id>, issued: set<Id>) {
    && (forall a, b | a in jobs && b in jobs && jobs[a].file == jobs[b].file :: a == b)
    && (forall j | j in jobs :: JobOk(jobs[j]) && jobs[j].file in issued)
    && (forall id {:trigger StatusOk(id, files[id], jobs, stranded)} | id in files ::
          StatusOk(id, files[id], jobs, stranded))
    && files.Keys + stranded <= issued
  }

  /** What the invariants of this module read from a row. */
  predicate SameWork(f: File, g: File) {
    && g.status == f.status && g.mime == f.mime && g.thumbnail == f.thumbnail && g.playlist == f.playlist
    && g.user == f.user && g.storageKey == f.storageKey
  }

  /** Rows were dropped or changed only in name, place, version or flag. */
  ghost predicate WorkKept(files: Files, gs: Files) {
    forall id | id in gs :: id in files && SameWork(files[id], gs[id])
  }

  lemma JobsKeptByRows(files: Files, gs: Files, jobs: Jobs, stranded: set<Id>, issued: set<Id>)
    requires JobsOk(files, jobs, stranded, issued) && WorkKept(files, gs)
    ensures JobsOk(gs, jobs, stranded, issued)
  {
    forall a | a in gs
      ensures StatusOk(a, gs[a], jobs, stranded)
    {
      assert StatusOk(a, files[a], jobs, stranded);
    }
  }

  lemma JobsGrowIssued(files: Files, jobs: Jobs, stranded: set<Id>, issued: set<Id>, more: set<Id>)
    requires JobsOk(files, jobs, stranded, issued)
    ensures JobsOk(files, jobs, stranded, issued + more)
  {
  }

  /** A new pending row. */
  lemma JobsKeptByInsert(files: Files, gs: Files, id: Id, jobs: Jobs, stranded: set<Id>, issued: set<Id>)
    requires JobsOk(files, jobs, stranded, issued) && id !in issued && id in gs
    requires WorkKept(files, gs - {id})
    requires gs[id].status == Pending && NoKeys(gs[id])
    ensures JobsOk(gs, jobs, stranded, issued + {id})
  {
    forall a | a in gs
      ensures a in issued + {id} && StatusOk(a, gs[a], jobs, stranded)
    {
      if a != id {
        assert a in gs - {id};
        assert StatusOk(a, files[a], jobs, stranded);
      }
    }
  }

  /** Jobs that changed only in what they have stored. */
  ghost predicate SamePhases(jobs: Jobs, ks: Jobs) {
    && ks.Keys == jobs.Keys
    && forall j | j in jobs :: ks[j].file == jobs[j].file && ks[j].phase == jobs[j].phase && ks[j].kind == jobs[j].kind
  }

  lemma StatusSamePhases(id: Id, f: File, jobs: Jobs, ks: Jobs, stranded: set<Id>)
    requires StatusOk(id, f, jobs, stranded) && SamePhases(jobs, ks)
    ensures StatusOk(id, f, ks, stranded)
  {
    forall phase, kind | HasJob(jobs, id, phase, kind)
      ensures HasJob(ks, id, phase, kind)
    {
      var j :| j in jobs && jobs[j].file == id && jobs[j].phase == phase && jobs[j].kind == kind;
      assert ks[j].file == id;
    }
  }

  /** Jobs of other files do not matter to a row. */
  lemma StatusOtherJob(id: Id, f: File, jobs: Jobs, ks: Jobs, j: Id, stranded: set<Id>, stranded': set<Id>)
    requires StatusOk(id, f, jobs, stranded) && (id in stranded <==> id in stranded')
    requires j in ks && ks[j].file != id && (j in jobs ==> jobs[j].file != id)
    requires ks - {j} == jobs - {j}
    ensures StatusOk(id, f, ks, stranded')
  {
    forall a | a != j
      ensures a in jobs <==> a in ks
      ensures a in jobs ==> ks[a] == jobs[a]
    {
      assert a in jobs <==> a in jobs - {j};
      assert a in ks <==> a in ks - {j};
      assert a in jobs ==> (ks - {j})[a] == ks[a];
    }
    forall phase, kind | HasJob(jobs, id, phase, kind)
      ensures HasJob(ks, id, phase, kind)
    {
      var a :| a in jobs && jobs[a].file == id && jobs[a].phase == phase && jobs[a].kind == kind;
      assert ks[a].file == id;
    }
  }

  /** The jobs table changed at one job, and each row's status still fits. */
  lemma OneJobChanged(files: Files, gs: Files, jobs: Jobs, ks: Jobs, j: Id,
                      stranded: set<Id>, stranded': set<Id>, issued: set<Id>, issued': set<Id>)
    requires JobsOk(files, jobs, stranded, issued) && issued <= issued' && stranded' <= issued'
    requires j in ks && ks - {j} == jobs - {j} && JobOk(ks[j]) && ks[j].file in issued'
    requires forall a | a in jobs && jobs[a].file == ks[j].file :: a == j
    requires j in jobs ==> jobs[j].file == ks[j].file
    requires forall a | a in gs && a != ks[j].file :: a in files && gs[a] == files[a] && (a in stranded <==> a in stranded')
    requires ks[j].file in gs ==> StatusOk(ks[j].file, gs[ks[j].file], ks, stranded')
    ensures JobsOk(gs, ks, stranded', issued')
  {
    forall a | a in ks && a != j
      ensures a in jobs && ks[a] == jobs[a]
    {
      assert a in ks - {j};
      assert (ks - {j})[a] == (jobs - {j})[a];
    }
    forall a | a in gs
      ensures StatusOk(a, gs[a], ks, stranded')
    {
      if a != ks[j].file {
        assert StatusOk(a, files[a], jobs, stranded);
        StatusOtherJob(a, files[a], jobs, ks, j, stranded, stranded');
      }
    }
  }

  /** A row whose task was not needed or could not be enqueued. */
  lemma NoJobChanged(files: Files, id: Id, row: File, jobs: Jobs, stranded: set<Id>, stranded': set<Id>, issued: set<Id>)
    requires JobsOk(files, jobs, stranded, issued) && id in issued && stranded' <= issued
    requires forall a | a != id :: a in stranded <==> a in stranded'
    requires StatusOk(id, row, jobs, stranded')
    ensures JobsOk(files[id := row], jobs, stranded', issued)
  {
    forall a | a in files && a != id
      ensures StatusOk(a, files[a], jobs, stranded')
    {
      assert StatusOk(a, files[a], jobs, stranded);
    }
  }

  /** A row handed to the queue: its status, and the job or the stranded mark. */
  lemma JobsKeptByEnqueue(s: Store, id: Id, row: File, jobId: Id, enqueued: bool)
    requires JobsOk(s.files, s.jobs, s.stranded, s.issued)
    requires NoJob(s.jobs, id) && id in s.issued && id !in s.stranded && jobId !in s.issued && jobId !in s.jobs
    requires NoKeys(row) && row.status == if KindOf(row.mime).Some? then Processing else Ready
    ensures var t := AfterEnqueue(s.(files := s.files[id := row]), row.mime, id, jobId, enqueued);
            JobsOk(t.files, t.jobs, t.stranded, t.issued)
  {
    var t := AfterEnqueue(s.(files := s.files[id := row]), row.mime, id, jobId, enqueued);
    if KindOf(row.mime).Some? && enqueued {
      assert t.jobs[jobId].file == id;
      assert t.jobs - {jobId} == s.jobs - {jobId};
      assert HasJob(t.jobs, id, Live, KindOf(row.mime).value);
      OneJobChanged(s.files, t.files, s.jobs, t.jobs, jobId, s.stranded, s.stranded, s.issued, t.issued);
    } else {
      NoJobChanged(s.files, id, row, s.jobs, s.stranded, t.stranded, s.issued);
    }
  }

  lemma JobsKeptByPut(s: Store, jobId: Id, key: Key, size: int)
    requires JobsOk(s.files, s.jobs, s.stranded, s.issued) && IsLive(s, jobId)
    requires MayWrite(s.jobs[jobId].kind, s.jobs[jobId].file, key)
    ensures JobsOk(s.files, AfterPut(s, jobId, key, size).jobs, s.stranded, s.issued)
  {
    var ks := AfterPut(s, jobId, key, size).jobs;
    forall a | a in s.files
      ensures StatusOk(a, s.files[a], ks, s.stranded)
    {
      StatusSamePhases(a, s.files[a], s.jobs, ks, s.stranded);
    }
  }

  /** The live row of a live job is processing, and of the job's kind. */
  lemma LiveJobRow(files: Files, jobs: Jobs, stranded: set<Id>, issued: set<Id>, j: Id)
    requires JobsOk(files, jobs, stranded, issued) && j in jobs && jobs[j].phase == Live && jobs[j].file in files
    ensures files[jobs[j].file].status == Processing && jobs[j].file !in stranded
    ensures KindOf(files[jobs[j].file].mime) == Some(jobs[j].kind) && NoKeys(files[jobs[j].file])
  {
    var id := jobs[j].file;
    assert StatusOk(id, files[id], jobs, stranded);
  }

  lemma JobsKeptByAttempt(s: Store, jobId: Id, result: Result)
    requires JobsOk(s.files, s.jobs, s.stranded, s.issued) && IsLive(s, jobId)
    ensures var t := AfterAttempt(s, jobId, result);
            JobsOk(t.files, t.jobs, t.stranded, t.issued)
  {
    var t := AfterAttempt(s, jobId, result);
    var id := s.jobs[jobId].file;
    assert t.jobs - {jobId} == s.jobs - {jobId};
    if id in s.files {
      LiveJobRow(s.files, s.jobs, s.stranded, s.issued, jobId);
      assert t.jobs[jobId].file == id;
      assert HasJob(t.jobs, id, t.jobs[jobId].phase, t.jobs[jobId].kind);
    }
    OneJobChanged(s.files, t.files, s.jobs, t.jobs, jobId, s.stranded, s.stranded, s.issued, s.issued);
  }

  // ---------- stored objects ----------

  ghost predicate RowObjects(id: Id, f: File, objects: Objects) {
    && f.storageKey.Original? && f.storageKey.id == id
    && (f.status != Pending ==> f.storageKey in objects)
    && (f.thumbnail.Some? ==> f.thumbnail.value in objects)
    && (f.playlist.Some? ==> f.playlist.value in objects)
    && forall key | key in objects && key.id == id ::
         if key.Original? then key == f.storageKey
         else KindOf(f.mime).Some? && MayWrite(KindOf(f.mime).value, id, key)
  }

  /** Every object a row names exists, every object under a row's id fits the row, and none precedes its id. */
  ghost predicate ObjectsOk(files: Files, jobs: Jobs, objects: Objects, issued: set<Id>) {
    && (forall id {:trigger RowObjects(id, files[id], objects)} | id in files :: RowObjects(id, files[id], objects))
    && (forall key | key in objects :: key.id in issued)
    && (forall j | j in jobs && jobs[j].phase == Live && jobs[j].file in files :: jobs[j].stored <= objects.Keys)
  }

  lemma ObjectsKeptByRows(files: Files, gs: Files, jobs: Jobs, objects: Objects, issued: set<Id>)
    requires ObjectsOk(files, jobs, objects, issued) && WorkKept(files, gs)
    ensures ObjectsOk(gs, jobs, objects, issued)
  {
    forall id | id in gs
      ensures RowObjects(id, gs[id], objects)
    {
      assert RowObjects(id, files[id], objects);
    }
  }

  lemma ObjectsGrowIssued(files: Files, jobs: Jobs, objects: Objects, issued: set<Id>, more: set<Id>)
    requires ObjectsOk(files, jobs, objects, issued)
    ensures ObjectsOk(files, jobs, objects, issued + more)
  {
  }

  lemma ObjectsKeptByInsert(files: Files, gs: Files, id: Id, jobs: Jobs, objects: Objects, issued: set<Id>)
    requires ObjectsOk(files, jobs, objects, issued) && id !in issued && id in gs
    requires forall j | j in jobs :: jobs[j].file != id
    requires WorkKept(files, gs - {id})
    requires gs[id].status == Pending && NoKeys(gs[id]) && gs[id].storageKey.Original? && gs[id].storageKey.id == id
    ensures ObjectsOk(gs, jobs, objects, issued + {id})
  {
    forall a | a in gs
      ensures RowObjects(a, gs[a], objects)
    {
      if a != id {
        assert a in gs - {id};
        assert RowObjects(a, files[a], objects);
      }
    }
  }

  /** An upload stores the original of its own row. */
  lemma ObjectsKeptByUpload(files: Files, jobs: Jobs, objects: Objects, issued: set<Id>, key: Key, size: int)
    requires ObjectsOk(files, jobs, objects, issued)
    requires key.Original? && (key.id in files ==> key == files[key.id].storageKey)
    ensures ObjectsOk(files, jobs, objects[key := size], issued + {key.id})
  {
    forall a | a in files
      ensures RowObjects(a, files[a], objects[key := size])
    {
      assert RowObjects(a, files[a], objects);
    }
  }

  lemma ObjectsKeptByPut(s: Store, jobId: Id, key: Key, size: int)
    requires JobsOk(s.files, s.jobs, s.stranded, s.issued) && ObjectsOk(s.files, s.jobs, s.objects, s.issued)
    requires IsLive(s, jobId) && MayWrite(s.jobs[jobId].kind, s.jobs[jobId].file, key)
    ensures var t := AfterPut(s, jobId, key, size);
            ObjectsOk(t.files, t.jobs, t.objects, t.issued)
  {
    var file := s.jobs[jobId].file;
    forall a | a in s.files
      ensures RowObjects(a, s.files[a], s.objects[key := size])
    {
      assert RowObjects(a, s.files[a], s.objects);
      if a == file { LiveJobRow(s.files, s.jobs, s.stranded, s.issued, jobId); }
    }
  }

  lemma ObjectsKeptByAttempt(s: Store, jobId: Id, result: Result)
    requires JobsOk(s.files, s.jobs, s.stranded, s.issued) && ObjectsOk(s.files, s.jobs, s.objects, s.issued)
    requires IsLive(s, jobId) && (result == Finished ==> WroteResults(s.jobs[jobId]))
    ensures var t := AfterAttempt(s, jobId, result);
            ObjectsOk(t.files, t.jobs, t.objects, t.issued)
  {
    var t := AfterAttempt(s, jobId, result);
    var id := s.jobs[jobId].file;
    forall a | a in t.files
      ensures RowObjects(a, t.files[a], t.objects)
    {
      assert RowObjects(a, s.files[a], s.objects);
      if a == id {
        LiveJobRow(s.files, s.jobs, s.stranded, s.issued, jobId);
        assert s.jobs[jobId].stored <= s.objects.Keys;
      }
    }
  }

  /** Finishing a client upload turns the row's observed object into its content. */
  lemma ObjectsKeptByEnqueue(s: Store, id: Id, row: File, jobId: Id, enqueued: bool)
    requires ObjectsOk(s.files, s.jobs, s.objects, s.issued) && NoJob(s.jobs, id)
    requires RowObjects(id, row, s.objects)
    ensures var t := AfterEnqueue(s.(files := s.files[id := row]), row.mime, id, jobId, enqueued);
            ObjectsOk(t.files, t.jobs, t.objects, t.issued)
  {
  }

  /** Keys swept for the rows `dead` belong to those rows. */
  lemma SweptBelongs(s: Store, dead: set<Id>, faults: StorageFaults, key: Key)
    requires JobsOk(s.files, s.jobs, s.stranded, s.issued) && ObjectsOk(s.files, s.jobs, s.objects, s.issued)
    requires Swept(s.files, dead, faults, key)
    ensures key.id in dead
  {
    var id :| id in dead && id in s.files && Cleans(id, s.files[id], faults, key);
    assert RowObjects(id, s.files[id], s.objects) && StatusOk(id, s.files[id], s.jobs, s.stranded);
  }

  /** Clean-up is confined: an object of a surviving row survives. */
  lemma SurvivorKeeps(s: Store, dead: set<Id>, faults: StorageFaults, key: Key)
    requires JobsOk(s.files, s.jobs, s.stranded, s.issued) && ObjectsOk(s.files, s.jobs, s.objects, s.issued)
    requires key in s.objects && key.id !in dead
    ensures key in AfterSweep(s.objects, s.files, dead, faults)
  {
    if Swept(s.files, dead, faults, key) { SweptBelongs(s, dead, faults, key); }
  }

  lemma ObjectsKeptByDelete(s: Store, gs: Files, dead: set<Id>, faults: StorageFaults)
    requires JobsOk(s.files, s.jobs, s.stranded, s.issued) && ObjectsOk(s.files, s.jobs, s.objects, s.issued)
    requires gs == s.files - dead
    ensures ObjectsOk(gs, s.jobs, AfterSweep(s.objects, s.files, dead, faults), s.issued)
  {
    var objects := AfterSweep(s.objects, s.files, dead, faults);
    forall key | key in s.objects && key.id !in dead
      ensures key in objects
    {
      SurvivorKeeps(s, dead, faults, key);
    }
    forall id | id in gs
      ensures RowObjects(id, gs[id], objects)
    {
      assert RowObjects(id, s.files[id], s.objects) && StatusOk(id, s.files[id], s.jobs, s.stranded);
    }
    forall j, key | j in s.jobs && s.jobs[j].phase == Live && s.jobs[j].file in gs && key in s.jobs[j].stored
      ensures key in objects
    {
      assert JobOk(s.jobs[j]) && MayWrite(s.jobs[j].kind, s.jobs[j].file, key);
    }
  }
}

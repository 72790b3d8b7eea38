/** What runs do to statuses and jobs: nothing goes back, every job ends, lost tasks stay visible. */
module JobHistory {
  import opened Machine
  import opened Wrappers
  import opened Schema
  import opened ApiVersions
  import opened ApiFiles
  import opened UploadSvc
  import opened Workers
  import opened Invariants
  import opened Runs

  // ---------- in every reachable state ----------

  function LiveJobs(jobs: Jobs, file: Id): set<Id> {
    set j | j in jobs && jobs[j].file == file && jobs[j].phase == Live
  }

  /** A row is processing exactly when one live task carries its id, or its task was lost at enqueueing. */
  lemma ProcessingIffOneLiveTask(s: Store, id: Id)
    requires Inv(s) && id in s.files
    ensures s.files[id].status == Processing <==> |LiveJobs(s.jobs, id)| == 1 || id in s.stranded
    ensures |LiveJobs(s.jobs, id)| <= 1
  {
    var f := s.files[id];
    assert StatusOk(id, f, s.jobs, s.stranded);
    if f.status == Processing && id !in s.stranded {
      var j :| j in s.jobs && s.jobs[j].file == id && s.jobs[j].phase == Live;
      assert j in LiveJobs(s.jobs, id);
    }
    if LiveJobs(s.jobs, id) != {} {
      var j :| j in LiveJobs(s.jobs, id);
      LiveJobRow(s.files, s.jobs, s.stranded, s.issued, j);
      assert LiveJobs(s.jobs, id) == {j};
    }
  }

  /** A row is marked failed exactly when its task was archived. */
  lemma FailedIffArchived(s: Store, id: Id)
    requires Inv(s) && id in s.files
    ensures s.files[id].status == Failed <==> exists j :: j in s.jobs && s.jobs[j].file == id && s.jobs[j].phase == Archived
  {
    assert StatusOk(id, s.files[id], s.jobs, s.stranded);
  }

  /** Previews and playlists are set only on ready rows, and on every ready image and video. */
  lemma KeysOnlyWhenReady(s: Store, id: Id)
    requires Inv(s) && id in s.files
    ensures var f := s.files[id];
            && (f.thumbnail.Some? <==> f.status == Ready && KindOf(f.mime).Some?)
            && (f.playlist.Some? <==> f.status == Ready && KindOf(f.mime) == Some(VideoTranscode))
            && (f.thumbnail.Some? ==> f.thumbnail.value in s.objects)
            && (f.playlist.Some? ==> f.playlist.value in s.objects)
            && (f.status != Pending ==> f.storageKey in s.objects)
  {
    assert StatusOk(id, s.files[id], s.jobs, s.stranded) && RowObjects(id, s.files[id], s.objects);
  }

  // ---------- statuses only move forward ----------

  predicate Progress(a: Status, b: Status) {
    || a == b
    || a == Pending
    || (a == Processing && b != Pending)
  }

  ghost predicate RowMoves(s: Store, t: Store, id: Id) {
    id in t.files ==> if id in s.files then Progress(s.files[id].status, t.files[id].status) else id !in s.issued
  }

  lemma UpdateFileMoves(s: Store, user: Id, file: Id, name: Option<string>, folder: FolderArg, id: Id)
    ensures RowMoves(s, AfterUpdateFile(s, user, file, name, folder).store, id)
  {
  }

  lemma RestoreMoves(s: Store, user: Id, file: Id, version: Id, id: Id)
    ensures RowMoves(s, AfterRestore(s, user, file, version).store, id)
  {
  }

  lemma DeleteMoves(s: Store, e: Event, id: Id)
    requires Valid(s, e) && (e.DeleteFileEv? || e.DeleteFolderEv?)
    ensures RowMoves(s, Apply(s, e), id)
  {
    match e
    case DeleteFileEv(_, _, _) =>
    case DeleteFolderEv(_, _, _) =>
  }

  lemma PresignMoves(s: Store, user: Id, name: string, size: Int64, mime: string, folder: FolderArg, newId: Id, id: Id)
    requires newId !in s.issued && newId !in s.files
    ensures RowMoves(s, AfterPresign(s, user, name, size, mime, folder, newId).store, id)
  {
  }

  lemma CompleteMoves(s: Store, user: Id, file: Id, jobId: Id, enqueued: bool, id: Id)
    ensures RowMoves(s, AfterComplete(s, user, file, jobId, enqueued).store, id)
  {
  }

  lemma PresignVersionMoves(s: Store, user: Id, file: Id, size: Int64, mime: string, newId: Id, id: Id)
    requires IdsOk(s) && newId !in s.issued
    ensures RowMoves(s, AfterPresignVersion(s, user, file, size, mime, newId).store, id)
  {
  }

  lemma FinishTusMoves(s: Store, uploadId: string, meta: map<string, string>, size: Int64,
                       newId: Id, jobId: Id, stored: bool, enqueued: bool, id: Id)
    requires newId !in s.issued && newId !in s.files
    ensures RowMoves(s, AfterFinishTus(s, uploadId, meta, size, newId, jobId, stored, enqueued), id)
  {
    FinishTusRows(s, uploadId, meta, size, newId, jobId, stored, enqueued);
  }

  lemma AttemptMoves(s: Store, jobId: Id, result: Result, id: Id)
    requires JobsOk(s.files, s.jobs, s.stranded, s.issued) && IsLive(s, jobId)
    ensures RowMoves(s, AfterAttempt(s, jobId, result), id)
  {
    if s.jobs[jobId].file in s.files { LiveJobRow(s.files, s.jobs, s.stranded, s.issued, jobId); }
    AttemptRow(s.files, s.jobs[jobId], result, id);
  }

  lemma AttemptRow(files: map<Id, File>, job: Job, result: Result, id: Id)
    requires job.file in files ==> files[job.file].status == Processing
    ensures var gs := RowAfter(files, job, result);
            id in gs ==> id in files && Progress(files[id].status, gs[id].status)
  {
  }

  lemma UploadMoves(s: Store, e: Event, id: Id)
    requires IdsOk(s) && Valid(s, e) && (e.PresignEv? || e.CompleteEv? || e.PresignVersionEv? || e.FinishTusEv?)
    ensures RowMoves(s, Apply(s, e), id)
  {
    match e
    case PresignEv(user, name, size, mime, folder, newId) => PresignMoves(s, user, name, size, mime, folder, newId, id);
    case CompleteEv(user, file, jobId, enqueued) => CompleteMoves(s, user, file, jobId, enqueued, id);
    case PresignVersionEv(user, file, size, mime, newId) => PresignVersionMoves(s, user, file, size, mime, newId, id);
    case FinishTusEv(uploadId, size, newId, jobId, stored, enqueued) =>
      FinishTusMoves(s, uploadId, s.uploads[uploadId].meta, size, newId, jobId, stored, enqueued, id);
  }

  lemma ChangeMoves(s: Store, e: Event, id: Id)
    requires Inv(s) && Valid(s, e)
    requires e.UpdateFileEv? || e.RestoreEv? || e.DeleteFileEv? || e.DeleteFolderEv? || e.WorkerEndEv?
    ensures RowMoves(s, Apply(s, e), id)
  {
    match e
    case UpdateFileEv(user, file, rename, at) => UpdateFileMoves(s, user, file, rename, at, id);
    case RestoreEv(user, file, version) => RestoreMoves(s, user, file, version, id);
    case DeleteFileEv(_, _, _) => DeleteMoves(s, e, id);
    case DeleteFolderEv(_, _, _) => DeleteMoves(s, e, id);
    case WorkerEndEv(jobId, result) => AttemptMoves(s, jobId, result, id);
  }

  /** One step never moves a status backwards and never brings a deleted row back. */
  lemma StepMoves(s: Store, e: Event, id: Id)
    requires Inv(s) && Valid(s, e)
    ensures RowMoves(s, Apply(s, e), id)
  {
    if e.PresignEv? || e.CompleteEv? || e.PresignVersionEv? || e.FinishTusEv? {
      UploadMoves(s, e, id);
    } else if LeavesRows(e) {
      RowsLeft(s, e);
    } else if !e.CreateFolderEv? && !e.UpdateFolderEv? {
      ChangeMoves(s, e, id);
    }
  }

  ghost predicate Grown(s: Store, t: Store) {
    s.issued <= t.issued && s.stranded <= t.stranded
  }

  lemma CompleteGrows(s: Store, user: Id, id: Id, jobId: Id, enqueued: bool)
    ensures Grown(s, AfterComplete(s, user, id, jobId, enqueued).store)
  {
  }

  lemma UploadGrows(s: Store, e: Event)
    requires Valid(s, e)
    requires e.PresignEv? || e.PresignVersionEv? || e.CompleteEv? || e.AcceptTusEv? || e.FinishTusEv?
    ensures Grown(s, Apply(s, e))
  {
    match e
    case PresignEv(_, _, _, _, _, _) =>
    case PresignVersionEv(_, _, _, _, _) =>
    case CompleteEv(user, id, jobId, enqueued) => CompleteGrows(s, user, id, jobId, enqueued);
    case AcceptTusEv(_, _, _, _) =>
    case FinishTusEv(uploadId, size, newId, jobId, stored, enqueued) =>
      FinishTusRows(s, uploadId, s.uploads[uploadId].meta, size, newId, jobId, stored, enqueued);
  }

  lemma ShareStepGrows(s: Store, e: Event)
    requires Valid(s, e) && (e.CreateShareEv? || e.DeleteShareEv? || e.DownloadEv?)
    ensures Grown(s, Apply(s, e))
  {
    match e
    case CreateShareEv(_, _, _, _, _, _, _, _) =>
    case DeleteShareEv(_, _) =>
    case DownloadEv(_, _, _, _) =>
  }

  lemma TreeStepGrows(s: Store, e: Event)
    requires Valid(s, e)
    requires e.CreateFolderEv? || e.UpdateFolderEv? || e.DeleteFolderEv? || e.UpdateFileEv? || e.DeleteFileEv? || e.RestoreEv?
    ensures Grown(s, Apply(s, e))
  {
    match e
    case CreateFolderEv(_, _, _, _) =>
    case UpdateFolderEv(_, _, _, _) =>
    case DeleteFolderEv(_, _, _) =>
    case UpdateFileEv(_, _, _, _) =>
    case DeleteFileEv(_, _, _) =>
    case RestoreEv(_, _, _) =>
  }

  lemma IssuedGrows(s: Store, e: Event)
    requires Valid(s, e)
    ensures Grown(s, Apply(s, e))
  {
    if e.PresignEv? || e.PresignVersionEv? || e.CompleteEv? || e.AcceptTusEv? || e.FinishTusEv? {
      UploadGrows(s, e);
    } else if e.CreateShareEv? || e.DeleteShareEv? || e.DownloadEv? {
      ShareStepGrows(s, e);
    } else if !e.ClientPutEv? && !e.WorkerPutEv? && !e.WorkerEndEv? {
      TreeStepGrows(s, e);
    }
  }

  lemma StepMovesFrom(s: Store, e: Event, id: Id)
    requires Inv(s) && Valid(s, e) && id in s.issued
    ensures Inv(Apply(s, e)) && id in Apply(s, e).issued && RowMoves(s, Apply(s, e), id)
  {
    StepKeepsInv(s, e);
    StepMoves(s, e, id);
    IssuedGrows(s, e);
  }

  lemma {:induction false} RunIssuedGrows(s: Store, es: seq<Event>)
    requires ValidRun(s, es)
    ensures s.issued <= Run(s, es).issued && s.stranded <= Run(s, es).stranded
    decreases |es|
  {
    if es != [] {
      IssuedGrows(s, es[0]);
      RunIssuedGrows(Apply(s, es[0]), es[1..]);
    }
  }

  lemma {:induction false} DeadStaysDead(s: Store, es: seq<Event>, id: Id)
    requires Inv(s) && ValidRun(s, es) && id in s.issued && id !in s.files
    ensures id !in Run(s, es).files
    decreases |es|
  {
    if es != [] {
      StepMovesFrom(s, es[0], id);
      DeadStaysDead(Apply(s, es[0]), es[1..], id);
    }
  }

  lemma MovesCompose(s: Store, t: Store, u: Store, id: Id)
    requires id in s.issued && id in t.issued && RowMoves(s, t, id)
    requires if id in t.files then RowMoves(t, u, id) else id !in u.files
    ensures RowMoves(s, u, id)
  {
  }

  /** Along any run a surviving row's status only moves forward: never back to pending, never out of
      ready or failed. A deleted row is never recreated, not even by a worker still busy with it. */
  lemma {:induction false} RunMoves(s: Store, es: seq<Event>, id: Id)
    requires Inv(s) && ValidRun(s, es) && id in s.issued
    ensures RowMoves(s, Run(s, es), id)
    decreases |es|
  {
    if es != [] {
      var t := Apply(s, es[0]);
      StepMovesFrom(s, es[0], id);
      if id in t.files {
        RunMoves(t, es[1..], id);
      } else {
        DeadStaysDead(t, es[1..], id);
      }
      MovesCompose(s, t, Run(t, es[1..]), id);
    }
  }

  /** A row whose task could not be enqueued stays processing for as long as it exists. */
  lemma StrandedForever(s: Store, es: seq<Event>, id: Id)
    requires Inv(s) && ValidRun(s, es) && id in s.stranded && id in Run(s, es).files
    ensures Run(s, es).files[id].status == Processing
  {
    RunKeepsInv(s, es);
    RunIssuedGrows(s, es);
    var t := Run(s, es);
    assert StatusOk(id, t.files[id], t.jobs, t.stranded);
  }

  // ---------- every accepted job ends ----------

  /** Attempts a job may still be given. */
  function Remaining(job: Job): int {
    if job.phase == Live then job.maxRetry - job.retried + 1 else 0
  }

  /** Every attempt uses up one of the remaining ones, and the last one settles the job. */
  lemma AttemptUsesOne(job: Job, result: Result)
    requires JobOk(job) && job.phase == Live
    ensures 0 <= Remaining(JobAfter(job, result)) < Remaining(job)
    ensures JobAfter(job, result).phase == Live <==> result == Retryable && job.retried < job.maxRetry
    ensures Remaining(JobAfter(job, result)) == 0 <==> JobAfter(job, result).phase != Live
  {
  }

  function Attempts(es: seq<Event>, jobId: Id): nat {
    if es == [] then 0
    else (if es[0].WorkerEndEv? && es[0].jobId == jobId then 1 else 0) + Attempts(es[1..], jobId)
  }

  /** A job keeps its identity, counts its attempts, and is never revived. */
  ghost predicate JobMoves(s: Store, t: Store, jobId: Id, attempts: nat) {
    && jobId in s.jobs && jobId in t.jobs
    && t.jobs[jobId].kind == s.jobs[jobId].kind
    && t.jobs[jobId].file == s.jobs[jobId].file
    && t.jobs[jobId].maxRetry == s.jobs[jobId].maxRetry
    && t.jobs[jobId].attempts == s.jobs[jobId].attempts + attempts
    && (s.jobs[jobId].phase != Live ==> t.jobs[jobId].phase == s.jobs[jobId].phase)
  }

  lemma QuietStepMovesJob(s: Store, e: Event)
    requires Valid(s, e) && !e.CompleteEv? && !e.FinishTusEv? && !e.WorkerPutEv? && !e.WorkerEndEv?
    ensures Apply(s, e).jobs == s.jobs
  {
  }

  ghost predicate JobKept(s: Store, t: Store, jobId: Id) {
    jobId in s.jobs && jobId in t.jobs && t.jobs[jobId] == s.jobs[jobId]
  }

  /** Enqueueing adds a job under a fresh id. */
  lemma CompleteKeepsJob(s: Store, user: Id, id: Id, newJob: Id, enqueued: bool, jobId: Id)
    requires newJob !in s.jobs && jobId in s.jobs
    ensures JobKept(s, AfterComplete(s, user, id, newJob, enqueued).store, jobId)
  {
  }

  lemma TusKeepsJob(s: Store, uploadId: string, meta: map<string, string>, size: Int64,
                    newId: Id, newJob: Id, stored: bool, enqueued: bool, jobId: Id)
    requires newJob !in s.jobs && jobId in s.jobs
    ensures JobKept(s, AfterFinishTus(s, uploadId, meta, size, newId, newJob, stored, enqueued), jobId)
  {
  }

  lemma EnqueueMovesJob(s: Store, e: Event, jobId: Id)
    requires IdsOk(s) && Valid(s, e) && jobId in s.jobs && (e.CompleteEv? || e.FinishTusEv?)
    ensures JobKept(s, Apply(s, e), jobId)
  {
    match e
    case CompleteEv(user, id, newJob, enqueued) => CompleteKeepsJob(s, user, id, newJob, enqueued, jobId);
    case FinishTusEv(uploadId, size, newId, newJob, stored, enqueued) =>
      TusKeepsJob(s, uploadId, s.uploads[uploadId].meta, size, newId, newJob, stored, enqueued, jobId);
  }

  lemma StepMovesJob(s: Store, e: Event, jobId: Id)
    requires IdsOk(s) && Valid(s, e) && jobId in s.jobs
    ensures JobMoves(s, Apply(s, e), jobId, if e.WorkerEndEv? && e.jobId == jobId then 1 else 0)
  {
    if e.CompleteEv? || e.FinishTusEv? {
      EnqueueMovesJob(s, e, jobId);
    } else if !e.WorkerPutEv? && !e.WorkerEndEv? {
      QuietStepMovesJob(s, e);
    }
  }

  lemma {:induction false} RunMovesJob(s: Store, es: seq<Event>, jobId: Id)
    requires Inv(s) && ValidRun(s, es) && jobId in s.jobs
    ensures JobMoves(s, Run(s, es), jobId, Attempts(es, jobId))
    decreases |es|
  {
    if es != [] {
      StepKeepsInv(s, es[0]);
      StepMovesJob(s, es[0], jobId);
      RunMovesJob(Apply(s, es[0]), es[1..], jobId);
    }
  }

  /** A job finishes within maxRetry + 1 attempts: no run gives it more, and after that many it is settled.
      For thumbnails that is six attempts, for transcodes three. */
  lemma AcceptedJobEnds(s: Store, es: seq<Event>, jobId: Id)
    requires Inv(s) && ValidRun(s, es) && jobId in s.jobs && s.jobs[jobId].attempts == 0
    ensures var job := s.jobs[jobId];
            && jobId in Run(s, es).jobs
            && job.maxRetry + 1 == (if job.kind == ImageThumbnail then 6 else 3)
            && Attempts(es, jobId) <= job.maxRetry + 1
            && (Attempts(es, jobId) == job.maxRetry + 1 ==> Run(s, es).jobs[jobId].phase != Live)
  {
    RunMovesJob(s, es, jobId);
    RunKeepsInv(s, es);
    assert JobOk(s.jobs[jobId]) && JobOk(Run(s, es).jobs[jobId]);
  }

  // ---------- how many attempts there really are ----------

  /** What a job's attempts returned, in order. */
  function Results(es: seq<Event>, jobId: Id): seq<Result> {
    if es == [] then []
    else (if es[0].WorkerEndEv? && es[0].jobId == jobId then [es[0].result] else []) + Results(es[1..], jobId)
  }

  lemma {:induction false} ResultsCounted(es: seq<Event>, jobId: Id)
    ensures |Results(es, jobId)| == Attempts(es, jobId)
  {
    if es != [] { ResultsCounted(es[1..], jobId); }
  }

  predicate AllRetryable(rs: seq<Result>) {
    forall i | 0 <= i < |rs| :: rs[i] == Retryable
  }

  function Failures(jobId: Id, n: nat): seq<Event> {
    if n == 0 then [] else [WorkerEndEv(jobId, Retryable)] + Failures(jobId, n - 1)
  }

  /** Any number of retryable failures up to the limit plus one can happen to a live job, and only the last of
      them archives it. */
  lemma {:induction false} FailuresRun(s: Store, jobId: Id, n: nat)
    requires IsLive(s, jobId) && s.jobs[jobId].retried + n <= s.jobs[jobId].maxRetry + 1
    requires s.jobs[jobId].retried <= s.jobs[jobId].maxRetry
    ensures ValidRun(s, Failures(jobId, n)) && jobId in Run(s, Failures(jobId, n)).jobs
    ensures var job := s.jobs[jobId];
            Run(s, Failures(jobId, n)).jobs[jobId].phase == if job.retried + n == job.maxRetry + 1 then Archived else Live
    decreases n
  {
    if n > 0 {
      var e := WorkerEndEv(jobId, Retryable);
      FailureStep(s, jobId);
      var t := Apply(s, e);
      if n > 1 { FailuresRun(t, jobId, n - 1); }
      RunStep(s, e, t, Failures(jobId, n - 1));
    }
  }

  lemma FailureStep(s: Store, jobId: Id)
    requires IsLive(s, jobId)
    ensures Valid(s, WorkerEndEv(jobId, Retryable))
    ensures var job, t := s.jobs[jobId], Apply(s, WorkerEndEv(jobId, Retryable));
            && jobId in t.jobs && t.jobs[jobId].maxRetry == job.maxRetry
            && (job.retried < job.maxRetry ==> IsLive(t, jobId) && t.jobs[jobId].retried == job.retried + 1)
            && (job.retried >= job.maxRetry ==> t.jobs[jobId].phase == Archived)
  {
  }

  /** A new thumbnail job really gets a sixth attempt: five failures leave it live, the sixth archives it. */
  lemma SixAttemptsHappen(s: Store, jobId: Id)
    requires Inv(s) && IsLive(s, jobId) && s.jobs[jobId].kind == ImageThumbnail && s.jobs[jobId].attempts == 0
    ensures ValidRun(s, Failures(jobId, 5)) && IsLive(Run(s, Failures(jobId, 5)), jobId)
    ensures ValidRun(s, Failures(jobId, 6)) && jobId in Run(s, Failures(jobId, 6)).jobs
    ensures Run(s, Failures(jobId, 6)).jobs[jobId].phase == Archived
  {
    assert JobOk(s.jobs[jobId]);
    FailuresRun(s, jobId, 5);
    FailuresRun(s, jobId, 6);
  }

  /** A settled job is handed to no worker again. */
  lemma {:induction false} NoMoreResults(s: Store, es: seq<Event>, jobId: Id)
    requires Inv(s) && ValidRun(s, es) && jobId in s.jobs && s.jobs[jobId].phase != Live
    ensures Results(es, jobId) == [] && !IsLive(Run(s, es), jobId)
    decreases |es|
  {
    if es != [] {
      StepKeepsInv(s, es[0]);
      StepMovesJob(s, es[0], jobId);
      NoMoreResults(Apply(s, es[0]), es[1..], jobId);
    }
  }

  /** How a job stands after the results `rs`, of which none came after it was settled. */
  ghost predicate StandsAfter(job: Job, rs: seq<Result>, k: Job) {
    if AllRetryable(rs) && job.retried + |rs| <= job.maxRetry
    then k.phase == Live
    else
      && |rs| > 0 && AllRetryable(rs[..|rs| - 1])
      && (rs[|rs| - 1] == Retryable ==> job.retried + |rs| == job.maxRetry + 1)
      && k.phase == if rs[|rs| - 1] == Finished then Done else Archived
  }

  lemma StandsFirst(job: Job, r: Result, rs: seq<Result>, k: Job)
    requires job.phase == Live && job.retried <= job.maxRetry
    requires var next := JobAfter(job, r);
             if next.phase == Live then StandsAfter(next, rs, k) else rs == [] && k.phase == next.phase
    ensures StandsAfter(job, [r] + rs, k)
  {
    var all := [r] + rs;
    if JobAfter(job, r).phase == Live && rs != [] {
      assert all[..|all| - 1] == [r] + rs[..|rs| - 1];
    }
    AllRetryableFirst(r, rs);
  }

  lemma AllRetryableFirst(r: Result, rs: seq<Result>)
    ensures AllRetryable([r] + rs) <==> r == Retryable && AllRetryable(rs)
  {
    var all := [r] + rs;
    assert all[0] == r;
    if AllRetryable(all) {
      forall i | 0 <= i < |rs| ensures rs[i] == Retryable { assert all[i + 1] == rs[i]; }
    }
  }

  /** For every run: a live job is still live exactly when all its attempts since were retryable failures and no
      more than the retries it had left; otherwise the last attempt settled it. */
  lemma {:induction false} StillLiveIff(s: Store, es: seq<Event>, jobId: Id)
    requires Inv(s) && ValidRun(s, es) && IsLive(s, jobId)
    ensures jobId in Run(s, es).jobs && StandsAfter(s.jobs[jobId], Results(es, jobId), Run(s, es).jobs[jobId])
    decreases |es|, 2
  {
    if es != [] {
      StepKeepsInv(s, es[0]);
      StepOfJob(s, es[0], jobId);
      FirstStands(s, es[0], Apply(s, es[0]), es[1..], jobId);
    }
  }

  /** A step ends an attempt of the job, or leaves the job as live as it was. */
  ghost predicate StepsJob(s: Store, e: Event, t: Store, jobId: Id)
    requires jobId in s.jobs
  {
    if e.WorkerEndEv? && e.jobId == jobId then t == AfterAttempt(s, jobId, e.result)
    else
      && (IsLive(s, jobId) ==> IsLive(t, jobId))
      && jobId in t.jobs && t.jobs[jobId].retried == s.jobs[jobId].retried && t.jobs[jobId].maxRetry == s.jobs[jobId].maxRetry
  }

  lemma StepOfJob(s: Store, e: Event, jobId: Id)
    requires IdsOk(s) && Valid(s, e) && jobId in s.jobs
    ensures StepsJob(s, e, Apply(s, e), jobId)
  {
    if !(e.WorkerEndEv? && e.jobId == jobId) { StepKeepsRetried(s, e, jobId); }
  }

  lemma FirstStands(s: Store, e: Event, t: Store, rest: seq<Event>, jobId: Id)
    requires Inv(s) && IsLive(s, jobId) && StepsJob(s, e, t, jobId) && Inv(t) && ValidRun(t, rest)
    ensures var first := if e.WorkerEndEv? && e.jobId == jobId then [e.result] else [];
            jobId in Run(t, rest).jobs && StandsAfter(s.jobs[jobId], first + Results(rest, jobId), Run(t, rest).jobs[jobId])
    decreases |rest| + 1, 1
  {
    if e.WorkerEndEv? && e.jobId == jobId {
      SettleOrGoOn(s, e.result, t, rest, jobId);
    } else {
      GoOn(s, t, rest, jobId);
      assert [] + Results(rest, jobId) == Results(rest, jobId);
    }
  }

  lemma GoOn(s: Store, t: Store, rest: seq<Event>, jobId: Id)
    requires Inv(t) && ValidRun(t, rest) && IsLive(s, jobId) && IsLive(t, jobId)
    requires t.jobs[jobId].retried == s.jobs[jobId].retried && t.jobs[jobId].maxRetry == s.jobs[jobId].maxRetry
    ensures jobId in Run(t, rest).jobs && StandsAfter(s.jobs[jobId], Results(rest, jobId), Run(t, rest).jobs[jobId])
    decreases |rest| + 1, 0
  {
    StillLiveIff(t, rest, jobId);
    SameStanding(s.jobs[jobId], t.jobs[jobId], Results(rest, jobId), Run(t, rest).jobs[jobId]);
  }

  lemma SameStanding(job: Job, job': Job, rs: seq<Result>, k: Job)
    requires StandsAfter(job', rs, k) && job'.retried == job.retried && job'.maxRetry == job.maxRetry
    ensures StandsAfter(job, rs, k)
  {
  }

  lemma SettleOrGoOn(s: Store, r: Result, t: Store, rest: seq<Event>, jobId: Id)
    requires Inv(s) && IsLive(s, jobId) && t == AfterAttempt(s, jobId, r) && Inv(t) && ValidRun(t, rest)
    ensures jobId in Run(t, rest).jobs && StandsAfter(s.jobs[jobId], [r] + Results(rest, jobId), Run(t, rest).jobs[jobId])
    decreases |rest| + 1, 0
  {
    assert JobOk(s.jobs[jobId]);
    if t.jobs[jobId].phase == Live {
      StillLiveIff(t, rest, jobId);
    } else {
      NoMoreResults(t, rest, jobId);
      RunMovesJob(t, rest, jobId);
    }
    StandsFirst(s.jobs[jobId], r, Results(rest, jobId), Run(t, rest).jobs[jobId]);
  }

  lemma StepKeepsRetried(s: Store, e: Event, jobId: Id)
    requires IdsOk(s) && Valid(s, e) && jobId in s.jobs && !(e.WorkerEndEv? && e.jobId == jobId)
    ensures IsLive(s, jobId) ==> IsLive(Apply(s, e), jobId)
    ensures jobId in Apply(s, e).jobs && Apply(s, e).jobs[jobId].retried == s.jobs[jobId].retried
    ensures Apply(s, e).jobs[jobId].maxRetry == s.jobs[jobId].maxRetry
  {
    if e.CompleteEv? || e.FinishTusEv? {
      EnqueueMovesJob(s, e, jobId);
    } else if !e.WorkerPutEv? && !e.WorkerEndEv? {
      QuietStepMovesJob(s, e);
    }
  }

  /** A new job that has been settled took no more attempts than its retry limit - five for a thumbnail - exactly
      when one of that many first attempts succeeded or was told to skip its retries. */
  lemma WithinRetryLimitIff(s: Store, es: seq<Event>, jobId: Id)
    requires Inv(s) && ValidRun(s, es) && IsLive(s, jobId) && s.jobs[jobId].attempts == 0
    requires !IsLive(Run(s, es), jobId)
    ensures var rs, limit := Results(es, jobId), s.jobs[jobId].maxRetry;
            Attempts(es, jobId) <= limit <==> exists i :: 0 <= i < |rs| && i < limit && rs[i] != Retryable
  {
    assert JobOk(s.jobs[jobId]);
    StillLiveIff(s, es, jobId);
    ResultsCounted(es, jobId);
    var rs, limit := Results(es, jobId), s.jobs[jobId].maxRetry;
    var n := |rs| - 1;
    assert forall i | 0 <= i < n :: rs[i] == rs[..n][i] == Retryable;
    if |rs| <= limit { assert rs[n] != Retryable; }
  }

  /** Once its job is settled, a row that still exists is ready or failed, as the job ended. */
  lemma SettledJobSettlesRow(s: Store, jobId: Id)
    requires Inv(s) && jobId in s.jobs && s.jobs[jobId].file in s.files
    ensures var status := s.files[s.jobs[jobId].file].status;
            match s.jobs[jobId].phase
            case Live => status == Processing
            case Done => status == Ready
            case Archived => status == Failed
  {
    var id := s.jobs[jobId].file;
    assert StatusOk(id, s.files[id], s.jobs, s.stranded);
  }
}

/** One step of the running backend: the handler methods carry out exactly the events of the state machine. */
module Serve {
  import opened Machine
  import opened Attempts
  import opened Wrappers
  import opened Schema
  import opened ApiVersions
  import opened ApiFiles
  import opened ApiFolders
  import opened UploadSvc
  import opened Workers
  import opened Shares
  import opened Runs

  method ServeFolders(db: Backend, e: Event)
    requires Inv(db.State()) && Valid(db.State(), e)
    requires e.CreateFolderEv? || e.UpdateFolderEv? || e.DeleteFolderEv?
    modifies db
    ensures db.State() == Apply(old(db.State()), e)
  {
    match e
    case CreateFolderEv(user, name, at, newId) => var _ := CreateFolder(db, user, name, at, newId);
    case UpdateFolderEv(user, id, name, at) => var _ := UpdateFolder(db, user, id, name, at);
    case DeleteFolderEv(user, id, faults) => var _, _ := DeleteFolder(db, user, id, faults);
  }

  method ServeFiles(db: Backend, e: Event)
    requires Inv(db.State()) && Valid(db.State(), e)
    requires e.UpdateFileEv? || e.DeleteFileEv? || e.RestoreEv?
    modifies db
    ensures db.State() == Apply(old(db.State()), e)
  {
    match e
    case UpdateFileEv(user, id, rename, at) => var _ := UpdateFile(db, user, id, rename, at);
    case DeleteFileEv(user, id, faults) => var _ := DeleteFile(db, user, id, faults);
    case RestoreEv(user, id, version) => var _ := RestoreFileVersion(db, user, id, version);
  }

  /** `tusMeta` is the metadata that tusd reports with a finished upload. */
  method ServeUploads(db: Backend, e: Event, tusMeta: map<string, string>)
    requires Valid(db.State(), e)
    requires e.PresignEv? || e.PresignVersionEv? || e.CompleteEv? || e.AcceptTusEv? || e.FinishTusEv?
    requires e.FinishTusEv? ==> tusMeta == db.uploads[e.uploadId].meta
    modifies db
    ensures db.State() == Apply(old(db.State()), e)
  {
    match e
    case PresignEv(user, name, size, mime, at, newId) => var _ := Presign(db, user, name, size, mime, at, newId);
    case PresignVersionEv(user, id, size, mime, newId) => var _ := PresignVersion(db, user, id, size, mime, newId);
    case CompleteEv(user, id, jobId, enqueued) => var _ := Complete(db, user, id, jobId, enqueued);
    case AcceptTusEv(user, meta, size, uploadId) => var _, _ := TusPreCreate(db, user, meta, size, uploadId);
    case FinishTusEv(uploadId, size, newId, jobId, stored, enqueued) =>
      FinishTusUpload(db, uploadId, tusMeta, size, newId, jobId, stored, enqueued);
  }

  method ServeShares(db: Backend, e: Event)
    requires Valid(db.State(), e) && (e.CreateShareEv? || e.DeleteShareEv? || e.DownloadEv?)
    modifies db
    ensures db.State() == Apply(old(db.State()), e)
  {
    match e
    case CreateShareEv(user, id, hours, password, maxDownloads, token, now, newId) =>
      var _ := CreateShare(db, user, id, hours, password, maxDownloads, token, now, newId);
    case DeleteShareEv(user, id) => var _ := DeleteShare(db, user, id);
    case DownloadEv(token, password, now, counted) => var _ := ShareDownloadUrl(db, token, password, now, counted);
  }

  /** A worker's row update and its report to the queue. */
  method EndAttempt(db: Backend, jobId: Id, result: Result)
    requires jobId in db.jobs
    modifies db
    ensures db.State() == AfterAttempt(old(db.State()), jobId, result)
  {
    var job := db.jobs[jobId];
    if result == Finished { UpdateRow(db, job.file, (f: File) => Processed(f, job)); }
    Settle(db, jobId, Some(job.file), result);
  }

  method ServeStorage(db: Backend, e: Event)
    requires Valid(db.State(), e) && (e.ClientPutEv? || e.WorkerPutEv? || e.WorkerEndEv?)
    modifies db
    ensures db.State() == Apply(old(db.State()), e)
  {
    match e
    case ClientPutEv(key, size) => db.objects := db.objects[key := size];
    case WorkerPutEv(jobId, key, size) => PutObject(db, jobId, key, size);
    case WorkerEndEv(jobId, result) => EndAttempt(db, jobId, result);
  }

  /** A thumbnail task handled from start to end, without interruption: the steps of its attempt, one after
      the other. Between those steps the machine also allows any other event. */
  method ServeThumbnail(db: Backend, jobId: Id, fate: ImageFate, sizes: Key -> Int64)
    requires Inv(db.State()) && IsLive(db.State(), jobId) && db.jobs[jobId].kind == ImageThumbnail
    requires forall key :: 0 <= sizes(key)
    modifies db
    ensures var es := ImageAttempt(jobId, old(db.jobs)[jobId].file, fate, sizes);
            ValidRun(old(db.State()), es) && db.State() == Run(old(db.State()), es)
    ensures Inv(db.State())
  {
    ghost var es := ImageAttempt(jobId, db.jobs[jobId].file, fate, sizes);
    ImageAttemptRuns(db.State(), jobId, fate, sizes);
    RunKeepsInv(db.State(), es);
    HandleImageThumbnail(db, jobId, Some(db.jobs[jobId].file), fate, sizes);
  }

  /** The same for a transcode. */
  method ServeTranscode(db: Backend, jobId: Id, fate: VideoFate, entries: seq<string>, sizes: Key -> Int64)
    requires Inv(db.State()) && IsLive(db.State(), jobId) && db.jobs[jobId].kind == VideoTranscode
    requires forall key :: 0 <= sizes(key)
    modifies db
    ensures var es := VideoAttempt(jobId, old(db.jobs)[jobId].file, fate, entries, sizes);
            ValidRun(old(db.State()), es) && db.State() == Run(old(db.State()), es)
    ensures Inv(db.State())
  {
    ghost var es := VideoAttempt(jobId, db.jobs[jobId].file, fate, entries, sizes);
    VideoAttemptRuns(db.State(), jobId, fate, entries, sizes);
    RunKeepsInv(db.State(), es);
    HandleVideoTranscode(db, jobId, Some(db.jobs[jobId].file), fate, entries, sizes);
  }

  /** Serving any valid event performs its step and keeps every invariant. */
  method ServeEvent(db: Backend, e: Event, tusMeta: map<string, string>)
    requires Inv(db.State()) && Valid(db.State(), e)
    requires e.FinishTusEv? ==> tusMeta == db.uploads[e.uploadId].meta
    modifies db
    ensures db.State() == Apply(old(db.State()), e)
    ensures Inv(db.State())
  {
    StepKeepsInv(db.State(), e);
    if e.CreateFolderEv? || e.UpdateFolderEv? || e.DeleteFolderEv? {
      ServeFolders(db, e);
    } else if e.UpdateFileEv? || e.DeleteFileEv? || e.RestoreEv? {
      ServeFiles(db, e);
    } else if e.PresignEv? || e.PresignVersionEv? || e.CompleteEv? || e.AcceptTusEv? || e.FinishTusEv? {
      ServeUploads(db, e, tusMeta);
    } else if e.CreateShareEv? || e.DeleteShareEv? || e.DownloadEv? {
      ServeShares(db, e);
    } else {
      ServeStorage(db, e);
    }
  }
}

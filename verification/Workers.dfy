/** The image and video workers and the queue's retry rule, after backend/cmd/image-worker/handlers.go
    and backend/cmd/video-worker/handlers.go. A worker attempt is a number of object writes followed by
    one row update, so other requests may run between any two of them. */
module Workers {
  import opened Machine
  import opened Wrappers
  import opened Schema
  import opened ObjectKeys

  /** What an attempt returns to the queue. */
  datatype Result = Finished | Retryable | SkipRetry

  ghost predicate IsLive(s: Store, jobId: Id) {
    jobId in s.jobs && s.jobs[jobId].phase == Live
  }

  /** The keys an attempt may write, and those it has written when it reports success. */
  predicate MayWrite(kind: JobKind, file: Id, key: Key) {
    if kind == ImageThumbnail then key == Thumbnail(file) else key.Hls? && key.id == file
  }

  predicate WroteResults(job: Job) {
    if job.kind == ImageThumbnail then Thumbnail(job.file) in job.stored
    else PosterKey(job.file) in job.stored && MasterKey(job.file) in job.stored
  }

  // ---------- one object write ----------

  function AfterPut(s: Store, jobId: Id, key: Key, size: int): Store
    requires jobId in s.jobs
  {
    s.(objects := s.objects[key := size], jobs := s.jobs[jobId := s.jobs[jobId].(stored := s.jobs[jobId].stored + {key})])
  }

  method PutObject(db: Backend, jobId: Id, key: Key, size: int)
    requires jobId in db.jobs
    modifies db`objects, db`jobs
    ensures db.State() == AfterPut(old(db.State()), jobId, key, size)
  {
    db.objects := db.objects[key := size];
    var job := db.jobs[jobId];
    db.jobs := db.jobs[jobId := job.(stored := job.stored + {key})];
  }

  // ---------- the end of an attempt ----------

  /** A job is given up at once on a skip-retry error, otherwise once its retries are used up. */
  predicate IsTerminal(job: Job, result: Result) {
    result == SkipRetry || (result == Retryable && job.retried >= job.maxRetry)
  }

  function Processed(f: File, job: Job): File {
    match job.kind
    case ImageThumbnail => f.(thumbnail := Some(Thumbnail(job.file)), status := Ready)
    case VideoTranscode => f.(thumbnail := Some(PosterKey(job.file)), playlist := Some(MasterKey(job.file)), status := Ready)
  }

  /** The row after the attempt; a row deleted meanwhile is not recreated. */
  function RowAfter(files: map<Id, File>, job: Job, result: Result): map<Id, File> {
    if job.file !in files then files
    else if result == Finished then files[job.file := Processed(files[job.file], job)]
    else if IsTerminal(job, result) then files[job.file := files[job.file].(status := Failed)]
    else files
  }

  function JobAfter(job: Job, result: Result): Job {
    var counted := job.(attempts := job.attempts + 1, stored := {});
    if result == Finished then counted.(phase := Done)
    else if IsTerminal(job, result) then counted.(phase := Archived)
    else counted.(retried := job.retried + 1)
  }

  function AfterAttempt(s: Store, jobId: Id, result: Result): Store
    requires jobId in s.jobs
  {
    var job := s.jobs[jobId];
    s.(files := RowAfter(s.files, job, result), jobs := s.jobs[jobId := JobAfter(job, result)])
  }

  /** A task whose payload does not decode is archived at once, and no row is marked: which one is not known. */
  function AfterUnreadable(s: Store, jobId: Id): Store
    requires jobId in s.jobs
  {
    s.(jobs := s.jobs[jobId := JobAfter(s.jobs[jobId], SkipRetry)])
  }

  /** What the queue does when a handler returns: acknowledge, schedule a retry, or archive. */
  method Settle(db: Backend, jobId: Id, payload: Option<Id>, result: Result)
    requires jobId in db.jobs && (payload.Some? ==> payload.value == db.jobs[jobId].file)
    modifies db`files, db`jobs
    ensures result != Finished && payload.Some? ==> db.State() == AfterAttempt(old(db.State()), jobId, result)
    ensures result == Finished || payload.None? ==>
              db.State() == old(db.State()).(jobs := old(db.jobs)[jobId := JobAfter(old(db.jobs)[jobId], result)])
  {
    var job := db.jobs[jobId];
    var next := job.(attempts := job.attempts + 1, stored := {});
    if result == Finished {
      db.jobs := db.jobs[jobId := next.(phase := Done)];
      return;
    }
    HandleTaskError(db, job.kind, job.kind, payload, job, result);
    var archived := result == SkipRetry || job.retried >= job.maxRetry;
    db.jobs := db.jobs[jobId := if archived then next.(phase := Archived) else next.(retried := job.retried + 1)];
  }

  /** The row that a worker's error handler marks as failed, if any. */
  function Marked(worker: JobKind, task: JobKind, payload: Option<Id>, job: Job, result: Result): Option<Id> {
    if IsTerminal(job, result) && task == worker then payload else None
  }

  method HandleTaskError(db: Backend, worker: JobKind, task: JobKind, payload: Option<Id>, job: Job, result: Result)
    requires result != Finished
    modifies db`files
    ensures var marked := Marked(worker, task, payload, job, result);
            db.files == if marked.Some? && marked.value in old(db.files)
                        then old(db.files)[marked.value := old(db.files)[marked.value].(status := Failed)]
                        else old(db.files)
    ensures task != worker || payload.None? || (result == Retryable && job.retried < job.maxRetry) ==> db.files == old(db.files)
    ensures task == worker && payload.Some? && payload.value in old(db.files)
            && (result == SkipRetry || job.retried >= job.maxRetry) ==>
              db.files == old(db.files)[payload.value := old(db.files)[payload.value].(status := Failed)]
  {
    var terminal := result == SkipRetry;
    if !terminal { terminal := job.retried >= job.maxRetry; }
    if !terminal { return; }
    if task != worker { return; }
    if payload.None? { return; }
    UpdateRow(db, payload.value, (f: File) => f.(status := Failed));
  }

  /** UPDATE .. WHERE id: nothing happens when the row is gone. */
  method UpdateRow(db: Backend, id: Id, change: File -> File)
    modifies db`files
    ensures db.files == if id in old(db.files) then old(db.files)[id := change(old(db.files)[id])] else old(db.files)
  {
    if id in db.files { db.files := db.files[id := change(db.files[id])]; }
  }

  // ---------- whole attempts, run without interruption ----------

  datatype ImageFate = FetchFails | DecodeFails | EncodeFails | PutFails | UpdateFails | AllWell

  function ImageResult(fate: ImageFate): Result {
    match fate case AllWell => Finished case DecodeFails => SkipRetry case _ => Retryable
  }

  /** The objects an attempt stores before it ends. */
  function ImageWrites(file: Id, fate: ImageFate): seq<Key> {
    if fate == UpdateFails || fate == AllWell then [Thumbnail(file)] else []
  }

  ghost function AfterImageAttempt(s: Store, jobId: Id, payload: Option<Id>, fate: ImageFate, sizes: Key -> Int64): Store
    requires jobId in s.jobs
  {
    if payload.None? then AfterUnreadable(s, jobId)
    else AfterAttempt(AfterPuts(s, jobId, ImageWrites(s.jobs[jobId].file, fate), sizes), jobId, ImageResult(fate))
  }

  method HandleImageThumbnail(db: Backend, jobId: Id, payload: Option<Id>, fate: ImageFate, sizes: Key -> Int64)
    requires jobId in db.jobs && db.jobs[jobId].kind == ImageThumbnail
    requires payload.Some? ==> payload.value == db.jobs[jobId].file
    modifies db
    ensures db.State() == AfterImageAttempt(old(db.State()), jobId, payload, fate, sizes)
  {
    if payload.None? { Settle(db, jobId, payload, SkipRetry); return; }
    var file := payload.value;
    if fate == FetchFails { Settle(db, jobId, payload, Retryable); return; }
    if fate == DecodeFails { Settle(db, jobId, payload, SkipRetry); return; }
    if fate == EncodeFails { Settle(db, jobId, payload, Retryable); return; }
    var thumbnailKey := Thumbnail(file);
    if fate == PutFails { Settle(db, jobId, payload, Retryable); return; }
    PutOne(db.State(), jobId, thumbnailKey, sizes);
    PutObject(db, jobId, thumbnailKey, sizes(thumbnailKey));
    if fate == UpdateFails { Settle(db, jobId, payload, Retryable); return; }
    FinishThumbnail(db, jobId, file, thumbnailKey);
  }

  method FinishThumbnail(db: Backend, jobId: Id, file: Id, thumbnailKey: Key)
    requires jobId in db.jobs && db.jobs[jobId].kind == ImageThumbnail && db.jobs[jobId].file == file
    requires thumbnailKey == Thumbnail(file)
    modifies db
    ensures db.State() == AfterAttempt(old(db.State()), jobId, Finished)
  {
    UpdateRow(db, file, (f: File) => f.(thumbnail := Some(thumbnailKey), status := Ready));
    Settle(db, jobId, Some(file), Finished);
  }

  lemma PutOne(s: Store, jobId: Id, key: Key, sizes: Key -> Int64)
    requires jobId in s.jobs
    ensures AfterPuts(s, jobId, [key], sizes) == AfterPut(s, jobId, key, sizes(key))
  {
    assert [key][..0] == [];
  }

  datatype VideoFate = DownloadFails | ProbeFails | LocalFails | StoreFails(written: nat) | RowUpdateFails | VideoDone

  function VideoResult(fate: VideoFate): Result {
    match fate case VideoDone => Finished case ProbeFails => SkipRetry case _ => Retryable
  }

  /** The object keys of one transcode in the order they are written. */
  function Uploads(file: Id, entries: seq<string>): seq<Key> {
    [PosterKey(file)] + EntryKeys(file, entries) + [MasterKey(file)]
  }

  function EntryKeys(file: Id, entries: seq<string>): seq<Key> {
    if entries == [] then []
    else EntryKeys(file, entries[..|entries| - 1])
         + if entries[|entries| - 1] == "poster.jpg" then [] else [Hls(file, entries[|entries| - 1])]
  }

  function AfterPuts(s: Store, jobId: Id, keys: seq<Key>, sizes: Key -> Int64): Store
    requires jobId in s.jobs
    ensures jobId in AfterPuts(s, jobId, keys, sizes).jobs
  {
    if keys == [] then s
    else AfterPut(AfterPuts(s, jobId, keys[..|keys| - 1], sizes), jobId, keys[|keys| - 1], sizes(keys[|keys| - 1]))
  }

  /** How many of the uploads happen before the attempt ends. */
  function Written(fate: VideoFate, total: nat): nat {
    match fate
    case StoreFails(n) => if n < total then n else total
    case RowUpdateFails => total
    case VideoDone => total
    case _ => 0
  }

  function VideoWrites(file: Id, fate: VideoFate, entries: seq<string>): seq<Key> {
    var keys := Uploads(file, entries);
    keys[..Written(fate, |keys|)]
  }

  ghost function AfterVideoAttempt(s: Store, jobId: Id, payload: Option<Id>, fate: VideoFate, entries: seq<string>,
                                   sizes: Key -> Int64): Store
    requires jobId in s.jobs
  {
    if payload.None? then AfterUnreadable(s, jobId)
    else
      AfterAttempt(AfterPuts(s, jobId, VideoWrites(s.jobs[jobId].file, fate, entries), sizes), jobId, VideoResult(fate))
  }

  /** The keys of every entry but the poster, gathered in directory order. */
  method UploadKeys(file: Id, entries: seq<string>) returns (keys: seq<Key>)
    ensures keys == Uploads(file, entries)
  {
    keys := [];
    for i := 0 to |entries|
      invariant keys == EntryKeys(file, entries[..i])
    {
      assert entries[..i + 1][..i] == entries[..i];
      if entries[i] != "poster.jpg" { keys := keys + [Hls(file, entries[i])]; }
    }
    assert entries[..|entries|] == entries;
    keys := [PosterKey(file)] + keys + [MasterKey(file)];
  }

  method PutAll(db: Backend, jobId: Id, keys: seq<Key>, sizes: Key -> Int64)
    requires jobId in db.jobs
    modifies db`objects, db`jobs
    ensures db.State() == AfterPuts(old(db.State()), jobId, keys, sizes)
  {
    for i := 0 to |keys|
      invariant jobId in db.jobs
      invariant db.State() == AfterPuts(old(db.State()), jobId, keys[..i], sizes)
    {
      assert keys[..i + 1][..i] == keys[..i];
      PutObject(db, jobId, keys[i], sizes(keys[i]));
    }
    assert keys[..|keys|] == keys;
  }

  method HandleVideoTranscode(db: Backend, jobId: Id, payload: Option<Id>, fate: VideoFate, entries: seq<string>,
                              sizes: Key -> Int64)
    requires jobId in db.jobs && db.jobs[jobId].kind == VideoTranscode
    requires payload.Some? ==> payload.value == db.jobs[jobId].file
    modifies db
    ensures db.State() == AfterVideoAttempt(old(db.State()), jobId, payload, fate, entries, sizes)
  {
    if payload.None? { Settle(db, jobId, payload, SkipRetry); return; }
    Transcode(db, jobId, payload.value, fate, entries, sizes);
  }

  method Transcode(db: Backend, jobId: Id, file: Id, fate: VideoFate, entries: seq<string>, sizes: Key -> Int64)
    requires jobId in db.jobs && db.jobs[jobId].kind == VideoTranscode && db.jobs[jobId].file == file
    modifies db
    ensures db.State() == AfterVideoAttempt(old(db.State()), jobId, Some(file), fate, entries, sizes)
  {
    var keys := UploadKeys(file, entries);
    ghost var s := db.State();
    PutsKeepJob(s, jobId, keys[..Written(fate, |keys|)], sizes);
    PutAll(db, jobId, keys[..Written(fate, |keys|)], sizes);
    if fate == VideoDone {
      UpdateRow(db, file,
        (f: File) => f.(thumbnail := Some(PosterKey(file)), playlist := Some(MasterKey(file)), status := Ready));
      Settle(db, jobId, Some(file), Finished);
    } else if fate == ProbeFails {
      Settle(db, jobId, Some(file), SkipRetry);
    } else {
      Settle(db, jobId, Some(file), Retryable);
    }
  }

  /** Writing objects changes nothing else, and records every key. */
  lemma {:induction false} PutsKeepJob(s: Store, jobId: Id, keys: seq<Key>, sizes: Key -> Int64)
    requires jobId in s.jobs
    ensures var t := AfterPuts(s, jobId, keys, sizes);
            && t.files == s.files && jobId in t.jobs
            && t.jobs[jobId] == s.jobs[jobId].(stored := s.jobs[jobId].stored + set k | k in keys)
    decreases |keys|
  {
    if keys != [] {
      var n := |keys| - 1;
      PutsKeepJob(s, jobId, keys[..n], sizes);
      assert keys == keys[..n] + [keys[n]];
    }
  }

  /** An attempt that reports success has written every object its row update names. */
  lemma SuccessfulTranscodeWrites(s: Store, jobId: Id, entries: seq<string>, sizes: Key -> Int64)
    requires jobId in s.jobs && s.jobs[jobId].kind == VideoTranscode
    ensures var keys := Uploads(s.jobs[jobId].file, entries);
            WroteResults(AfterPuts(s, jobId, keys, sizes).jobs[jobId])
  {
    var keys := Uploads(s.jobs[jobId].file, entries);
    PutsKeepJob(s, jobId, keys, sizes);
    assert keys[0] == PosterKey(s.jobs[jobId].file) && keys[|keys| - 1] == MasterKey(s.jobs[jobId].file);
  }
}

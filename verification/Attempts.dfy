/** The worker handlers as runs of the machine: an attempt is its object writes followed by its end, whether it
    runs on its own or between the steps of others. */
module Attempts {
  import opened Machine
  import opened Wrappers
  import opened Schema
  import opened ObjectKeys
  import opened Workers
  import opened Invariants
  import opened Runs
  import opened JobHistory

  // ---------- an attempt on its own ----------

  function Puts(jobId: Id, keys: seq<Key>, sizes: Key -> Int64): seq<Event> {
    if keys == [] then []
    else Puts(jobId, keys[..|keys| - 1], sizes) + [WorkerPutEv(jobId, keys[|keys| - 1], sizes(keys[|keys| - 1]))]
  }

  ghost predicate Writable(job: Job, keys: seq<Key>, sizes: Key -> Int64) {
    (forall key | key in keys :: MayWrite(job.kind, job.file, key)) && forall key :: 0 <= sizes(key)
  }

  lemma {:induction false} PutsRun(s: Store, jobId: Id, keys: seq<Key>, sizes: Key -> Int64)
    requires IsLive(s, jobId) && Writable(s.jobs[jobId], keys, sizes)
    ensures ValidRun(s, Puts(jobId, keys, sizes))
    ensures Run(s, Puts(jobId, keys, sizes)) == AfterPuts(s, jobId, keys, sizes)
    decreases |keys|
  {
    if keys != [] {
      var n := |keys| - 1;
      PutsRun(s, jobId, keys[..n], sizes);
      PutsKeepJob(s, jobId, keys[..n], sizes);
      var t := AfterPuts(s, jobId, keys[..n], sizes);
      assert keys[n] in keys;
      LastStep(t, WorkerPutEv(jobId, keys[n], sizes(keys[n])));
      RunThen(s, Puts(jobId, keys[..n], sizes), [WorkerPutEv(jobId, keys[n], sizes(keys[n]))]);
    }
  }

  function Attempt(jobId: Id, keys: seq<Key>, sizes: Key -> Int64, result: Result): seq<Event> {
    Puts(jobId, keys, sizes) + [WorkerEndEv(jobId, result)]
  }

  lemma AttemptRuns(s: Store, jobId: Id, keys: seq<Key>, sizes: Key -> Int64, result: Result)
    requires IsLive(s, jobId) && Writable(s.jobs[jobId], keys, sizes)
    requires result == Finished ==> WroteResults(AfterPuts(s, jobId, keys, sizes).jobs[jobId])
    ensures ValidRun(s, Attempt(jobId, keys, sizes, result))
    ensures Run(s, Attempt(jobId, keys, sizes, result)) == AfterAttempt(AfterPuts(s, jobId, keys, sizes), jobId, result)
  {
    var t := AfterPuts(s, jobId, keys, sizes);
    PutsRun(s, jobId, keys, sizes);
    PutsKeepJob(s, jobId, keys, sizes);
    LastStep(t, WorkerEndEv(jobId, result));
    RunThen(s, Puts(jobId, keys, sizes), [WorkerEndEv(jobId, result)]);
  }

  function ImageAttempt(jobId: Id, file: Id, fate: ImageFate, sizes: Key -> Int64): seq<Event> {
    Attempt(jobId, ImageWrites(file, fate), sizes, ImageResult(fate))
  }

  /** However it ends, handling a thumbnail task is a valid run of the machine. */
  lemma ImageAttemptRuns(s: Store, jobId: Id, fate: ImageFate, sizes: Key -> Int64)
    requires IsLive(s, jobId) && s.jobs[jobId].kind == ImageThumbnail && forall key :: 0 <= sizes(key)
    ensures var file := s.jobs[jobId].file;
            var es := ImageAttempt(jobId, file, fate, sizes);
            ValidRun(s, es) && Run(s, es) == AfterImageAttempt(s, jobId, Some(file), fate, sizes)
  {
    var keys := ImageWrites(s.jobs[jobId].file, fate);
    PutsKeepJob(s, jobId, keys, sizes);
    if fate == AllWell { assert keys[0] in keys; }
    AttemptRuns(s, jobId, keys, sizes, ImageResult(fate));
  }

  function VideoAttempt(jobId: Id, file: Id, fate: VideoFate, entries: seq<string>, sizes: Key -> Int64): seq<Event> {
    Attempt(jobId, VideoWrites(file, fate, entries), sizes, VideoResult(fate))
  }

  lemma UploadsAreHls(file: Id, entries: seq<string>)
    ensures forall key | key in Uploads(file, entries) :: key.Hls? && key.id == file
  {
    EntriesAreHls(file, entries);
  }

  lemma {:induction false} EntriesAreHls(file: Id, entries: seq<string>)
    ensures forall key | key in EntryKeys(file, entries) :: key.Hls? && key.id == file
  {
    if entries != [] { EntriesAreHls(file, entries[..|entries| - 1]); }
  }

  /** However it ends, and wherever it stops, a transcode is a valid run of the machine. In particular one that
      reports success has written the poster and the master playlist. */
  lemma VideoAttemptRuns(s: Store, jobId: Id, fate: VideoFate, entries: seq<string>, sizes: Key -> Int64)
    requires IsLive(s, jobId) && s.jobs[jobId].kind == VideoTranscode && forall key :: 0 <= sizes(key)
    ensures var file := s.jobs[jobId].file;
            var es := VideoAttempt(jobId, file, fate, entries, sizes);
            ValidRun(s, es) && Run(s, es) == AfterVideoAttempt(s, jobId, Some(file), fate, entries, sizes)
  {
    var file := s.jobs[jobId].file;
    var all, keys := Uploads(file, entries), VideoWrites(file, fate, entries);
    UploadsAreHls(file, entries);
    if fate == VideoDone {
      assert all[..|all|] == all;
      SuccessfulTranscodeWrites(s, jobId, entries, sizes);
    }
    AttemptRuns(s, jobId, keys, sizes, VideoResult(fate));
  }

  /** How an attempt ends for the row and its job, with so many retries allowed: ready and done; failed and archived,
      at once when trying again is no use and otherwise when the retries are used up; or left for the next attempt. */
  ghost predicate EndsAs(s: Store, t: Store, jobId: Id, done: bool, hopeless: bool, retries: nat)
    requires jobId in s.jobs
  {
    var job := s.jobs[jobId];
    var failed := !done && (hopeless || job.retried >= retries);
    && jobId in t.jobs && job.file in t.files
    && t.files[job.file].status == (if done then Ready else if failed then Failed else Processing)
    && t.jobs[jobId].phase == (if done then Done else if failed then Archived else Live)
    && t.jobs[jobId].retried == job.retried + (if done || failed then 0 else 1)
    && t.files - {job.file} == s.files - {job.file} && t.jobs - {jobId} == s.jobs - {jobId}
  }

  lemma AttemptEndsAs(s: Store, t: Store, jobId: Id, result: Result, retries: nat)
    requires Inv(s) && IsLive(s, jobId) && s.jobs[jobId].file in s.files && s.jobs[jobId].maxRetry == retries
    requires t.files == s.files && jobId in t.jobs && t.jobs == s.jobs[jobId := t.jobs[jobId]]
    requires t.jobs[jobId] == s.jobs[jobId].(stored := t.jobs[jobId].stored)
    ensures EndsAs(s, AfterAttempt(t, jobId, result), jobId, result == Finished, result == SkipRetry, retries)
  {
    LiveJobRow(s.files, s.jobs, s.stranded, s.issued, jobId);
    var u := AfterAttempt(t, jobId, result);
    assert u.files - {s.jobs[jobId].file} == s.files - {s.jobs[jobId].file};
    assert u.jobs - {jobId} == s.jobs - {jobId};
  }

  /** A thumbnail attempt is retried up to five times after any failure but one: an image that can not be decoded. */
  lemma ImageAttemptEndsAs(s: Store, jobId: Id, fate: ImageFate, sizes: Key -> Int64)
    requires Inv(s) && IsLive(s, jobId) && s.jobs[jobId].kind == ImageThumbnail && s.jobs[jobId].file in s.files
    ensures var file := s.jobs[jobId].file;
            var t := AfterImageAttempt(s, jobId, Some(file), fate, sizes);
            && EndsAs(s, t, jobId, fate == AllWell, fate == DecodeFails, 5)
            && (fate == AllWell ==> t.files[file].thumbnail == Some(Thumbnail(file)) && Thumbnail(file) in t.objects)
            && (fate !in {UpdateFails, AllWell} ==> t.objects == s.objects)
  {
    var keys := ImageWrites(s.jobs[jobId].file, fate);
    PutsKeepJob(s, jobId, keys, sizes);
    PutsKeepOthers(s, jobId, keys, sizes);
    AttemptEndsAs(s, AfterPuts(s, jobId, keys, sizes), jobId, ImageResult(fate), 5);
    if fate == AllWell { assert keys == [Thumbnail(s.jobs[jobId].file)]; }
  }

  /** A transcode is retried up to twice after any failure but one: a video that can not be probed. */
  lemma VideoAttemptEndsAs(s: Store, jobId: Id, fate: VideoFate, entries: seq<string>, sizes: Key -> Int64)
    requires Inv(s) && IsLive(s, jobId) && s.jobs[jobId].kind == VideoTranscode && s.jobs[jobId].file in s.files
    ensures var file := s.jobs[jobId].file;
            var t := AfterVideoAttempt(s, jobId, Some(file), fate, entries, sizes);
            EndsAs(s, t, jobId, fate == VideoDone, fate == ProbeFails, 2)
  {
    var file := s.jobs[jobId].file;
    var keys := VideoWrites(file, fate, entries);
    PutsKeepJob(s, jobId, keys, sizes);
    PutsKeepOthers(s, jobId, keys, sizes);
    AttemptEndsAs(s, AfterPuts(s, jobId, keys, sizes), jobId, VideoResult(fate), 2);
  }

  /** A transcode that succeeds has stored the poster, every file of the output and the master playlist. */
  lemma TranscodeStores(s: Store, jobId: Id, entries: seq<string>, sizes: Key -> Int64)
    requires IsLive(s, jobId) && s.jobs[jobId].kind == VideoTranscode && s.jobs[jobId].file in s.files
    ensures var file := s.jobs[jobId].file;
            var t := AfterVideoAttempt(s, jobId, Some(file), VideoDone, entries, sizes);
            && file in t.files
            && t.files[file].thumbnail == Some(PosterKey(file)) && t.files[file].playlist == Some(MasterKey(file))
            && PosterKey(file) in t.objects && MasterKey(file) in t.objects
            && forall i | 0 <= i < |entries| :: Hls(file, entries[i]) in t.objects
  {
    var file := s.jobs[jobId].file;
    var keys := Uploads(file, entries);
    assert VideoWrites(file, VideoDone, entries) == keys;
    PutsKeepJob(s, jobId, keys, sizes);
    AllStored(s, jobId, keys, sizes);
    UploadsComplete(file, entries);
  }

  lemma AllStored(s: Store, jobId: Id, keys: seq<Key>, sizes: Key -> Int64)
    requires jobId in s.jobs
    ensures forall key | key in keys :: key in AfterPuts(s, jobId, keys, sizes).objects
  {
    PutsKeepOthers(s, jobId, keys, sizes);
  }

  /** Puts add their objects, and touch no other job. */
  lemma {:induction false} PutsKeepOthers(s: Store, jobId: Id, keys: seq<Key>, sizes: Key -> Int64)
    requires jobId in s.jobs
    ensures var t := AfterPuts(s, jobId, keys, sizes);
            && t.jobs == s.jobs[jobId := t.jobs[jobId]]
            && t.objects.Keys == s.objects.Keys + (set k | k in keys)
            && (keys == [] ==> t.objects == s.objects)
    decreases |keys|
  {
    if keys != [] {
      var n := |keys| - 1;
      PutsKeepOthers(s, jobId, keys[..n], sizes);
      assert keys == keys[..n] + [keys[n]];
    }
  }

  lemma UploadsComplete(file: Id, entries: seq<string>)
    ensures PosterKey(file) in Uploads(file, entries) && MasterKey(file) in Uploads(file, entries)
    ensures forall i | 0 <= i < |entries| :: Hls(file, entries[i]) in Uploads(file, entries)
  {
    var keys := Uploads(file, entries);
    assert keys[0] == PosterKey(file) && keys[|keys| - 1] == MasterKey(file);
    forall i | 0 <= i < |entries| ensures Hls(file, entries[i]) in keys {
      if entries[i] == "poster.jpg" { assert Hls(file, entries[i]) == keys[0]; } else { EntryKept(file, entries, i); }
    }
  }

  lemma {:induction false} EntryKept(file: Id, entries: seq<string>, i: nat)
    requires i < |entries| && entries[i] != "poster.jpg"
    ensures Hls(file, entries[i]) in EntryKeys(file, entries)
    decreases |entries|
  {
    var n := |entries| - 1;
    if i < n { EntryKept(file, entries[..n], i); }
  }

  // ---------- an attempt among other steps ----------

  /** What a job's attempt has written in the course of a run. */
  function WrittenIn(es: seq<Event>, jobId: Id): set<Key> {
    if es == [] then {}
    else WrittenBy(es[0], jobId) + WrittenIn(es[1..], jobId)
  }

  function WrittenBy(e: Event, jobId: Id): set<Key> {
    if e.WorkerPutEv? && e.jobId == jobId then {e.key} else {}
  }

  ghost predicate OnlyWrote(jobs: Jobs, ks: Jobs, jobId: Id, keys: set<Key>) {
    && jobId in jobs && jobId in ks
    && ks[jobId] == jobs[jobId].(stored := jobs[jobId].stored + keys)
  }

  lemma WroteThen(jobs: Jobs, ks: Jobs, ls: Jobs, jobId: Id, a: set<Key>, b: set<Key>)
    requires OnlyWrote(jobs, ks, jobId, a) && OnlyWrote(ks, ls, jobId, b)
    ensures OnlyWrote(jobs, ls, jobId, a + b)
  {
    assert jobs[jobId].stored + a + b == jobs[jobId].stored + (a + b);
  }

  predicate Ends(e: Event, jobId: Id) {
    e.WorkerEndEv? && e.jobId == jobId
  }

  lemma StepKeepsStored(s: Store, e: Event, jobId: Id)
    requires IdsOk(s) && Valid(s, e) && jobId in s.jobs && !Ends(e, jobId)
    ensures OnlyWrote(s.jobs, Apply(s, e).jobs, jobId, WrittenBy(e, jobId))
  {
    if e.CompleteEv? || e.FinishTusEv? {
      EnqueueMovesJob(s, e, jobId);
    } else if !e.WorkerPutEv? && !e.WorkerEndEv? {
      QuietStepMovesJob(s, e);
    }
  }

  /** Until it ends, an attempt's job stays live and remembers what was written, whatever else happens. */
  lemma {:induction false} AttemptUnderWay(s: Store, es: seq<Event>, jobId: Id)
    requires Inv(s) && ValidRun(s, es) && jobId in s.jobs
    requires forall e | e in es :: !Ends(e, jobId)
    ensures OnlyWrote(s.jobs, Run(s, es).jobs, jobId, WrittenIn(es, jobId))
    decreases |es|
  {
    if es != [] {
      var t := Apply(s, es[0]);
      StepKeepsInv(s, es[0]);
      StepKeepsStored(s, es[0], jobId);
      AttemptUnderWay(t, es[1..], jobId);
      WroteThen(s.jobs, t.jobs, Run(t, es[1..]).jobs, jobId, WrittenBy(es[0], jobId), WrittenIn(es[1..], jobId));
    }
  }

  /** So a worker that reports success after its last write does what the machine expects of it, even when other
      requests, deletes included, ran between its writes. */
  lemma SuccessIsValid(s: Store, es: seq<Event>, jobId: Id, entries: seq<string>)
    requires Inv(s) && ValidRun(s, es) && IsLive(s, jobId)
    requires forall e | e in es :: !Ends(e, jobId)
    requires var job := s.jobs[jobId];
             var keys := if job.kind == ImageThumbnail then ImageWrites(job.file, AllWell) else Uploads(job.file, entries);
             forall key | key in keys :: key in WrittenIn(es, jobId)
    ensures Valid(Run(s, es), WorkerEndEv(jobId, Finished))
  {
    AttemptUnderWay(s, es, jobId);
    var file := s.jobs[jobId].file;
    if s.jobs[jobId].kind == ImageThumbnail {
      assert ImageWrites(file, AllWell)[0] == Thumbnail(file);
    } else {
      var keys := Uploads(file, entries);
      assert keys[0] == PosterKey(file) && keys[|keys| - 1] == MasterKey(file);
    }
  }

  // ---------- a payload that does not decode ----------

  /** The error handler cannot tell which row such a task was for: a row still there stays processing with no
      task left to settle it. */
  lemma UnreadableStrands(s: Store, jobId: Id)
    requires Inv(s) && IsLive(s, jobId) && s.jobs[jobId].file in s.files
    ensures var t, file := AfterUnreadable(s, jobId), s.jobs[jobId].file;
            t.files == s.files && t.files[file].status == Processing && LiveJobs(t.jobs, file) == {}
  {
    LiveJobRow(s.files, s.jobs, s.stranded, s.issued, jobId);
  }
}

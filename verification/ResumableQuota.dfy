/** Resumable uploads are checked when they are accepted and counted when they finish: what accepting several
    of them at once does to a quota. */
module ResumableQuota {
  import opened Machine
  import opened Wrappers
  import opened Schema
  import opened Sums
  import opened ObjectKeys
  import opened UploadSvc
  import opened Runs

  /** An upload that is accepted for one size and finishes with another, and the ids of its row and its task. */
  datatype Tus = Tus(meta: map<string, string>, accepted: Int64, uploadId: string,
                     size: Int64, newId: Id, jobId: Id, enqueued: bool)

  function Accept(user: Id, t: Tus): Event {
    AcceptTusEv(Some(user), t.meta, t.accepted, t.uploadId)
  }

  function Accepting(user: Id, ts: seq<Tus>): seq<Event> {
    if ts == [] then []
    else [Accept(user, ts[0])] + Accepting(user, ts[1..])
  }

  function Finish(t: Tus): Event {
    FinishTusEv(t.uploadId, t.size, t.newId, t.jobId, true, t.enqueued)
  }

  function Finishing(ts: seq<Tus>): seq<Event> {
    if ts == [] then [] else [Finish(ts[0])] + Finishing(ts[1..])
  }

  /** Bytes that the uploads add. */
  function Total(ts: seq<Tus>): int {
    if ts == [] then 0 else ts[0].size + Total(ts[1..])
  }

  predicate Apart(t: Tus, v: Tus) {
    t.uploadId != v.uploadId && {t.newId, t.jobId} !! {v.newId, v.jobId}
  }

  predicate AllApart(ts: seq<Tus>) {
    forall i, j | 0 <= i < j < |ts| :: Apart(ts[i], ts[j])
  }

  predicate NewIds(issued: set<Id>, t: Tus) {
    t.newId !in issued && t.jobId !in issued && t.newId != t.jobId && 0 <= t.size
  }

  predicate UnderWay(s: Store, user: Id, t: Tus) {
    t.uploadId in s.uploads && OwnerOf(s.uploads[t.uploadId]) == Some(user) && NewIds(s.issued, t)
  }

  /** Each could be accepted now. */
  ghost predicate Acceptable(s: Store, user: Id, t: Tus) {
    && 0 <= t.accepted && t.uploadId !in s.uploads && NewIds(s.issued, t)
    && PreCreateVerdict(s, Some(user), t.meta, t.accepted) == Success
  }

  // ---------- finishing ----------

  /** A resumable upload adds its bytes when it finishes, whatever the check said when it was accepted. */
  lemma FinishAdds(s: Store, uploadId: string, meta: map<string, string>, user: Id, size: Int64,
                   newId: Id, jobId: Id, enqueued: bool)
    requires newId !in s.files && ParseUuid(Meta(meta, "user_id")) == Some(user)
    ensures var t := AfterFinishTus(s, uploadId, meta, size, newId, jobId, true, enqueued);
            Used(t.files, user) == Used(s.files, user) + size && t.quotas == s.quotas
  {
    FinishTusRows(s, uploadId, meta, size, newId, jobId, true, enqueued);
    var gs := AfterFinishTus(s, uploadId, meta, size, newId, jobId, true, enqueued).files;
    assert SizesOf(gs, user) == SizesOf(s.files, user)[newId := size];
    SumAdded(SizesOf(s.files, user), newId, size);
  }

  /** Uploads drop out of the list, and nothing else about them changes but whether they are alone. */
  ghost predicate OthersStay(s: Store, t: Tus, u: Store) {
    && u.uploads.Keys == s.uploads.Keys - {t.uploadId} && u.issued <= s.issued + {t.newId, t.jobId}
    && forall a | a in u.uploads :: OwnerOf(u.uploads[a]) == OwnerOf(s.uploads[a])
  }

  lemma LandedLeavesOthers(s: Store, t: Tus, row: File, covered: int)
    requires IdsOk(s) && t.uploadId in s.uploads
    ensures var w := WithTusRow(s.(uploads := s.uploads - {t.uploadId}), t.newId, row, covered);
            var u := AfterEnqueue(w, row.mime, t.newId, t.jobId, t.enqueued);
            IdsOk(u) && OthersStay(s, t, u)
  {
    var w := WithTusRow(s.(uploads := s.uploads - {t.uploadId}), t.newId, row, covered);
    EnqueueRows(w, row.mime, t.newId, t.jobId, t.enqueued);
  }

  lemma FinishStep(s: Store, user: Id, t: Tus)
    requires IdsOk(s) && UnderWay(s, user, t)
    ensures Valid(s, Finish(t))
    ensures var u := Apply(s, Finish(t));
            && IdsOk(u) && OthersStay(s, t, u)
            && u.quotas == s.quotas && Used(u.files, user) == Used(s.files, user) + t.size
  {
    var meta := s.uploads[t.uploadId].meta;
    LandedLeavesOthers(s, t, TusRow(meta, t.uploadId, user, t.size, t.newId), Covered(s.uploads, t.uploadId));
    FinishAdds(s, t.uploadId, meta, user, t.size, t.newId, t.jobId, t.enqueued);
  }

  lemma StillUnderWay(s: Store, user: Id, ts: seq<Tus>, u: Store)
    requires ts != [] && AllApart(ts) && OthersStay(s, ts[0], u) && forall t | t in ts :: UnderWay(s, user, t)
    ensures AllApart(ts[1..]) && forall t | t in ts[1..] :: UnderWay(u, user, t)
  {
    RestApart(ts);
    forall t | t in ts[1..] ensures UnderWay(u, user, t) { assert Apart(ts[0], t) && UnderWay(s, user, t); }
  }

  lemma RestApart(ts: seq<Tus>)
    requires ts != [] && AllApart(ts)
    ensures AllApart(ts[1..]) && forall t | t in ts[1..] :: Apart(ts[0], t)
  {
    forall i | 0 <= i < |ts[1..]| ensures Apart(ts[0], ts[1..][i]) { assert Apart(ts[0], ts[i + 1]); }
    forall i, j | 0 <= i < j < |ts[1..]| ensures Apart(ts[1..][i], ts[1..][j]) { assert Apart(ts[i + 1], ts[j + 1]); }
  }

  /** However many uploads of a user are under way, and of whatever sizes: they can all finish, and afterwards
      the user is within quota exactly when there was room for all of them. */
  lemma {:induction false} FinishAllIff(s: Store, user: Id, ts: seq<Tus>)
    requires IdsOk(s) && user in s.quotas && AllApart(ts)
    requires forall t | t in ts :: UnderWay(s, user, t)
    ensures ValidRun(s, Finishing(ts))
    ensures var u := Run(s, Finishing(ts));
            && u.quotas == s.quotas && Used(u.files, user) == Used(s.files, user) + Total(ts)
            && (Used(u.files, user) <= u.quotas[user] <==> Used(s.files, user) + Total(ts) <= s.quotas[user])
    decreases |ts|
  {
    if ts != [] {
      FinishStep(s, user, ts[0]);
      var u := Apply(s, Finish(ts[0]));
      StillUnderWay(s, user, ts, u);
      FinishAllIff(u, user, ts[1..]);
      RunStep(s, Finish(ts[0]), u, Finishing(ts[1..]));
    }
  }

  // ---------- accepting ----------

  /** One more upload is under way, and nothing else is different. */
  ghost predicate Joined(s: Store, user: Id, t: Tus, u: Store) {
    && t.uploadId !in s.uploads && t.uploadId in u.uploads && OwnerOf(u.uploads[t.uploadId]) == Some(user)
    && u == s.(uploads := s.uploads[t.uploadId := u.uploads[t.uploadId]])
  }

  lemma AcceptStep(s: Store, user: Id, t: Tus)
    requires Acceptable(s, user, t)
    ensures Valid(s, Accept(user, t)) && Joined(s, user, t, Apply(s, Accept(user, t)))
  {
    UuidTextParses(user);
  }

  /** An acceptance does not count against the next: the others are as acceptable as before. */
  lemma StillAcceptable(s: Store, user: Id, ts: seq<Tus>, u: Store)
    requires ts != [] && AllApart(ts) && Joined(s, user, ts[0], u) && forall t | t in ts :: Acceptable(s, user, t)
    ensures AllApart(ts[1..]) && forall t | t in ts[1..] :: Acceptable(u, user, t)
  {
    RestApart(ts);
    forall t | t in ts[1..] ensures Acceptable(u, user, t) { assert Apart(ts[0], t) && Acceptable(s, user, t); }
  }

  /** Nothing but the list of uploads grew. */
  ghost predicate Grown(s: Store, u: Store) {
    && u == s.(uploads := u.uploads) && s.uploads.Keys <= u.uploads.Keys
    && forall a | a in s.uploads :: u.uploads[a] == s.uploads[a]
  }

  lemma {:induction false} AcceptAll(s: Store, user: Id, ts: seq<Tus>)
    requires AllApart(ts) && forall t | t in ts :: Acceptable(s, user, t)
    ensures ValidRun(s, Accepting(user, ts))
    ensures var u := Run(s, Accepting(user, ts));
            Grown(s, u) && forall t | t in ts :: UnderWay(u, user, t)
    decreases |ts|
  {
    if ts != [] {
      AcceptStep(s, user, ts[0]);
      var w := Apply(s, Accept(user, ts[0]));
      StillAcceptable(s, user, ts, w);
      AcceptAll(w, user, ts[1..]);
      RunStep(s, Accept(user, ts[0]), w, Accepting(user, ts[1..]));
      FirstUnderWay(s, user, ts[0], w, Run(w, Accepting(user, ts[1..])));
    }
  }

  lemma FirstUnderWay(s: Store, user: Id, t: Tus, w: Store, u: Store)
    requires Acceptable(s, user, t) && Joined(s, user, t, w) && Grown(w, u)
    ensures Grown(s, u) && UnderWay(u, user, t)
  {
  }

  /** So whatever could be accepted one by one can be accepted together and finish, and then the user is within
      quota exactly when there was room for the sum, of which no check ever heard. */
  lemma AcceptedTusIff(s: Store, user: Id, ts: seq<Tus>)
    requires IdsOk(s) && user in s.quotas && AllApart(ts) && forall t | t in ts :: Acceptable(s, user, t)
    ensures ValidRun(s, Accepting(user, ts) + Finishing(ts))
    ensures var u := Run(s, Accepting(user, ts) + Finishing(ts));
            && u.quotas == s.quotas && Used(u.files, user) == Used(s.files, user) + Total(ts)
            && (Used(u.files, user) <= u.quotas[user] <==> Used(s.files, user) + Total(ts) <= s.quotas[user])
  {
    AcceptAll(s, user, ts);
    FinishAllIff(Run(s, Accepting(user, ts)), user, ts);
    RunThen(s, Accepting(user, ts), Finishing(ts));
  }

  // ---------- two at once ----------

  function TwoUploads(meta: map<string, string>, size: Int64, a: string, b: string,
                      idA: Id, jobA: Id, idB: Id, jobB: Id): seq<Tus>
  {
    [Tus(meta, size, a, size, idA, jobA, true), Tus(meta, size, b, size, idB, jobB, true)]
  }

  /** Two uploads of one size are both accepted as soon as there is room for one. */
  lemma ConcurrentTusIff(s: Store, user: Id, meta: map<string, string>, size: Int64, a: string, b: string,
                         idA: Id, jobA: Id, idB: Id, jobB: Id)
    requires IdsOk(s) && PreCreateVerdict(s, Some(user), meta, size) == Success && 0 <= size
    requires a != b && a !in s.uploads && b !in s.uploads && {idA, jobA, idB, jobB} !! s.issued
    requires idA != jobA && idA != idB && idA != jobB && jobA != idB && jobA != jobB && idB != jobB
    ensures var ts := TwoUploads(meta, size, a, b, idA, jobA, idB, jobB);
            && ValidRun(s, Accepting(user, ts) + Finishing(ts))
            && var t := Run(s, Accepting(user, ts) + Finishing(ts));
               && t.quotas == s.quotas && user in s.quotas
               && (Used(t.files, user) <= s.quotas[user] <==> Used(s.files, user) + 2 * size <= s.quotas[user])
  {
    var ts := TwoUploads(meta, size, a, b, idA, jobA, idB, jobB);
    TotalOf(ts, size);
    assert Acceptable(s, user, ts[0]) && Acceptable(s, user, ts[1]);
    AcceptedTusIff(s, user, ts);
  }

  /** So from an empty account any number of uploads of the size of the whole quota go through. */
  lemma ConcurrentTusOvershoots(user: Id, quota: Int64, ts: seq<Tus>)
    requires 0 < quota && AllApart(ts)
    requires forall t | t in ts :: NewIds({}, t) && t.meta == map["filename" := "f"] && t.accepted == t.size == quota
    ensures var s, es := Init(map[user := quota]), Accepting(user, ts) + Finishing(ts);
            && ValidRun(s, es) && Used(Run(s, es).files, user) == |ts| * quota
            && (Used(Run(s, es).files, user) <= quota <==> |ts| <= 1)
  {
    var s := Init(map[user := quota]);
    assert SizesOf(s.files, user) == map[];
    forall t | t in ts ensures Acceptable(s, user, t) {
      assert PreCreateVerdict(s, Some(user), t.meta, quota) == Success;
    }
    TotalOf(ts, quota);
    AcceptedTusIff(s, user, ts);
    TimesIff(|ts|, quota);
  }

  lemma {:induction false} TotalOf(ts: seq<Tus>, size: int)
    requires forall t | t in ts :: t.size == size
    ensures Total(ts) == |ts| * size
  {
    if ts != [] { TotalOf(ts[1..], size); }
  }

  lemma TimesIff(n: nat, quota: int)
    requires 0 < quota
    ensures n * quota <= quota <==> n <= 1
  {
    if n > 1 { assert n * quota == quota + (n - 1) * quota; }
  }
}

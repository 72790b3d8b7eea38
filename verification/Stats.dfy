/** Account-wide statistics, after backend/cmd/api-svc/handlers_stats.go. */
module Stats {
  import opened Machine
  import opened Wrappers
  import opened Schema
  import opened Sums
  import opened Lineage
  import opened UploadSvc

  datatype Category = Images | Video | Audio | Documents | Other

  predicate Contains(s: string, t: string) {
    HasPrefix(s, t) || (s != "" && Contains(s[1..], t))
  }

  function CategorizeMime(mime: string): Category {
    if HasPrefix(mime, "image/") then Images
    else if HasPrefix(mime, "video/") then Video
    else if HasPrefix(mime, "audio/") then Audio
    else if Contains(mime, "pdf") || Contains(mime, "word") || Contains(mime, "document") then Documents
    else Other
  }

  datatype FileStats = FileStats(totalFiles: int, totalBytes: int,
                                 statusCounts: map<Status, int>, typeCounts: map<Category, int>)

  function Count<K>(counts: map<K, int>, k: K): int {
    if k in counts then counts[k] else 0
  }

  function Bumped<K>(counts: map<K, int>, k: K): map<K, int> {
    counts[k := Count(counts, k) + 1]
  }

  function StatusTotal(counts: map<Status, int>): int {
    Count(counts, Pending) + Count(counts, Processing) + Count(counts, Ready) + Count(counts, Failed)
  }

  function TypeTotal(counts: map<Category, int>): int {
    Count(counts, Images) + Count(counts, Video) + Count(counts, Audio) + Count(counts, Documents) + Count(counts, Other)
  }

  function RowsOf(files: Files, user: Id): set<Id> {
    set id | id in files && files[id].user == user
  }

  /** How many of `rows` have one status, or fall in one category. */
  ghost function WithStatus(files: Files, rows: set<Id>, status: Status): set<Id> {
    set id | id in rows && id in files && files[id].status == status
  }

  ghost function InCategory(files: Files, rows: set<Id>, category: Category): set<Id> {
    set id | id in rows && id in files && CategorizeMime(files[id].mime) == category
  }

  ghost predicate StatusTally(files: Files, rows: set<Id>, counts: map<Status, int>) {
    forall st :: Count(counts, st) == |WithStatus(files, rows, st)|
  }

  ghost predicate TypeTally(files: Files, rows: set<Id>, counts: map<Category, int>) {
    forall c :: Count(counts, c) == |InCategory(files, rows, c)|
  }

  ghost predicate Tallies(files: Files, rows: set<Id>, stats: FileStats) {
    && stats.totalFiles == |rows|
    && StatusTally(files, rows, stats.statusCounts)
    && TypeTally(files, rows, stats.typeCounts)
    && StatusTotal(stats.statusCounts) == stats.totalFiles
    && TypeTotal(stats.typeCounts) == stats.totalFiles
  }

  lemma WithStatusGrows(files: Files, rows: set<Id>, id: Id, st: Status)
    requires id !in rows && id in files
    ensures |WithStatus(files, rows + {id}, st)| == |WithStatus(files, rows, st)| + if files[id].status == st then 1 else 0
  {
    if files[id].status == st {
      assert WithStatus(files, rows + {id}, st) == WithStatus(files, rows, st) + {id};
    } else {
      assert WithStatus(files, rows + {id}, st) == WithStatus(files, rows, st);
    }
  }

  lemma InCategoryGrows(files: Files, rows: set<Id>, id: Id, c: Category)
    requires id !in rows && id in files
    ensures |InCategory(files, rows + {id}, c)| ==
            |InCategory(files, rows, c)| + if CategorizeMime(files[id].mime) == c then 1 else 0
  {
    if CategorizeMime(files[id].mime) == c {
      assert InCategory(files, rows + {id}, c) == InCategory(files, rows, c) + {id};
    } else {
      assert InCategory(files, rows + {id}, c) == InCategory(files, rows, c);
    }
  }

  lemma StatusOneMore(files: Files, rows: set<Id>, counts: map<Status, int>, id: Id)
    requires StatusTally(files, rows, counts) && id !in rows && id in files
    ensures StatusTally(files, rows + {id}, Bumped(counts, files[id].status))
  {
    forall st
      ensures Count(Bumped(counts, files[id].status), st) == |WithStatus(files, rows + {id}, st)|
    {
      WithStatusGrows(files, rows, id, st);
    }
  }

  lemma TypeOneMore(files: Files, rows: set<Id>, counts: map<Category, int>, id: Id)
    requires TypeTally(files, rows, counts) && id !in rows && id in files
    ensures TypeTally(files, rows + {id}, Bumped(counts, CategorizeMime(files[id].mime)))
  {
    forall c
      ensures Count(Bumped(counts, CategorizeMime(files[id].mime)), c) == |InCategory(files, rows + {id}, c)|
    {
      InCategoryGrows(files, rows, id, c);
    }
  }

  lemma TotalsOneMore(statuses: map<Status, int>, st: Status, types: map<Category, int>, c: Category)
    ensures StatusTotal(Bumped(statuses, st)) == StatusTotal(statuses) + 1
    ensures TypeTotal(Bumped(types, c)) == TypeTotal(types) + 1
  {
  }

  function AddRow(stats: FileStats, f: File): FileStats {
    FileStats(stats.totalFiles + 1, Wrap64(stats.totalBytes + f.size),
              Bumped(stats.statusCounts, f.status), Bumped(stats.typeCounts, CategorizeMime(f.mime)))
  }

  lemma TallyOneMore(files: Files, rows: set<Id>, stats: FileStats, id: Id)
    requires Tallies(files, rows, stats) && id !in rows && id in files
    ensures Tallies(files, rows + {id}, AddRow(stats, files[id]))
  {
    StatusOneMore(files, rows, stats.statusCounts, id);
    TypeOneMore(files, rows, stats.typeCounts, id);
    TotalsOneMore(stats.statusCounts, files[id].status, stats.typeCounts, CategorizeMime(files[id].mime));
  }

  lemma EmptyTally(files: Files)
    ensures Tallies(files, {}, FileStats(0, 0, map[], map[]))
  {
    forall st ensures WithStatus(files, {}, st) == {} {}
    forall c ensures InCategory(files, {}, c) == {} {}
  }

  /** What is left to count: the sizes of the rows of `user` that are not in `seen`. */
  ghost predicate Left(files: Files, user: Id, todo: map<Id, int>, seen: set<Id>) {
    && seen <= RowsOf(files, user)
    && todo == SizesOf(files, user) - seen
  }

  /** Wrapping after every addition is wrapping once at the end. */
  lemma WrapAgain(a: int, b: int)
    ensures Wrap64(Wrap64(a) + b) == Wrap64(a + b)
  {
  }

  /** What the running total holds: the bytes seen so far, wrapped once. */
  ghost predicate Counted(total: int, used: int, todo: map<Id, int>) {
    total == Wrap64(used - Sum(todo))
  }

  lemma CountOneMore(total: int, used: int, todo: map<Id, int>, id: Id)
    requires Counted(total, used, todo) && id in todo
    ensures Counted(Wrap64(total + todo[id]), used, todo - {id})
  {
    SumSplit(todo, id);
    WrapAgain(used - Sum(todo), todo[id]);
  }

  lemma NothingLeft(files: Files, user: Id, seen: set<Id>)
    requires Left(files, user, map[], seen)
    ensures seen == RowsOf(files, user)
  {
    forall id | id in RowsOf(files, user)
      ensures id in seen
    {
      assert id in SizesOf(files, user);
      assert id !in SizesOf(files, user) - seen;
    }
  }

  lemma LeftShrinks(files: Files, user: Id, todo: map<Id, int>, seen: set<Id>, id: Id)
    requires Left(files, user, todo, seen) && id in todo
    ensures id in files && id !in seen && todo[id] == files[id].size
    ensures Left(files, user, todo - {id}, seen + {id})
  {
    assert todo - {id} == SizesOf(files, user) - (seen + {id});
  }

  ghost predicate Halfway(files: Files, user: Id, todo: map<Id, int>, seen: set<Id>, stats: FileStats) {
    && Left(files, user, todo, seen)
    && Counted(stats.totalBytes, Used(files, user), todo)
    && Tallies(files, seen, stats)
  }

  lemma HalfwayStep(files: Files, user: Id, todo: map<Id, int>, seen: set<Id>, stats: FileStats, id: Id)
    requires Halfway(files, user, todo, seen, stats) && id in todo
    ensures id in files && Halfway(files, user, todo - {id}, seen + {id}, AddRow(stats, files[id]))
  {
    LeftShrinks(files, user, todo, seen, id);
    TallyOneMore(files, seen, stats, id);
    CountOneMore(stats.totalBytes, Used(files, user), todo, id);
  }

  lemma HalfwayStart(files: Files, user: Id)
    ensures Halfway(files, user, SizesOf(files, user), {}, FileStats(0, 0, map[], map[]))
  {
    assert Counted(0, Used(files, user), SizesOf(files, user));
    assert SizesOf(files, user) - {} == SizesOf(files, user);
    EmptyTally(files);
  }

  lemma HalfwayEnd(files: Files, user: Id, seen: set<Id>, stats: FileStats)
    requires Halfway(files, user, map[], seen, stats)
    ensures Tallies(files, RowsOf(files, user), stats)
    ensures stats.totalBytes == Wrap64(Used(files, user))
  {
    NothingLeft(files, user, seen);
  }

  /** The totals are the sums of both breakdowns, each count is exact, and the bytes are what the quota check sees. */
  method FileStatsOf(db: Backend, user: Id) returns (stats: FileStats)
    ensures Tallies(db.files, RowsOf(db.files, user), stats)
    ensures stats.totalBytes == Wrap64(Used(db.files, user))
  {
    stats := FileStats(0, 0, map[], map[]);
    var files := db.files;
    var todo := SizesOf(files, user);
    ghost var seen: set<Id> := {};
    HalfwayStart(files, user);
    while todo != map[]
      invariant Halfway(files, user, todo, seen, stats)
      decreases |todo|
    {
      var id :| id in todo;
      HalfwayStep(files, user, todo, seen, stats, id);
      stats := AddRow(stats, files[id]);
      todo := todo - {id};
      seen := seen + {id};
    }
    HalfwayEnd(files, user, seen, stats);
  }

  /** A file goes to the image worker exactly when the dashboard shows it as an image, and to the video worker exactly
      when it shows it as a video. */
  lemma WorkedOnIffShownAsMedia(mime: string)
    ensures KindOf(mime) == Some(ImageThumbnail) <==> CategorizeMime(mime) == Images
    ensures KindOf(mime) == Some(VideoTranscode) <==> CategorizeMime(mime) == Video
    ensures KindOf(mime) == None <==> CategorizeMime(mime) in {Audio, Documents, Other}
  {
  }

  predicate OccursAt(s: string, t: string, i: nat) {
    i <= |s| && t <= s[i..]
  }

  lemma {:induction false} ContainsIff(s: string, t: string)
    ensures Contains(s, t) <==> exists i :: OccursAt(s, t, i)
  {
    assert s[0..] == s;
    assert HasPrefix(s, t) <==> OccursAt(s, t, 0);
    if s != "" {
      ContainsIff(s[1..], t);
      forall i: nat | i < |s| ensures s[1..][i..] == s[i + 1..] {}
      forall i: nat | i > 0 && OccursAt(s, t, i) ensures OccursAt(s[1..], t, i - 1) { assert s[1..][i - 1..] == s[i..]; }
      forall i: nat | OccursAt(s[1..], t, i) ensures OccursAt(s, t, i + 1) { assert s[1..][i..] == s[i + 1..]; }
    }
  }

  /** Of the other types, audio is shown as such, and documents are those that name a pdf, a word or a document. */
  lemma OtherCategories(mime: string)
    requires KindOf(mime) == None
    ensures CategorizeMime(mime) == Audio <==> HasPrefix(mime, "audio/")
    ensures CategorizeMime(mime) == Documents <==>
            !HasPrefix(mime, "audio/")
            && exists i :: OccursAt(mime, "pdf", i) || OccursAt(mime, "word", i) || OccursAt(mime, "document", i)
  {
    ContainsIff(mime, "pdf");
    ContainsIff(mime, "word");
    ContainsIff(mime, "document");
  }
}

/** Reaching a file by browsing: from the root listing down through folder listings. */
module Browse {
  import opened Machine
  import opened Wrappers
  import opened Schema
  import opened Sums
  import opened Forest
  import opened Lineage
  import opened ObjectKeys
  import opened ApiVersions
  import opened ApiFiles
  import opened ApiFolders
  import opened UploadSvc
  import opened Workers
  import opened Runs

  /** The folders `listFolders` returns below one folder, or at the root. */
  function ListFolders(fs: Folders, user: Id, parent: Option<Id>): set<Id> {
    set x | x in fs && fs[x].user == user && fs[x].parent == parent
  }

  /** Opening folders one after another, each from the listing of the one before. */
  ghost predicate BrowsePath(fs: Folders, user: Id, path: seq<Id>) {
    && path != []
    && path[0] in ListFolders(fs, user, None)
    && forall i | 0 < i < |path| :: path[i] in ListFolders(fs, user, Some(path[i - 1]))
  }

  ghost predicate FolderReachable(fs: Folders, user: Id, folder: Id) {
    exists path :: BrowsePath(fs, user, path) && path[|path| - 1] == folder
  }

  ghost predicate PlaceReachable(fs: Folders, user: Id, place: Option<Id>) {
    place.Some? ==> FolderReachable(fs, user, place.value)
  }

  /** Some place the user can browse to lists the file. */
  ghost predicate Browsable(s: Store, id: Id)
    requires id in s.files
  {
    var user := s.files[id].user;
    exists place :: id in ListFiles(s.files, user, place) && PlaceReachable(s.folders, user, place)
  }

  ghost predicate RowPlaced(fs: Folders, f: File) {
    f.current && f.folder.Some? ==> OwnsFolder(fs, f.user, f.folder.value)
  }

  /** The folder of every current row still exists. */
  ghost predicate Placed(s: Store) {
    forall id {:trigger RowPlaced(s.folders, s.files[id])} | id in s.files :: RowPlaced(s.folders, s.files[id])
  }

  /** In a forest every owned folder can be browsed to. */
  lemma {:induction false} OwnedFolderReachable(fs: Folders, user: Id, folder: Id, n: nat)
    requires ParentsKept(fs) && OwnsFolder(fs, user, folder) && Up(fs, folder, n) == None
    ensures FolderReachable(fs, user, folder)
    decreases n
  {
    if fs[folder].parent == None {
      assert BrowsePath(fs, user, [folder]) && [folder][0] == folder;
    } else {
      var p := fs[folder].parent.value;
      OwnedFolderReachable(fs, user, p, n - 1);
      var path :| BrowsePath(fs, user, path) && path[|path| - 1] == p;
      var longer := path + [folder];
      forall i | 0 < i < |longer|
        ensures longer[i] in ListFolders(fs, user, Some(longer[i - 1]))
      {
        if i < |path| { assert longer[i] == path[i] && longer[i - 1] == path[i - 1]; }
      }
      assert BrowsePath(fs, user, longer) && longer[|longer| - 1] == folder;
    }
  }

  /** Browsing finds a folder exactly when the user owns it. */
  lemma FolderReachableIff(fs: Folders, user: Id, folder: Id)
    requires IsForest(fs)
    ensures FolderReachable(fs, user, folder) <==> OwnsFolder(fs, user, folder)
  {
    if OwnsFolder(fs, user, folder) {
      var n: nat :| Up(fs, folder, n) == None;
      OwnedFolderReachable(fs, user, folder, n);
    }
    if FolderReachable(fs, user, folder) {
      var path :| BrowsePath(fs, user, path) && path[|path| - 1] == folder;
      if |path| > 1 { assert path[|path| - 1] in ListFolders(fs, user, Some(path[|path| - 2])); }
    }
  }

  /** A current file can be found by browsing exactly when its folder still exists, and then at one place only. */
  lemma BrowsableIffPlaced(s: Store, id: Id)
    requires IsForest(s.folders) && id in s.files && s.files[id].current
    ensures Browsable(s, id) <==> RowPlaced(s.folders, s.files[id])
    ensures forall place :: id in ListFiles(s.files, s.files[id].user, place) <==> place == s.files[id].folder
  {
    var f := s.files[id];
    if f.folder.Some? { FolderReachableIff(s.folders, f.user, f.folder.value); }
    assert id in ListFiles(s.files, f.user, f.folder);
    if RowPlaced(s.folders, f) { assert PlaceReachable(s.folders, f.user, f.folder); }
  }

  // ---------- which steps keep files browsable ----------

  /** The two steps that may hide a file do not: the restored version's folder is still there,
      and so is the folder a resumable upload was meant for. */
  ghost predicate PlacementSafe(s: Store, e: Event)
    requires Valid(s, e)
  {
    match e
    case RestoreEv(user, id, version) =>
      AfterRestore(s, user, id, version).reply == Success && s.files[version].folder.Some? ==>
        OwnsFolder(s.folders, user, s.files[version].folder.value)
    case FinishTusEv(uploadId, _, _, _, stored, _) =>
      var owner, at := OwnerOf(s.uploads[uploadId]), MetaFolder(s.uploads[uploadId].meta);
      owner.Some? && stored && at.Given? ==> OwnsFolder(s.folders, owner.value, at.id)
    case _ => true
  }

  /** Everything below an owned folder is owned by the same user. */
  lemma SubtreeOwner(fs: Folders, user: Id, top: Id, x: Id)
    requires IsForest(fs) && OwnsFolder(fs, user, top) && x in Subtree(fs, top)
    ensures fs[x].user == user
  {
    var k: nat :| Up(fs, x, k) == Some(top);
    ChainOwner(fs, x, k);
  }

  lemma DeleteFolderKeepsPlaced(s: Store, user: Id, id: Id, faults: StorageFaults)
    requires Inv(s) && Placed(s)
    ensures Placed(AfterDeleteFolder(s, user, id, faults).store)
  {
    var t := AfterDeleteFolder(s, user, id, faults).store;
    if OwnsFolder(s.folders, user, id) {
      var dirs := Subtree(s.folders, id);
      forall a | a in t.files
        ensures RowPlaced(t.folders, t.files[a])
      {
        var f := s.files[a];
        assert RowPlaced(s.folders, f);
        if f.current && f.folder.Some? && f.folder.value in dirs {
          SubtreeOwner(s.folders, user, id, f.folder.value);
          assert InDirs(f, user, dirs);
        }
      }
    }
  }

  lemma PresignVersionKeepsPlaced(s: Store, user: Id, id: Id, size: Int64, mime: string, newId: Id)
    requires Inv(s) && Placed(s) && newId !in s.issued
    ensures Placed(AfterPresignVersion(s, user, id, size, mime, newId).store)
  {
    var t := AfterPresignVersion(s, user, id, size, mime, newId).store;
    if VersionVerdict(s, user, id, size, mime) == Success {
      var current := FirstOf(CurrentVersions(s.files, user, id));
      assert RowPlaced(s.folders, s.files[current]);
      forall a | a in t.files
        ensures RowPlaced(t.folders, t.files[a])
      {
        if a != newId { assert RowPlaced(s.folders, s.files[a]); }
      }
    }
  }

  lemma RestoreKeepsPlacedIff(s: Store, user: Id, id: Id, version: Id)
    requires Inv(s) && Placed(s)
    ensures Placed(AfterRestore(s, user, id, version).store) <==> PlacementSafe(s, RestoreEv(user, id, version))
  {
    var o := AfterRestore(s, user, id, version);
    if o.reply == Success {
      var gs := o.store.files;
      RootOfRow(s.files, version);
      RootOfRow(s.files, id);
      FlaggedRows(s.files, user, Root(s.files, id), version);
      assert gs[version].current;
      forall a | a in gs && a != version
        ensures RowPlaced(s.folders, gs[a])
      {
        assert RowPlaced(s.folders, s.files[a]);
      }
      assert RowPlaced(s.folders, gs[version]) <==> PlacementSafe(s, RestoreEv(user, id, version));
    }
  }

  lemma RowAddedPlacedIff(s: Store, t: Store, id: Id)
    requires Placed(s) && id !in s.files && t.folders == s.folders && id in t.files && t.files == s.files[id := t.files[id]]
    ensures Placed(t) <==> RowPlaced(s.folders, t.files[id])
  {
    forall a | a in s.files
      ensures RowPlaced(s.folders, s.files[a])
    {
    }
    assert Placed(t) ==> RowPlaced(t.folders, t.files[id]);
  }

  lemma TusKeepsPlacedIff(s: Store, uploadId: string, meta: map<string, string>, size: Int64,
                          newId: Id, jobId: Id, stored: bool, enqueued: bool)
    requires Placed(s) && newId !in s.files
    ensures var owner, at := ParseUuid(Meta(meta, "user_id")), MetaFolder(meta);
            Placed(AfterFinishTus(s, uploadId, meta, size, newId, jobId, stored, enqueued)) <==>
            (owner.Some? && stored && at.Given? ==> OwnsFolder(s.folders, owner.value, at.id))
  {
    var t := AfterFinishTus(s, uploadId, meta, size, newId, jobId, stored, enqueued);
    FinishTusRows(s, uploadId, meta, size, newId, jobId, stored, enqueued);
    if ParseUuid(Meta(meta, "user_id")).Some? && stored {
      RowAddedPlacedIff(s, t, newId);
    } else {
      OtherKeepsPlaced(s, t);
    }
  }

  lemma FinishTusKeepsPlacedIff(s: Store, e: Event)
    requires IdsOk(s) && Placed(s) && e.FinishTusEv? && Valid(s, e)
    ensures Placed(Apply(s, e)) <==> PlacementSafe(s, e)
  {
    TusKeepsPlacedIff(s, e.uploadId, s.uploads[e.uploadId].meta, e.size, e.newId, e.jobId, e.stored, e.enqueued);
  }

  /** Rows kept or edited in place, with every edited row still placed. */
  lemma PlacedByRows(s: Store, t: Store)
    requires Placed(s)
    requires forall d | d in s.folders :: d in t.folders && t.folders[d].user == s.folders[d].user
    requires forall a | a in t.files ::
               RowPlaced(t.folders, t.files[a])
               || (a in s.files && t.files[a].user == s.files[a].user && t.files[a].folder == s.files[a].folder
                   && (t.files[a].current ==> s.files[a].current))
    ensures Placed(t)
  {
    forall a | a in t.files
      ensures RowPlaced(t.folders, t.files[a])
    {
      if a in s.files { assert RowPlaced(s.folders, s.files[a]); }
    }
  }

  lemma CreateFolderKeepsPlaced(s: Store, user: Id, name: string, at: FolderArg, newId: Id)
    requires Placed(s) && newId !in s.folders
    ensures Placed(AfterCreateFolder(s, user, name, at, newId).store)
  {
    PlacedByRows(s, AfterCreateFolder(s, user, name, at, newId).store);
  }

  lemma UpdateFolderKeepsPlaced(s: Store, user: Id, id: Id, name: string, at: FolderArg)
    requires Placed(s)
    ensures Placed(AfterUpdateFolder(s, user, id, name, at).store)
  {
    var t := AfterUpdateFolder(s, user, id, name, at).store;
    assert t.files == s.files && t.folders.Keys == s.folders.Keys;
    PlacedInFolders(s, t);
  }

  /** Folders may come and move; what counts is that they are there and whose they are. */
  lemma PlacedInFolders(s: Store, t: Store)
    requires Placed(s) && t.files == s.files
    requires forall d | d in s.folders :: d in t.folders && t.folders[d].user == s.folders[d].user
    ensures Placed(t)
  {
    forall a | a in t.files
      ensures RowPlaced(t.folders, t.files[a])
    {
      assert RowPlaced(s.folders, s.files[a]);
    }
  }

  /** One row replaced or added, and placed. */
  lemma RowKeepsPlaced(s: Store, t: Store, id: Id, row: File)
    requires Placed(s) && t.folders == s.folders && t.files == s.files[id := row] && RowPlaced(s.folders, row)
    ensures Placed(t)
  {
    forall a | a in t.files
      ensures RowPlaced(t.folders, t.files[a])
    {
      if a != id { assert RowPlaced(s.folders, s.files[a]); }
    }
  }

  lemma PresignKeepsPlaced(s: Store, user: Id, name: string, size: Int64, mime: string, folder: FolderArg, newId: Id)
    requires Placed(s)
    ensures Placed(AfterPresign(s, user, name, size, mime, folder, newId).store)
  {
    var o := AfterPresign(s, user, name, size, mime, folder, newId);
    if o.reply == Success { RowKeepsPlaced(s, o.store, newId, o.store.files[newId]); }
  }

  lemma UpdateFileKeepsPlaced(s: Store, user: Id, id: Id, name: Option<string>, folder: FolderArg)
    requires Placed(s)
    ensures Placed(AfterUpdateFile(s, user, id, name, folder).store)
  {
    var o := AfterUpdateFile(s, user, id, name, folder);
    if o.reply == Success {
      assert RowPlaced(s.folders, s.files[id]);
      RowKeepsPlaced(s, o.store, id, o.store.files[id]);
    }
  }

  lemma CompleteKeepsPlaced(s: Store, user: Id, id: Id, jobId: Id, enqueued: bool)
    requires Placed(s)
    ensures Placed(AfterComplete(s, user, id, jobId, enqueued).store)
  {
    var o := AfterComplete(s, user, id, jobId, enqueued);
    if o.reply == Success {
      assert RowPlaced(s.folders, s.files[id]);
      RowKeepsPlaced(s, o.store, id, o.store.files[id]);
    }
  }

  lemma DeleteFileKeepsPlaced(s: Store, user: Id, id: Id, faults: StorageFaults)
    requires Placed(s)
    ensures Placed(AfterDeleteFile(s, user, id, faults).store)
  {
    PlacedByRows(s, AfterDeleteFile(s, user, id, faults).store);
  }

  lemma AttemptKeepsPlaced(s: Store, jobId: Id, result: Result)
    requires Placed(s) && jobId in s.jobs
    ensures Placed(AfterAttempt(s, jobId, result))
  {
    PlacedByRows(s, AfterAttempt(s, jobId, result));
  }

  /** Links, uploads and object writes leave folders and rows alone. */
  lemma OtherKeepsPlaced(s: Store, t: Store)
    requires Placed(s) && t.folders == s.folders && t.files == s.files
    ensures Placed(t)
  {
    PlacedByRows(s, t);
  }

  lemma MayHide(s: Store, e: Event)
    requires Inv(s) && Placed(s) && Valid(s, e) && (e.RestoreEv? || e.FinishTusEv?)
    ensures Placed(Apply(s, e)) <==> PlacementSafe(s, e)
  {
    if e.RestoreEv? {
      RestoreKeepsPlacedIff(s, e.user, e.id, e.version);
    } else {
      FinishTusKeepsPlacedIff(s, e);
    }
  }

  lemma NeverHides(s: Store, e: Event)
    requires Inv(s) && Placed(s) && Valid(s, e) && !e.RestoreEv? && !e.FinishTusEv? && !LeavesRows(e)
    ensures Placed(Apply(s, e))
  {
    match e
    case CreateFolderEv(user, name, at, newId) => CreateFolderKeepsPlaced(s, user, name, at, newId);
    case UpdateFolderEv(user, id, name, at) => UpdateFolderKeepsPlaced(s, user, id, name, at);
    case DeleteFolderEv(user, id, faults) => DeleteFolderKeepsPlaced(s, user, id, faults);
    case PresignEv(user, name, size, mime, at, newId) => PresignKeepsPlaced(s, user, name, size, mime, at, newId);
    case PresignVersionEv(user, id, size, mime, newId) => PresignVersionKeepsPlaced(s, user, id, size, mime, newId);
    case CompleteEv(user, id, jobId, enqueued) => CompleteKeepsPlaced(s, user, id, jobId, enqueued);
    case UpdateFileEv(user, id, rename, at) => UpdateFileKeepsPlaced(s, user, id, rename, at);
    case DeleteFileEv(user, id, faults) => DeleteFileKeepsPlaced(s, user, id, faults);
    case WorkerEndEv(jobId, result) => AttemptKeepsPlaced(s, jobId, result);
  }

  /** A step keeps every current file browsable exactly when it is safe. */
  lemma StepKeepsPlacedIff(s: Store, e: Event)
    requires Inv(s) && Placed(s) && Valid(s, e)
    ensures Placed(Apply(s, e)) <==> PlacementSafe(s, e)
  {
    if e.RestoreEv? || e.FinishTusEv? {
      MayHide(s, e);
    } else if LeavesRows(e) {
      RowsLeft(s, e);
      OtherKeepsPlaced(s, Apply(s, e));
    } else {
      NeverHides(s, e);
    }
  }

  ghost predicate SafeRun(s: Store, es: seq<Event>)
    requires ValidRun(s, es)
    decreases |es|
  {
    es == [] || (PlacementSafe(s, es[0]) && SafeRun(Apply(s, es[0]), es[1..]))
  }

  /** After a run of safe steps every current file is browsable. */
  lemma {:induction false} SafeRunBrowsable(s: Store, es: seq<Event>)
    requires Inv(s) && Placed(s) && ValidRun(s, es) && SafeRun(s, es)
    ensures Placed(Run(s, es))
    ensures forall id | id in Run(s, es).files && Run(s, es).files[id].current :: Browsable(Run(s, es), id)
    decreases |es|
  {
    if es == [] {
      forall id | id in s.files && s.files[id].current
        ensures Browsable(s, id)
      {
        BrowsableIffPlaced(s, id);
        assert RowPlaced(s.folders, s.files[id]);
      }
    } else {
      StepKeepsInv(s, es[0]);
      StepKeepsPlacedIff(s, es[0]);
      SafeRunBrowsable(Apply(s, es[0]), es[1..]);
    }
  }

  // ---------- a run that hides a file ----------

  /** Upload into a folder and add a version; then move the file out, delete the folder, and restore
      the first version. */
  function Uploading(user: Id): seq<Event> {
    [CreateFolderEv(user, "a", Omitted, 1)]
    + ([PresignEv(user, "f", 1, "text/plain", Given(1), 2)]
       + [PresignVersionEv(user, 2, 1, "text/plain", 3)])
  }

  function Hiding(user: Id): seq<Event> {
    [UpdateFileEv(user, 3, None, Empty)]
    + ([DeleteFolderEv(user, 1, NO_FAULTS)]
       + [RestoreEv(user, 3, 2)])
  }

  function RowOne(user: Id): File {
    NewRow(user, 2, "f", Some(1), 1, "text/plain", Pending)
  }

  function RowTwo(user: Id, place: Option<Id>): File {
    File("f", user, place, Original(user, 3, "f"), 1, "text/plain", Pending, None, None, 2, Some(2), true)
  }

  function HidingStore(user: Id, folders: Folders, files: Files): Store {
    Store(map[user := 10], folders, files, map[], map[], map[], map[],
          map[2 := 1, 3 := 1], {1, 2, 3}, {})
  }

  lemma FirstUpload(user: Id, s: Store)
    requires s == Init(map[user := 10]).(folders := map[1 := Folder("a", user, None)], issued := {1})
    ensures AfterPresign(s, user, "f", 1, "text/plain", Given(1), 2) ==
            Outcome(s.(files := map[2 := RowOne(user)], declared := map[2 := 1], issued := {1, 2}), Success)
  {
    assert SizesOf(s.files, user) == map[];
    assert {1} + {2} == {1, 2};
  }

  lemma SecondUpload(user: Id, s: Store)
    requires s.quotas == map[user := 10] && s.files == map[2 := RowOne(user)] && s.issued == {1, 2} && s.declared == map[2 := 1]
    requires s.uploads == map[]
    ensures AfterPresignVersion(s, user, 2, 1, "text/plain", 3) ==
            Outcome(s.(files := map[2 := RowOne(user).(current := false), 3 := RowTwo(user, Some(1))],
                       declared := map[2 := 1, 3 := 1], issued := {1, 2, 3}), Success)
  {
    OneVersion(user, s.files);
    assert Used(s.files, user) == 1 by {
      assert SizesOf(s.files, user) == map[][2 := 1];
      SumAdded(map[], 2, 1);
    }
    assert VersionRow(s.files, user, 2, 1, "text/plain", 3) == RowTwo(user, Some(1));
    SupersededOne(user, s.files);
    assert Crowded(s.uploads, user) == map[];
    assert {1, 2} + {3} == {1, 2, 3};
  }

  lemma SupersededOne(user: Id, files: Files)
    requires files == map[2 := RowOne(user)]
    ensures Superseded(files, user, 2) == map[2 := RowOne(user).(current := false)]
  {
  }

  lemma OneVersion(user: Id, files: Files)
    requires files == map[2 := RowOne(user)]
    ensures Selected(files, user, 2) == {2} && CurrentVersions(files, user, 2) == {2}
    ensures FirstOf({2}) == 2 && MaxVersionOf(files, {2}) == 1
  {
    assert Selected(files, user, 2) == {2};
    assert IsFirst({2}, FirstOf({2}));
    assert IsMaxVersion(files, {2}, MaxVersionOf(files, {2}));
  }

  /** The folder goes, and neither version with it: the current one has moved out. */
  lemma FolderGone(user: Id, s: Store)
    requires s == HidingStore(user, map[1 := Folder("a", user, None)], map[2 := RowOne(user).(current := false), 3 := RowTwo(user, None)])
    ensures AfterDeleteFolder(s, user, 1, NO_FAULTS).store == s.(folders := map[])
  {
    UnderSelf(s.folders, 1);
    assert Subtree(s.folders, 1) == {1};
    assert DoomedRows(s.files, user, {1}) == {};
    assert AfterSweep(s.objects, s.files, {}, NO_FAULTS) == map[];
    assert SharesWithout(s.shares, user, {}) == map[];
  }

  function TwoVersions(user: Id): Store {
    HidingStore(user, map[1 := Folder("a", user, None)], map[2 := RowOne(user).(current := false), 3 := RowTwo(user, Some(1))])
  }

  function Hidden(user: Id): Store {
    HidingStore(user, map[], map[2 := RowOne(user), 3 := RowTwo(user, None).(current := false)])
  }

  lemma UploadingRuns(user: Id)
    ensures ValidRun(Init(map[user := 10]), Uploading(user))
    ensures Run(Init(map[user := 10]), Uploading(user)) == TwoVersions(user)
  {
    var s0 := Init(map[user := 10]);
    var s1 := s0.(folders := map[1 := Folder("a", user, None)], issued := {1});
    FirstUpload(user, s1);
    var s2 := s1.(files := map[2 := RowOne(user)], declared := map[2 := 1], issued := {1, 2});
    SecondUpload(user, s2);
    var es := Uploading(user);
    assert es[1..] == [PresignEv(user, "f", 1, "text/plain", Given(1), 2)] + [PresignVersionEv(user, 2, 1, "text/plain", 3)];
    LastStep(s2, PresignVersionEv(user, 2, 1, "text/plain", 3));
    RunStep(s1, PresignEv(user, "f", 1, "text/plain", Given(1), 2), s2, [PresignVersionEv(user, 2, 1, "text/plain", 3)]);
    RunStep(s0, CreateFolderEv(user, "a", Omitted, 1), s1, es[1..]);
  }

  lemma HidingRuns(user: Id)
    ensures ValidRun(TwoVersions(user), Hiding(user))
    ensures Run(TwoVersions(user), Hiding(user)) == Hidden(user)
  {
    var one := RowOne(user).(current := false);
    var s4 := HidingStore(user, map[1 := Folder("a", user, None)], map[2 := one, 3 := RowTwo(user, None)]);
    FolderGone(user, s4);
    var s5 := HidingStore(user, map[], map[2 := one, 3 := RowTwo(user, None)]);
    MovedOut(user, s4);
    RestoredRows(user, s5, Hidden(user));
    RunThree(TwoVersions(user), UpdateFileEv(user, 3, None, Empty), s4, DeleteFolderEv(user, 1, NO_FAULTS), s5,
             RestoreEv(user, 3, 2), Hidden(user));
  }

  lemma MovedOut(user: Id, t: Store)
    requires t == HidingStore(user, map[1 := Folder("a", user, None)],
                              map[2 := RowOne(user).(current := false), 3 := RowTwo(user, None)])
    ensures AfterUpdateFile(TwoVersions(user), user, 3, None, Empty).store == t
  {
  }

  /** After the whole run version 2 is the current file, and no place the user can browse to lists it. */
  lemma RestoreCanHide(user: Id)
    ensures ValidRun(Init(map[user := 10]), Uploading(user))
    ensures var s := Run(Init(map[user := 10]), Uploading(user));
            && ValidRun(s, Hiding(user))
            && var t := Run(s, Hiding(user));
               2 in t.files && t.files[2].current && !Browsable(t, 2)
  {
    UploadingRuns(user);
    HidingRuns(user);
    BrowsableIffPlaced(Hidden(user), 2);
  }

  lemma RestoredRows(user: Id, s: Store, t: Store)
    requires s == HidingStore(user, map[], map[2 := RowOne(user).(current := false), 3 := RowTwo(user, None)])
    requires t == Hidden(user)
    ensures AfterRestore(s, user, 3, 2).store == t
  {
    assert Flagged(s.files, user, 2, 2) == t.files;
  }
}

/** Creating, moving and deleting folders, after backend/cmd/api-svc/handlers_folder.go. */
module ApiFolders {
  import opened Wrappers
  import opened Schema
  import opened Forest
  import opened Lineage
  import opened ApiVersions
  import opened ApiFiles

  /** Walk up from `candidate` through the folders of `user`. */
  method IsDescendant(db: Backend, user: Id, folder: Id, candidate: Id) returns (found: bool)
    requires IsForest(db.folders)
    ensures found <==> Under(Visible(db.folders, user), candidate, folder)
  {
    ghost var fs := Visible(db.folders, user);
    VisibleGrounded(db.folders, user, candidate);
    ghost var height: nat :| Up(fs, candidate, height) == None;
    var current := candidate;
    ghost var steps: nat := 0;
    UnderSelf(fs, candidate);
    while true
      invariant Up(fs, candidate, steps) == Some(current)
      invariant Under(fs, candidate, folder) <==> Under(fs, current, folder)
      decreases height - steps
    {
      UnderParent(fs, current, folder);
      if current == folder { return true; }
      if !OwnsFolder(db.folders, user, current) { return false; }
      var row := db.folders[current];
      if row.parent == None { return false; }
      UpAdd(fs, candidate, steps, 1);
      if height <= steps {
        UpAdd(fs, candidate, height, steps - height);
        assert false;
      }
      current, steps := row.parent.value, steps + 1;
    }
  }

  // ---------- create ----------

  ghost function AfterCreateFolder(s: Store, user: Id, name: string, parent: FolderArg, newId: Id): Outcome {
    if name == "" || parent == Empty || parent == Malformed then Outcome(s, BadRequest)
    else if parent.Given? && !OwnsFolder(s.folders, user, parent.id) then Outcome(s, BadRequest)
    else
      var f := Folder(name, user, if parent.Given? then Some(parent.id) else None);
      Outcome(s.(folders := s.folders[newId := f], issued := s.issued + {newId}), Success)
  }

  method CreateFolder(db: Backend, user: Id, name: string, parent: FolderArg, newId: Id) returns (reply: Reply)
    requires newId !in db.issued
    modifies db
    ensures Outcome(db.State(), reply) == AfterCreateFolder(old(db.State()), user, name, parent, newId)
  {
    if name == "" { return BadRequest; }
    var folder := Folder(name, user, None);
    match parent {
      case Omitted =>
      case Empty => return BadRequest;
      case Malformed => return BadRequest;
      case Given(p) =>
        if !OwnsFolder(db.folders, user, p) { return BadRequest; }
        folder := folder.(parent := Some(p));
    }
    db.folders := db.folders[newId := folder];
    db.issued := db.issued + {newId};
    return Success;
  }

  lemma CreateKeepsForest(s: Store, user: Id, name: string, parent: FolderArg, newId: Id)
    requires IsForest(s.folders) && newId !in s.folders
    ensures IsForest(AfterCreateFolder(s, user, name, parent, newId).store.folders)
  {
    var f := Folder(name, user, if parent.Given? then Some(parent.id) else None);
    if parent.Given? ==> OwnsFolder(s.folders, user, parent.id) {
      AddLeafForest(s.folders, newId, f);
    }
  }

  // ---------- rename and move ----------

  ghost function AfterUpdateFolder(s: Store, user: Id, id: Id, name: string, parent: FolderArg): Outcome {
    if !OwnsFolder(s.folders, user, id) then Outcome(s, NotFound)
    else if parent == Malformed then Outcome(s, BadRequest)
    else if parent.Given? && (!OwnsFolder(s.folders, user, parent.id) || Under(s.folders, parent.id, id)) then
      Outcome(s, BadRequest)
    else Outcome(s.(folders := s.folders[id := Relinked(s.folders[id], name, parent)]), Success)
  }

  function Relinked(f: Folder, name: string, parent: FolderArg): Folder {
    f.(name := if name == "" then f.name else name,
       parent := match parent case Given(p) => Some(p) case Empty => None case _ => f.parent)
  }

  method UpdateFolder(db: Backend, user: Id, id: Id, name: string, parent: FolderArg) returns (reply: Reply)
    requires IsForest(db.folders)
    modifies db
    ensures Outcome(db.State(), reply) == AfterUpdateFolder(old(db.State()), user, id, name, parent)
  {
    if !OwnsFolder(db.folders, user, id) { return NotFound; }
    var folder := db.folders[id];
    if name != "" { folder := folder.(name := name); }
    match parent {
      case Omitted =>
      case Empty => folder := folder.(parent := None);
      case Malformed => return BadRequest;
      case Given(p) =>
        if !OwnsFolder(db.folders, user, p) { return BadRequest; }
        var cyclic := IsDescendant(db, user, id, p);
        VisibleUnder(db.folders, user, p, id);
        if cyclic { return BadRequest; }
        folder := folder.(parent := Some(p));
    }
    db.folders := db.folders[id := folder];
    return Success;
  }

  lemma UpdateKeepsForest(s: Store, user: Id, id: Id, name: string, parent: FolderArg)
    requires IsForest(s.folders)
    ensures IsForest(AfterUpdateFolder(s, user, id, name, parent).store.folders)
  {
    var o := AfterUpdateFolder(s, user, id, name, parent);
    if o.reply == Success {
      if parent.Given? {
        MoveKeepsForestIff(s.folders, o.store.folders, id, parent.id);
      } else {
        RerootForest(s.folders, o.store.folders, id);
      }
    }
  }

  /** A move below an owned folder is refused exactly when carrying it out would break the forest. */
  lemma MoveRefusedIffCyclic(s: Store, user: Id, id: Id, name: string, p: Id)
    requires IsForest(s.folders) && OwnsFolder(s.folders, user, id) && OwnsFolder(s.folders, user, p)
    ensures AfterUpdateFolder(s, user, id, name, Given(p)).reply == BadRequest <==>
            !IsForest(s.folders[id := Relinked(s.folders[id], name, Given(p))])
  {
    MoveKeepsForestIff(s.folders, s.folders[id := Relinked(s.folders[id], name, Given(p))], id, p);
  }

  // ---------- cascading delete ----------

  /** Some current row of `user` in lineage `root` lies in one of the folders `dirs`. */
  ghost predicate CurrentIn(files: Files, user: Id, dirs: set<Id>, root: Id) {
    exists c :: c in files && InDirs(files[c], user, dirs) && Root(files, c) == root
  }

  ghost predicate InDirs(f: File, user: Id, dirs: set<Id>) {
    f.user == user && f.current && f.folder.Some? && f.folder.value in dirs
  }

  /** Every row of every lineage whose current row lies in `dirs`. */
  ghost function DoomedRows(files: Files, user: Id, dirs: set<Id>): set<Id> {
    set id | id in files && files[id].user == user && CurrentIn(files, user, dirs, Root(files, id))
  }

  ghost function AfterDeleteFolder(s: Store, user: Id, id: Id, faults: StorageFaults): Outcome {
    if !OwnsFolder(s.folders, user, id) then Outcome(s, NotFound)
    else
      var dirs := Subtree(s.folders, id);
      var dead := DoomedRows(s.files, user, dirs);
      Outcome(WithoutRows(s, user, dead).(folders := s.folders - dirs,
                                          objects := AfterSweep(s.objects, s.files, dead, faults)), Success)
  }

  lemma DoomedWhole(files: Files, user: Id, dirs: set<Id>)
    requires Flat(files)
    ensures WholeLineages(files, DoomedRows(files, user, dirs))
  {
    forall a, b | a in files && b in files && Root(files, a) == Root(files, b)
      ensures files[a].user == files[b].user
    {
      RootOfRow(files, a);
      RootOfRow(files, b);
    }
  }

  /** Deleting in two goes removes the same rows as deleting at once. */
  lemma DoomedUnion(files: Files, user: Id, d: set<Id>, e: set<Id>)
    requires Flat(files)
    ensures var first := DoomedRows(files, user, d);
            DoomedRows(files, user, d + e) == first + DoomedRows(files - first, user, e)
  {
    var first := DoomedRows(files, user, d);
    DoomedWhole(files, user, d);
    forall id | id in files && id !in first && files[id].user == user
      ensures CurrentIn(files, user, d + e, Root(files, id)) <==> CurrentIn(files - first, user, e, Root(files - first, id))
    {
      var root := Root(files, id);
      if CurrentIn(files, user, d + e, root) {
        var c :| c in files && InDirs(files[c], user, d + e) && Root(files, c) == root;
        assert InDirs(files[c], user, e);
        assert c in files - first && Root(files - first, c) == root;
      }
      if CurrentIn(files - first, user, e, root) {
        var c :| c in files - first && InDirs(files[c], user, e) && Root(files - first, c) == root;
        assert InDirs(files[c], user, d + e) && Root(files, c) == root;
      }
    }
    forall id | id in first
      ensures id in DoomedRows(files, user, d + e)
    {
      var c :| c in files && InDirs(files[c], user, d) && Root(files, c) == Root(files, id);
      assert InDirs(files[c], user, d + e);
    }
  }

  lemma SharesWithoutTwice(shares: map<Id, Share>, user: Id, a: set<Id>, b: set<Id>)
    ensures SharesWithout(SharesWithout(shares, user, a), user, b) == SharesWithout(shares, user, a + b)
  {
  }

  lemma ListsAppend(files: Files, a: set<Id>, rows: seq<Row>, b: set<Id>, more: seq<Row>)
    requires Lists(files, a, rows) && Lists(files, b, more) && a !! b
    ensures Lists(files, a + b, rows + more)
  {
    forall id | id in a + b
      ensures Row(id, files[id]) in rows + more
    {
      if id in a { assert Row(id, files[id]) in rows; } else { assert Row(id, files[id]) in more; }
    }
  }

  lemma ListsRestricted(files: Files, gone: set<Id>, ids: set<Id>, rows: seq<Row>)
    requires Lists(files - gone, ids, rows)
    ensures Lists(files, ids, rows) && ids !! gone
  {
    forall id | id in ids
      ensures Row(id, files[id]) in rows
    {
      assert Row(id, (files - gone)[id]) in rows;
    }
  }

  /** What has been deleted once the folders `gone` are out of the way. */
  ghost predicate Deleted(fs: Folders, files: Files, shares: map<Id, Share>, user: Id, gone: set<Id>,
                          fs': Folders, files': Files, shares': map<Id, Share>, rows: seq<Row>) {
    var dead := DoomedRows(files, user, gone);
    && fs' == fs - gone
    && files' == files - dead
    && shares' == SharesWithout(shares, user, dead)
    && Lists(files, dead, rows)
  }

  lemma DeletedNothing(fs: Folders, files: Files, shares: map<Id, Share>, user: Id)
    ensures Deleted(fs, files, shares, user, {}, fs, files, shares, [])
  {
    assert DoomedRows(files, user, {}) == {};
    assert shares == SharesWithout(shares, user, {});
  }

  /** Two deletions in a row compose. */
  lemma DeletedTwice(fs: Folders, files: Files, shares: map<Id, Share>, user: Id, d: set<Id>,
                     fs1: Folders, files1: Files, shares1: map<Id, Share>, rows1: seq<Row>, e: set<Id>,
                     fs2: Folders, files2: Files, shares2: map<Id, Share>, rows2: seq<Row>)
    requires Flat(files)
    requires Deleted(fs, files, shares, user, d, fs1, files1, shares1, rows1)
    requires Deleted(fs1, files1, shares1, user, e, fs2, files2, shares2, rows2)
    ensures Deleted(fs, files, shares, user, d + e, fs2, files2, shares2, rows1 + rows2)
  {
    var first := DoomedRows(files, user, d);
    var second := DoomedRows(files1, user, e);
    DoomedUnion(files, user, d, e);
    SharesWithoutTwice(shares, user, first, second);
    ListsRestricted(files, first, second, rows2);
    ListsAppend(files, first, rows1, second, rows2);
    assert fs2 == fs - (d + e);
    assert files2 == files - (first + second);
  }

  method DeleteFolderTree(db: Backend, user: Id, id: Id) returns (deleted: seq<Row>)
    requires IsForest(db.folders) && LineageInv(db.files) && OwnsFolder(db.folders, user, id)
    modifies db`folders, db`files, db`shares
    ensures Deleted(old(db.folders), old(db.files), old(db.shares), user, Subtree(old(db.folders), id),
                    db.folders, db.files, db.shares, deleted)
    decreases Subtree(db.folders, id)
  {
    ghost var fs, files, shares := db.folders, db.files, db.shares;
    var children := set c | c in db.folders && db.folders[c].user == user && db.folders[c].parent == Some(id);
    assert children == Children(fs, id);
    deleted := [];
    var todo := children;
    ghost var gone: set<Id> := {};
    DeletedNothing(fs, files, shares, user);
    while todo != {}
      invariant todo <= children
      invariant gone == Below(fs, children - todo)
      invariant Deleted(fs, files, shares, user, gone, db.folders, db.files, db.shares, deleted)
      decreases todo
    {
      var child :| child in todo;
      BelowGrows(fs, id, children - todo, child);
      DoomedWhole(files, user, gone);
      RemoveLineages(files, DoomedRows(files, user, gone));
      PruneForest(fs, gone);
      ghost var fs1, files1, shares1 := db.folders, db.files, db.shares;
      var childDeleted := DeleteFolderTree(db, user, child);
      DeletedTwice(fs, files, shares, user, gone, fs1, files1, shares1, deleted,
                   Subtree(fs, child), db.folders, db.files, db.shares, childDeleted);
      deleted := deleted + childDeleted;
      todo := todo - {child};
      gone := gone + Subtree(fs, child);
      assert children - todo == (children - (todo + {child})) + {child};
    }
    assert children - todo == children;
    SubtreeIsBelowAndTop(fs, id);
    DoomedWhole(files, user, gone);
    RemoveLineages(files, DoomedRows(files, user, gone));
    ghost var fs1, files1, shares1 := db.folders, db.files, db.shares;
    var own := DeleteFilesIn(db, user, id);
    db.folders := map x | x in db.folders && !(x == id && db.folders[x].user == user) :: db.folders[x];
    assert db.folders == fs1 - {id};
    DeletedTwice(fs, files, shares, user, gone, fs1, files1, shares1, deleted,
                 {id}, db.folders, db.files, db.shares, own);
    deleted := deleted + own;
  }

  /** The lineages whose current row sits directly in folder `id`. */
  method DeleteFilesIn(db: Backend, user: Id, id: Id) returns (deleted: seq<Row>)
    requires LineageInv(db.files)
    modifies db`files, db`shares
    ensures var dead := DoomedRows(old(db.files), user, {id});
            && db.files == old(db.files) - dead
            && db.shares == SharesWithout(old(db.shares), user, dead)
            && Lists(old(db.files), dead, deleted)
  {
    var currentFiles := set f | f in db.files && db.files[f].user == user && db.files[f].folder == Some(id) && db.files[f].current;
    var fileIds: set<Id>;
    deleted, fileIds := AllVersions(db, user, currentFiles);
    DoomedInFolder(db.files, user, id, currentFiles);
    if fileIds != {} {
      DeleteRows(db, user, fileIds);
    } else {
      assert db.shares == SharesWithout(db.shares, user, {});
    }
  }

  /** Every version of the current rows `here`, one lineage after another. */
  method AllVersions(db: Backend, user: Id, here: set<Id>) returns (rows: seq<Row>, ids: set<Id>)
    requires LineageInv(db.files)
    requires forall f | f in here :: OwnsFile(db.files, user, f) && db.files[f].current
    ensures ids == LineagesOf(db.files, here) && Lists(db.files, ids, rows)
  {
    rows, ids := [], {};
    var todo := here;
    ghost var files, seen: set<Id> := db.files, {};
    while todo != {}
      invariant seen + todo == here && seen !! todo
      invariant ids == LineagesOf(files, seen) && Lists(files, ids, rows)
      decreases todo
    {
      var f :| f in todo;
      rows, ids := AppendVersions(db, user, f, rows, ids, seen);
      todo := todo - {f};
      seen := seen + {f};
    }
    assert seen == here;
  }

  method AppendVersions(db: Backend, user: Id, f: Id, rows: seq<Row>, ids: set<Id>, ghost seen: set<Id>)
    returns (rows': seq<Row>, ids': set<Id>)
    requires LineageInv(db.files) && OwnsFile(db.files, user, f) && db.files[f].current && f !in seen
    requires forall g | g in seen :: g in db.files && db.files[g].current
    requires ids == LineagesOf(db.files, seen) && Lists(db.files, ids, rows)
    ensures ids' == LineagesOf(db.files, seen + {f}) && Lists(db.files, ids', rows')
  {
    var versions := LineageFiles(db, user, Root(db.files, f));
    AddLineage(db.files, user, seen, f, rows, versions);
    var more := IdsOf(versions);
    rows', ids' := rows + versions, ids + more;
  }

  lemma AddLineage(files: Files, user: Id, seen: set<Id>, f: Id, rows: seq<Row>, versions: seq<Row>)
    requires LineageInv(files) && OwnsFile(files, user, f) && files[f].current && f !in seen
    requires forall g | g in seen :: g in files && files[g].current
    requires Lists(files, LineagesOf(files, seen), rows)
    requires Lists(files, Selected(files, user, Root(files, f)), versions)
    ensures LineagesOf(files, seen + {f}) == LineagesOf(files, seen) + RowIds(versions)
    ensures Lists(files, LineagesOf(files, seen + {f}), rows + versions)
  {
    OwnLineage(files, user, f);
    OtherLineage(files, seen, f);
    ListsAppend(files, LineagesOf(files, seen), rows, Members(files, Root(files, f)), versions);
    ListedIds(files, Members(files, Root(files, f)), versions);
  }

  lemma OwnLineage(files: Files, user: Id, f: Id)
    requires Flat(files) && OwnsFile(files, user, f)
    ensures Selected(files, user, Root(files, f)) == Members(files, Root(files, f))
  {
    RootOfRow(files, f);
    SelectedIsMembers(files, user, Root(files, f));
  }

  ghost function LineagesOf(files: Files, rows: set<Id>): set<Id> {
    set id | id in files && exists f :: f in rows && f in files && Root(files, f) == Root(files, id)
  }

  /** Two current rows are in two lineages. */
  lemma CurrentRowsApart(files: Files, f: Id, g: Id)
    requires LineageInv(files) && f in files && g in files && files[f].current && files[g].current
    requires Root(files, f) == Root(files, g)
    ensures f == g
  {
    RootOfRow(files, f);
    assert LineageOk(files, Root(files, f));
    var c := CurrentOf(files, Root(files, f));
    assert f == c && g == c;
  }

  lemma OtherLineage(files: Files, seen: set<Id>, f: Id)
    requires LineageInv(files) && f in files && files[f].current && f !in seen
    requires forall g | g in seen :: g in files && files[g].current
    ensures LineagesOf(files, seen) !! Members(files, Root(files, f))
    ensures LineagesOf(files, seen + {f}) == LineagesOf(files, seen) + Members(files, Root(files, f))
  {
    forall g | g in seen && Root(files, g) == Root(files, f)
      ensures false
    {
      CurrentRowsApart(files, f, g);
    }
    LineagesOfGrows(files, seen, f);
  }

  lemma LineagesOfGrows(files: Files, seen: set<Id>, f: Id)
    requires f in files
    ensures LineagesOf(files, seen + {f}) == LineagesOf(files, seen) + Members(files, Root(files, f))
  {
  }

  lemma DoomedInFolder(files: Files, user: Id, id: Id, here: set<Id>)
    requires Flat(files)
    requires forall f :: f in here <==> f in files && files[f].user == user && files[f].folder == Some(id) && files[f].current
    ensures LineagesOf(files, here) == DoomedRows(files, user, {id})
    ensures forall a | a in LineagesOf(files, here) :: files[a].user == user
  {
    forall a | a in files
      ensures a in LineagesOf(files, here) <==> a in DoomedRows(files, user, {id})
    {
      RootOfRow(files, a);
      if a in LineagesOf(files, here) {
        var f :| f in here && f in files && Root(files, f) == Root(files, a);
        RootOfRow(files, f);
        assert InDirs(files[f], user, {id});
      }
      if a in DoomedRows(files, user, {id}) {
        var c :| c in files && InDirs(files[c], user, {id}) && Root(files, c) == Root(files, a);
        assert c in here;
      }
    }
  }

  ghost function Children(fs: Folders, top: Id): set<Id> {
    set c | c in fs && fs[c].parent == Some(top)
  }

  /** Everything under one of `tops`. */
  ghost function Below(fs: Folders, tops: set<Id>): set<Id> {
    set x | x in fs && exists c :: c in tops && Under(fs, x, c)
  }

  lemma BelowGrows(fs: Folders, top: Id, seen: set<Id>, child: Id)
    requires IsForest(fs) && seen <= Children(fs, top) && child in Children(fs, top) && child !in seen && top in fs
    ensures Below(fs, seen + {child}) == Below(fs, seen) + Subtree(fs, child)
    ensures DownClosed(fs, Below(fs, seen))
    ensures child !in Below(fs, seen)
    ensures Subtree(fs - Below(fs, seen), child) == Subtree(fs, child)
    ensures Subtree(fs, child) < Subtree(fs, top) && !Under(fs, top, child)
  {
    var gone := Below(fs, seen);
    forall x | x in fs && fs[x].parent.Some? && fs[x].parent.value in gone
      ensures x in gone
    {
      var c :| c in seen && Under(fs, fs[x].parent.value, c);
      UnderParent(fs, x, c);
    }
    forall x | x in Subtree(fs, child)
      ensures x !in gone && x in Subtree(fs, top)
    {
      forall c | c in seen ensures !Under(fs, x, c) { SiblingsDisjoint(fs, top, child, c, x); }
      SubtreeSplit2(fs, top, child, x);
    }
    UnderSelf(fs, child);
    assert child in Subtree(fs, child);
    PrunedSubtree(fs, gone, child);
    UnderSelf(fs, top);
    if Under(fs, top, child) {
      SubtreeSplit2(fs, top, child, child);
      UnderAntisymmetric(fs, child, top);
      SelfParent(fs, top);
      assert false;
    }
  }

  lemma SubtreeSplit2(fs: Folders, top: Id, child: Id, x: Id)
    requires child in Children(fs, top) && Under(fs, x, child)
    ensures Under(fs, x, top)
  {
    UnderSelf(fs, top);
    UnderParent(fs, child, top);
    UnderTrans(fs, x, child, top);
  }

  lemma SelfParent(fs: Folders, x: Id)
    requires Grounded(fs, x) && x in fs
    ensures fs[x].parent != Some(x)
  {
    if fs[x].parent == Some(x) {
      assert Up(fs, x, 1) == Some(x);
      var n: nat :| Up(fs, x, n) == None;
      NoCycle(fs, x, 1, n);
      assert false;
    }
  }

  lemma SubtreeIsBelowAndTop(fs: Folders, top: Id)
    requires IsForest(fs) && top in fs
    ensures Subtree(fs, top) == Below(fs, Children(fs, top)) + {top}
    ensures top !in Below(fs, Children(fs, top))
  {
    UnderSelf(fs, top);
    forall x | x in fs && x != top
      ensures x in Subtree(fs, top) <==> x in Below(fs, Children(fs, top))
    {
      SubtreeSplit(fs, top, x);
    }
    forall c | c in Children(fs, top)
      ensures !Under(fs, top, c)
    {
      BelowGrows(fs, top, {}, c);
    }
  }

  method DeleteFolder(db: Backend, user: Id, id: Id, faults: StorageFaults) returns (reply: Reply, deleted: seq<Row>)
    requires IsForest(db.folders) && LineageInv(db.files)
    modifies db
    ensures Outcome(db.State(), reply) == AfterDeleteFolder(old(db.State()), user, id, faults)
    ensures reply == Success ==>
              Lists(old(db.files), DoomedRows(old(db.files), user, Subtree(old(db.folders), id)), deleted)
  {
    deleted := [];
    if !OwnsFolder(db.folders, user, id) { return NotFound, []; }
    ghost var before := db.files;
    deleted := DeleteFolderTree(db, user, id);
    ListedIds(before, DoomedRows(before, user, Subtree(old(db.folders), id)), deleted);
    CleanupRows(db, before, deleted, faults);
    reply := Success;
  }

  lemma DeleteKeepsForest(s: Store, user: Id, id: Id, faults: StorageFaults)
    requires IsForest(s.folders)
    ensures IsForest(AfterDeleteFolder(s, user, id, faults).store.folders)
  {
    SubtreeDownClosed(s.folders, id);
    PruneForest(s.folders, Subtree(s.folders, id));
  }

  lemma DeleteKeepsLineages(s: Store, user: Id, id: Id, faults: StorageFaults)
    requires LineageInv(s.files)
    ensures LineageInv(AfterDeleteFolder(s, user, id, faults).store.files)
  {
    var dirs := Subtree(s.folders, id);
    DoomedWhole(s.files, user, dirs);
    RemoveLineages(s.files, DoomedRows(s.files, user, dirs));
  }
}

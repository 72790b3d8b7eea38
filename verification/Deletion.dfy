/** What a delete takes with it: exactly which folders, rows and links, and which stored objects. */
module Deletion {
  import opened Wrappers
  import opened Schema
  import opened Forest
  import opened Lineage
  import opened ApiFiles
  import opened ApiFolders
  import opened Invariants
  import opened Shares
  import opened Runs

  /** The current version of the file that row `a` is a version of. */
  ghost function CurrentRowOf(files: Files, a: Id): File
    requires LineageInv(files) && a in files
  {
    RootOfRow(files, a);
    assert LineageOk(files, Root(files, a));
    files[CurrentOf(files, Root(files, a))]
  }

  /** The file of row `a` currently lies somewhere below folder `top`. */
  ghost predicate LiesBelow(s: Store, a: Id, top: Id)
    requires LineageInv(s.files) && a in s.files
  {
    var place := CurrentRowOf(s.files, a).folder;
    place.Some? && place.value in s.folders && Under(s.folders, place.value, top)
  }

  /** Only folders, rows, links and objects were dropped; what remains is as it was. */
  ghost predicate OnlyDrops(s: Store, t: Store) {
    && (forall d | d in t.folders :: d in s.folders && t.folders[d] == s.folders[d])
    && (forall a | a in t.files :: a in s.files && t.files[a] == s.files[a])
    && (forall x | x in t.shares :: x in s.shares && t.shares[x] == s.shares[x])
    && (forall key | key in t.objects :: key in s.objects && t.objects[key] == s.objects[key])
    && t == s.(folders := t.folders, files := t.files, shares := t.shares, objects := t.objects)
  }

  /** Deleting a folder removes that folder and everything below it, every version of exactly those files
      whose current version lies in there, and the links to them. Nothing else changes. */
  lemma FolderDeleteExact(s: Store, user: Id, id: Id, faults: StorageFaults)
    requires Inv(s) && OwnsFolder(s.folders, user, id)
    ensures var t := AfterDeleteFolder(s, user, id, faults).store;
            && (forall d | d in s.folders :: d !in t.folders <==> Under(s.folders, d, id))
            && (forall a | a in s.files :: a !in t.files <==> s.files[a].user == user && LiesBelow(s, a, id))
            && (forall x | x in s.shares :: x !in t.shares <==> s.shares[x].file !in t.files)
            && OnlyDrops(s, t)
  {
    var t := AfterDeleteFolder(s, user, id, faults).store;
    forall a | a in s.files
      ensures a !in t.files <==> s.files[a].user == user && LiesBelow(s, a, id)
    {
      DoomedIffBelow(s, user, id, a);
    }
    LinksFollowRows(s, user, DoomedRows(s.files, user, Subtree(s.folders, id)));
  }

  /** Deleting any version of a file removes exactly the file's versions and the links to them. Nothing else changes but
      the objects swept afterwards. */
  lemma FileDeleteExact(s: Store, user: Id, id: Id, faults: StorageFaults)
    requires Inv(s) && OwnsFile(s.files, user, id)
    ensures var t := AfterDeleteFile(s, user, id, faults).store;
            && t.folders == s.folders
            && (forall a | a in s.files :: a !in t.files <==> Root(s.files, a) == Root(s.files, id))
            && (forall x | x in s.shares :: x !in t.shares <==> s.shares[x].file !in t.files)
            && OnlyDrops(s, t)
  {
    DeleteRemovesLineage(s, user, id, faults);
    LinksFollowRows(s, user, Selected(s.files, user, Root(s.files, id)));
  }

  /** Both deletes are granted to the owner alone, and a refused one does nothing. */
  lemma DeleteAnswers(s: Store, user: Id, id: Id, faults: StorageFaults)
    ensures var o := AfterDeleteFolder(s, user, id, faults);
            && (o.reply == Success <==> OwnsFolder(s.folders, user, id))
            && (o.reply != Success ==> o == Outcome(s, NotFound))
    ensures var o := AfterDeleteFile(s, user, id, faults);
            && (o.reply == Success <==> OwnsFile(s.files, user, id))
            && (o.reply != Success ==> o == Outcome(s, NotFound))
  {
  }

  lemma LinksFollowRows(s: Store, user: Id, dead: set<Id>)
    requires SharesOk(s.files, s.shares) && forall a | a in dead :: OwnsFile(s.files, user, a)
    ensures forall x | x in s.shares :: x !in SharesWithout(s.shares, user, dead) <==> s.shares[x].file !in s.files - dead
  {
    forall x | x in s.shares
      ensures s.shares[x].file in s.files
      ensures x !in SharesWithout(s.shares, user, dead) <==> s.shares[x].file in dead
    {
      assert SharePointsAtFile(s.files, s.shares[x]);
    }
  }

  lemma DoomedIffBelow(s: Store, user: Id, id: Id, a: Id)
    requires LineageInv(s.files) && a in s.files
    ensures a in DoomedRows(s.files, user, Subtree(s.folders, id)) <==> s.files[a].user == user && LiesBelow(s, a, id)
  {
    DoomedByCurrent(s.files, user, Subtree(s.folders, id), a);
  }

  /** A lineage is doomed exactly when its one current row lies in the doomed folders. */
  lemma DoomedByCurrent(files: Files, user: Id, dirs: set<Id>, a: Id)
    requires LineageInv(files) && a in files
    ensures files[a].user == user ==>
              (CurrentIn(files, user, dirs, Root(files, a)) <==> InDirs(CurrentRowOf(files, a), user, dirs))
    ensures CurrentRowOf(files, a).user == files[a].user && CurrentRowOf(files, a).current
  {
    var root := Root(files, a);
    RootOfRow(files, a);
    assert LineageOk(files, root);
    var c := CurrentOf(files, root);
    RootOfRow(files, c);
    if CurrentIn(files, user, dirs, root) {
      var d :| d in files && InDirs(files[d], user, dirs) && Root(files, d) == root;
      assert d == c;
    }
  }

  /** The rows `dead` went from `s` to `t`, and their objects were cleaned up. */
  ghost predicate IsDeletion(s: Store, t: Store, dead: set<Id>, faults: StorageFaults) {
    && t.files == s.files - dead
    && t.objects == AfterSweep(s.objects, s.files, dead, faults)
    && t.jobs == s.jobs && t.issued == s.issued
  }

  /** Both deletes are deletions in this sense. */
  lemma FileDeletion(s: Store, user: Id, id: Id, faults: StorageFaults)
    requires OwnsFile(s.files, user, id)
    ensures IsDeletion(s, AfterDeleteFile(s, user, id, faults).store, Selected(s.files, user, Root(s.files, id)), faults)
  {
  }

  lemma FolderDeletion(s: Store, user: Id, id: Id, faults: StorageFaults)
    requires OwnsFolder(s.folders, user, id)
    ensures IsDeletion(s, AfterDeleteFolder(s, user, id, faults).store,
                       DoomedRows(s.files, user, Subtree(s.folders, id)), faults)
  {
  }

  /** An object of a row that was not deleted is still there, with its size, whatever storage did. */
  lemma CleanupConfined(s: Store, t: Store, dead: set<Id>, faults: StorageFaults, key: Key)
    requires Inv(s) && IsDeletion(s, t, dead, faults) && key.id !in dead
    ensures key in t.objects <==> key in s.objects
    ensures key in s.objects ==> t.objects[key] == s.objects[key]
  {
    if key in s.objects { SurvivorKeeps(s, dead, faults, key); }
  }

  /** The objects recorded on a row account for everything stored under its id. */
  ghost predicate AllRecorded(s: Store, id: Id)
    requires id in s.files
  {
    var f := s.files[id];
    forall key | key in s.objects && key.id == id ::
      key == f.storageKey || f.thumbnail == Some(key) || (key.Hls? && f.playlist.Some?)
  }

  /** With storage working, a deleted row leaves no object behind exactly when all its objects were recorded on it. */
  lemma CleanupCompleteIff(s: Store, t: Store, dead: set<Id>, id: Id)
    requires Inv(s) && IsDeletion(s, t, dead, NO_FAULTS) && id in dead && id in s.files
    ensures (forall key | key in t.objects :: key.id != id) <==> AllRecorded(s, id)
  {
    forall key | key in s.objects && key.id == id
      ensures key in t.objects <==> !Cleans(id, s.files[id], NO_FAULTS, key)
    {
      if Swept(s.files, dead, NO_FAULTS, key) {
        var other :| other in dead && other in s.files && Cleans(other, s.files[other], NO_FAULTS, key);
        assert RowObjects(other, s.files[other], s.objects);
        assert StatusOk(other, s.files[other], s.jobs, s.stranded);
        assert other == id;
      }
    }
  }

  /** Deleting ready files leaves nothing behind. */
  lemma ReadyRowsLeaveNothing(s: Store, t: Store, dead: set<Id>, id: Id)
    requires Inv(s) && IsDeletion(s, t, dead, NO_FAULTS) && id in dead && id in s.files
    requires s.files[id].status == Ready
    ensures forall key | key in t.objects :: key.id != id
  {
    var f := s.files[id];
    assert StatusOk(id, f, s.jobs, s.stranded) && RowObjects(id, f, s.objects);
    CleanupCompleteIff(s, t, dead, id);
  }

  /** Which deleted rows leave objects behind: with storage working, a row leaves none exactly when it was ready
      or its worker had stored nothing yet. The clean-up removes what the row names, and only a ready row names
      its previews and playlist. */
  lemma NothingLeftIff(s: Store, t: Store, dead: set<Id>, id: Id)
    requires Inv(s) && IsDeletion(s, t, dead, NO_FAULTS) && id in dead && id in s.files
    ensures (forall key | key in t.objects :: key.id != id) <==>
            s.files[id].status == Ready || forall key | key in s.objects && key.id == id :: key.Original?
  {
    var f := s.files[id];
    assert StatusOk(id, f, s.jobs, s.stranded) && RowObjects(id, f, s.objects);
    CleanupCompleteIff(s, t, dead, id);
    if f.status == Ready { ReadyRowsLeaveNothing(s, t, dead, id); }
  }
}

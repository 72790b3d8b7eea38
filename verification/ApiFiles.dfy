/** Listing, updating and deleting files, after backend/cmd/api-svc/handlers_file.go. */
module ApiFiles {
  import opened Wrappers
  import opened Schema
  import opened Lineage
  import opened ObjectKeys
  import opened ApiVersions

  /** The rows `listFiles` returns for one place: the root or one folder. */
  function ListFiles(files: Files, user: Id, place: Option<Id>): set<Id> {
    set id | id in files && files[id].user == user && files[id].current && files[id].folder == place
  }

  // ---------- rename and move ----------

  ghost function AfterUpdateFile(s: Store, user: Id, id: Id, name: Option<string>, folder: FolderArg): Outcome {
    if !OwnsFile(s.files, user, id) then Outcome(s, NotFound)
    else if name == Some("") || folder == Malformed then Outcome(s, BadRequest)
    else if folder.Given? && !OwnsFolder(s.folders, user, folder.id) then Outcome(s, BadRequest)
    else Outcome(s.(files := s.files[id := Edited(s.files[id], name, folder)]), Success)
  }

  function Edited(f: File, name: Option<string>, folder: FolderArg): File {
    f.(name := name.GetOr(f.name),
       folder := match folder case Given(d) => Some(d) case Empty => None case _ => f.folder)
  }

  method UpdateFile(db: Backend, user: Id, id: Id, name: Option<string>, folder: FolderArg) returns (reply: Reply)
    modifies db
    ensures Outcome(db.State(), reply) == AfterUpdateFile(old(db.State()), user, id, name, folder)
  {
    if !OwnsFile(db.files, user, id) { return NotFound; }
    var file := db.files[id];
    if name.Some? {
      if name.value == "" { return BadRequest; }
      file := file.(name := name.value);
    }
    match folder {
      case Omitted =>
      case Empty => file := file.(folder := None);
      case Malformed => return BadRequest;
      case Given(d) =>
        if !OwnsFolder(db.folders, user, d) { return BadRequest; }
        file := file.(folder := Some(d));
    }
    db.files := db.files[id := file];
    return Success;
  }

  /** A moved current file leaves its old listing and appears in the new one, and in no other. */
  lemma MoveMovesListing(s: Store, user: Id, id: Id, name: Option<string>, folder: FolderArg, place: Option<Id>)
    requires OwnsFile(s.files, user, id) && s.files[id].current
    requires AfterUpdateFile(s, user, id, name, folder).reply == Success
    ensures var gs := AfterUpdateFile(s, user, id, name, folder).store.files;
            var target := if folder.Given? then Some(folder.id) else if folder == Empty then None else s.files[id].folder;
            && ListFiles(gs, user, place) ==
               if place == target then ListFiles(s.files, user, place) + {id}
               else ListFiles(s.files, user, place) - {id}
  {
  }

  // ---------- object clean-up ----------

  /** Cleaning up row `id` removes the object `key`. */
  ghost predicate Cleans(id: Id, f: File, faults: StorageFaults, key: Key) {
    && key !in faults.stuck
    && (|| key == f.storageKey
        || f.thumbnail == Some(key)
        || (f.playlist.Some? && id !in faults.unlisted && key.Hls? && key.id == id))
  }

  ghost predicate Swept(files: Files, dead: set<Id>, faults: StorageFaults, key: Key) {
    exists id :: id in dead && id in files && Cleans(id, files[id], faults, key)
  }

  ghost function AfterSweep(objects: map<Key, int>, files: Files, dead: set<Id>, faults: StorageFaults): map<Key, int> {
    map key | key in objects && !Swept(files, dead, faults, key) :: objects[key]
  }

  /** Every object key under a prefix, in some order. */
  method ListObjects(db: Backend, prefix: string) returns (keys: seq<Key>)
    ensures forall key :: key in keys <==> key in db.objects && HasPrefix(Spell(key), prefix)
  {
    keys := [];
    var todo := set key | key in db.objects && HasPrefix(Spell(key), prefix);
    while todo != {}
      invariant forall key :: key in keys || key in todo <==> key in db.objects && HasPrefix(Spell(key), prefix)
      decreases todo
    {
      var key :| key in todo;
      keys := keys + [key];
      todo := todo - {key};
    }
  }

  /** Listing `hls/{id}/` yields the HLS objects of file `id`. */
  method ListHls(db: Backend, id: Id) returns (keys: seq<Key>)
    ensures forall key :: key in keys <==> key in db.objects && key.Hls? && key.id == id
  {
    keys := ListObjects(db, HlsPrefix(id));
    forall key: Key { PrefixListsExactly(key, id); }
  }

  /** The clean-up list of one row: its own key, its preview, and for videos the whole HLS prefix. */
  method KeysOf(db: Backend, row: Row, faults: StorageFaults) returns (keys: seq<Key>)
    ensures forall key | key in db.objects && key !in faults.stuck ::
              key in keys <==> Cleans(row.id, row.file, faults, key)
  {
    keys := [row.file.storageKey];
    if row.file.thumbnail.Some? { keys := keys + [row.file.thumbnail.value]; }
    if row.file.playlist.Some? && row.id !in faults.unlisted {
      var hlsKeys := ListHls(db, row.id);
      keys := keys + hlsKeys;
    }
  }

  method CleanupFileObjects(db: Backend, row: Row, faults: StorageFaults)
    modifies db`objects
    ensures db.objects ==
            map key | key in old(db.objects) && !Cleans(row.id, row.file, faults, key) :: old(db.objects)[key]
  {
    var keys := KeysOf(db, row, faults);
    ghost var before := db.objects;
    for i := 0 to |keys|
      invariant db.objects == Without(before, keys[..i], faults.stuck)
    {
      assert keys[..i + 1] == keys[..i] + [keys[i]];
      if keys[i] !in faults.stuck { db.objects := db.objects - {keys[i]}; }
    }
    assert keys[..|keys|] == keys;
  }

  ghost function Without(objects: map<Key, int>, keys: seq<Key>, stuck: set<Key>): map<Key, int> {
    map key | key in objects && !(key in keys && key !in stuck) :: objects[key]
  }

  ghost function RowIds(rows: seq<Row>): set<Id> {
    set r | r in rows :: r.id
  }

  /** The clean-up loop that follows a delete. */
  method CleanupRows(db: Backend, ghost files: Files, rows: seq<Row>, faults: StorageFaults)
    requires forall r | r in rows :: r.id in files && r.file == files[r.id]
    modifies db`objects
    ensures db.objects == AfterSweep(old(db.objects), files, RowIds(rows), faults)
  {
    for i := 0 to |rows|
      invariant db.objects == AfterSweep(old(db.objects), files, RowIds(rows[..i]), faults)
    {
      CleanupFileObjects(db, rows[i], faults);
      assert rows[..i + 1] == rows[..i] + [rows[i]];
      assert rows[i] in rows;
      forall key
        ensures Swept(files, RowIds(rows[..i + 1]), faults, key) <==>
                Swept(files, RowIds(rows[..i]), faults, key) || Cleans(rows[i].id, rows[i].file, faults, key)
      {
        assert RowIds(rows[..i + 1]) == RowIds(rows[..i]) + {rows[i].id};
      }
    }
    assert rows[..|rows|] == rows;
  }

  // ---------- delete ----------

  /** The share links left after the rows `dead` are deleted on behalf of `user`. */
  ghost function SharesWithout(shares: map<Id, Share>, user: Id, dead: set<Id>): map<Id, Share> {
    map id | id in shares && !(shares[id].user == user && shares[id].file in dead) :: shares[id]
  }

  ghost function WithoutRows(s: Store, user: Id, dead: set<Id>): Store {
    s.(files := s.files - dead, shares := SharesWithout(s.shares, user, dead))
  }

  ghost function AfterDeleteFile(s: Store, user: Id, id: Id, faults: StorageFaults): Outcome {
    if !OwnsFile(s.files, user, id) then Outcome(s, NotFound)
    else
      var dead := Selected(s.files, user, Root(s.files, id));
      Outcome(WithoutRows(s, user, dead).(objects := AfterSweep(s.objects, s.files, dead, faults)), Success)
  }

  /** Ids of a result list, gathered one by one. */
  method IdsOf(rows: seq<Row>) returns (ids: set<Id>)
    ensures ids == RowIds(rows)
  {
    ids := {};
    for i := 0 to |rows|
      invariant ids == RowIds(rows[..i])
    {
      ids := ids + {rows[i].id};
      assert rows[..i + 1] == rows[..i] + [rows[i]];
    }
    assert rows[..|rows|] == rows;
  }

  lemma ListedIds(files: Files, ids: set<Id>, rows: seq<Row>)
    requires Lists(files, ids, rows)
    ensures RowIds(rows) == ids
  {
    forall id | id in ids
      ensures id in RowIds(rows)
    {
      assert Row(id, files[id]) in rows;
    }
  }

  /** Delete the rows `ids` and the share links of `user` that point at them. */
  method DeleteRows(db: Backend, user: Id, ids: set<Id>)
    requires forall id | id in ids && id in db.files :: db.files[id].user == user
    modifies db`files, db`shares
    ensures db.files == old(db.files) - ids
    ensures db.shares == SharesWithout(old(db.shares), user, ids)
  {
    db.shares := map id | id in db.shares && !(db.shares[id].user == user && db.shares[id].file in ids) :: db.shares[id];
    db.files := map id | id in db.files && !(db.files[id].user == user && id in ids) :: db.files[id];
  }

  method DeleteFile(db: Backend, user: Id, id: Id, faults: StorageFaults) returns (reply: Reply)
    modifies db
    ensures Outcome(db.State(), reply) == AfterDeleteFile(old(db.State()), user, id, faults)
  {
    if !OwnsFile(db.files, user, id) { return NotFound; }
    ghost var before := db.files;
    var root := Root(db.files, id);
    var versions := LineageFiles(db, user, root);
    var ids := IdsOf(versions);
    ListedIds(before, Selected(before, user, root), versions);
    DeleteRows(db, user, ids);
    CleanupRows(db, before, versions, faults);
    return Success;
  }

  /** Deleting any version deletes its whole lineage and touches no other row. */
  lemma DeleteRemovesLineage(s: Store, user: Id, id: Id, faults: StorageFaults)
    requires LineageInv(s.files) && OwnsFile(s.files, user, id)
    ensures var t := AfterDeleteFile(s, user, id, faults).store;
            && t.files == s.files - Members(s.files, Root(s.files, id))
            && LineageInv(t.files)
  {
    RootOfRow(s.files, id);
    SelectedIsMembers(s.files, user, Root(s.files, id));
    RemoveLineages(s.files, Members(s.files, Root(s.files, id)));
  }
}

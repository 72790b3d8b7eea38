/** Version history and restore, after backend/cmd/api-svc/handlers_versions.go. */
module ApiVersions {
  import opened Wrappers
  import opened Schema
  import opened Lineage

  /** `rows` are exactly the rows `ids`, each once. */
  ghost predicate Lists(files: Files, ids: set<Id>, rows: seq<Row>) {
    && ids <= files.Keys
    && (forall i | 0 <= i < |rows| :: rows[i].id in ids && rows[i].file == files[rows[i].id])
    && (forall i, j | 0 <= i < j < |rows| :: rows[i].id != rows[j].id)
    && (forall id | id in ids :: Row(id, files[id]) in rows)
  }

  ghost predicate NewestFirst(rows: seq<Row>) {
    forall i, j | 0 <= i < j < |rows| :: rows[i].file.version >= rows[j].file.version
  }

  /** The row a descending sort would put first. */
  method Newest(files: Files, ids: set<Id>) returns (best: Id)
    requires ids != {} && ids <= files.Keys
    ensures best in ids
    ensures forall id | id in ids :: files[id].version <= files[best].version
  {
    best :| best in ids;
    var rest := ids - {best};
    while rest != {}
      invariant best in ids && rest <= ids
      invariant forall id | id in ids - rest :: files[id].version <= files[best].version
      decreases rest
    {
      var next :| next in rest;
      rest := rest - {next};
      if files[next].version > files[best].version { best := next; }
    }
  }

  method LineageFiles(db: Backend, user: Id, root: Id) returns (rows: seq<Row>)
    ensures Lists(db.files, Selected(db.files, user, root), rows) && NewestFirst(rows)
  {
    var ids := Selected(db.files, user, root);
    var todo := ids;
    rows := [];
    while todo != {}
      invariant todo <= ids
      invariant Lists(db.files, ids - todo, rows) && NewestFirst(rows)
      invariant forall i, id | 0 <= i < |rows| && id in todo :: rows[i].file.version >= db.files[id].version
      decreases todo
    {
      var best := Newest(db.files, todo);
      ListsGrow(db.files, ids - todo, rows, best);
      NewestGrows(rows, Row(best, db.files[best]));
      assert ids - (todo - {best}) == ids - todo + {best};
      rows := rows + [Row(best, db.files[best])];
      todo := todo - {best};
    }
    assert ids - todo == ids;
  }

  lemma NewestGrows(rows: seq<Row>, next: Row)
    requires NewestFirst(rows) && forall i | 0 <= i < |rows| :: rows[i].file.version >= next.file.version
    ensures NewestFirst(rows + [next])
  {
  }

  lemma ListsGrow(files: Files, ids: set<Id>, rows: seq<Row>, next: Id)
    requires Lists(files, ids, rows) && next in files && next !in ids
    ensures Lists(files, ids + {next}, rows + [Row(next, files[next])])
  {
    var more := rows + [Row(next, files[next])];
    assert more[|rows|] == Row(next, files[next]);
    assert forall id | id in ids :: Row(id, files[id]) in rows;
    assert forall r | r in rows :: r in more;
  }

  /** In a reachable state the history of an owned file is n, n-1, .. , 1 without gaps. */
  lemma HistoryCountsDown(files: Files, user: Id, id: Id, rows: seq<Row>)
    requires LineageInv(files) && OwnsFile(files, user, id)
    requires Lists(files, Selected(files, user, Root(files, id)), rows) && NewestFirst(rows)
    ensures forall i | 0 <= i < |rows| :: rows[i].file.version == |rows| - i
    ensures exists i :: 0 <= i < |rows| && rows[i].file.current
    ensures forall i, j | 0 <= i < j < |rows| :: !(rows[i].file.current && rows[j].file.current)
  {
    var root := Root(files, id);
    RootOfRow(files, id);
    SelectedIsMembers(files, user, root);
    var ids := Members(files, root);
    assert LineageOk(files, root);
    ListLength(files, ids, rows);
    var vs := seq(|rows|, i requires 0 <= i < |rows| => rows[i].file.version);
    VersionsFall(files, ids, rows, vs);
    forall i | 0 <= i < |rows|
      ensures rows[i].file.version == |rows| - i
    {
      AtMost(vs, i);
      AtLeast(vs, i);
    }
    var c := CurrentOf(files, root);
    assert Row(c, files[c]) in rows;
  }

  lemma {:induction false} ListLength(files: Files, ids: set<Id>, rows: seq<Row>)
    requires Lists(files, ids, rows)
    ensures |rows| == |ids|
    decreases |rows|
  {
    if rows != [] {
      var n := |rows| - 1;
      var last := rows[n];
      forall id | id in ids - {last.id}
        ensures Row(id, files[id]) in rows[..n]
      {
        var k :| 0 <= k < |rows| && rows[k] == Row(id, files[id]);
        assert rows[..n][k] == Row(id, files[id]);
      }
      ListLength(files, ids - {last.id}, rows[..n]);
    } else {
      assert ids == {};
    }
  }

  /** Numbers between 1 and the length of the list, each smaller than the one before. */
  ghost predicate Falling(vs: seq<int>) {
    && (forall i | 0 <= i < |vs| :: 1 <= vs[i] <= |vs|)
    && (forall i, j | 0 <= i < j < |vs| :: vs[i] > vs[j])
  }

  lemma VersionsFall(files: Files, ids: set<Id>, rows: seq<Row>, vs: seq<int>)
    requires Numbered(files, ids) && Lists(files, ids, rows) && NewestFirst(rows) && |rows| == |ids|
    requires |vs| == |rows| && forall i | 0 <= i < |vs| :: vs[i] == rows[i].file.version
    ensures Falling(vs)
  {
    forall i, j | 0 <= i < j < |vs|
      ensures vs[i] > vs[j]
    {
      assert rows[i].id != rows[j].id;
    }
  }

  lemma {:induction false} AtMost(vs: seq<int>, i: nat)
    requires Falling(vs) && i < |vs|
    ensures vs[i] <= |vs| - i
    decreases i
  {
    if i > 0 { AtMost(vs, i - 1); }
  }

  lemma {:induction false} AtLeast(vs: seq<int>, i: nat)
    requires Falling(vs) && i < |vs|
    ensures vs[i] >= |vs| - i
    decreases |vs| - i
  {
    if i + 1 < |vs| { AtLeast(vs, i + 1); }
  }

  ghost function AfterRestore(s: Store, user: Id, id: Id, version: Id): Outcome {
    if !OwnsFile(s.files, user, id) || !OwnsFile(s.files, user, version) then Outcome(s, NotFound)
    else if Root(s.files, version) != Root(s.files, id) then Outcome(s, BadRequest)
    else Outcome(s.(files := Flagged(s.files, user, Root(s.files, id), version)), Success)
  }

  method RestoreFileVersion(db: Backend, user: Id, id: Id, version: Id) returns (reply: Reply)
    requires Flat(db.files)
    modifies db
    ensures Outcome(db.State(), reply) == AfterRestore(old(db.State()), user, id, version)
  {
    if !OwnsFile(db.files, user, id) { return NotFound; }
    var root := Root(db.files, id);
    if !OwnsFile(db.files, user, version) { return NotFound; }
    if Root(db.files, version) != root { return BadRequest; }
    ghost var before := db.files;
    RootOfRow(before, version);
    db.files := Superseded(db.files, user, root);
    db.files := db.files[version := db.files[version].(current := true)];
    assert version in Selected(before, user, root);
    assert db.files == Flagged(before, user, root, version);
    return Success;
  }

  /** Restoring keeps every lineage well formed. */
  lemma RestoreKeepsLineages(s: Store, user: Id, id: Id, version: Id)
    requires LineageInv(s.files)
    ensures LineageInv(AfterRestore(s, user, id, version).store.files)
  {
    var o := AfterRestore(s, user, id, version);
    if o.reply == Success {
      RootOfRow(s.files, version);
      FlaggedInv(s.files, user, Root(s.files, id), version);
    }
  }

  /** Restoring the version that was current before undoes a restore completely. */
  lemma RestoreUndoes(s: Store, user: Id, id: Id, version: Id, was: Id)
    requires LineageInv(s.files) && AfterRestore(s, user, id, version).reply == Success
    requires was in s.files && Root(s.files, was) == Root(s.files, id) && s.files[was].current
    ensures AfterRestore(AfterRestore(s, user, id, version).store, user, id, was) == Outcome(s, Success)
  {
    var root := Root(s.files, id);
    RootOfRow(s.files, id);
    RootOfRow(s.files, was);
    assert LineageOk(s.files, root);
    assert CurrentOf(s.files, root) == was;
    FlaggedBack(s.files, user, root, version, was);
    assert s.(files := s.files) == s;
  }

  lemma FlaggedBack(files: Files, user: Id, root: Id, version: Id, was: Id)
    requires Flat(files) && OwnsFile(files, user, root) && files[root].parent == None
    requires IsTheCurrent(files, Members(files, root), was)
    ensures var gs := Flagged(files, user, root, version);
            && gs.Keys == files.Keys
            && (forall a | a in files :: Root(gs, a) == Root(files, a) && gs[a].user == files[a].user)
            && Flagged(gs, user, root, was) == files
  {
    SelectedIsMembers(files, user, root);
    var gs := Flagged(files, user, root, version);
    assert Selected(gs, user, root) == Selected(files, user, root);
    assert forall a | a in files :: Flagged(gs, user, root, was)[a] == files[a];
  }
}

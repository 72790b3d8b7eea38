/** Version lineages: one root row, rows pointing straight at it, one current row. */
module Lineage {
  import opened Wrappers
  import opened Schema

  type Files = map<Id, File>

  /** The id that ties all versions of one logical file together. */
  function Root(files: Files, id: Id): Id
    requires id in files
  {
    files[id].parent.GetOr(id)
  }

  /** The rows a query for `user` and lineage `root` selects. */
  function Selected(files: Files, user: Id, root: Id): set<Id> {
    set id | id in files && files[id].user == user && (id == root || files[id].parent == Some(root))
  }

  ghost function Members(files: Files, root: Id): set<Id> {
    set id | id in files && Root(files, id) == root
  }

  /** Every non-root row points at a root row of the same user. */
  ghost predicate Flat(files: Files) {
    forall id {:trigger files[id].parent} | id in files && files[id].parent.Some? ::
      && files[id].parent.value in files
      && files[files[id].parent.value].parent == None
      && files[files[id].parent.value].user == files[id].user
  }

  ghost predicate HasVersion(files: Files, rows: set<Id>, v: int) {
    exists a :: a in rows && a in files && files[a].version == v
  }

  /** The versions of `rows` are 1 .. |rows|, each exactly once. */
  ghost predicate Numbered(files: Files, rows: set<Id>) {
    && rows <= files.Keys
    && (forall a | a in rows :: 1 <= files[a].version <= |rows|)
    && (forall a, b | a in rows && b in rows && files[a].version == files[b].version :: a == b)
    && (forall v | 1 <= v <= |rows| :: HasVersion(files, rows, v))
  }

  ghost predicate IsTheCurrent(files: Files, rows: set<Id>, c: Id) {
    && rows <= files.Keys
    && c in rows
    && forall a | a in rows :: files[a].current <==> a == c
  }

  ghost predicate OneCurrent(files: Files, rows: set<Id>) {
    exists c :: IsTheCurrent(files, rows, c)
  }

  ghost predicate LineageOk(files: Files, root: Id) {
    && Numbered(files, Members(files, root))
    && OneCurrent(files, Members(files, root))
  }

  ghost predicate LineageInv(files: Files) {
    && Flat(files)
    && forall r {:trigger LineageOk(files, r)} | r in files && files[r].parent == None :: LineageOk(files, r)
  }

  ghost function CurrentOf(files: Files, root: Id): (c: Id)
    requires OneCurrent(files, Members(files, root))
    ensures IsTheCurrent(files, Members(files, root), c)
  {
    var c :| IsTheCurrent(files, Members(files, root), c);
    c
  }

  /** For the root of an owned row, the query and the lineage agree. */
  lemma SelectedIsMembers(files: Files, user: Id, root: Id)
    requires Flat(files) && OwnsFile(files, user, root) && files[root].parent == None
    ensures Selected(files, user, root) == Members(files, root)
  {
  }

  lemma RootOfRow(files: Files, id: Id)
    requires Flat(files) && id in files
    ensures Root(files, id) in files && files[Root(files, id)].parent == None
    ensures files[Root(files, id)].user == files[id].user
    ensures id in Members(files, Root(files, id))
  {
  }

  // ---------- what each kind of change does ----------

  /** Rows whose place in a lineage did not change. */
  ghost predicate SamePlaces(files: Files, gs: Files) {
    && gs.Keys == files.Keys
    && forall id | id in files ::
         && gs[id].parent == files[id].parent && gs[id].user == files[id].user
         && gs[id].version == files[id].version && gs[id].current == files[id].current
  }

  /** The lineage of `r` kept its rows, their version numbers and their flags. */
  ghost predicate Copied(files: Files, gs: Files, r: Id) {
    && Members(gs, r) == Members(files, r)
    && forall a | a in Members(files, r) :: gs[a].version == files[a].version && gs[a].current == files[a].current
  }

  lemma CopiedOk(files: Files, gs: Files, r: Id)
    requires LineageOk(files, r) && Copied(files, gs, r)
    ensures LineageOk(gs, r)
  {
    var rows := Members(files, r);
    assert IsTheCurrent(gs, rows, CurrentOf(files, r));
    NumberedCopied(files, gs, rows);
  }

  /** Changing one lineage keeps the invariant if that lineage is still good. */
  lemma OneLineageChanged(files: Files, gs: Files, root: Id)
    requires LineageInv(files) && Flat(gs) && LineageOk(gs, root)
    requires forall r | r in gs && gs[r].parent == None && r != root ::
               r in files && files[r].parent == None && Copied(files, gs, r)
    ensures LineageInv(gs)
  {
    forall r | r in gs && gs[r].parent == None
      ensures LineageOk(gs, r)
    {
      if r != root { CopiedOk(files, gs, r); }
    }
  }

  lemma SamePlacesKeep(files: Files, gs: Files)
    requires LineageInv(files) && SamePlaces(files, gs)
    ensures LineageInv(gs)
  {
    SamePlacesFlat(files, gs);
    forall r | r in gs && gs[r].parent == None
      ensures LineageOk(gs, r)
    {
      SamePlacesCopied(files, gs, r);
      CopiedOk(files, gs, r);
    }
  }

  lemma SamePlacesFlat(files: Files, gs: Files)
    requires Flat(files) && SamePlaces(files, gs)
    ensures Flat(gs)
  {
  }

  lemma SamePlacesCopied(files: Files, gs: Files, r: Id)
    requires SamePlaces(files, gs)
    ensures Copied(files, gs, r)
  {
    assert forall id | id in files :: Root(gs, id) == Root(files, id);
  }

  lemma InsertRoot(files: Files, id: Id, f: File)
    requires LineageInv(files) && id !in files
    requires f.parent == None && f.version == 1 && f.current
    ensures LineageInv(files[id := f])
  {
    var gs := files[id := f];
    InsertRootMembers(files, id, f);
    assert LineageOk(gs, id) by {
      assert IsTheCurrent(gs, {id}, id);
      assert HasVersion(gs, {id}, 1);
    }
    OneLineageChanged(files, gs, id);
  }

  lemma InsertRootMembers(files: Files, id: Id, f: File)
    requires Flat(files) && id !in files && f.parent == None
    ensures Flat(files[id := f]) && Members(files[id := f], id) == {id}
    ensures forall r | r in files && files[r].parent == None :: Copied(files, files[id := f], r)
  {
    var gs := files[id := f];
    assert forall a | a in files :: Root(gs, a) == Root(files, a);
    forall a | a in Members(gs, id)
      ensures a == id
    {
      if a in files { RootOfRow(files, a); }
    }
    forall r | r in files && files[r].parent == None
      ensures Copied(files, gs, r)
    {
      assert Members(gs, r) == Members(files, r);
    }
  }

  /** All flags of one lineage cleared. */
  function Superseded(files: Files, user: Id, root: Id): Files {
    var rows := Selected(files, user, root);
    map id | id in files :: if id in rows then files[id].(current := false) else files[id]
  }

  lemma SupersededRows(files: Files, user: Id, root: Id)
    requires Flat(files) && OwnsFile(files, user, root) && files[root].parent == None
    ensures var gs := Superseded(files, user, root);
            && gs.Keys == files.Keys
            && forall id | id in files ::
                 gs[id] == if Root(files, id) == root then files[id].(current := false) else files[id]
  {
    SelectedIsMembers(files, user, root);
    assert Superseded(files, user, root).Keys == files.Keys;
  }

  lemma SupersedeAndExtend(files: Files, user: Id, root: Id, id: Id, f: File)
    requires Flat(files) && OwnsFile(files, user, root) && files[root].parent == None
    requires id !in files
    ensures Extended(files, Superseded(files, user, root)[id := f], root, id)
  {
    SupersededRows(files, user, root);
  }

  /** The flag of one lineage moved to `target`. */
  function Flagged(files: Files, user: Id, root: Id, target: Id): Files {
    var rows := Selected(files, user, root);
    map id | id in files :: if id in rows then files[id].(current := id == target) else files[id]
  }

  lemma FlaggedRows(files: Files, user: Id, root: Id, target: Id)
    requires Flat(files) && OwnsFile(files, user, root) && files[root].parent == None
    ensures Reflagged(files, Flagged(files, user, root, target), root, target)
  {
    SelectedIsMembers(files, user, root);
    assert Flagged(files, user, root, target).Keys == files.Keys;
  }

  lemma FlaggedInv(files: Files, user: Id, root: Id, target: Id)
    requires LineageInv(files) && OwnsFile(files, user, root) && files[root].parent == None
    requires target in Members(files, root)
    ensures LineageInv(Flagged(files, user, root, target))
  {
    FlaggedRows(files, user, root, target);
    ReflaggedInv(files, Flagged(files, user, root, target), root, target);
  }

  /** Only the flags of one lineage change, and they end up on `target`. */
  ghost predicate Reflagged(files: Files, gs: Files, root: Id, target: Id) {
    && gs.Keys == files.Keys
    && forall id | id in files ::
         gs[id] == if Root(files, id) == root then files[id].(current := id == target) else files[id]
  }

  lemma ReflaggedInv(files: Files, gs: Files, root: Id, target: Id)
    requires LineageInv(files) && root in files && files[root].parent == None
    requires target in Members(files, root) && Reflagged(files, gs, root, target)
    ensures LineageInv(gs)
  {
    ReflagPlaces(files, gs);
    OthersCopied(files, gs, root);
    assert LineageOk(files, root);
    ReflaggedOk(files, gs, root, target);
    OneLineageChanged(files, gs, root);
  }

  lemma ReflaggedOk(files: Files, gs: Files, root: Id, target: Id)
    requires Numbered(files, Members(files, root)) && Members(gs, root) == Members(files, root)
    requires target in Members(files, root)
    requires forall a | a in Members(files, root) ::
               gs[a].version == files[a].version && (gs[a].current <==> a == target)
    ensures LineageOk(gs, root)
  {
    assert IsTheCurrent(gs, Members(gs, root), target);
    NumberedCopied(files, gs, Members(files, root));
  }

  lemma ReflagPlaces(files: Files, gs: Files)
    requires Flat(files) && gs.Keys == files.Keys
    requires forall id | id in files :: gs[id].parent == files[id].parent && gs[id].user == files[id].user
    ensures Flat(gs) && forall r :: Members(gs, r) == Members(files, r)
  {
    assert forall id | id in files :: Root(gs, id) == Root(files, id);
  }

  lemma OthersCopied(files: Files, gs: Files, root: Id)
    requires Flat(files) && files.Keys <= gs.Keys
    requires forall r | r != root :: Members(gs, r) == Members(files, r)
    requires forall id | id in files && Root(files, id) != root :: gs[id] == files[id]
    ensures forall r | r in files && r != root :: Copied(files, gs, r)
  {
  }

  /** Superseding a lineage and adding the next version as the current row. */
  lemma InsertVersion(files: Files, user: Id, root: Id, id: Id, f: File)
    requires LineageInv(files) && OwnsFile(files, user, root) && files[root].parent == None
    requires id !in files && f.parent == Some(root) && f.user == user && f.current
    requires f.version == |Members(files, root)| + 1
    ensures LineageInv(Superseded(files, user, root)[id := f])
  {
    SupersedeAndExtend(files, user, root, id, f);
    ExtendedInv(files, Superseded(files, user, root)[id := f], root, id);
  }

  /** One lineage loses its flags and gains the row `id`; everything else stays. */
  ghost predicate Extended(files: Files, gs: Files, root: Id, id: Id) {
    && id !in files
    && gs.Keys == files.Keys + {id}
    && forall a | a in files ::
         gs[a] == if Root(files, a) == root then files[a].(current := false) else files[a]
  }

  lemma ExtendedInv(files: Files, gs: Files, root: Id, id: Id)
    requires LineageInv(files) && root in files && files[root].parent == None
    requires Extended(files, gs, root, id)
    requires gs[id].parent == Some(root) && gs[id].user == files[root].user && gs[id].current
    requires gs[id].version == |Members(files, root)| + 1
    ensures LineageInv(gs)
  {
    ExtendedFlat(files, gs, root, id);
    ExtendedMembers(files, gs, root, id);
    assert LineageOk(files, root);
    ExtendedOk(files, gs, root, id);
    OneLineageChanged(files, gs, root);
  }

  lemma ExtendedMembers(files: Files, gs: Files, root: Id, id: Id)
    requires Flat(files) && Extended(files, gs, root, id) && gs[id].parent == Some(root)
    ensures Members(gs, root) == Members(files, root) + {id}
    ensures forall r | r in files && r != root :: Copied(files, gs, r)
    ensures forall a | a in Members(files, root) :: gs[a].version == files[a].version && !gs[a].current
  {
    MembersGrow(files, gs, root, id);
    OthersCopied(files, gs, root);
  }

  lemma ExtendedFlat(files: Files, gs: Files, root: Id, id: Id)
    requires Flat(files) && root in files && files[root].parent == None
    requires Extended(files, gs, root, id)
    requires gs[id].parent == Some(root) && gs[id].user == files[root].user
    ensures Flat(gs)
  {
  }

  lemma ExtendedOk(files: Files, gs: Files, root: Id, id: Id)
    requires Numbered(files, Members(files, root)) && id !in files && id in gs
    requires Members(gs, root) == Members(files, root) + {id}
    requires forall a | a in Members(files, root) :: gs[a].version == files[a].version && !gs[a].current
    requires gs[id].version == |Members(files, root)| + 1 && gs[id].current
    ensures LineageOk(gs, root)
  {
    assert IsTheCurrent(gs, Members(gs, root), id);
    NumberedGrows(files, gs, Members(files, root), id);
  }

  lemma MembersGrow(files: Files, gs: Files, root: Id, id: Id)
    requires gs.Keys == files.Keys + {id} && id !in files
    requires forall a | a in files :: gs[a].parent == files[a].parent
    requires gs[id].parent == Some(root)
    ensures Members(gs, root) == Members(files, root) + {id}
    ensures forall r | r != root :: Members(gs, r) == Members(files, r)
  {
    assert forall a | a in files :: Root(gs, a) == Root(files, a);
  }

  lemma NumberedGrows(files: Files, gs: Files, rows: set<Id>, id: Id)
    requires Numbered(files, rows) && id !in rows && rows + {id} <= gs.Keys
    requires forall a | a in rows :: gs[a].version == files[a].version
    requires gs[id].version == |rows| + 1
    ensures Numbered(gs, rows + {id})
  {
    forall v | 1 <= v <= |rows| + 1
      ensures HasVersion(gs, rows + {id}, v)
    {
      if v <= |rows| {
        assert HasVersion(files, rows, v);
        var a :| a in rows && a in files && files[a].version == v;
        assert gs[a].version == v;
      } else {
        assert gs[id].version == v;
      }
    }
  }

  lemma NumberedCopied(files: Files, gs: Files, rows: set<Id>)
    requires Numbered(files, rows) && rows <= gs.Keys
    requires forall a | a in rows :: gs[a].version == files[a].version
    ensures Numbered(gs, rows)
  {
    forall v | 1 <= v <= |rows|
      ensures HasVersion(gs, rows, v)
    {
      assert HasVersion(files, rows, v);
    }
  }

  /** A set of rows that contains a lineage whole or not at all. */
  ghost predicate WholeLineages(files: Files, dead: set<Id>) {
    forall a, b | a in files && b in files && Root(files, a) == Root(files, b) :: a in dead <==> b in dead
  }

  lemma RemoveLineages(files: Files, dead: set<Id>)
    requires LineageInv(files) && WholeLineages(files, dead)
    ensures LineageInv(files - dead)
  {
    var gs := files - dead;
    forall id | id in gs && gs[id].parent.Some?
      ensures gs[id].parent.value in gs
    {
      RootOfRow(files, id);
      assert Root(files, Root(files, id)) == Root(files, id);
    }
    forall r | r in gs && gs[r].parent == None
      ensures LineageOk(gs, r)
    {
      assert Root(files, r) == r;
      assert Members(gs, r) == Members(files, r);
      CopiedOk(files, gs, r);
    }
  }

  // ---------- consequences ----------

  /** The highest version number of a lineage is its length. */
  lemma HighestVersion(files: Files, rows: set<Id>)
    requires Numbered(files, rows) && rows != {}
    ensures exists a :: a in rows && files[a].version == |rows|
    ensures forall a | a in rows :: files[a].version <= |rows|
  {
    var a :| a in rows;
    assert 1 <= files[a].version <= |rows|;
    assert HasVersion(files, rows, |rows|);
  }
}

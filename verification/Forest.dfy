/** Parent links between folders, and what it means for them to form a forest. */
module Forest {
  import opened Wrappers
  import opened Schema

  type Folders = map<Id, Folder>

  /** The k-th ancestor of `x`, or None once the chain has ended. */
  ghost function Up(fs: Folders, x: Id, k: nat): Option<Id>
    decreases k
  {
    if k == 0 then Some(x)
    else if x in fs && fs[x].parent.Some? then Up(fs, fs[x].parent.value, k - 1)
    else None
  }

  /** `top` is on the ancestor-or-self chain of `x`. */
  ghost predicate Under(fs: Folders, x: Id, top: Id) {
    exists k: nat :: Up(fs, x, k) == Some(top)
  }

  /** The parent chain of `x` ends. */
  ghost predicate Grounded(fs: Folders, x: Id) {
    exists k: nat :: Up(fs, x, k) == None
  }

  ghost predicate ParentsKept(fs: Folders) {
    forall x {:trigger fs[x].parent} | x in fs && fs[x].parent.Some? :: OwnsFolder(fs, fs[x].user, fs[x].parent.value)
  }

  ghost predicate IsForest(fs: Folders) {
    && ParentsKept(fs)
    && forall x | x in fs :: Grounded(fs, x)
  }

  ghost function Subtree(fs: Folders, top: Id): set<Id> {
    set x | x in fs && Under(fs, x, top)
  }

  /** The rows a query scoped to `user` can see. */
  ghost function Visible(fs: Folders, user: Id): Folders {
    map x | x in fs && fs[x].user == user :: fs[x]
  }

  // ---------- chains ----------

  lemma {:induction false} UpAdd(fs: Folders, x: Id, a: nat, b: nat)
    ensures Up(fs, x, a + b) == match Up(fs, x, a) case None => None case Some(y) => Up(fs, y, b)
    decreases a
  {
    if a > 0 && x in fs && fs[x].parent.Some? {
      UpAdd(fs, fs[x].parent.value, a - 1, b);
    }
  }

  lemma UnderSelf(fs: Folders, x: Id)
    ensures Under(fs, x, x)
  {
    assert Up(fs, x, 0) == Some(x);
  }

  lemma UnderTrans(fs: Folders, x: Id, y: Id, z: Id)
    requires Under(fs, x, y) && Under(fs, y, z)
    ensures Under(fs, x, z)
  {
    var a: nat :| Up(fs, x, a) == Some(y);
    var b: nat :| Up(fs, y, b) == Some(z);
    UpAdd(fs, x, a, b);
  }

  /** A proper descendant of `top` is under it through its own parent. */
  lemma UnderParent(fs: Folders, x: Id, top: Id)
    ensures Under(fs, x, top) <==>
            x == top || (x in fs && fs[x].parent.Some? && Under(fs, fs[x].parent.value, top))
  {
    if Under(fs, x, top) && x != top {
      var k: nat :| Up(fs, x, k) == Some(top);
      assert Up(fs, fs[x].parent.value, k - 1) == Some(top);
    }
    if x == top { UnderSelf(fs, x); }
    if x in fs && fs[x].parent.Some? && Under(fs, fs[x].parent.value, top) {
      var k: nat :| Up(fs, fs[x].parent.value, k) == Some(top);
      assert Up(fs, x, k + 1) == Some(top);
    }
  }

  lemma GroundedParent(fs: Folders, x: Id)
    ensures Grounded(fs, x) <==> !(x in fs && fs[x].parent.Some?) || Grounded(fs, fs[x].parent.value)
  {
    if x in fs && fs[x].parent.Some? {
      if Grounded(fs, x) {
        var k: nat :| Up(fs, x, k) == None;
        assert Up(fs, fs[x].parent.value, k - 1) == None;
      }
      if Grounded(fs, fs[x].parent.value) {
        var k: nat :| Up(fs, fs[x].parent.value, k) == None;
        assert Up(fs, x, k + 1) == None;
      }
    } else {
      assert Up(fs, x, 1) == None;
    }
  }

  lemma {:induction false} NoCycle(fs: Folders, x: Id, k: nat, n: nat)
    requires Up(fs, x, n) == None && Up(fs, x, k) == Some(x)
    ensures k == 0
    decreases n
  {
    if k > 0 {
      if n >= k {
        UpAdd(fs, x, k, n - k);
        NoCycle(fs, x, k, n - k);
      } else {
        UpAdd(fs, x, n, k - n);
      }
    }
  }

  lemma UnderAntisymmetric(fs: Folders, x: Id, y: Id)
    requires Grounded(fs, x) && Under(fs, x, y) && Under(fs, y, x)
    ensures x == y
  {
    var n: nat :| Up(fs, x, n) == None;
    var a: nat :| Up(fs, x, a) == Some(y);
    var b: nat :| Up(fs, y, b) == Some(x);
    UpAdd(fs, x, a, b);
    NoCycle(fs, x, a + b, n);
  }

  /** Two ancestors of one folder lie on one chain. */
  lemma UnderComparable(fs: Folders, x: Id, a: Id, b: Id)
    requires Under(fs, x, a) && Under(fs, x, b)
    ensures Under(fs, a, b) || Under(fs, b, a)
  {
    var i: nat :| Up(fs, x, i) == Some(a);
    var j: nat :| Up(fs, x, j) == Some(b);
    if i <= j { UpAdd(fs, x, i, j - i); } else { UpAdd(fs, x, j, i - j); }
  }

  /** Subtrees of two children of one folder share nothing. */
  lemma SiblingsDisjoint(fs: Folders, top: Id, a: Id, b: Id, x: Id)
    requires IsForest(fs) && a in fs && b in fs && a != b
    requires fs[a].parent == Some(top) && fs[b].parent == Some(top)
    requires Under(fs, x, a)
    ensures !Under(fs, x, b)
  {
    if Under(fs, x, b) {
      UnderComparable(fs, x, a, b);
      if Under(fs, a, b) { ChildNotUnderSibling(fs, top, a, b); } else { ChildNotUnderSibling(fs, top, b, a); }
      assert false;
    }
  }

  lemma ChildNotUnderSibling(fs: Folders, top: Id, a: Id, b: Id)
    requires IsForest(fs) && a in fs && b in fs && a != b
    requires fs[a].parent == Some(top) && fs[b].parent == Some(top)
    ensures !Under(fs, a, b)
  {
    if Under(fs, a, b) {
      UnderParent(fs, a, b);
      UnderSelf(fs, top);
      UnderParent(fs, b, top);
      UnderAntisymmetric(fs, b, top);
      assert Up(fs, b, 1) == Some(b);
      var n: nat :| Up(fs, b, n) == None;
      NoCycle(fs, b, 1, n);
      assert false;
    }
  }

  /** Owned chains look the same through a query scoped to the owner. */
  lemma {:induction false} UpVisible(fs: Folders, user: Id, x: Id, k: nat)
    requires ParentsKept(fs) && OwnsFolder(fs, user, x)
    ensures Up(Visible(fs, user), x, k) == Up(fs, x, k)
    decreases k
  {
    if k > 0 && fs[x].parent.Some? {
      UpVisible(fs, user, fs[x].parent.value, k - 1);
    }
  }

  lemma VisibleGrounded(fs: Folders, user: Id, x: Id)
    requires IsForest(fs)
    ensures Grounded(Visible(fs, user), x)
  {
    if OwnsFolder(fs, user, x) {
      var n: nat :| Up(fs, x, n) == None;
      UpVisible(fs, user, x, n);
    } else {
      assert Up(Visible(fs, user), x, 1) == None;
    }
  }

  lemma VisibleUnder(fs: Folders, user: Id, x: Id, top: Id)
    requires ParentsKept(fs) && OwnsFolder(fs, user, x)
    ensures Under(Visible(fs, user), x, top) <==> Under(fs, x, top)
  {
    if Under(fs, x, top) {
      var k: nat :| Up(fs, x, k) == Some(top);
      UpVisible(fs, user, x, k);
    }
    if Under(Visible(fs, user), x, top) {
      var k: nat :| Up(Visible(fs, user), x, k) == Some(top);
      UpVisible(fs, user, x, k);
    }
  }

  /** In a forest everything below an owned folder is owned by the same user. */
  lemma {:induction false} ChainOwner(fs: Folders, x: Id, k: nat)
    requires ParentsKept(fs) && x in fs && Up(fs, x, k).Some?
    ensures OwnsFolder(fs, fs[x].user, Up(fs, x, k).value)
    decreases k
  {
    if k > 0 { ChainOwner(fs, fs[x].parent.value, k - 1); }
  }

  // ---------- changing one link ----------

  ghost predicate AgreeOff(fs: Folders, gs: Folders, x: Id) {
    && gs.Keys == fs.Keys
    && forall y | y in fs && y != x :: gs[y].parent == fs[y].parent && gs[y].user == fs[y].user
  }

  lemma {:induction false} UpAvoids(fs: Folders, gs: Folders, x: Id, y: Id, k: nat)
    requires AgreeOff(fs, gs, x) && !Under(fs, y, x)
    ensures Up(gs, y, k) == Up(fs, y, k)
    decreases k
  {
    UnderSelf(fs, y);
    UnderParent(fs, y, x);
    if k > 0 && y in fs && fs[y].parent.Some? {
      UpAvoids(fs, gs, x, fs[y].parent.value, k - 1);
    }
  }

  lemma {:induction false} GroundedThrough(fs: Folders, gs: Folders, x: Id, y: Id, k: nat)
    requires AgreeOff(fs, gs, x) && Grounded(gs, x) && Up(fs, y, k) == Some(x)
    ensures Grounded(gs, y)
    decreases k
  {
    if y != x {
      GroundedThrough(fs, gs, x, fs[y].parent.value, k - 1);
      GroundedParent(gs, y);
    }
  }

  /** Re-linking `x` keeps the forest if the new chain of `x` still ends. */
  lemma RelinkForest(fs: Folders, gs: Folders, x: Id)
    requires IsForest(fs) && AgreeOff(fs, gs, x) && ParentsKept(gs) && Grounded(gs, x)
    ensures IsForest(gs)
  {
    forall y | y in gs
      ensures Grounded(gs, y)
    {
      if Under(fs, y, x) {
        var k: nat :| Up(fs, y, k) == Some(x);
        GroundedThrough(fs, gs, x, y, k);
      } else {
        var n: nat :| Up(fs, y, n) == None;
        UpAvoids(fs, gs, x, y, n);
      }
    }
  }

  /** Moving `x` below `p` gives a forest exactly when `x` is not on the chain of `p`. */
  lemma MoveKeepsForestIff(fs: Folders, gs: Folders, x: Id, p: Id)
    requires IsForest(fs) && x in fs && OwnsFolder(fs, fs[x].user, p)
    requires AgreeOff(fs, gs, x) && gs[x].parent == Some(p) && gs[x].user == fs[x].user
    ensures IsForest(gs) <==> !Under(fs, p, x)
  {
    if Under(fs, p, x) {
      var k: nat :| Up(fs, p, k) == Some(x);
      CycleThrough(fs, gs, x, p, k);
      var j: nat :| Up(gs, p, j) == Some(x);
      assert Up(gs, x, j + 1) == Some(x);
      if IsForest(gs) {
        var n: nat :| Up(gs, x, n) == None;
        NoCycle(gs, x, j + 1, n);
        assert false;
      }
    } else {
      var n: nat :| Up(fs, p, n) == None;
      UpAvoids(fs, gs, x, p, n);
      GroundedParent(gs, x);
      RelinkForest(fs, gs, x);
    }
  }

  lemma {:induction false} CycleThrough(fs: Folders, gs: Folders, x: Id, y: Id, k: nat)
    requires AgreeOff(fs, gs, x) && Up(fs, y, k) == Some(x)
    ensures Under(gs, y, x)
    decreases k
  {
    if y == x {
      UnderSelf(gs, y);
    } else {
      CycleThrough(fs, gs, x, fs[y].parent.value, k - 1);
      UnderParent(gs, y, x);
    }
  }

  /** A renamed or re-rooted folder leaves a forest. */
  lemma RerootForest(fs: Folders, gs: Folders, x: Id)
    requires IsForest(fs) && x in fs && AgreeOff(fs, gs, x) && gs[x].user == fs[x].user
    requires gs[x].parent == None || gs[x].parent == fs[x].parent
    ensures IsForest(gs)
  {
    if gs[x].parent == None {
      GroundedParent(gs, x);
      RelinkForest(fs, gs, x);
    } else {
      forall y | y in gs
        ensures Grounded(gs, y)
      {
        var n: nat :| Up(fs, y, n) == None;
        UpSameLinks(fs, gs, y, n);
      }
    }
  }

  lemma {:induction false} UpSameLinks(fs: Folders, gs: Folders, y: Id, k: nat)
    requires gs.Keys == fs.Keys && forall z | z in fs :: gs[z].parent == fs[z].parent
    ensures Up(gs, y, k) == Up(fs, y, k)
    decreases k
  {
    if k > 0 && y in fs && fs[y].parent.Some? { UpSameLinks(fs, gs, fs[y].parent.value, k - 1); }
  }

  // ---------- growing and pruning ----------

  lemma AddLeafForest(fs: Folders, x: Id, f: Folder)
    requires IsForest(fs) && x !in fs
    requires f.parent.Some? ==> OwnsFolder(fs, f.user, f.parent.value)
    ensures IsForest(fs[x := f])
  {
    var gs := fs[x := f];
    forall y | y in gs
      ensures Grounded(gs, y)
    {
      if y in fs {
        var n: nat :| Up(fs, y, n) == None;
        UpAddLeaf(fs, x, f, y, n);
      } else {
        if f.parent.Some? {
          var n: nat :| Up(fs, f.parent.value, n) == None;
          UpAddLeaf(fs, x, f, f.parent.value, n);
        }
        GroundedParent(gs, y);
      }
    }
  }

  lemma {:induction false} UpAddLeaf(fs: Folders, x: Id, f: Folder, y: Id, k: nat)
    requires ParentsKept(fs) && x !in fs && y in fs
    ensures Up(fs[x := f], y, k) == Up(fs, y, k)
    decreases k
  {
    if k > 0 && fs[y].parent.Some? { UpAddLeaf(fs, x, f, fs[y].parent.value, k - 1); }
  }

  /** A set of folders that contains everything below its members. */
  ghost predicate DownClosed(fs: Folders, d: set<Id>) {
    && d <= fs.Keys
    && forall x | x in fs && fs[x].parent.Some? && fs[x].parent.value in d :: x in d
  }

  lemma SubtreeDownClosed(fs: Folders, top: Id)
    ensures DownClosed(fs, Subtree(fs, top))
  {
    forall x | x in fs && fs[x].parent.Some? && fs[x].parent.value in Subtree(fs, top)
      ensures x in Subtree(fs, top)
    {
      UnderParent(fs, x, top);
    }
  }

  lemma {:induction false} UpPruned(fs: Folders, d: set<Id>, y: Id, k: nat)
    requires ParentsKept(fs) && DownClosed(fs, d) && y !in d
    ensures Up(fs - d, y, k) == Up(fs, y, k)
    decreases k
  {
    if k > 0 && y in fs && fs[y].parent.Some? { UpPruned(fs, d, fs[y].parent.value, k - 1); }
  }

  lemma PruneForest(fs: Folders, d: set<Id>)
    requires IsForest(fs) && DownClosed(fs, d)
    ensures IsForest(fs - d)
  {
    forall y | y in fs - d
      ensures Grounded(fs - d, y)
    {
      var n: nat :| Up(fs, y, n) == None;
      UpPruned(fs, d, y, n);
    }
  }

  /** Pruning elsewhere does not change what lies below a remaining folder. */
  lemma PrunedSubtree(fs: Folders, d: set<Id>, top: Id)
    requires ParentsKept(fs) && DownClosed(fs, d)
    ensures Subtree(fs - d, top) == Subtree(fs, top) - d
  {
    forall y | y in fs && y !in d
      ensures Under(fs - d, y, top) <==> Under(fs, y, top)
    {
      if Under(fs, y, top) {
        var k: nat :| Up(fs, y, k) == Some(top);
        UpPruned(fs, d, y, k);
      }
      if Under(fs - d, y, top) {
        var k: nat :| Up(fs - d, y, k) == Some(top);
        UpPruned(fs, d, y, k);
      }
    }
  }

  /** A subtree is its top and the subtrees of the top's children. */
  lemma SubtreeSplit(fs: Folders, top: Id, x: Id)
    requires x in fs && x != top
    ensures Under(fs, x, top) <==>
            exists c :: c in fs && fs[c].parent == Some(top) && Under(fs, x, c)
  {
    if Under(fs, x, top) {
      var k: nat :| Up(fs, x, k) == Some(top);
      ChildOnChain(fs, top, x, k);
    }
    if c :| c in fs && fs[c].parent == Some(top) && Under(fs, x, c) {
      UnderSelf(fs, top);
      UnderParent(fs, c, top);
      UnderTrans(fs, x, c, top);
    }
  }

  lemma {:induction false} ChildOnChain(fs: Folders, top: Id, x: Id, k: nat)
    requires x in fs && x != top && Up(fs, x, k) == Some(top)
    ensures exists c :: c in fs && fs[c].parent == Some(top) && Under(fs, x, c)
    decreases k
  {
    var p := fs[x].parent.value;
    UnderSelf(fs, x);
    if p != top {
      ChildOnChain(fs, top, p, k - 1);
      var c :| c in fs && fs[c].parent == Some(top) && Under(fs, p, c);
      UnderParent(fs, x, c);
    }
  }
}

/**
 The steps that carry a separator upward: inserting it into a parent, splitting a full
 parent, and replacing a split root.
 */
module BLinkParents {
  import opened Basics
  import opened BLinkTree
  import opened BLinkMachine
  import opened BLinkInvariant
  import opened BLinkSteps

  /** What a writer knows when it holds the directory that covers its separator. */
  ghost predicate Parenting(v: Shared, t: Tid, c: Carry, cur: Recid, n: Node) {
    && CarryOk(v.tree, v.pend, v.growing, v.root, t, c)
    && cur in v.tree.level && v.tree.level[cur] == c.level && Current(v.tree, cur, n, c.sep)
    && Owns(v.locks, t, cur)
  }

  /** No directory of the level above names the split-off node yet, so the separator is new there. */
  lemma NotYetNamed(v: Shared, t: Tid, c: Carry, cur: Recid, n: Node)
    requires TreePart(v) && Parenting(v, t, c, cur, n)
    ensures n.Dir? && c.sep !in n.keys
  {
    var tr, pend := v.tree, v.pend.Keys;
    assert NodeOk(tr, pend, v.max, cur);
    if c.sep in n.keys {
      var i :| 0 <= i < |n.keys| && n.keys[i] == c.sep;
      if i + 1 < |n.children| {
        assert ChildOk(tr, pend, n.children[i + 1], ChildLow(n, tr.low[cur], i + 1), c.level);
        LowUnique(tr, pend, v.max, n.children[i + 1], c.right);
      } else {
        assert NodeOk(tr, pend, v.max, n.link);
        var s := tr.nodes[n.link];
        assert ChildOk(tr, pend, s.children[0], ChildLow(s, tr.low[n.link], 0), c.level);
        LowUnique(tr, pend, v.max, s.children[0], c.right);
      }
    }
  }

  lemma CanInsert(v: Shared, t: Tid, c: Carry, cur: Recid, n: Node)
    requires TreePart(v) && RootPart(v) && Parenting(v, t, c, cur, n)
    ensures Insertable(v.tree, cur, c.sep, c.right) && Splittable(n, c.sep) && !Found(n.keys, c.sep) && |n.keys| <= v.max
    ensures RootShaped(n) ==> v.root == cur && v.growing.None?
  {
    NotYetNamed(v, t, c, cur, n);
    assert NodeOk(v.tree, v.pend.Keys, v.max, cur);
    FoundIffMember(n.keys, c.sep);
    SlotExists(n, v.tree.low[cur], c.level, v.max, c.sep);
    assert ShapedIsRoot(v, cur);
  }

  /** A node whose splitter has let go of its left half is no longer hidden. */
  lemma RightNotHidden(v: Shared, t: Tid, pc: Pc, q: Recid)
    requires HiddenPart(v) && Accounts(v, t, pc) && Plain(pc) && Owns(v.pend, t, q)
    ensures q !in v.hidden
  {
    assert q in v.hidden ==> HiddenOk(v, q);
    assert q in v.hidden && v.hidden[q] == t ==> Owns(v.hidden, t, q);
  }

  // ---------- inserting a separator ----------

  function WithSeparator(v: Shared, c: Carry, cur: Recid, n: Node): Shared
    requires Splittable(n, c.sep)
  {
    v.(tree := EditDir(v.tree, cur, WithChild(n, c.sep, c.right)), pend := v.pend - {c.right})
  }

  lemma InsertRoot(v: Shared, t: Tid, c: Carry, cur: Recid, n: Node)
    requires TreePart(v) && RootPart(v) && Parenting(v, t, c, cur, n) && Splittable(n, c.sep)
    ensures var v' := WithSeparator(v, c, cur, n);
            RootPart(v') && (RootShaped(v'.tree.nodes[v.root]) <==> RootShaped(v.tree.nodes[v.root]))
  {
    var v' := WithSeparator(v, c, cur, n);
    forall i | 0 <= i < |v'.edges| ensures EdgeOk(v', i) {
      assert EdgeOk(v, i);
    }
    forall r | r in v'.tree.low && r in v'.tree.nodes ensures ShapedIsRoot(v', r) {
      assert ShapedIsRoot(v, r);
    }
  }

  lemma InsertHidden(v: Shared, t: Tid, c: Carry, cur: Recid, n: Node)
    requires HiddenPart(v) && HotPart(v) && Parenting(v, t, c, cur, n) && Splittable(n, c.sep) && c.right !in v.hidden
    ensures HiddenPart(WithSeparator(v, c, cur, n)) && HotPart(WithSeparator(v, c, cur, n))
  {
    var v' := WithSeparator(v, c, cur, n);
    forall q | q in v'.hidden ensures HiddenOk(v', q) {
      assert HiddenOk(v, q);
    }
    forall k | k in v'.hot ensures HotOk(v', k) {
      assert HotOk(v, k);
    }
  }

  lemma InsertGuarantee(v: Shared, t: Tid, c: Carry, cur: Recid, n: Node)
    requires Parenting(v, t, c, cur, n) && Splittable(n, c.sep)
    ensures Guarantee(v, WithSeparator(v, c, cur, n), t)
  {
  }

  lemma InsertShared(v: Shared, t: Tid, c: Carry, cur: Recid, n: Node)
    requires SharedOk(v) && Parenting(v, t, c, cur, n) && c.right !in v.hidden
    requires Insertable(v.tree, cur, c.sep, c.right) && Splittable(n, c.sep) && |n.keys| < v.max
    ensures SharedOk(WithSeparator(v, c, cur, n))
  {
    hide RootPart, HiddenPart, HotPart, EventPart;
    var v' := WithSeparator(v, c, cur, n);
    InsertChildOk(v.tree, v.pend.Keys, v.max, cur, c.sep, c.right);
    assert v'.pend.Keys == v.pend.Keys - {c.right};
    InsertRoot(v, t, c, cur, n);
    InsertHidden(v, t, c, cur, n);
    EventPartSame(v, v');
  }

  lemma DirOwnedKnows(v: Shared, t: Tid, c: Carry, cur: Recid, n: Node)
    requires PcOk(v, t, DirOwned(c, cur, n))
    ensures Parenting(v, t, c, cur, n) && v.growing != Some(t) && cur in v.tree.low
  {
  }

  lemma DirFreeKnows(v: Shared, t: Tid, op: Op, cur: Recid)
    requires Owns(v.locks, t, cur) && cur in v.tree.low && v.growing != Some(t)
    ensures PcOk(v, t, DirFree(op, cur, None))
  {
  }

  lemma GoodInsert(v: Shared, t: Tid, c: Carry, cur: Recid, n: Node)
    requires SharedOk(v) && Thread(v, t, DirOwned(c, cur, n)) && Parenting(v, t, c, cur, n) && v.growing != Some(t)
    requires Insertable(v.tree, cur, c.sep, c.right) && Splittable(n, c.sep) && |n.keys| < v.max && cur in v.tree.low
    ensures Good(v, t, Move(DirFree(c.op, cur, None), WithSeparator(v, c, cur, n)))
  {
    hide PcOk, TreePart, RootPart, HiddenPart, HotPart, EventPart, Covers;
    var pc, v' := DirOwned(c, cur, n), WithSeparator(v, c, cur, n);
    RightNotHidden(v, t, pc, c.right);
    InsertShared(v, t, c, cur, n);
    InsertGuarantee(v, t, c, cur, n);
    PlainAccounts(v, t, pc, v', DirFree(c.op, cur, None));
    DirFreeKnows(v', t, c.op, cur);
  }

  lemma GoodDirOwned(v: Shared, t: Tid, c: Carry, cur: Recid, n: Node)
    requires SharedOk(v) && Thread(v, t, DirOwned(c, cur, n))
    ensures Good(v, t, StepDirOwned(v, t, c, cur, n))
  {
    hide TreePart, RootPart, HiddenPart, LockPart, HotPart, EventPart, StackOk, Guarantee, Covers, Accounts;
    DirOwnedKnows(v, t, c, cur, n);
    CanInsert(v, t, c, cur, n);
    if |n.keys| + 1 <= v.max {
      GoodInsert(v, t, c, cur, n);
    } else {
      MoveOn(v, t, DirOwned(c, cur, n), StepDirOwned(v, t, c, cur, n).pc);
    }
  }

  // ---------- splitting a full directory ----------

  function WithDirSplit(v: Shared, t: Tid, c: Carry, cur: Recid, n: Node, root: bool, q: Recid): Shared
    requires Splittable(n, c.sep) && cur in v.tree.level
  {
    var w := WithChild(n, c.sep, c.right);
    v.(tree := PublishSplit(v.tree, cur, DirLeft(w, q), q, SplitKey(w.keys)), pend := v.pend - {c.right},
       growing := if root then Some(t) else v.growing)
  }

  ghost predicate DirSplitting(v: Shared, t: Tid, c: Carry, cur: Recid, n: Node, root: bool, q: Recid) {
    && Parenting(v, t, c, cur, n) && v.growing != Some(t)
    && DirFull(c, n, v.max, root) && DirStored(v, t, c, n, q)
  }

  lemma DirSplitTree(v: Shared, t: Tid, c: Carry, cur: Recid, n: Node, root: bool, q: Recid)
    requires TreePart(v) && RootPart(v) && DirSplitting(v, t, c, cur, n, root, q)
    ensures var v' := WithDirSplit(v, t, c, cur, n, root, q); TreePart(v') && Extends(v.tree, v'.tree)
    ensures Lt(v.tree.low[cur], Fin(SplitKey(WithChild(n, c.sep, c.right).keys)))
    ensures n.link in v.tree.level ==> v.tree.level[n.link] > 0
  {
    var v', w := WithDirSplit(v, t, c, cur, n, root, q), WithChild(n, c.sep, c.right);
    CanInsert(v, t, c, cur, n);
    SplitDirOk(v.tree, v.pend.Keys, v.max, cur, c.sep, c.right, q);
    assert v'.pend.Keys == v.pend.Keys - {c.right} + {q};
    assert NodeOk(v.tree, v.pend.Keys, v.max, cur);
    WithChildShape(n, v.tree.low[cur], c.level, v.max, c.sep, c.right);
    assert n.link == 0 ==> !(0 in v.tree.nodes);
  }

  lemma DirSplitRoot(v: Shared, t: Tid, c: Carry, cur: Recid, n: Node, root: bool, q: Recid)
    requires TreePart(v) && RootPart(v) && DirSplitting(v, t, c, cur, n, root, q)
    ensures var v' := WithDirSplit(v, t, c, cur, n, root, q);
            && RootPart(v') && (RootShaped(v.tree.nodes[v.root]) && !root ==> RootShaped(v'.tree.nodes[v.root]))
            && (root ==> v.root == cur && v.growing.None?)
  {
    var v' := WithDirSplit(v, t, c, cur, n, root, q);
    assert ShapedIsRoot(v, cur);
    forall i | 0 <= i < |v'.edges| ensures EdgeOk(v', i) {
      assert EdgeOk(v, i);
    }
    forall r | r in v'.tree.low && r in v'.tree.nodes ensures ShapedIsRoot(v', r) {
      assert r in v.tree.low ==> ShapedIsRoot(v, r);
    }
  }

  lemma DirSplitHidden(v: Shared, t: Tid, c: Carry, cur: Recid, n: Node, root: bool, q: Recid)
    requires HiddenPart(v) && HotPart(v) && DirSplitting(v, t, c, cur, n, root, q) && c.right !in v.hidden
    requires n.link in v.tree.level ==> v.tree.level[n.link] > 0
    ensures HiddenPart(WithDirSplit(v, t, c, cur, n, root, q)) && HotPart(WithDirSplit(v, t, c, cur, n, root, q))
  {
    var v' := WithDirSplit(v, t, c, cur, n, root, q);
    forall x | x in v'.hidden ensures HiddenOk(v', x) {
      assert HiddenOk(v, x);
    }
    forall k | k in v'.hot ensures HotOk(v', k) {
      assert HotOk(v, k);
    }
  }

  lemma DirSplitGuarantee(v: Shared, t: Tid, c: Carry, cur: Recid, n: Node, root: bool, q: Recid)
    requires DirSplitting(v, t, c, cur, n, root, q) && (root ==> v.growing.None?)
    requires Extends(v.tree, WithDirSplit(v, t, c, cur, n, root, q).tree)
    ensures Guarantee(v, WithDirSplit(v, t, c, cur, n, root, q), t)
  {
  }

  lemma DirSplitShared(v: Shared, t: Tid, c: Carry, cur: Recid, n: Node, root: bool, q: Recid)
    requires SharedOk(v) && DirSplitting(v, t, c, cur, n, root, q) && c.right !in v.hidden
    ensures var v' := WithDirSplit(v, t, c, cur, n, root, q);
            SharedOk(v') && Guarantee(v, v', t) && Extends(v.tree, v'.tree)
    ensures Lt(v.tree.low[cur], Fin(SplitKey(WithChild(n, c.sep, c.right).keys))) && (root ==> v.root == cur)
  {
    hide TreePart, RootPart, HiddenPart, HotPart, EventPart, Guarantee;
    var v' := WithDirSplit(v, t, c, cur, n, root, q);
    DirSplitTree(v, t, c, cur, n, root, q);
    DirSplitRoot(v, t, c, cur, n, root, q);
    DirSplitHidden(v, t, c, cur, n, root, q);
    EventPartSame(v, v');
    DirSplitGuarantee(v, t, c, cur, n, root, q);
  }

  lemma DirPublishKnows(v: Shared, t: Tid, c: Carry, cur: Recid, n: Node, root: bool, q: Recid)
    requires PcOk(v, t, DirPublish(c, cur, n, root, q))
    ensures DirSplitting(v, t, c, cur, n, root, q) && cur in v.tree.low && StackOk(v.tree, c.stack, c.level, v.tree.low[cur])
  {
    hide StackOk;
  }

  lemma DirSplitCarry(v: Shared, t: Tid, c: Carry, cur: Recid, n: Node, root: bool, q: Recid)
    requires DirSplitting(v, t, c, cur, n, root, q) && (root ==> v.root == cur)
    requires cur in v.tree.low && StackOk(v.tree, c.stack, c.level, v.tree.low[cur])
    requires Lt(v.tree.low[cur], Fin(SplitKey(WithChild(n, c.sep, c.right).keys)))
    requires Extends(v.tree, WithDirSplit(v, t, c, cur, n, root, q).tree)
    ensures var v' := WithDirSplit(v, t, c, cur, n, root, q);
            RisingOk(v'.tree, v'.pend, v'.growing, v'.root, t,
                     Carry(c.op, cur, q, SplitKey(WithChild(n, c.sep, c.right).keys), root, c.stack, c.level + 1))
  {
    var v' := WithDirSplit(v, t, c, cur, n, root, q);
    StackStable(v.tree, v'.tree, c.stack, c.level, v.tree.low[cur]);
  }

  lemma DirFreeCarries(v: Shared, t: Tid, op: Op, cur: Recid, c: Carry)
    requires Owns(v.locks, t, cur) && cur in v.tree.low && c.op == op
    requires RisingOk(v.tree, v.pend, v.growing, v.root, t, c)
    ensures PcOk(v, t, DirFree(op, cur, Some(c)))
  {
    hide RisingOk;
  }

  lemma GoodDirPublish(v: Shared, t: Tid, c: Carry, cur: Recid, n: Node, root: bool, q: Recid)
    requires SharedOk(v) && Thread(v, t, DirPublish(c, cur, n, root, q))
    ensures Good(v, t, StepDirPublish(v, t, c, cur, n, root, q))
  {
    hide PcOk, TreePart, RootPart, HiddenPart, LockPart, HotPart, EventPart, StackOk, RisingOk, Covers, Guarantee;
    DirPublishKnows(v, t, c, cur, n, root, q);
    var pc, v' := DirPublish(c, cur, n, root, q), WithDirSplit(v, t, c, cur, n, root, q);
    RightNotHidden(v, t, pc, c.right);
    DirSplitShared(v, t, c, cur, n, root, q);
    DirSplitCarry(v, t, c, cur, n, root, q);
    var c' := Carry(c.op, cur, q, SplitKey(WithChild(n, c.sep, c.right).keys), root, c.stack, c.level + 1);
    PlainAccounts(v, t, pc, v', DirFree(c.op, cur, Some(c')));
    DirFreeCarries(v', t, c.op, cur, c');
  }

  // ---------- replacing a split root ----------

  function WithRoot(v: Shared, c: Carry, q: Recid): Shared {
    v.(tree := PublishRoot(v.tree, q, c.level), root := q, roots := v.roots + {q},
       pend := v.pend - {q, c.right}, growing := None, appending := true)
  }

  /** What the thread that split the root knows once it holds the root pointer. */
  ghost predicate Rooting(v: Shared, t: Tid, c: Carry, q: Recid) {
    && c.root && CarryOk(v.tree, v.pend, v.growing, v.root, t, c)
    && Stored(v, t, q, RootNode(c.left, c.right, c.sep)) && q != c.right
    && Owns(v.locks, t, v.rootPtr) && !v.appending
  }

  lemma RootTree(v: Shared, t: Tid, c: Carry, q: Recid)
    requires TreePart(v) && RootPart(v) && Rooting(v, t, c, q)
    ensures TreePart(WithRoot(v, c, q)) && Extends(v.tree, WithRoot(v, c, q).tree)
  {
    var v' := WithRoot(v, c, q);
    PublishRootOk(v.tree, v.pend.Keys, v.max, q, c.level, c.left, c.right, c.sep);
    assert v'.pend.Keys == v.pend.Keys - {q, c.right};
  }

  lemma RootRoot(v: Shared, t: Tid, c: Carry, q: Recid)
    requires TreePart(v) && RootPart(v) && Rooting(v, t, c, q)
    ensures RootPart(WithRoot(v, c, q))
  {
    var v' := WithRoot(v, c, q);
    forall i | 0 <= i < |v'.edges| ensures EdgeOk(v', i) {
      assert EdgeOk(v, i);
    }
    forall r | r in v'.tree.low && r in v'.tree.nodes ensures ShapedIsRoot(v', r) {
      assert r in v.tree.low ==> ShapedIsRoot(v, r);
    }
  }

  lemma RootHidden(v: Shared, t: Tid, c: Carry, q: Recid)
    requires TreePart(v) && HiddenPart(v) && HotPart(v) && Rooting(v, t, c, q) && c.right !in v.hidden
    ensures HiddenPart(WithRoot(v, c, q)) && HotPart(WithRoot(v, c, q))
  {
    var v' := WithRoot(v, c, q);
    forall x | x in v'.hidden ensures HiddenOk(v', x) {
      assert HiddenOk(v, x);
      assert NodeOk(v.tree, v.pend.Keys, v.max, x);
    }
    forall k | k in v'.hot ensures HotOk(v', k) {
      assert HotOk(v, k);
    }
  }

  lemma RootGuarantee(v: Shared, t: Tid, c: Carry, q: Recid)
    requires Rooting(v, t, c, q) && Extends(v.tree, WithRoot(v, c, q).tree)
    ensures Guarantee(v, WithRoot(v, c, q), t)
  {
  }

  lemma RootShared(v: Shared, t: Tid, c: Carry, q: Recid)
    requires SharedOk(v) && Rooting(v, t, c, q) && c.right !in v.hidden
    ensures SharedOk(WithRoot(v, c, q)) && Guarantee(v, WithRoot(v, c, q), t)
  {
    hide TreePart, RootPart, HiddenPart, HotPart, EventPart, Guarantee;
    RootTree(v, t, c, q);
    RootRoot(v, t, c, q);
    RootHidden(v, t, c, q);
    EventPartSame(v, WithRoot(v, c, q));
    RootGuarantee(v, t, c, q);
  }

  lemma RootPublishKnows(v: Shared, t: Tid, c: Carry, q: Recid)
    requires PcOk(v, t, RootPublish(c, q)) && RootPart(v)
    ensures Rooting(v, t, c, q) && c.level == |v.edges|
  {
  }

  lemma RootEdgeKnows(v: Shared, t: Tid, c: Carry, q: Recid)
    requires Owns(v.locks, t, v.rootPtr) && v.appending && q == v.root && c.level == |v.edges| && v.growing.None?
    ensures PcOk(v, t, RootEdge(c, q))
  {
  }

  lemma GoodRootPublish(v: Shared, t: Tid, c: Carry, q: Recid)
    requires SharedOk(v) && Thread(v, t, RootPublish(c, q))
    ensures Good(v, t, StepRootPublish(v, t, c, q))
  {
    hide PcOk, TreePart, RootPart, HiddenPart, LockPart, HotPart, EventPart, Guarantee;
    RootPublishKnows(v, t, c, q);
    var pc, v' := RootPublish(c, q), WithRoot(v, c, q);
    RightNotHidden(v, t, pc, c.right);
    RootShared(v, t, c, q);
    PlainAccounts(v, t, pc, v', RootEdge(c, q));
    RootEdgeKnows(v', t, c, q);
  }

  lemma EdgeShared(v: Shared, t: Tid, q: Recid)
    requires SharedOk(v) && v.appending && q == v.root && Owns(v.locks, t, v.rootPtr)
    ensures var v' := v.(edges := v.edges + [q], appending := false); SharedOk(v') && Guarantee(v, v', t)
  {
    var v' := v.(edges := v.edges + [q], appending := false);
    forall i | 0 <= i < |v'.edges| ensures EdgeOk(v', i) {
      assert i < |v.edges| ==> EdgeOk(v, i);
    }
    forall r | r in v'.tree.low && r in v'.tree.nodes ensures ShapedIsRoot(v', r) {
      assert ShapedIsRoot(v, r);
    }
    forall x | x in v'.hidden ensures HiddenOk(v', x) {
      assert HiddenOk(v, x);
    }
    forall k | k in v'.hot ensures HotOk(v', k) {
      assert HotOk(v, k);
    }
    EventPartSame(v, v');
  }

  lemma GoodRootEdge(v: Shared, t: Tid, c: Carry, q: Recid)
    requires SharedOk(v) && Thread(v, t, RootEdge(c, q))
    ensures c.level == |v.edges|
    ensures Good(v, t, Move(RootFree(c), v.(edges := v.edges + [q], appending := false)))
  {
    hide TreePart, RootPart, HiddenPart, LockPart, HotPart, EventPart, Guarantee;
    EdgeShared(v, t, q);
    PlainAccounts(v, t, RootEdge(c, q), v.(edges := v.edges + [q], appending := false), RootFree(c));
  }
}

/**
 The writing steps: storing a record nobody can reach yet, editing a leaf, publishing
 a leaf split, inserting a separator, publishing a directory split, growing a root.
 */
module BLinkWrites {
  import opened Basics
  import opened BLinkTree
  import opened BLinkMachine
  import opened BLinkInvariant
  import opened BLinkSteps

  // ---------- storing an unreachable record ----------

  function WithRecord(v: Shared, t: Tid, q: Recid, n: Node): Shared {
    v.(tree := v.tree.(nodes := v.tree.nodes[q := n]), pend := v.pend[q := t])
  }

  lemma StoreShared(v: Shared, t: Tid, q: Recid, n: Node)
    requires SharedOk(v) && FreshRecid(v, q)
    ensures SharedOk(WithRecord(v, t, q, n)) && Guarantee(v, WithRecord(v, t, q, n), t)
  {
    hide RootPart, HiddenPart, HotPart, EventPart, TreeOk, Guarantee;
    var v' := WithRecord(v, t, q, n);
    StoreOk(v.tree, v.pend.Keys, v.max, q, n);
    assert v'.pend.Keys == v.pend.Keys + {q};
    StoreRoot(v, t, q, n);
    StoreHidden(v, t, q, n);
    EventPartSame(v, v');
    StoreGuarantee(v, t, q, n);
  }

  lemma StoreGuarantee(v: Shared, t: Tid, q: Recid, n: Node)
    requires FreshRecid(v, q) && q !in v.pend
    ensures Guarantee(v, WithRecord(v, t, q, n), t)
  {
  }

  lemma StoreHidden(v: Shared, t: Tid, q: Recid, n: Node)
    requires TreePart(v) && HiddenPart(v) && HotPart(v) && FreshRecid(v, q)
    ensures HiddenPart(WithRecord(v, t, q, n)) && HotPart(WithRecord(v, t, q, n))
  {
    var v' := WithRecord(v, t, q, n);
    forall r | r in v'.hidden ensures HiddenOk(v', r) {
      assert HiddenOk(v, r);
    }
    forall k | k in v'.hot ensures HotOk(v', k) {
      assert HotOk(v, k);
    }
  }

  lemma StoreRoot(v: Shared, t: Tid, q: Recid, n: Node)
    requires TreePart(v) && RootPart(v) && FreshRecid(v, q)
    ensures RootPart(WithRecord(v, t, q, n)) && v.root in v.tree.nodes
  {
    var v' := WithRecord(v, t, q, n);
    forall i | 0 <= i < |v'.edges| ensures EdgeOk(v', i) {
      assert EdgeOk(v, i);
    }
    forall r | r in v'.tree.low && r in v'.tree.nodes ensures ShapedIsRoot(v', r) {
      assert ShapedIsRoot(v, r);
    }
  }

  lemma StoreAccounts(v: Shared, t: Tid, pc: Pc, q: Recid, n: Node, pc': Pc)
    requires Accounts(v, t, pc) && Plain(pc) && Held(v, pc') == Held(v, pc)
    ensures Accounts(WithRecord(v, t, q, n), t, pc')
  {
    PlainAccounts(v, t, pc, WithRecord(v, t, q, n), pc');
  }

  lemma StoredNow(v: Shared, t: Tid, q: Recid, n: Node)
    requires TreePart(v) && FreshRecid(v, q)
    ensures Stored(WithRecord(v, t, q, n), t, q, n) && q !in v.tree.nodes && q !in v.pend
  {
  }

  lemma StoreLeafTarget(v: Shared, t: Tid, q: Recid, b: Node, op: Op, cur: Recid, n: Node, stack: seq<Recid>)
    requires LeafTarget(v.tree, v.hidden, op, cur, stack) && Current(v.tree, cur, n, op.key) && q !in v.tree.nodes
    ensures var v' := WithRecord(v, t, q, b);
            LeafTarget(v'.tree, v'.hidden, op, cur, stack) && Current(v'.tree, cur, n, op.key)
  {
    StackStable(v.tree, WithRecord(v, t, q, b).tree, stack, 0, v.tree.low[cur]);
  }

  lemma GoodLeafStore(v: Shared, t: Tid, op: Op, cur: Recid, n: Node, root: bool, stack: seq<Recid>, q: Recid)
    requires SharedOk(v) && Thread(v, t, LeafStore(op, cur, n, root, stack)) && FreshRecid(v, q)
    ensures Good(v, t, StepLeafStore(v, t, op, cur, n, root, stack, q))
  {
    hide TreePart, RootPart, HiddenPart, LockPart, HotPart, EventPart, Guarantee, StackOk, LeafTarget, Current;
    LeafSizes(v, op, n);
    var b := LeafRight(n, NewKeys(op, n), NewVals(op, n));
    StoreShared(v, t, q, b);
    StoredNow(v, t, q, b);
    StoreAccounts(v, t, LeafStore(op, cur, n, root, stack), q, b, LeafPublish(op, cur, n, root, q, stack));
    StoreLeafTarget(v, t, q, b, op, cur, n, stack);
  }

  lemma LeafSizes(v: Shared, op: Op, n: Node)
    requires TreePart(v) && Wellformed(n) && op.Put? && !Found(n.keys, op.key) && |n.keys| == v.max
    ensures |NewKeys(op, n)| == |NewVals(op, n)| == v.max + 1 >= 5
  {
  }

  lemma StoreDirTarget(v: Shared, t: Tid, q: Recid, b: Node, c: Carry, cur: Recid, n: Node)
    requires DirTarget(v.tree, v.pend, v.growing, v.root, t, c, cur) && Current(v.tree, cur, n, c.sep)
    requires q !in v.tree.nodes && q !in v.pend
    ensures var v' := WithRecord(v, t, q, b);
            && DirTarget(v'.tree, v'.pend, v'.growing, v'.root, t, c, cur) && Current(v'.tree, cur, n, c.sep)
            && q != c.right
  {
    StackStable(v.tree, WithRecord(v, t, q, b).tree, c.stack, c.level, v.tree.low[cur]);
  }

  lemma GoodDirStore(v: Shared, t: Tid, c: Carry, cur: Recid, n: Node, root: bool, q: Recid)
    requires SharedOk(v) && Thread(v, t, DirStore(c, cur, n, root)) && FreshRecid(v, q)
    ensures Good(v, t, StepDirStore(v, t, c, cur, n, root, q))
  {
    hide TreePart, RootPart, HiddenPart, LockPart, HotPart, EventPart, Guarantee, StackOk, DirTarget, Current;
    var b := DirRight(WithChild(n, c.sep, c.right));
    StoreShared(v, t, q, b);
    StoredNow(v, t, q, b);
    StoreAccounts(v, t, DirStore(c, cur, n, root), q, b, DirPublish(c, cur, n, root, q));
    StoreDirTarget(v, t, q, b, c, cur, n);
  }

  lemma GoodRootStore(v: Shared, t: Tid, c: Carry, q: Recid)
    requires SharedOk(v) && Thread(v, t, RootStore(c)) && FreshRecid(v, q)
    ensures Good(v, t, StepRootStore(v, t, c, q))
  {
    hide TreePart, RootPart, HiddenPart, LockPart, HotPart, EventPart, Guarantee, StackOk;
    var b := RootNode(c.left, c.right, c.sep);
    StoreShared(v, t, q, b);
    StoredNow(v, t, q, b);
    StoreAccounts(v, t, RootStore(c), q, b, RootPublish(c, q));
    NodeNotPtr(v, c.right);
  }

  // ---------- what a writer does to the entries of its leaf ----------

  /** The new entries of a leaf still fit its interval; only adding a key to a full leaf overflows it. */
  lemma NewGroup(op: Op, n: Node, lo: Bound, max: nat)
    requires n.Leaf? && ShapeOk(n, lo, 0, max) && Lt(lo, Fin(op.key)) && Leq(Fin(op.key), High(n))
    requires Mutates(op, LeafGet(n, op.key))
    ensures |NewKeys(op, n)| == |NewVals(op, n)| && KeysWithin(NewKeys(op, n), lo, High(n))
    ensures |NewKeys(op, n)| > max ==> op.Put? && !Found(n.keys, op.key) && |n.keys| == max
  {
    FoundIffMember(n.keys, op.key);
    if !Found(n.keys, op.key) {
      WithKeyWithin(n.keys, op.key, lo, High(n));
    } else if op.Remove? {
      WithoutKeySorted(n.keys, Rank(n.keys, op.key));
    }
  }

  lemma LeafGetAt(n: Node, key: Key, i: nat)
    requires Wellformed(n) && Sorted(n.keys)
    ensures FoundAt(n.keys, key, i) ==> LeafGet(n, key) == Some(n.vals[i])
    ensures key !in n.keys ==> LeafGet(n, key) == None
  {
    FoundIffMember(n.keys, key);
  }

  lemma WithKeyMembers(keys: seq<Key>, i: nat, x: Key, y: Key)
    requires i <= |keys| && y in InsertAt(keys, i, x)
    ensures y == x || y in keys
  {
    var j :| 0 <= j < |keys| + 1 && InsertAt(keys, i, x)[j] == y;
    assert j < i ==> keys[j] == y;
    assert j > i ==> keys[j - 1] == y;
  }

  lemma InsertGet(n: Node, x: Key, val: Value, key: Key)
    requires Wellformed(n) && Sorted(n.keys) && x !in n.keys
    ensures LeafGet(n.(keys := InsertAt(n.keys, Rank(n.keys, x), x), vals := InsertAt(n.vals, Rank(n.keys, x), val)), key)
         == if key == x then Some(val) else LeafGet(n, key)
  {
    var i, j := Rank(n.keys, x), Rank(n.keys, key);
    var m := n.(keys := InsertAt(n.keys, i, x), vals := InsertAt(n.vals, i, val));
    WithKeySorted(n.keys, x);
    if key == x {
      LeafGetAt(m, key, i);
    } else if Found(n.keys, key) {
      LeafGetAt(m, key, if j < i then j else j + 1);
    } else {
      FoundIffMember(n.keys, key);
      if key in m.keys {
        WithKeyMembers(n.keys, i, x, key);
      }
      LeafGetAt(m, key, 0);
    }
  }

  lemma WithoutKeySorted(keys: seq<Key>, i: nat)
    requires Sorted(keys) && i < |keys|
    ensures Sorted(DeleteAt(keys, i))
  {
  }

  lemma WithoutKeyMembers(keys: seq<Key>, i: nat, y: Key)
    requires Sorted(keys) && i < |keys| && y in DeleteAt(keys, i)
    ensures y in keys && y != keys[i]
  {
    var j :| 0 <= j < |keys| - 1 && DeleteAt(keys, i)[j] == y;
    assert if j < i then keys[j] == y else keys[j + 1] == y;
  }

  lemma DeleteGet(n: Node, i: nat, key: Key)
    requires Wellformed(n) && Sorted(n.keys) && i < |n.keys|
    ensures LeafGet(n.(keys := DeleteAt(n.keys, i), vals := DeleteAt(n.vals, i)), key)
         == if key == n.keys[i] then None else LeafGet(n, key)
  {
    var m, j := n.(keys := DeleteAt(n.keys, i), vals := DeleteAt(n.vals, i)), Rank(n.keys, key);
    WithoutKeySorted(n.keys, i);
    if Found(n.keys, key) && j != i {
      LeafGetAt(m, key, if j < i then j else j - 1);
    } else {
      FoundIffMember(n.keys, key);
      if key in m.keys {
        WithoutKeyMembers(n.keys, i, key);
      }
      LeafGetAt(m, key, 0);
    }
  }

  /** They say what the operation promises about its own key and leave every other key alone. */
  lemma NewGroupGet(op: Op, n: Node, key: Key)
    requires Wellformed(n) && Sorted(n.keys) && Mutates(op, LeafGet(n, op.key))
    ensures |NewKeys(op, n)| == |NewVals(op, n)|
    ensures LeafGet(n.(keys := NewKeys(op, n), vals := NewVals(op, n)), key)
         == if key == op.key then After(op, LeafGet(n, key)) else LeafGet(n, key)
  {
    FoundIffMember(n.keys, op.key);
    if !Found(n.keys, op.key) {
      InsertGet(n, op.key, op.value, key);
    } else if op.Remove? {
      DeleteGet(n, Rank(n.keys, op.key), key);
    } else {
      LeafGetAt(n, key, Rank(n.keys, key));
    }
  }

  // ---------- publishing a change ----------

  /** Nobody else owes a listener call for a key of a leaf this thread has locked. */
  lemma NotHot(v: Shared, t: Tid, pc: Pc, cur: Recid, key: Key)
    requires HotPart(v) && HiddenPart(v) && Accounts(v, t, pc) && Plain(pc) && Owns(v.locks, t, cur)
    requires Covers(v.tree, cur, key) && cur in v.tree.level && v.tree.level[cur] == 0
    ensures key !in v.hot
  {
    assert cur in v.hidden ==> HiddenOk(v, cur);
    assert key in v.hot ==> HotOk(v, key);
  }

  lemma PublishInOrder(v: Shared, v': Shared, t: Tid, e: Event)
    requires EventPart(v) && e.key !in v.hot
    requires v'.pubs == v.pubs + [e] && v'.hot == v.hot[e.key := Hot(t, e)] && v'.events == v.events
    ensures EventPart(v')
  {
    forall k ensures KeyInOrder(v', k) {
      assert KeyInOrder(v, k);
      ForKeyAppend(v.pubs, e, k);
    }
  }

  // ---------- editing a leaf ----------

  function WithEdit(v: Shared, t: Tid, op: Op, cur: Recid, n: Node): Shared
    requires Wellformed(n) && cur in v.tree.nodes && v.tree.nodes[cur].Leaf?
  {
    var was := LeafGet(n, op.key);
    var e := Event(op.key, was, After(op, was));
    v.(tree := EditLeaf(v.tree, cur, NewKeys(op, n), NewVals(op, n)), pubs := v.pubs + [e], hot := v.hot[op.key := Hot(t, e)])
  }

  /** What the editing writer knows: its locked leaf covers the key, and the key is not hot. */
  ghost predicate Editing(v: Shared, t: Tid, op: Op, cur: Recid, n: Node) {
    && cur in v.tree.level && v.tree.level[cur] == 0 && Current(v.tree, cur, n, op.key)
    && Wellformed(n) && Mutates(op, LeafGet(n, op.key)) && |NewKeys(op, n)| <= v.max
    && Owns(v.locks, t, cur) && op.key !in v.hot
  }

  lemma EditTree(v: Shared, t: Tid, op: Op, cur: Recid, n: Node)
    requires TreePart(v) && Editing(v, t, op, cur, n)
    ensures TreePart(WithEdit(v, t, op, cur, n))
  {
    assert NodeOk(v.tree, v.pend.Keys, v.max, cur);
    NewGroup(op, n, v.tree.low[cur], v.max);
    EditLeafOk(v.tree, v.pend.Keys, v.max, cur, NewKeys(op, n), NewVals(op, n));
  }

  lemma EditHidden(v: Shared, t: Tid, op: Op, cur: Recid, n: Node)
    requires TreePart(v) && HiddenPart(v) && HotPart(v) && Editing(v, t, op, cur, n)
    ensures HiddenPart(WithEdit(v, t, op, cur, n)) && HotPart(WithEdit(v, t, op, cur, n))
  {
    var v' := WithEdit(v, t, op, cur, n);
    forall q | q in v'.hidden ensures HiddenOk(v', q) {
      assert HiddenOk(v, q);
    }
    forall k | k in v'.hot ensures HotOk(v', k) {
      assert k != op.key ==> HotOk(v, k);
      assert forall r :: Covers(v'.tree, r, k) ==> Covers(v.tree, r, k);
      forall r | Covers(v'.tree, r, op.key) && r in v'.tree.level && v'.tree.level[r] == 0 ensures r == cur {
        CoverUnique(v.tree, v.pend.Keys, v.max, r, cur, op.key);
      }
    }
  }

  lemma EditRoot(v: Shared, t: Tid, op: Op, cur: Recid, n: Node)
    requires RootPart(v) && Editing(v, t, op, cur, n)
    ensures var v' := WithEdit(v, t, op, cur, n);
            RootPart(v') && (RootShaped(v'.tree.nodes[v.root]) <==> RootShaped(v.tree.nodes[v.root]))
  {
    var v' := WithEdit(v, t, op, cur, n);
    forall i | 0 <= i < |v'.edges| ensures EdgeOk(v', i) {
      assert EdgeOk(v, i);
    }
    forall r | r in v'.tree.low && r in v'.tree.nodes ensures ShapedIsRoot(v', r) {
      assert ShapedIsRoot(v, r);
    }
  }

  lemma EditGuarantee(v: Shared, t: Tid, op: Op, cur: Recid, n: Node)
    requires Editing(v, t, op, cur, n)
    ensures Guarantee(v, WithEdit(v, t, op, cur, n), t)
  {
  }

  lemma EditShared(v: Shared, t: Tid, op: Op, cur: Recid, n: Node)
    requires SharedOk(v) && Editing(v, t, op, cur, n)
    ensures SharedOk(WithEdit(v, t, op, cur, n))
  {
    hide TreePart, RootPart, HiddenPart, HotPart, EventPart;
    EditTree(v, t, op, cur, n);
    EditHidden(v, t, op, cur, n);
    EditRoot(v, t, op, cur, n);
    var was := LeafGet(n, op.key);
    PublishInOrder(v, WithEdit(v, t, op, cur, n), t, Event(op.key, was, After(op, was)));
  }

  lemma EditAccounts(v: Shared, t: Tid, op: Op, cur: Recid, n: Node, stack: seq<Recid>)
    requires Accounts(v, t, LeafOwned(op, cur, n, stack)) && Editing(v, t, op, cur, n)
    ensures var was := LeafGet(n, op.key);
            Accounts(WithEdit(v, t, op, cur, n), t, Firing(op, cur, Event(op.key, was, After(op, was)), None))
  {
  }

  /** The leaf a writer owns is a leaf, and it is the root exactly if it spans its level. */
  lemma OwnedLeaf(v: Shared, op: Op, cur: Recid, n: Node)
    requires TreePart(v) && RootPart(v)
    requires cur in v.tree.level && v.tree.level[cur] == 0 && Current(v.tree, cur, n, op.key)
    ensures Wellformed(n) && (RootShaped(n) ==> v.root == cur)
    ensures Mutates(op, LeafGet(n, op.key)) && |NewKeys(op, n)| > v.max ==>
              op.Put? && !Found(n.keys, op.key) && |n.keys| == v.max
  {
    assert NodeOk(v.tree, v.pend.Keys, v.max, cur);
    assert ShapedIsRoot(v, cur);
    if Mutates(op, LeafGet(n, op.key)) {
      NewGroup(op, n, v.tree.low[cur], v.max);
    }
  }

  lemma OwnedKnows(v: Shared, t: Tid, op: Op, cur: Recid, n: Node, stack: seq<Recid>)
    requires PcOk(v, t, LeafOwned(op, cur, n, stack))
    ensures cur in v.tree.level && v.tree.level[cur] == 0 && Current(v.tree, cur, n, op.key) && Owns(v.locks, t, cur)
  {
  }

  lemma EditKnows(v: Shared, t: Tid, op: Op, cur: Recid, e: Event)
    requires Owns(v.locks, t, cur) && cur in v.tree.low && v.growing != Some(t) && FiringOk(v.hot, t, op, e, None)
    ensures PcOk(v, t, Firing(op, cur, e, None))
  {
    hide FiringOk;
  }

  lemma GoodEdit(v: Shared, t: Tid, op: Op, cur: Recid, n: Node, stack: seq<Recid>)
    requires SharedOk(v) && Accounts(v, t, LeafOwned(op, cur, n, stack)) && v.growing != Some(t)
    requires Editing(v, t, op, cur, n) && cur in v.tree.low
    ensures var was := LeafGet(n, op.key);
            Good(v, t, Move(Firing(op, cur, Event(op.key, was, After(op, was)), None), WithEdit(v, t, op, cur, n)))
  {
    hide PcOk, SharedOk, Accounts, Guarantee, NewKeys, NewVals;
    EditShared(v, t, op, cur, n);
    EditGuarantee(v, t, op, cur, n);
    EditAccounts(v, t, op, cur, n, stack);
    var was := LeafGet(n, op.key);
    EditKnows(WithEdit(v, t, op, cur, n), t, op, cur, Event(op.key, was, After(op, was)));
  }

  lemma GoodLeafOwned(v: Shared, t: Tid, op: Op, cur: Recid, n: Node, stack: seq<Recid>)
    requires SharedOk(v) && Thread(v, t, LeafOwned(op, cur, n, stack))
    ensures Good(v, t, StepLeafOwned(v, t, op, cur, n, stack))
  {
    hide TreePart, RootPart, HiddenPart, LockPart, HotPart, EventPart, Guarantee, StackOk, Accounts, NewKeys, NewVals;
    OwnedLeaf(v, op, cur, n);
    var m := StepLeafOwned(v, t, op, cur, n, stack);
    if Mutates(op, LeafGet(n, op.key)) && |NewKeys(op, n)| <= v.max {
      NotHot(v, t, LeafOwned(op, cur, n, stack), cur, op.key);
      GoodEdit(v, t, op, cur, n, stack);
    } else {
      MoveOn(v, t, LeafOwned(op, cur, n, stack), m.pc);
    }
  }

  // ---------- publishing a leaf split ----------

  function WithLeafSplit(v: Shared, t: Tid, op: Op, cur: Recid, n: Node, root: bool, q: Recid): Shared
    requires Wellformed(n) && |NewKeys(op, n)| == |NewVals(op, n)| >= 2 && cur in v.tree.level
  {
    var keys, vals := NewKeys(op, n), NewVals(op, n);
    var was := LeafGet(n, op.key);
    var e := Event(op.key, was, After(op, was));
    v.(tree := PublishSplit(v.tree, cur, LeafLeft(n, keys, vals, q), q, SplitKey(keys)),
       hidden := v.hidden[q := t], hot := v.hot[op.key := Hot(t, e)], pubs := v.pubs + [e],
       growing := if root then Some(t) else v.growing)
  }

  /** What the splitting writer knows about its locked full leaf and the stored right half. */
  ghost predicate LeafSplitting(v: Shared, t: Tid, op: Op, cur: Recid, n: Node, root: bool, q: Recid) {
    && cur in v.tree.level && v.tree.level[cur] == 0 && Current(v.tree, cur, n, op.key)
    && LeafFull(op, n, v.max, root) && LeafStored(v, t, op, n, q)
    && Owns(v.locks, t, cur)
  }

  lemma NewGroupAt(v: Shared, op: Op, cur: Recid, n: Node)
    requires TreePart(v) && cur in v.tree.level && v.tree.level[cur] == 0 && Current(v.tree, cur, n, op.key)
    requires Wellformed(n) && Mutates(op, LeafGet(n, op.key))
    ensures ShapeOk(n, v.tree.low[cur], 0, v.max) && |NewKeys(op, n)| == |NewVals(op, n)|
    ensures KeysWithin(NewKeys(op, n), v.tree.low[cur], High(n))
    ensures !Found(n.keys, op.key) ==> |NewKeys(op, n)| == |n.keys| + 1
  {
    hide AllApart, LinkOk, ChildrenOk, KeysWithin;
    assert NodeOk(v.tree, v.pend.Keys, v.max, cur);
    NewGroup(op, n, v.tree.low[cur], v.max);
  }

  lemma LeafSplitTree(v: Shared, t: Tid, op: Op, cur: Recid, n: Node, root: bool, q: Recid)
    requires TreePart(v) && LeafSplitting(v, t, op, cur, n, root, q)
    ensures TreePart(WithLeafSplit(v, t, op, cur, n, root, q))
    ensures Extends(v.tree, WithLeafSplit(v, t, op, cur, n, root, q).tree)
    ensures Lt(v.tree.low[cur], Fin(SplitKey(NewKeys(op, n)))) && Lt(Fin(SplitKey(NewKeys(op, n))), High(n))
  {
    hide Extends, TreeOk, KeysWithin, NewKeys, NewVals;
    NewGroupAt(v, op, cur, n);
    SplitLeafOk(v.tree, v.pend.Keys, v.max, cur, NewKeys(op, n), NewVals(op, n), q);
    LeafHalves(n, v.tree.low[cur], v.max, NewKeys(op, n), NewVals(op, n), q);
    assert v.pend.Keys + {q} == v.pend.Keys;
  }

  lemma LeafSplitRoot(v: Shared, t: Tid, op: Op, cur: Recid, n: Node, root: bool, q: Recid)
    requires TreePart(v) && RootPart(v) && LeafSplitting(v, t, op, cur, n, root, q)
    ensures var v' := WithLeafSplit(v, t, op, cur, n, root, q);
            && RootPart(v') && (RootShaped(v.tree.nodes[v.root]) && !root ==> RootShaped(v'.tree.nodes[v.root]))
            && (root ==> v.root == cur && v.growing.None?)
  {
    var v' := WithLeafSplit(v, t, op, cur, n, root, q);
    assert ShapedIsRoot(v, cur);
    forall i | 0 <= i < |v'.edges| ensures EdgeOk(v', i) {
      assert EdgeOk(v, i);
    }
    forall r | r in v'.tree.low && r in v'.tree.nodes ensures ShapedIsRoot(v', r) {
      assert r in v.tree.low ==> ShapedIsRoot(v, r);
    }
  }

  lemma LeafSplitHidden(v: Shared, t: Tid, op: Op, cur: Recid, n: Node, root: bool, q: Recid)
    requires TreePart(v) && HiddenPart(v) && LockPart(v) && LeafSplitting(v, t, op, cur, n, root, q)
    requires n.link !in v.hidden
    ensures HiddenPart(WithLeafSplit(v, t, op, cur, n, root, q))
  {
    var v' := WithLeafSplit(v, t, op, cur, n, root, q);
    assert forall r :: r in v.tree.low ==> NodeOk(v.tree, v.pend.Keys, v.max, r);
    assert forall r :: r in v.tree.low ==> v.tree.nodes[r].link in v.tree.low || v.tree.nodes[r].link == 0;
    forall x | x in v'.hidden ensures HiddenOk(v', x) {
      assert x != q ==> HiddenOk(v, x);
    }
  }

  lemma LeafSplitHot(v: Shared, t: Tid, op: Op, cur: Recid, n: Node, root: bool, q: Recid)
    requires TreePart(v) && HotPart(v) && LeafSplitting(v, t, op, cur, n, root, q)
    requires forall k :: k in v.hot ==> !Covers(v.tree, cur, k)
    requires Lt(v.tree.low[cur], Fin(SplitKey(NewKeys(op, n)))) && Lt(Fin(SplitKey(NewKeys(op, n))), High(n))
    ensures HotPart(WithLeafSplit(v, t, op, cur, n, root, q))
  {
    var v' := WithLeafSplit(v, t, op, cur, n, root, q);
    assert forall r, k :: Covers(v'.tree, r, k) ==> Covers(v.tree, if r == q then cur else r, k);
    forall k | k in v'.hot ensures HotOk(v', k) {
      assert k != op.key ==> HotOk(v, k);
      forall r | Covers(v'.tree, r, op.key) && r in v'.tree.level && v'.tree.level[r] == 0 ensures r == cur || r == q {
        CoverUnique(v.tree, v.pend.Keys, v.max, if r == q then cur else r, cur, op.key);
      }
    }
  }

  lemma LeafSplitGuarantee(v: Shared, t: Tid, op: Op, cur: Recid, n: Node, root: bool, q: Recid)
    requires LeafSplitting(v, t, op, cur, n, root, q) && op.key !in v.hot && q !in v.hidden
    requires root ==> v.growing.None?
    requires Extends(v.tree, WithLeafSplit(v, t, op, cur, n, root, q).tree)
    ensures Guarantee(v, WithLeafSplit(v, t, op, cur, n, root, q), t)
  {
  }

  lemma LeafSplitShared(v: Shared, t: Tid, op: Op, cur: Recid, n: Node, root: bool, q: Recid, pc: Pc)
    requires SharedOk(v) && LeafSplitting(v, t, op, cur, n, root, q) && Accounts(v, t, pc) && Plain(pc)
    ensures SharedOk(WithLeafSplit(v, t, op, cur, n, root, q))
    ensures Guarantee(v, WithLeafSplit(v, t, op, cur, n, root, q), t)
    ensures op.key !in v.hot && (root ==> v.root == cur)
    ensures Lt(v.tree.low[cur], Fin(SplitKey(NewKeys(op, n))))
  {
    hide TreePart, RootPart, HiddenPart, HotPart, EventPart, Guarantee, Accounts;
    var v' := WithLeafSplit(v, t, op, cur, n, root, q);
    LeafSplitTree(v, t, op, cur, n, root, q);
    LeafSplitRoot(v, t, op, cur, n, root, q);
    LinkNotHidden(v, t, pc, cur);
    LeafSplitHidden(v, t, op, cur, n, root, q);
    forall k | k in v.hot ensures !Covers(v.tree, cur, k) {
      if Covers(v.tree, cur, k) {
        NotHot(v, t, pc, cur, k);
      }
    }
    LeafSplitHot(v, t, op, cur, n, root, q);
    var was := LeafGet(n, op.key);
    PublishInOrder(v, v', t, Event(op.key, was, After(op, was)));
    if q in v.hidden {
      HiddenIsLeaf(v, q);
    }
    LeafSplitGuarantee(v, t, op, cur, n, root, q);
  }

  lemma LeafSplitCarry(v: Shared, t: Tid, op: Op, cur: Recid, n: Node, root: bool, q: Recid, stack: seq<Recid>)
    requires LeafSplitting(v, t, op, cur, n, root, q)
    requires (root ==> v.root == cur) && v.growing != Some(t)
    requires StackOk(v.tree, stack, 0, v.tree.low[cur]) && Lt(v.tree.low[cur], Fin(SplitKey(NewKeys(op, n))))
    requires Extends(v.tree, WithLeafSplit(v, t, op, cur, n, root, q).tree)
    ensures Splitting(WithLeafSplit(v, t, op, cur, n, root, q), t, cur,
                      Carry(op, cur, q, SplitKey(NewKeys(op, n)), root, stack, 1))
  {
    var v' := WithLeafSplit(v, t, op, cur, n, root, q);
    StackStable(v.tree, v'.tree, stack, 0, v.tree.low[cur]);
  }

  lemma LeafSplitAccounts(v: Shared, t: Tid, op: Op, cur: Recid, n: Node, root: bool, q: Recid, pc: Pc, carry: Option<Carry>)
    requires LeafSplitting(v, t, op, cur, n, root, q) && Accounts(v, t, pc) && pc.LeafPublish? && pc.cur == cur
    requires carry.Some? && carry.value.right == q
    ensures Accounts(WithLeafSplit(v, t, op, cur, n, root, q), t, Firing(op, cur, Event(op.key, None, After(op, None)), carry))
  {
    var v' := WithLeafSplit(v, t, op, cur, n, root, q);
    forall x: Recid | Owns(v'.hidden, t, x) ensures x == q {
      assert x != q ==> Owns(v.hidden, t, x);
    }
    forall k | k in v'.hot && v'.hot[k].who == t ensures k == op.key {
      assert k in v.hot && v.hot[k].who == t ==> Fires(pc, v.hot[k].event);
    }
  }

  lemma LeafPublishKnows(v: Shared, t: Tid, op: Op, cur: Recid, n: Node, root: bool, q: Recid, stack: seq<Recid>)
    requires PcOk(v, t, LeafPublish(op, cur, n, root, q, stack))
    ensures LeafSplitting(v, t, op, cur, n, root, q)
    ensures cur in v.tree.low && StackOk(v.tree, stack, 0, v.tree.low[cur]) && v.growing != Some(t)
  {
    hide StackOk;
  }

  lemma FiringKnows(v: Shared, t: Tid, op: Op, cur: Recid, e: Event, c: Carry)
    requires Owns(v.locks, t, cur) && cur in v.tree.low && c.op == op
    requires FiringOk(v.hot, t, op, e, Some(c)) && Splitting(v, t, cur, c)
    ensures PcOk(v, t, Firing(op, cur, e, Some(c)))
  {
    hide FiringOk, Splitting;
  }

  lemma GoodLeafPublish(v: Shared, t: Tid, op: Op, cur: Recid, n: Node, root: bool, q: Recid, stack: seq<Recid>)
    requires SharedOk(v) && Thread(v, t, LeafPublish(op, cur, n, root, q, stack))
    ensures Good(v, t, StepLeafPublish(v, t, op, cur, n, root, q, stack))
  {
    hide SharedOk, StackOk, Splitting, Accounts, PcOk, Covers;
    LeafPublishKnows(v, t, op, cur, n, root, q, stack);
    var pc, v' := LeafPublish(op, cur, n, root, q, stack), WithLeafSplit(v, t, op, cur, n, root, q);
    LeafSplitShared(v, t, op, cur, n, root, q, pc);
    LeafSplitCarry(v, t, op, cur, n, root, q, stack);
    var c := Carry(op, cur, q, SplitKey(NewKeys(op, n)), root, stack, 1);
    LeafSplitAccounts(v, t, op, cur, n, root, q, pc, Some(c));
    FiringKnows(v', t, op, cur, Event(op.key, None, After(op, None)), c);
  }
}

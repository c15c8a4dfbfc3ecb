/**
 Calls return.  Every step of a thread brings it closer to its result, in any state that
 satisfies the invariant: a search has fewer nodes in front of it, a separator fewer nodes
 beside and above it.  So a lookup that no writer gets ahead of ends after at most as many
 steps as there are nodes, and a writer that finds its locks free ends as well, both with
 the result and the effect that their operation is for.
 */
module BLinkSolo {
  import opened Basics
  import opened BLinkTree
  import opened BLinkMachine
  import opened BLinkInvariant
  import opened BLinkSteps
  import opened BLinkRuns
  import opened BLinkRefinement
  import opened BLinkProgress

  // ---------- what lies before a thread ----------

  type Lows = map<Recid, Bound>
  type Levels = map<Recid, nat>

  /** Nodes below `r`, and of its level from `r` on to the right. */
  ghost function Ahead(low: Lows, level: Levels, r: Recid): set<Recid> {
    set q | q in low && q in level && r in low && r in level && (level[q] < level[r] || (level[q] == level[r] && Leq(low[r], low[q])))
  }

  /** Nodes above `r`, and of its level from `r` on to the right. */
  ghost function Over(low: Lows, level: Levels, r: Recid): set<Recid> {
    set q | q in low && q in level && r in low && r in level && (level[q] > level[r] || (level[q] == level[r] && Leq(low[r], low[q])))
  }

  /** Nodes of level `lvl` and higher. */
  ghost function From(low: Lows, level: Levels, lvl: nat): set<Recid> {
    set q | q in low && q in level && level[q] >= lvl
  }

  lemma {:induction false} Fewer(a: set<Recid>, b: set<Recid>)
    requires a <= b
    ensures |a| <= |b| && (a != b ==> |a| < |b|)
    decreases a
  {
    if a == {} {
      assert a != b ==> exists x :: x in b;
    } else {
      var x :| x in a;
      Fewer(a - {x}, b - {x});
      assert a != b ==> a - {x} != b - {x};
    }
  }

  lemma AheadShrinks(tr: Tree, r: Recid, q: Recid)
    requires Nearer(tr, r, q)
    ensures |Ahead(tr.low, tr.level, q)| < |Ahead(tr.low, tr.level, r)|
  {
    Fewer(Ahead(tr.low, tr.level, q), Ahead(tr.low, tr.level, r));
    assert r in Ahead(tr.low, tr.level, r) && r !in Ahead(tr.low, tr.level, q);
  }

  lemma AheadBound(low: Lows, level: Levels, r: Recid)
    requires r in low && r in level
    ensures 1 <= |Ahead(low, level, r)| <= |low|
  {
    Fewer(Ahead(low, level, r), low.Keys);
    Fewer({r}, Ahead(low, level, r));
  }

  lemma OverShrinks(tr: Tree, r: Recid, q: Recid)
    requires Nearer(tr, r, q) && tr.level[q] == tr.level[r]
    ensures |Over(tr.low, tr.level, q)| < |Over(tr.low, tr.level, r)|
  {
    Fewer(Over(tr.low, tr.level, q), Over(tr.low, tr.level, r));
    assert r in Over(tr.low, tr.level, r) && r !in Over(tr.low, tr.level, q);
  }

  /** From a node of level `lvl`, at most the nodes of that level and higher are left, and one fewer above it. */
  lemma OverFrom(low: Lows, level: Levels, r: Recid)
    requires r in low && r in level
    ensures |From(low, level, level[r] + 1)| < |Over(low, level, r)| <= |From(low, level, level[r])|
  {
    Fewer(Over(low, level, r), From(low, level, level[r]));
    Fewer(From(low, level, level[r] + 1), Over(low, level, r));
    assert r in Over(low, level, r) && r !in From(low, level, level[r] + 1);
  }

  /** A new node below `lvl` does not count. */
  lemma FromKept(low: Lows, level: Levels, q: Recid, b: Bound, l: nat, lvl: nat)
    requires q !in low && l < lvl
    ensures From(low[q := b], level[q := l], lvl) == From(low, level, lvl)
  {
  }

  // ---------- a bound on the steps to come ----------

  ghost function Togo(tr: Tree, pc: Pc): nat {
    var up := 8 * |From(tr.low, tr.level, 1)|;
    match pc
    case Begin(op) => 4 * |tr.low| + up + 30
    case Reading(_, cur) => |Ahead(tr.low, tr.level, cur)|
    case Descending(_, cur, _) => 4 * |Ahead(tr.low, tr.level, cur)| + up + 29
    case LeafMove(_, _, next, _) => 4 * |Ahead(tr.low, tr.level, next)| + up + 29
    case LeafWait(_, cur, _) => 4 * |Ahead(tr.low, tr.level, cur)| + up + 28
    case LeafHeld(_, cur, _) => 4 * |Ahead(tr.low, tr.level, cur)| + up + 27
    case LeafOwned(_, _, _, _) => up + 25
    case LeafStore(_, _, _, _, _) => up + 24
    case LeafPublish(_, _, _, _, _, _) => up + 23
    case Firing(_, _, _, carry) => 1 + Freeing(tr, carry)
    case LeafFree(_, _, _, carry) => Freeing(tr, carry)
    case DirFree(_, _, carry) => Freeing(tr, carry)
    case Rising(c) => 8 * |From(tr.low, tr.level, c.level)| + 20
    case DirMove(_, _, next) => 8 * |Over(tr.low, tr.level, next)| + 20
    case DirWait(_, cur) => 8 * |Over(tr.low, tr.level, cur)| + 19
    case DirHeld(_, cur) => 8 * |Over(tr.low, tr.level, cur)| + 18
    case DirOwned(_, cur, _) => 8 * |Over(tr.low, tr.level, cur)| + 17
    case DirStore(_, cur, _, _) => 8 * |Over(tr.low, tr.level, cur)| + 16
    case DirPublish(_, cur, _, _, _) => 8 * |Over(tr.low, tr.level, cur)| + 15
    case RootWait(_) => 5
    case RootStore(_) => 4
    case RootPublish(_, _) => 3
    case RootEdge(_, _) => 2
    case RootFree(_) => 1
    case _ => 0
  }

  /** Unlocking, and then what a separator still costs. */
  ghost function Freeing(tr: Tree, carry: Option<Carry>): nat {
    if carry.None? then 1 else 8 * |From(tr.low, tr.level, carry.value.level)| + 21
  }

  predicate Busy(pc: Pc) {
    !pc.Idle? && !pc.Done? && !pc.Fault?
  }

  /** A lookup has fewer nodes ahead after every node it reads. */
  lemma ReadingLowers(v: Shared, t: Tid, op: Op, cur: Recid)
    requires TreePart(v) && ReadingOk(v.tree, op, cur)
    ensures Lowers(v, Reading(op, cur), StepReading(v, t, op, cur)) && Togo(v.tree, Reading(op, cur)) <= |v.tree.low|
  {
    hide Ahead, From, Over, TreePart, Nearer;
    ReadingNext(v, op, cur);
    AheadBound(v.tree.low, v.tree.level, cur);
    match ReadNode(v.tree.nodes[cur], op.key) {
      case Go(next) => AheadShrinks(v.tree, cur, next);
      case Stop(_) =>
    }
  }

  lemma DescendingLowers(v: Shared, t: Tid, op: Op, cur: Recid, stack: seq<Recid>)
    requires TreePart(v) && HiddenPart(v) && DescendingOk(v.tree, v.hidden, op, cur, stack)
    ensures Lowers(v, Descending(op, cur, stack), StepDescending(v, t, op, cur, stack))
  {
    hide Ahead, From, Over, TreePart, HiddenPart, Nearer;
    DescendingNext(v, op, cur, stack);
    var n := v.tree.nodes[cur];
    if n.Dir? {
      var i := Rank(n.keys, op.key);
      AheadShrinks(v.tree, cur, if i >= |n.children| then n.link else n.children[i]);
    }
  }

  /** A writer that has locked a leaf left of its key moves right. */
  lemma LeafHeldLowers(v: Shared, t: Tid, op: Op, cur: Recid, stack: seq<Recid>)
    requires TreePart(v) && LeafTarget(v.tree, v.hidden, op, cur, stack)
    ensures Lowers(v, LeafHeld(op, cur, stack), StepLeafHeld(v, t, op, cur, stack))
  {
    hide Ahead, From, Over, AllApart;
    assert NodeOk(v.tree, v.pend.Keys, v.max, cur);
    if BeyondLeaf(v.tree.nodes[cur], op.key) {
      AheadShrinks(v.tree, cur, v.tree.nodes[cur].link);
    }
  }

  lemma DirHeldLowers(v: Shared, t: Tid, c: Carry, cur: Recid)
    requires TreePart(v) && DirTarget(v.tree, v.pend, v.growing, v.root, t, c, cur)
    ensures Lowers(v, DirHeld(c, cur), StepDirHeld(v, t, c, cur))
  {
    hide Ahead, From, Over, AllApart;
    assert NodeOk(v.tree, v.pend.Keys, v.max, cur);
    if BeyondDir(v.tree.nodes[cur], c.sep) {
      OverShrinks(v.tree, cur, v.tree.nodes[cur].link);
    }
  }

  lemma RisingLowers(v: Shared, t: Tid, c: Carry)
    requires TreePart(v) && RootPart(v) && RisingOk(v.tree, v.pend, v.growing, v.root, t, c)
    requires c.root || c.stack != [] || c.level < |v.edges|
    ensures Lowers(v, Rising(c), StepRising(v, t, c))
  {
    hide Ahead, From, Over, TreePart, RootPart, StackOk, CarryOk;
    if !c.root {
      RisingNext(v, t, c);
      OverFrom(v.tree.low, v.tree.level, if c.stack == [] then v.edges[c.level] else Last(c.stack));
    }
  }

  /** A new leaf does not count among the directories. */
  lemma LeafPublishLowers(v: Shared, t: Tid, op: Op, cur: Recid, n: Node, root: bool, q: Recid, stack: seq<Recid>)
    requires cur in v.tree.level && v.tree.level[cur] == 0 && q !in v.tree.low
    ensures Lowers(v, LeafPublish(op, cur, n, root, q, stack), StepLeafPublish(v, t, op, cur, n, root, q, stack))
  {
    hide From, Rank, LeafLeft, SplitKey;
    if Wellformed(n) && |NewKeys(op, n)| == |NewVals(op, n)| >= 2 {
      FromKept(v.tree.low, v.tree.level, q, Fin(SplitKey(NewKeys(op, n))), 0, 1);
    }
  }

  /** A new directory does not count among those of the levels above it. */
  lemma DirPublishLowers(v: Shared, t: Tid, c: Carry, cur: Recid, n: Node, root: bool, q: Recid)
    requires cur in v.tree.low && cur in v.tree.level && v.tree.level[cur] == c.level && q !in v.tree.low
    ensures Lowers(v, DirPublish(c, cur, n, root, q), StepDirPublish(v, t, c, cur, n, root, q))
  {
    hide From, Over, Rank, DirLeft, SplitKey;
    OverFrom(v.tree.low, v.tree.level, cur);
    if Splittable(n, c.sep) {
      FromKept(v.tree.low, v.tree.level, q, Fin(SplitKey(WithChild(n, c.sep, c.right).keys)), c.level, c.level + 1);
    }
  }

  lemma BeginLowers(v: Shared, t: Tid, op: Op, r: Recid)
    requires RootPart(v) && r in v.roots
    ensures Lowers(v, Begin(op), Move(if op.Get? then Reading(op, r) else Descending(op, r, []), v))
  {
    hide Ahead, From;
    AheadBound(v.tree.low, v.tree.level, r);
  }

  /** A move lowers the bound. */
  ghost predicate Lowers(v: Shared, pc: Pc, m: Move) {
    Togo(m.v.tree, m.pc) < Togo(v.tree, pc)
  }

  ghost predicate SameNodes(v: Shared, v': Shared) {
    v'.tree.low == v.tree.low && v'.tree.level == v.tree.level
  }

  lemma LeafLockCosts(tr: Tree, op: Op, cur: Recid, next: Recid, stack: seq<Recid>)
    ensures Togo(tr, LeafWait(op, cur, stack)) == Togo(tr, LeafHeld(op, cur, stack)) + 1
    ensures Togo(tr, LeafMove(op, cur, next, stack)) == Togo(tr, LeafWait(op, next, stack)) + 1
  {
    hide Ahead, Over, From, Freeing;
  }

  lemma DirLockCosts(tr: Tree, c: Carry, cur: Recid, next: Recid)
    ensures Togo(tr, DirWait(c, cur)) == Togo(tr, DirHeld(c, cur)) + 1
    ensures Togo(tr, DirMove(c, cur, next)) == Togo(tr, DirWait(c, next)) + 1
  {
    hide Ahead, Over, From, Freeing;
  }

  lemma RootCosts(tr: Tree, c: Carry, q: Recid)
    ensures Togo(tr, RootWait(c)) == 5 && Togo(tr, RootStore(c)) == 4 && Togo(tr, RootPublish(c, q)) == 3
    ensures Togo(tr, RootEdge(c, q)) == 2 && Togo(tr, RootFree(c)) == 1
  {
    hide Ahead, Over, From, Freeing;
  }

  lemma EndCosts(tr: Tree, op: Op, res: Option<Value>)
    ensures Togo(tr, Done(op, res)) == Togo(tr, Fault) == 0
  {
    hide Ahead, Over, From, Freeing;
  }

  lemma FreeCosts(tr: Tree, op: Op, cur: Recid, e: Event, res: Option<Value>, carry: Option<Carry>)
    ensures Togo(tr, Firing(op, cur, e, carry)) == 1 + Freeing(tr, carry)
    ensures Togo(tr, LeafFree(op, cur, res, carry)) == Togo(tr, DirFree(op, cur, carry)) == Freeing(tr, carry)
  {
    hide Ahead, Over, From, Freeing;
  }

  lemma RiseCosts(tr: Tree, c: Carry)
    ensures Togo(tr, Rising(c)) + 1 == Freeing(tr, Some(c))
  {
    hide Ahead, Over, From;
  }

  /** The bound depends on which nodes there are, not on what is in them. */
  lemma SameCosts(v: Shared, v': Shared, pc: Pc)
    requires SameNodes(v, v')
    ensures Togo(v'.tree, pc) == Togo(v.tree, pc)
  {
    hide Ahead, Over, From;
  }

  lemma LeafLockLowers(v: Shared, v': Shared, op: Op, cur: Recid, next: Recid, stack: seq<Recid>)
    requires SameNodes(v, v')
    ensures Lowers(v, LeafWait(op, cur, stack), Move(LeafHeld(op, cur, stack), v'))
    ensures Lowers(v, LeafMove(op, cur, next, stack), Move(LeafWait(op, next, stack), v'))
  {
    hide Togo;
    LeafLockCosts(v.tree, op, cur, next, stack);
    SameCosts(v, v', LeafHeld(op, cur, stack));
    SameCosts(v, v', LeafWait(op, next, stack));
  }

  lemma DirLockLowers(v: Shared, v': Shared, c: Carry, cur: Recid, next: Recid)
    requires SameNodes(v, v')
    ensures Lowers(v, DirWait(c, cur), Move(DirHeld(c, cur), v'))
    ensures Lowers(v, DirMove(c, cur, next), Move(DirWait(c, next), v'))
  {
    hide Togo;
    DirLockCosts(v.tree, c, cur, next);
    SameCosts(v, v', DirHeld(c, cur));
    SameCosts(v, v', DirWait(c, next));
  }

  lemma FreeingLowers(v: Shared, v': Shared, op: Op, cur: Recid, e: Event, res: Option<Value>, carry: Option<Carry>)
    requires SameNodes(v, v')
    ensures Lowers(v, Firing(op, cur, e, carry), Move(LeafFree(op, cur, res, carry), v'))
    ensures Lowers(v, LeafFree(op, cur, res, carry), Move(if carry.Some? then Rising(carry.value) else Done(op, res), v'))
    ensures Lowers(v, DirFree(op, cur, carry), Move(if carry.Some? then Rising(carry.value) else Done(op, None), v'))
  {
    hide Togo, From;
    FreeCosts(v.tree, op, cur, e, res, carry);
    FreeCosts(v'.tree, op, cur, e, res, carry);
    EndCosts(v'.tree, op, res);
    EndCosts(v'.tree, op, None);
    if carry.Some? {
      RiseCosts(v'.tree, carry.value);
    }
  }

  lemma LeafOwnedLowers(v: Shared, t: Tid, op: Op, cur: Recid, n: Node, stack: seq<Recid>)
    ensures Lowers(v, LeafOwned(op, cur, n, stack), StepLeafOwned(v, t, op, cur, n, stack))
  {
    hide From, NewKeys, NewVals, Mutates, After, Reply, LeafGet;
  }

  lemma LeafStoreLowers(v: Shared, t: Tid, op: Op, cur: Recid, n: Node, root: bool, stack: seq<Recid>, q: Recid)
    ensures Lowers(v, LeafStore(op, cur, n, root, stack), StepLeafStore(v, t, op, cur, n, root, stack, q))
  {
    hide From, NewKeys, NewVals, LeafRight;
  }

  lemma DirOwnedLowers(v: Shared, t: Tid, c: Carry, cur: Recid, n: Node)
    ensures Lowers(v, DirOwned(c, cur, n), StepDirOwned(v, t, c, cur, n))
  {
    hide From, Over, Rank, Found, WithChild;
  }

  lemma DirStoreLowers(v: Shared, t: Tid, c: Carry, cur: Recid, n: Node, root: bool, q: Recid)
    ensures Lowers(v, DirStore(c, cur, n, root), StepDirStore(v, t, c, cur, n, root, q))
  {
    hide From, Over, WithChild, DirRight;
  }

  lemma RootLowers(v: Shared, v': Shared, c: Carry, q: Recid)
    ensures Lowers(v, RootWait(c), Move(RootStore(c), v')) && Lowers(v, RootStore(c), Move(RootPublish(c, q), v'))
    ensures Lowers(v, RootPublish(c, q), Move(RootEdge(c, q), v')) && Lowers(v, RootFree(c), Move(Done(c.op, None), v'))
    ensures Lowers(v, RootEdge(c, q), Move(Fault, v)) && Lowers(v, RootEdge(c, q), Move(RootFree(c), v'))
  {
    hide Togo;
    RootCosts(v.tree, c, q);
    RootCosts(v'.tree, c, q);
    EndCosts(v.tree, c.op, None);
    EndCosts(v'.tree, c.op, None);
  }

  /** What a thread knows that matters here. */
  lemma PcKnows(v: Shared, t: Tid, pc: Pc)
    requires SharedOk(v) && Thread(v, t, pc)
    ensures TreePart(v) && RootPart(v) && HiddenPart(v) && !pc.Fault?
    ensures pc.Reading? ==> ReadingOk(v.tree, pc.op, pc.cur)
    ensures pc.Descending? ==> DescendingOk(v.tree, v.hidden, pc.op, pc.cur, pc.stack)
    ensures pc.Rising? ==> RisingOk(v.tree, v.pend, v.growing, v.root, t, pc.c)
    ensures pc.LeafHeld? ==> LeafTarget(v.tree, v.hidden, pc.op, pc.cur, pc.stack)
    ensures pc.DirHeld? ==> DirTarget(v.tree, v.pend, v.growing, v.root, t, pc.c, pc.cur)
    ensures pc.LeafPublish? ==> pc.cur in v.tree.level && v.tree.level[pc.cur] == 0 && pc.q !in v.tree.low
    ensures pc.DirPublish? ==> pc.cur in v.tree.low && pc.cur in v.tree.level && v.tree.level[pc.cur] == pc.c.level && pc.q !in v.tree.low
  {
    hide ReadingOk, DescendingOk, RisingOk, Holding, FiringOk, Splitting, CarryOk, StackOk, LeafFull, DirFull, Current;
    hide TreePart, RootPart, HiddenPart, LockPart, HotPart, EventPart, Accounts;
  }

  lemma GrowLowers(v: Shared, t: Tid, pc: Pc, x: Choice)
    requires CanMove(v, pc, x) && (pc.RootWait? || AtRoot(pc))
    ensures Lowers(v, pc, Step(v, t, pc, x))
  {
    hide Lowers, RootNode, PublishRoot;
    match pc
    case RootWait(c) => RootLowers(v, Step(v, t, pc, x).v, c, 0);
    case RootStore(c) => RootLowers(v, Step(v, t, pc, x).v, c, x.recid);
    case RootPublish(c, q) => RootLowers(v, Step(v, t, pc, x).v, c, q);
    case RootEdge(c, q) => RootLowers(v, Step(v, t, pc, x).v, c, q);
    case RootFree(c) => RootLowers(v, Step(v, t, pc, x).v, c, 0);
  }

  /** A separator on its way up. */
  predicate Rises(pc: Pc) {
    pc.Rising? || DirPhase(pc) || pc.DirFree?
  }

  lemma UpLowers(v: Shared, t: Tid, pc: Pc, x: Choice)
    requires SharedOk(v) && Thread(v, t, pc) && CanMove(v, pc, x) && Rises(pc)
    ensures Lowers(v, pc, Step(v, t, pc, x))
  {
    hide SharedOk, TreePart, RootPart, Thread, Lowers, Reply, ReadingOk, DescendingOk, RisingOk, LeafTarget, DirTarget, Togo;
    hide StepRising, StepDirHeld, StepDirOwned, StepDirStore, StepDirPublish;
    PcKnows(v, t, pc);
    match pc
    case Rising(c) => RisingLowers(v, t, c);
    case DirWait(c, cur) => DirLockLowers(v, Step(v, t, pc, x).v, c, cur, 0);
    case DirHeld(c, cur) => DirHeldLowers(v, t, c, cur);
    case DirMove(c, cur, next) => DirLockLowers(v, Step(v, t, pc, x).v, c, cur, next);
    case DirOwned(c, cur, n) => DirOwnedLowers(v, t, c, cur, n);
    case DirStore(c, cur, n, root) => DirStoreLowers(v, t, c, cur, n, root, x.recid);
    case DirPublish(c, cur, n, root, q) => DirPublishLowers(v, t, c, cur, n, root, q);
    case DirFree(op, cur, carry) => FreeingLowers(v, Step(v, t, pc, x).v, op, cur, Event(0, None, None), None, carry);
  }

  lemma DownLowers(v: Shared, t: Tid, pc: Pc, x: Choice)
    requires SharedOk(v) && Thread(v, t, pc) && CanMove(v, pc, x) && Busy(pc) && !Rises(pc) && !pc.RootWait? && !AtRoot(pc)
    ensures Lowers(v, pc, Step(v, t, pc, x))
  {
    hide SharedOk, TreePart, RootPart, Thread, Lowers, Reply, ReadingOk, DescendingOk, RisingOk, LeafTarget, DirTarget, Togo;
    hide StepReading, StepDescending, StepLeafHeld, StepLeafOwned, StepLeafStore, StepLeafPublish;
    PcKnows(v, t, pc);
    match pc
    case Begin(op) => BeginLowers(v, t, op, x.recid);
    case Reading(op, cur) => ReadingLowers(v, t, op, cur);
    case Descending(op, cur, stack) => DescendingLowers(v, t, op, cur, stack);
    case LeafWait(op, cur, stack) => LeafLockLowers(v, Step(v, t, pc, x).v, op, cur, 0, stack);
    case LeafHeld(op, cur, stack) => LeafHeldLowers(v, t, op, cur, stack);
    case LeafMove(op, cur, next, stack) => LeafLockLowers(v, Step(v, t, pc, x).v, op, cur, next, stack);
    case LeafOwned(op, cur, n, stack) => LeafOwnedLowers(v, t, op, cur, n, stack);
    case LeafStore(op, cur, n, root, stack) => LeafStoreLowers(v, t, op, cur, n, root, stack, x.recid);
    case LeafPublish(op, cur, n, root, q, stack) => LeafPublishLowers(v, t, op, cur, n, root, q, stack);
    case Firing(op, cur, event, carry) => FreeingLowers(v, Step(v, t, pc, x).v, op, cur, event, Reply(op, event.was), carry);
    case LeafFree(op, cur, res, carry) => FreeingLowers(v, Step(v, t, pc, x).v, op, cur, Event(0, None, None), res, carry);
  }

  /** Every step of every thread brings it closer to its result. */
  lemma StepLowers(v: Shared, t: Tid, pc: Pc, x: Choice)
    requires SharedOk(v) && Thread(v, t, pc) && CanMove(v, pc, x) && Busy(pc)
    ensures var m := Step(v, t, pc, x); Togo(m.v.tree, m.pc) < Togo(v.tree, pc)
  {
    hide SharedOk, Thread, Togo, Step;
    if Rises(pc) {
      UpLowers(v, t, pc, x);
    } else if pc.RootWait? || AtRoot(pc) {
      GrowLowers(v, t, pc, x);
    } else {
      DownLowers(v, t, pc, x);
    }
  }

  lemma SetsBound(low: Lows, level: Levels, r: Recid, lvl: nat)
    ensures |Ahead(low, level, r)| <= |low| && |Over(low, level, r)| <= |low| && |From(low, level, lvl)| <= |low|
  {
    Fewer(Ahead(low, level, r), low.Keys);
    Fewer(Over(low, level, r), low.Keys);
    Fewer(From(low, level, lvl), low.Keys);
  }

  /** The bound is linear in the number of published nodes. */
  lemma TogoBound(tr: Tree, pc: Pc)
    ensures Togo(tr, pc) <= 12 * |tr.low| + 30
  {
    hide Ahead, Over, From;
    var low, level := tr.low, tr.level;
    forall r: Recid ensures |Ahead(low, level, r)| <= |low| {
      SetsBound(low, level, r, 0);
    }
    forall r: Recid ensures |Over(low, level, r)| <= |low| {
      SetsBound(low, level, r, 0);
    }
    forall lvl: nat ensures |From(low, level, lvl)| <= |low| {
      SetsBound(low, level, 0, lvl);
    }
  }

  // ---------- a thread that runs alone ----------

  /** States in which only thread `t` takes steps, from a call under way on. */
  ghost predicate Solo(ss: seq<State>, t: Tid, xs: seq<Choice>) {
    && |ss| == |xs| + 1 && Inv(ss[0]) && t in ss[0].pcs
    && forall i :: 0 <= i < |xs| ==> Can(ss[i], t, xs[i]) && Busy(ss[i].pcs[t]) && ss[i + 1] == Next(ss[i], t, xs[i])
  }

  lemma {:induction false} SoloInv(ss: seq<State>, t: Tid, xs: seq<Choice>, i: nat)
    requires Solo(ss, t, xs) && i < |ss|
    ensures Inv(ss[i]) && t in ss[i].pcs && Thread(ss[i].v, t, ss[i].pcs[t]) && SharedOk(ss[i].v)
  {
    hide SharedOk, Thread, OwnersKnown, CanMove, Step;
    if i > 0 {
      SoloInv(ss, t, xs, i - 1);
      StepKeepsInv(ss[i - 1], t, xs[i - 1]);
    }
    assert Thread(ss[i].v, t, ss[i].pcs[t]);
  }

  /** Alone, a thread takes at most as many steps as the bound says; no run of it goes on for longer. */
  lemma {:induction false} SoloEnds(ss: seq<State>, t: Tid, xs: seq<Choice>, i: nat)
    requires Solo(ss, t, xs) && i < |ss|
    ensures t in ss[i].pcs && i + Togo(ss[i].v.tree, ss[i].pcs[t]) <= Togo(ss[0].v.tree, ss[0].pcs[t])
  {
    hide Inv, SharedOk, Thread, CanMove, Step, Togo;
    SoloInv(ss, t, xs, i);
    if i > 0 {
      SoloEnds(ss, t, xs, i - 1);
      SoloInv(ss, t, xs, i - 1);
      StepLowers(ss[i - 1].v, t, ss[i - 1].pcs[t], xs[i - 1]);
    }
  }

  /** Nobody else is in the way: every lock that is taken is the thread's own, and nobody else is growing the tree. */
  ghost predicate Undisturbed(v: Shared, t: Tid) {
    (forall r :: r in v.locks ==> v.locks[r] == t) && (v.growing.None? || v.growing == Some(t))
  }

  lemma UndisturbedStays(v: Shared, v': Shared, t: Tid)
    requires Undisturbed(v, t) && Guarantee(v, v', t)
    ensures Undisturbed(v', t)
  {
    hide Extends;
    forall r | r in v'.locks ensures v'.locks[r] == t {
      assert Owns(v'.locks, v'.locks[r], r);
    }
  }

  /** Undisturbed, a thread can always take its next step. */
  lemma SoloMoves(s: State, t: Tid) returns (x: Choice)
    requires Inv(s) && t in s.pcs && Undisturbed(s.v, t)
    ensures Can(s, t, x)
  {
    hide PcOk, TreePart, HiddenPart, LockPart, HotPart, EventPart, EdgeOk, ShapedIsRoot;
    var v, pc := s.v, s.pcs[t];
    assert Thread(v, t, pc);
    PcKnows(v, t, pc);
    var q := FreshExists(v);
    x := Choice(Get(0), if pc.Begin? then v.root else q);
    if pc.LeafWait? || pc.DirWait? {
      assert pc.cur in v.locks ==> Owns(v.locks, t, pc.cur);
    } else if pc.RootWait? {
      assert v.rootPtr in v.locks ==> Owns(v.locks, t, v.rootPtr);
    } else if pc.Rising? {
      RisingFree(v, t, pc.c);
    }
  }

  /** With nobody growing the tree, the level above a split-off node has a left edge. */
  lemma RisingFree(v: Shared, t: Tid, c: Carry)
    requires SharedOk(v) && Thread(v, t, Rising(c)) && Undisturbed(v, t)
    ensures c.root || c.stack != [] || c.level < |v.edges|
  {
    hide TreePart, HiddenPart, LockPart, HotPart, EventPart, StackOk, EdgeOk, ShapedIsRoot;
    assert v.rootPtr in v.locks ==> Owns(v.locks, t, v.rootPtr);
    if !c.root && c.level >= |v.edges| && !v.appending {
      StuckMeansGrowing(v, t, c);
    }
  }

  // ---------- what a thread that runs alone does ----------

  /** What a pending call of `op` has done so far to the map it found: nothing, or all of it. */
  ghost predicate SoFar(tr: Tree, tr': Tree, a: Status, op: Op) {
    match a
    case Quiet => false
    case Pending(o) => o == op && forall k :: Lookup(tr', k) == Lookup(tr, k)
    case Settled(o, res) =>
      && o == op && Performs(op, Lookup(tr, op.key), Lookup(tr', op.key), res)
      && forall k :: k != op.key ==> Lookup(tr', k) == Lookup(tr, k)
  }

  lemma SoFarMoves(tr: Tree, v: Shared, v': Shared, a: Status, a': Status, op: Op)
    requires SoFar(tr, v.tree, a, op) && Atomic(a, a', v, v') && !a'.Quiet?
    ensures SoFar(tr, v'.tree, a', op)
  {
    hide Lookup;
  }

  lemma OnlyTheEndIsQuiet(tr: Tree, pc: Pc)
    ensures StatusOf(tr, pc).Quiet? <==> pc.Idle? || pc.Fault?
    ensures pc.Done? ==> StatusOf(tr, pc) == Settled(pc.op, pc.res)
    ensures pc.Begin? ==> StatusOf(tr, pc) == Pending(pc.op)
  {
  }

  lemma StepsToEnd(v: Shared, t: Tid, pc: Pc, x: Choice)
    requires CanMove(v, pc, x) && Busy(pc)
    ensures !Step(v, t, pc, x).pc.Idle?
  {
  }

  /** Alone, a call does to the map it began with exactly what its operation is for. */
  lemma {:induction false} SoloEffect(ss: seq<State>, t: Tid, xs: seq<Choice>, i: nat)
    requires Solo(ss, t, xs) && i < |ss| && StatusOf(ss[0].v.tree, ss[0].pcs[t]).Pending?
    ensures t in ss[i].pcs
    ensures SoFar(ss[0].v.tree, ss[i].v.tree, StatusOf(ss[i].v.tree, ss[i].pcs[t]), StatusOf(ss[0].v.tree, ss[0].pcs[t]).op)
  {
    hide Inv, SharedOk, Thread, CanMove, Step, StatusOf, SoFar, Lookup, Atomic;
    SoloInv(ss, t, xs, i);
    if i == 0 {
      SoFarStarts(ss[0].v.tree, StatusOf(ss[0].v.tree, ss[0].pcs[t]));
    } else {
      SoloEffect(ss, t, xs, i - 1);
      SoloInv(ss, t, xs, i - 1);
      var s, x := ss[i - 1], xs[i - 1];
      var op := StatusOf(ss[0].v.tree, ss[0].pcs[t]).op;
      StepAtomic(s.v, t, s.pcs[t], x);
      StepsToEnd(s.v, t, s.pcs[t], x);
      NotFaulted(ss[i].v, t, ss[i].pcs[t]);
      OnlyTheEndIsQuiet(ss[i].v.tree, ss[i].pcs[t]);
      SoFarMoves(ss[0].v.tree, s.v, ss[i].v, StatusOf(s.v.tree, s.pcs[t]), StatusOf(ss[i].v.tree, ss[i].pcs[t]), op);
    }
  }

  lemma SoFarStarts(tr: Tree, a: Status)
    requires a.Pending?
    ensures SoFar(tr, tr, a, a.op)
  {
  }

  // ---------- calls return ----------

  lemma SoloGrows(ss: seq<State>, t: Tid, xs: seq<Choice>, s: State, x: Choice)
    requires Solo(ss, t, xs) && Inv(s) && t in s.pcs && Busy(s.pcs[t]) && Can(s, t, x) && ss[0] == Next(s, t, x)
    ensures Solo([s] + ss, t, [x] + xs)
  {
    hide Inv, CanMove, Step;
    var ss', xs' := [s] + ss, [x] + xs;
    forall i | 0 <= i < |xs'| ensures Can(ss'[i], t, xs'[i]) && Busy(ss'[i].pcs[t]) && ss'[i + 1] == Next(ss'[i], t, xs'[i]) {
      assert i > 0 ==> ss'[i] == ss[i - 1] && xs'[i] == xs[i - 1] && ss'[i + 1] == ss[i];
    }
  }

  /** An undisturbed thread can run until it is done. */
  lemma {:induction false} RunToEnd(s: State, t: Tid) returns (ss: seq<State>, xs: seq<Choice>)
    requires Inv(s) && t in s.pcs && Undisturbed(s.v, t) && !s.pcs[t].Idle?
    ensures Solo(ss, t, xs) && ss[0] == s && t in ss[|xs|].pcs && ss[|xs|].pcs[t].Done?
    decreases Togo(s.v.tree, s.pcs[t])
  {
    hide SharedOk, Thread, OwnersKnown, CanMove, Step, Togo, Undisturbed, Guarantee;
    assert Thread(s.v, t, s.pcs[t]);
    NotFaulted(s.v, t, s.pcs[t]);
    if s.pcs[t].Done? {
      ss, xs := [s], [];
    } else {
      var x := SoloMoves(s, t);
      var s' := Next(s, t, x);
      StepKeepsInv(s, t, x);
      StepLowers(s.v, t, s.pcs[t], x);
      StepsToEnd(s.v, t, s.pcs[t], x);
      EveryStepGood(s.v, t, s.pcs[t], x);
      UndisturbedStays(s.v, s'.v, t);
      ss, xs := RunToEnd(s', t);
      SoloGrows(ss, t, xs, s, x);
      ss, xs := [s] + ss, [x] + xs;
    }
  }

  /**
   However a call runs alone, it takes a number of steps that is linear in the number of
   nodes; it has then done what it is for, or finds a lock taken by somebody else.
   */
  lemma CallEnds(ss: seq<State>, t: Tid, xs: seq<Choice>)
    requires Solo(ss, t, xs) && ss[0].pcs[t].Begin?
    ensures |xs| <= 12 * |ss[0].v.tree.low| + 30 && t in ss[|xs|].pcs
    ensures ss[|xs|].pcs[t].Done? ==>
              var op, tr, tr' := ss[0].pcs[t].op, ss[0].v.tree, ss[|xs|].v.tree;
              && ss[|xs|].pcs[t].op == op
              && Performs(op, Lookup(tr, op.key), Lookup(tr', op.key), ss[|xs|].pcs[t].res)
              && forall k :: k != op.key ==> Lookup(tr', k) == Lookup(tr, k)
    ensures !ss[|xs|].pcs[t].Done? ==> Undisturbed(ss[|xs|].v, t) ==> exists x :: Can(ss[|xs|], t, x)
  {
    hide Inv, CanMove, Step, Togo, Undisturbed, StatusOf, Lookup;
    SoloEnds(ss, t, xs, |xs|);
    TogoBound(ss[0].v.tree, ss[0].pcs[t]);
    OnlyTheEndIsQuiet(ss[0].v.tree, ss[0].pcs[t]);
    OnlyTheEndIsQuiet(ss[|xs|].v.tree, ss[|xs|].pcs[t]);
    SoloEffect(ss, t, xs, |xs|);
    SoloInv(ss, t, xs, |xs|);
    if !ss[|xs|].pcs[t].Done? && Undisturbed(ss[|xs|].v, t) {
      var x := SoloMoves(ss[|xs|], t);
    }
  }

  /** A call that begins while nobody else holds a lock, and then runs alone, returns. */
  lemma CallReturns(s: State, t: Tid) returns (ss: seq<State>, xs: seq<Choice>)
    requires Inv(s) && t in s.pcs && Undisturbed(s.v, t) && s.pcs[t].Begin?
    ensures Solo(ss, t, xs) && ss[0] == s && |xs| <= 12 * |s.v.tree.low| + 30
    ensures t in ss[|xs|].pcs && ss[|xs|].pcs[t].Done? && ss[|xs|].pcs[t].op == s.pcs[t].op
    ensures var op, tr, tr' := s.pcs[t].op, s.v.tree, ss[|xs|].v.tree;
            && Performs(op, Lookup(tr, op.key), Lookup(tr', op.key), ss[|xs|].pcs[t].res)
            && forall k :: k != op.key ==> Lookup(tr', k) == Lookup(tr, k)
  {
    hide Inv, CanMove, Step, Undisturbed, Lookup;
    ss, xs := RunToEnd(s, t);
    CallEnds(ss, t, xs);
  }

  /** A lookup changes nothing, waits for nobody, and settles for what is there. */
  lemma LookupStep(s: State, t: Tid, x: Choice)
    requires Inv(s) && t in s.pcs && LooksUp(s.pcs[t]) && Can(s, t, x)
    ensures var s' := Next(s, t, x);
            && s'.v == s.v && (LooksUp(s'.pcs[t]) || s'.pcs[t].Done?) && s'.pcs[t].op == s.pcs[t].op
            && var a, a' := StatusOf(s.v.tree, s.pcs[t]), StatusOf(s.v.tree, s'.pcs[t]);
               if a.Settled? then a' == a else a' == a || a' == Settled(a.op, Lookup(s.v.tree, a.op.key))
  {
    hide SharedOk, PcOk, Accounts, OwnersKnown, Lookup;
    var v, pc := s.v, s.pcs[t];
    assert Thread(v, t, pc);
    StepAtomic(v, t, pc, x);
    EveryStepGood(v, t, pc, x);
    NotFaulted(Step(v, t, pc, x).v, t, Step(v, t, pc, x).pc);
    assert pc.Reading? ==> ReadingOk(v.tree, pc.op, pc.cur) by {
      PcKnows(v, t, pc);
    }
  }

  predicate LooksUp(pc: Pc) {
    pc.Reading? || (pc.Begin? && pc.op.Get?)
  }

  lemma {:induction false} LookupToEnd(s: State, t: Tid) returns (ss: seq<State>, xs: seq<Choice>)
    requires Inv(s) && t in s.pcs && (LooksUp(s.pcs[t]) || s.pcs[t].Done?)
    ensures Solo(ss, t, xs) && ss[0] == s && t in ss[|xs|].pcs && ss[|xs|].pcs[t].Done?
    ensures ss[|xs|].v == s.v && ss[|xs|].pcs[t].op == s.pcs[t].op
    ensures var a := StatusOf(s.v.tree, s.pcs[t]);
            if a.Settled? then ss[|xs|].pcs[t].res == a.res else ss[|xs|].pcs[t].res == Lookup(s.v.tree, s.pcs[t].op.key)
    decreases Togo(s.v.tree, s.pcs[t])
  {
    hide Inv, SharedOk, Thread, CanMove, Step, Togo, Lookup;
    if s.pcs[t].Done? {
      ss, xs := [s], [];
    } else {
      var x := LookupMoves(s, t);
      var s' := Next(s, t, x);
      LookupStep(s, t, x);
      StepKeepsInv(s, t, x);
      StepLowers(s.v, t, s.pcs[t], x);
      ss, xs := LookupToEnd(s', t);
      SoloGrows(ss, t, xs, s, x);
      ss, xs := [s] + ss, [x] + xs;
    }
  }

  lemma LookupMoves(s: State, t: Tid) returns (x: Choice)
    requires Inv(s) && t in s.pcs && LooksUp(s.pcs[t])
    ensures Can(s, t, x) && Thread(s.v, t, s.pcs[t]) && SharedOk(s.v)
  {
    hide PcOk, TreePart, HiddenPart, LockPart, HotPart, EventPart, EdgeOk, ShapedIsRoot;
    assert Thread(s.v, t, s.pcs[t]);
    x := Choice(Get(0), s.v.root);
  }

  /**
   Whoever holds which locks, a lookup that then runs alone reads each node at most once,
   changes nothing, and returns what is under its key; one that has passed its key on the
   leaves had settled for nothing before.
   */
  lemma LookupReturns(s: State, t: Tid) returns (ss: seq<State>, xs: seq<Choice>)
    requires Inv(s) && t in s.pcs && s.pcs[t].Reading?
    ensures Solo(ss, t, xs) && ss[0] == s && |xs| <= |s.v.tree.low|
    ensures ss[|xs|].v == s.v && t in ss[|xs|].pcs && s.pcs[t].cur in s.v.tree.low
    ensures var op, cur := s.pcs[t].op, s.pcs[t].cur;
            ss[|xs|].pcs[t] == Done(op, if Lt(s.v.tree.low[cur], Fin(op.key)) then Lookup(s.v.tree, op.key) else None)
  {
    hide Inv, CanMove, Step, Togo, Lookup, Thread, SharedOk;
    ss, xs := LookupToEnd(s, t);
    var x := LookupMoves(s, t);
    PcKnows(s.v, t, s.pcs[t]);
    ReadingLowers(s.v, t, s.pcs[t].op, s.pcs[t].cur);
    SoloEnds(ss, t, xs, |xs|);
  }

  /** And every way in which it runs alone is as short. */
  lemma LookupEnds(ss: seq<State>, t: Tid, xs: seq<Choice>)
    requires Solo(ss, t, xs) && ss[0].pcs[t].Reading?
    ensures |xs| <= |ss[0].v.tree.low|
  {
    hide Inv, CanMove, Step, Togo, Thread, SharedOk;
    SoloInv(ss, t, xs, 0);
    PcKnows(ss[0].v, t, ss[0].pcs[t]);
    ReadingLowers(ss[0].v, t, ss[0].pcs[t].op, ss[0].pcs[t].cur);
    SoloEnds(ss, t, xs, |xs|);
  }
}

/**
 The concurrent tree refines an atomic map: every step is invisible to callers, or
 begins a call, or returns from one, or is the single instant at which a pending call
 takes its whole sequential effect and fixes its result.
 */
module BLinkRefinement {
  import opened Basics
  import opened BLinkTree
  import opened BLinkMachine
  import opened BLinkInvariant
  import opened BLinkSteps
  import opened BLinkWrites
  import opened BLinkRuns

  /** A thread as its caller sees it. */
  datatype Status = Quiet | Pending(op: Op) | Settled(op: Op, res: Option<Value>)

  /** A lookup that has passed its key on the leaf chain has already settled for None. */
  ghost function StatusOf(tr: Tree, pc: Pc): Status {
    match pc
    case Idle => Quiet
    case Begin(op) => Pending(op)
    case Reading(op, cur) =>
      if cur in tr.low && !Lt(tr.low[cur], Fin(op.key)) then Settled(op, None) else Pending(op)
    case Descending(op, _, _) => Pending(op)
    case LeafWait(op, _, _) => Pending(op)
    case LeafHeld(op, _, _) => Pending(op)
    case LeafMove(op, _, _, _) => Pending(op)
    case LeafOwned(op, _, _, _) => Pending(op)
    case LeafStore(op, _, _, _, _) => Pending(op)
    case LeafPublish(op, _, _, _, _, _) => Pending(op)
    case Firing(op, _, e, _) => Settled(op, Reply(op, e.was))
    case LeafFree(op, _, res, _) => Settled(op, res)
    case Rising(c) => Settled(c.op, None)
    case DirWait(c, _) => Settled(c.op, None)
    case DirHeld(c, _) => Settled(c.op, None)
    case DirMove(c, _, _) => Settled(c.op, None)
    case DirOwned(c, _, _) => Settled(c.op, None)
    case DirStore(c, _, _, _) => Settled(c.op, None)
    case DirPublish(c, _, _, _, _) => Settled(c.op, None)
    case DirFree(op, _, _) => Settled(op, None)
    case RootWait(c) => Settled(c.op, None)
    case RootStore(c) => Settled(c.op, None)
    case RootPublish(c, _) => Settled(c.op, None)
    case RootEdge(c, _) => Settled(c.op, None)
    case RootFree(c) => Settled(c.op, None)
    case Done(op, res) => Settled(op, res)
    case Fault => Quiet
  }

  /** Nothing a caller can look up changes, and no change is reported. */
  ghost predicate Invisible(v: Shared, v': Shared) {
    v'.pubs == v.pubs && forall k :: Lookup(v'.tree, k) == Lookup(v.tree, k)
  }

  /** `op` takes its sequential effect on its key, leaves every other key alone and is reported if it mutates. */
  ghost predicate TakesEffect(v: Shared, v': Shared, op: Op, res: Option<Value>) {
    var was, now := Lookup(v.tree, op.key), Lookup(v'.tree, op.key);
    && Performs(op, was, now, res)
    && (forall k :: k != op.key ==> Lookup(v'.tree, k) == Lookup(v.tree, k))
    && v'.pubs == v.pubs + (if Reported(op, was, res) then [Event(op.key, was, now)] else [])
  }

  ghost predicate Atomic(a: Status, a': Status, v: Shared, v': Shared) {
    || (a' == a && Invisible(v, v'))
    || (a.Quiet? && a'.Pending? && Invisible(v, v'))
    || (a.Settled? && a'.Quiet? && Invisible(v, v'))
    || (a.Pending? && a'.Settled? && a'.op == a.op && TakesEffect(v, v', a.op, a'.res))
  }

  // ---------- steps that leave every leaf alone ----------

  lemma FirstLeaf(v: Shared)
    requires TreePart(v) && RootPart(v)
    ensures v.edges[0] in v.tree.low && v.tree.low[v.edges[0]] == NegInf && v.tree.level[v.edges[0]] == 0
  {
    assert EdgeOk(v, 0);
  }

  lemma LeavesKept(v: Shared, v': Shared)
    requires SharedOk(v) && SharedOk(v') && Extends(v.tree, v'.tree) && v'.pubs == v.pubs && v'.max == v.max
    requires forall r :: r in v.tree.level && v.tree.level[r] == 0 ==> r in v'.tree.nodes && v'.tree.nodes[r] == v.tree.nodes[r]
    ensures Invisible(v, v')
  {
    FirstLeaf(v);
    forall k ensures Lookup(v'.tree, k) == Lookup(v.tree, k) {
      LookupKept(v.tree, v'.tree, v.pend.Keys, v'.pend.Keys, v.max, v.edges[0], k);
    }
  }

  // ---------- the linearization points ----------

  /** A lookup settles when it reads the leaf that covers its key. */
  lemma ReadAtomic(v: Shared, t: Tid, op: Op, cur: Recid)
    requires TreePart(v) && ReadingOk(v.tree, op, cur)
    ensures var m := StepReading(v, t, op, cur);
            m.v == v && Atomic(StatusOf(v.tree, Reading(op, cur)), StatusOf(v.tree, m.pc), v, v)
  {
    var tr, pend, key := v.tree, v.pend.Keys, op.key;
    assert NodeOk(tr, pend, v.max, cur);
    var n := tr.nodes[cur];
    ReadingNext(v, op, cur);
    if n.Dir? {
      RouteOk(tr, pend, v.max, cur, key);
    } else {
      if Covers(tr, cur, key) {
        LookupAtCover(tr, pend, v.max, cur, key);
      }
      if n.link != 0 {
        assert NodeOk(tr, pend, v.max, n.link);
      }
    }
  }

  lemma OwnedLookup(v: Shared, op: Op, cur: Recid, n: Node)
    requires TreePart(v) && RootPart(v)
    requires cur in v.tree.level && v.tree.level[cur] == 0 && Current(v.tree, cur, n, op.key)
    ensures Wellformed(n) && Lookup(v.tree, op.key) == LeafGet(n, op.key)
  {
    LookupAtCover(v.tree, v.pend.Keys, v.max, cur, op.key);
  }

  lemma EditAtomic(v: Shared, t: Tid, op: Op, cur: Recid, n: Node)
    requires TreePart(v) && RootPart(v) && Editing(v, t, op, cur, n)
    ensures TakesEffect(v, WithEdit(v, t, op, cur, n), op, Reply(op, LeafGet(n, op.key)))
  {
    assert NodeOk(v.tree, v.pend.Keys, v.max, cur);
    FirstLeaf(v);
    NewGroup(op, n, v.tree.low[cur], v.max);
    OwnedLookup(v, op, cur, n);
    forall k ensures Lookup(WithEdit(v, t, op, cur, n).tree, k)
                  == if k == op.key then After(op, Lookup(v.tree, k)) else Lookup(v.tree, k)
    {
      EditLeafLookup(v.tree, v.pend.Keys, v.max, v.edges[0], cur, NewKeys(op, n), NewVals(op, n), k);
      NewGroupGet(op, n, k);
      if Covers(v.tree, cur, k) {
        LookupAtCover(v.tree, v.pend.Keys, v.max, cur, k);
      }
    }
  }

  lemma SplitAtomic(v: Shared, t: Tid, op: Op, cur: Recid, n: Node, root: bool, q: Recid)
    requires TreePart(v) && RootPart(v) && LeafSplitting(v, t, op, cur, n, root, q)
    ensures TakesEffect(v, WithLeafSplit(v, t, op, cur, n, root, q), op, Reply(op, LeafGet(n, op.key)))
  {
    assert NodeOk(v.tree, v.pend.Keys, v.max, cur);
    FirstLeaf(v);
    NewGroup(op, n, v.tree.low[cur], v.max);
    OwnedLookup(v, op, cur, n);
    forall k ensures Lookup(WithLeafSplit(v, t, op, cur, n, root, q).tree, k)
                  == if k == op.key then After(op, Lookup(v.tree, k)) else Lookup(v.tree, k)
    {
      SplitLeafLookup(v.tree, v.pend.Keys, v.max, v.edges[0], cur, NewKeys(op, n), NewVals(op, n), q, k);
      NewGroupGet(op, n, k);
      if Covers(v.tree, cur, k) {
        LookupAtCover(v.tree, v.pend.Keys, v.max, cur, k);
      }
    }
  }

  lemma OwnedAtomic(v: Shared, t: Tid, op: Op, cur: Recid, n: Node, stack: seq<Recid>)
    requires SharedOk(v) && Thread(v, t, LeafOwned(op, cur, n, stack))
    ensures var m := StepLeafOwned(v, t, op, cur, n, stack);
            Atomic(Pending(op), StatusOf(m.v.tree, m.pc), v, m.v)
  {
    hide PcOk, TreePart, RootPart, HiddenPart, LockPart, HotPart, EventPart, Covers;
    OwnedKnows(v, t, op, cur, n, stack);
    OwnedLookup(v, op, cur, n);
    if Mutates(op, LeafGet(n, op.key)) && |NewKeys(op, n)| <= v.max {
      NotHot(v, t, LeafOwned(op, cur, n, stack), cur, op.key);
      EditAtomic(v, t, op, cur, n);
    }
  }

  lemma PublishAtomic(v: Shared, t: Tid, op: Op, cur: Recid, n: Node, root: bool, q: Recid, stack: seq<Recid>)
    requires SharedOk(v) && Thread(v, t, LeafPublish(op, cur, n, root, q, stack))
    ensures var m := StepLeafPublish(v, t, op, cur, n, root, q, stack);
            Atomic(Pending(op), StatusOf(m.v.tree, m.pc), v, m.v)
  {
    hide PcOk, TreePart, RootPart, HiddenPart, LockPart, HotPart, EventPart, Covers, StackOk;
    LeafPublishKnows(v, t, op, cur, n, root, q, stack);
    SplitAtomic(v, t, op, cur, n, root, q);
  }

  // ---------- every step ----------

  /** Steps of these kinds store or publish nodes above the leaves, or records nobody reaches. */
  predicate AboveLeaves(pc: Pc) {
    pc.LeafStore? || pc.DirStore? || pc.RootStore? || pc.DirOwned? || pc.DirPublish? || pc.RootPublish?
  }

  lemma DirAbove(v: Shared, t: Tid, pc: Pc)
    requires PcOk(v, t, pc) && (pc.DirOwned? || pc.DirPublish?)
    ensures pc.cur in v.tree.level && v.tree.level[pc.cur] > 0
  {
    hide StackOk;
  }

  lemma AboveKeepsLeaves(v: Shared, t: Tid, pc: Pc, x: Choice)
    requires v.tree.level.Keys <= v.tree.nodes.Keys && CanMove(v, pc, x) && AboveLeaves(pc)
    requires pc.DirOwned? || pc.DirPublish? ==> pc.cur in v.tree.level && v.tree.level[pc.cur] > 0
    ensures var m := Step(v, t, pc, x);
            forall r :: r in v.tree.level && v.tree.level[r] == 0 ==> r in m.v.tree.nodes && m.v.tree.nodes[r] == v.tree.nodes[r]
  {
    hide StatusOf;
  }

  lemma AboveKeepsStatus(v: Shared, t: Tid, pc: Pc, x: Choice)
    requires CanMove(v, pc, x) && AboveLeaves(pc)
    ensures var m := Step(v, t, pc, x);
            m.v.pubs == v.pubs && (m.pc.Fault? || StatusOf(m.v.tree, m.pc) == StatusOf(v.tree, pc))
  {
    hide PublishSplit, EditDir, PublishRoot, WithChild;
  }

  lemma AboveAtomic(v: Shared, t: Tid, pc: Pc, x: Choice)
    requires SharedOk(v) && Thread(v, t, pc) && CanMove(v, pc, x) && AboveLeaves(pc)
    ensures var m := Step(v, t, pc, x); Atomic(StatusOf(v.tree, pc), StatusOf(m.v.tree, m.pc), v, m.v)
  {
    hide PcOk, Accounts, Step, CanMove, NodeOk, RootPart, HiddenPart, LockPart, HotPart, EventPart, StatusOf;
    if pc.DirOwned? || pc.DirPublish? {
      DirAbove(v, t, pc);
    }
    AboveKeepsLeaves(v, t, pc, x);
    AboveKeepsStatus(v, t, pc, x);
    EveryStepGood(v, t, pc, x);
    var m := Step(v, t, pc, x);
    NotFaulted(m.v, t, m.pc);
    LeavesKept(v, m.v);
  }

  /** A thread that releases a leaf or directory carries the operation it has settled. */
  predicate CarriesOwn(pc: Pc) {
    && (pc.LeafFree? && pc.carry.Some? ==> pc.res == None)
    && ((pc.LeafFree? || pc.DirFree?) && pc.carry.Some? ==> pc.carry.value.op == pc.op)
  }

  lemma CarriesKnows(v: Shared, t: Tid, pc: Pc)
    requires PcOk(v, t, pc)
    ensures CarriesOwn(pc)
  {
  }

  /** The remaining steps write no node and report no change. */
  lemma OtherAtomic(v: Shared, t: Tid, pc: Pc, x: Choice)
    requires RootPart(v) && CarriesOwn(pc) && CanMove(v, pc, x)
    requires !AboveLeaves(pc) && !pc.Reading? && !pc.LeafOwned? && !pc.LeafPublish?
    ensures var m := Step(v, t, pc, x);
            m.pc.Fault? || Atomic(StatusOf(v.tree, pc), StatusOf(m.v.tree, m.pc), v, m.v)
  {
    hide RootPart, Lookup, StatusOf;
    var m := Step(v, t, pc, x);
    OtherLeavesTree(v, t, pc, x);
    OtherKeepsStatus(v, t, pc, x);
  }

  lemma OtherLeavesTree(v: Shared, t: Tid, pc: Pc, x: Choice)
    requires CanMove(v, pc, x) && !AboveLeaves(pc) && !pc.Reading? && !pc.LeafOwned? && !pc.LeafPublish?
    ensures var m := Step(v, t, pc, x); m.v.tree == v.tree && m.v.pubs == v.pubs
  {
  }

  lemma OtherKeepsStatus(v: Shared, t: Tid, pc: Pc, x: Choice)
    requires RootPart(v) && CarriesOwn(pc) && CanMove(v, pc, x)
    requires !AboveLeaves(pc) && !pc.Reading? && !pc.LeafOwned? && !pc.LeafPublish?
    ensures var m := Step(v, t, pc, x);
            var a, a' := StatusOf(v.tree, pc), StatusOf(v.tree, m.pc);
            m.pc.Fault? || a' == a || (a.Quiet? && a'.Pending?) || (a.Settled? && a'.Quiet?)
  {
    hide EdgeOk, ShapedIsRoot;
  }

  /** Main theorem: every step of every thread is atomic for its caller. */
  lemma StepAtomic(v: Shared, t: Tid, pc: Pc, x: Choice)
    requires SharedOk(v) && Thread(v, t, pc) && CanMove(v, pc, x)
    ensures var m := Step(v, t, pc, x); Atomic(StatusOf(v.tree, pc), StatusOf(m.v.tree, m.pc), v, m.v)
  {
    hide Accounts, TreePart, RootPart, HiddenPart, LockPart, HotPart, EventPart, Atomic, PcOk;
    if AboveLeaves(pc) {
      AboveAtomic(v, t, pc, x);
    } else if pc.Reading? {
      ReadingKnows(v, t, pc.op, pc.cur);
      ReadAtomic(v, t, pc.op, pc.cur);
    } else if pc.LeafOwned? {
      OwnedAtomic(v, t, pc.op, pc.cur, pc.n, pc.stack);
    } else if pc.LeafPublish? {
      PublishAtomic(v, t, pc.op, pc.cur, pc.n, pc.root, pc.q, pc.stack);
    } else {
      CarriesKnows(v, t, pc);
      OtherAtomic(v, t, pc, x);
      EveryStepGood(v, t, pc, x);
      NotFaulted(Step(v, t, pc, x).v, t, Step(v, t, pc, x).pc);
    }
  }

  lemma ReadingKnows(v: Shared, t: Tid, op: Op, cur: Recid)
    requires PcOk(v, t, Reading(op, cur))
    ensures ReadingOk(v.tree, op, cur)
  {
  }

  /** What a thread has settled never changes by another thread's step. */
  lemma OthersUnmoved(v: Shared, v': Shared, t: Tid, u: Tid, pc: Pc)
    requires Guarantee(v, v', t) && PcOk(v, u, pc)
    ensures StatusOf(v'.tree, pc) == StatusOf(v.tree, pc)
  {
  }
}

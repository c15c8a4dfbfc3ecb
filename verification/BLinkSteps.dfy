/**
 Every step of every thread is good: it keeps the shared invariant, leaves its own
 thread consistent and gives all other threads the guarantee.  Steps fall into a few
 shapes: a thread moves on without writing, takes a lock, releases one, or stores a
 record nobody can reach yet; the publications are treated one by one.
 */
module BLinkSteps {
  import opened Basics
  import opened BLinkTree
  import opened BLinkMachine
  import opened BLinkInvariant

  ghost predicate Good(v: Shared, t: Tid, m: Move) {
    match m
    case Move(pc', v') => SharedOk(v') && Guarantee(v, v', t) && Thread(v', t, pc')
  }

  /** Program counters of a thread that hides no leaf and owes no listener call. */
  predicate Plain(pc: Pc) {
    !pc.Firing? && (pc.LeafFree? ==> pc.carry.None?)
  }

  // ---------- moving on, locking, unlocking ----------

  /** A thread that hides nothing and owes nothing only accounts for its lock. */
  lemma PlainAccounts(v: Shared, t: Tid, pc: Pc, v': Shared, pc': Pc)
    requires Accounts(v, t, pc) && Plain(pc) && v'.hidden == v.hidden && v'.hot == v.hot
    requires forall r: Recid :: Owns(v'.locks, t, r) ==> Held(v', pc') == Some(r)
    ensures Accounts(v', t, pc')
    ensures forall q: Recid :: !Owns(v.hidden, t, q)
    ensures forall k :: k in v.hot ==> v.hot[k].who != t
  {
  }

  lemma MoveOn(v: Shared, t: Tid, pc: Pc, pc': Pc)
    requires Accounts(v, t, pc) && Plain(pc) && Held(v, pc') == Held(v, pc)
    ensures Guarantee(v, v, t) && Accounts(v, t, pc')
  {
    PlainAccounts(v, t, pc, v, pc');
    LocksGuarantee(v, v, t);
  }

  lemma LocksGuarantee(v: Shared, v': Shared, t: Tid)
    requires v' == v.(locks := v'.locks) && OthersKeep(v.locks, v'.locks, t)
    ensures Guarantee(v, v', t)
  {
  }

  lemma TakeLock(v: Shared, t: Tid, pc: Pc, r: Recid, pc': Pc)
    requires SharedOk(v) && Accounts(v, t, pc) && Plain(pc) && Held(v, pc) == None && Held(v, pc') == Some(r)
    requires r !in v.locks && (r in v.tree.low || r == v.rootPtr) && r !in v.hidden
    ensures var v' := v.(locks := v.locks[r := t]); SharedOk(v') && Guarantee(v, v', t) && Accounts(v', t, pc')
  {
    hide TreePart, RootPart, HiddenPart, LockPart, HotPart, EventPart, Guarantee;
    var v' := v.(locks := v.locks[r := t]);
    forall q: Recid | Owns(v'.locks, t, q) ensures q == r {
      assert q != r ==> Owns(v.locks, t, q);
    }
    PtrLockStays(v, v');
    PlainAccounts(v, t, pc, v', pc');
    LocksGuarantee(v, v', t);
    LocksChange(v, v', t);
  }

  lemma PtrLockStays(v: Shared, v': Shared)
    requires RootPart(v) && v.locks.Keys <= v'.locks.Keys
    ensures v.appending ==> v.rootPtr in v'.locks
  {
    hide EdgeOk, ShapedIsRoot;
  }

  lemma FreeLock(v: Shared, t: Tid, pc: Pc, r: Recid, pc': Pc)
    requires SharedOk(v) && Accounts(v, t, pc) && Plain(pc) && Held(v, pc) == Some(r) && Owns(v.locks, t, r)
    requires (r == v.rootPtr ==> !v.appending) && Held(v, pc') == None
    ensures var v' := v.(locks := v.locks - {r}); SharedOk(v') && Guarantee(v, v', t) && Accounts(v', t, pc')
  {
    var v' := v.(locks := v.locks - {r});
    forall q: Recid ensures !Owns(v'.locks, t, q) {
      assert Owns(v'.locks, t, q) ==> Owns(v.locks, t, q);
    }
    PlainAccounts(v, t, pc, v', pc');
    LocksGuarantee(v, v', t);
    LocksChange(v, v', t);
  }

  /** Changing only locks of a thread that hides nothing keeps the shared invariant. */
  lemma LocksChange(v: Shared, v': Shared, t: Tid)
    requires SharedOk(v) && v' == v.(locks := v'.locks) && OthersKeep(v.locks, v'.locks, t)
    requires forall q: Recid :: !Owns(v.hidden, t, q)
    requires forall k :: k in v.hot ==> v.hot[k].who != t
    requires forall r: Recid :: Owns(v'.locks, t, r) ==> r !in v.hidden && (r in v.tree.low || r == v.rootPtr)
    requires v.appending ==> v.rootPtr in v'.locks
    ensures SharedOk(v')
  {
    forall q | q in v'.hidden ensures HiddenOk(v', q) {
      assert HiddenOk(v, q);
      assert Owns(v.hidden, v.hidden[q], q);
      assert q in v'.locks ==> Owns(v'.locks, v'.locks[q], q);
    }
    forall r | r in v'.locks ensures r in v.tree.low || r == v.rootPtr {
      assert Owns(v'.locks, v'.locks[r], r);
    }
    RootPartSame(v, v');
    HotPartSame(v, v', t);
    EventPartSame(v, v');
  }

  /** A thread that owes no listener call may change its locks and what it hides. */
  lemma HotPartSame(v: Shared, v': Shared, t: Tid)
    requires HotPart(v) && v'.tree == v.tree && v'.hot == v.hot
    requires OthersKeep(v.locks, v'.locks, t) && OthersKeep(v.hidden, v'.hidden, t)
    requires forall k :: k in v.hot ==> v.hot[k].who != t
    ensures HotPart(v')
  {
    forall k | k in v'.hot ensures HotOk(v', k) {
      assert HotOk(v, k);
    }
  }

  lemma RootPartSame(v: Shared, v': Shared)
    requires RootPart(v)
    requires v'.tree == v.tree && v'.root == v.root && v'.roots == v.roots && v'.edges == v.edges
    requires v'.pend == v.pend && v'.growing == v.growing && v'.appending == v.appending && (v.appending ==> v'.rootPtr in v'.locks)
    ensures RootPart(v')
  {
    forall i | 0 <= i < |v'.edges| ensures EdgeOk(v', i) {
      assert EdgeOk(v, i);
    }
    forall r | r in v'.tree.low && r in v'.tree.nodes ensures ShapedIsRoot(v', r) {
      assert ShapedIsRoot(v, r);
    }
  }

  lemma EventPartSame(v: Shared, v': Shared)
    requires EventPart(v) && v'.pubs == v.pubs && v'.events == v.events && v'.hot == v.hot
    ensures EventPart(v')
  {
    forall k ensures KeyInOrder(v', k) {
      assert KeyInOrder(v, k);
    }
  }

  // ---------- reads ----------

  /** Node `q` is below `r`, or starts to its right on the same level. */
  ghost predicate Nearer(tr: Tree, r: Recid, q: Recid) {
    && r in tr.low && r in tr.level && q in tr.low && q in tr.level
    && (tr.level[q] < tr.level[r] || (tr.level[q] == tr.level[r] && Lt(tr.low[r], tr.low[q])))
  }

  /** Where a search for `key` goes from a directory: still left of the key, one level down or one node right. */
  lemma RouteOk(tr: Tree, pend: set<Recid>, max: nat, cur: Recid, key: Key)
    requires TreeOk(tr, pend, max) && cur in tr.low && Lt(tr.low[cur], Fin(key)) && tr.nodes[cur].Dir?
    ensures tr.level[cur] > 0
    ensures var n := tr.nodes[cur];
            var i := Rank(n.keys, key);
            if i < |n.children| then
              && n.children[i] in tr.low && n.children[i] != 0 && n.children[i] !in pend
              && tr.level[n.children[i]] + 1 == tr.level[cur]
              && Leq(tr.low[cur], tr.low[n.children[i]]) && Lt(tr.low[n.children[i]], Fin(key))
            else
              n.link in tr.low && n.link != 0 && tr.level[n.link] == tr.level[cur]
              && Lt(tr.low[cur], tr.low[n.link]) && Lt(tr.low[n.link], Fin(key))
  {
    assert NodeOk(tr, pend, max, cur);
    var n := tr.nodes[cur];
    var i := Rank(n.keys, key);
    if i < |n.children| {
      assert ChildOk(tr, pend, n.children[i], ChildLow(n, tr.low[cur], i), tr.level[cur]);
      assert NodeOk(tr, pend, max, n.children[i]);
    } else {
      assert NodeOk(tr, pend, max, n.link);
    }
  }

  /** A lookup is sent only to nodes still left of its key, or along the leaves. */
  lemma ReadingNext(v: Shared, op: Op, cur: Recid)
    requires TreePart(v) && ReadingOk(v.tree, op, cur)
    ensures cur in v.tree.nodes
    ensures match ReadNode(v.tree.nodes[cur], op.key)
            case Go(next) => next != 0 && ReadingOk(v.tree, op, next) && Nearer(v.tree, cur, next)
            case Stop(_) => true
  {
    assert NodeOk(v.tree, v.pend.Keys, v.max, cur);
    var n := v.tree.nodes[cur];
    if n.Dir? {
      RouteOk(v.tree, v.pend.Keys, v.max, cur, op.key);
    } else if n.link != 0 {
      assert NodeOk(v.tree, v.pend.Keys, v.max, n.link);
    }
  }

  /** A lookup ends or goes on at a nearer node. */
  lemma GoodReading(v: Shared, t: Tid, op: Op, cur: Recid)
    requires SharedOk(v) && Thread(v, t, Reading(op, cur))
    ensures Good(v, t, StepReading(v, t, op, cur))
    ensures var m := StepReading(v, t, op, cur);
            m.v == v && (m.pc.Done? || (m.pc == Reading(op, m.pc.cur) && Nearer(v.tree, cur, m.pc.cur)))
  {
    hide TreePart, RootPart, HiddenPart, LockPart, HotPart, EventPart, Guarantee, StackOk, Nearer;
    ReadingNext(v, op, cur);
    var m := StepReading(v, t, op, cur);
    MoveOn(v, t, Reading(op, cur), m.pc);
  }

  lemma GoodDescending(v: Shared, t: Tid, op: Op, cur: Recid, stack: seq<Recid>)
    requires SharedOk(v) && Thread(v, t, Descending(op, cur, stack))
    ensures Good(v, t, StepDescending(v, t, op, cur, stack))
    ensures var m := StepDescending(v, t, op, cur, stack);
            m.v == v && (m.pc == LeafWait(op, cur, stack) || (m.pc == Descending(op, m.pc.cur, m.pc.stack) && Nearer(v.tree, cur, m.pc.cur)))
  {
    hide TreePart, RootPart, HiddenPart, LockPart, HotPart, EventPart, Guarantee, StackOk, Nearer;
    DescendingNext(v, op, cur, stack);
    var m := StepDescending(v, t, op, cur, stack);
    MoveOn(v, t, Descending(op, cur, stack), m.pc);
  }

  lemma DescendingNext(v: Shared, op: Op, cur: Recid, stack: seq<Recid>)
    requires TreePart(v) && HiddenPart(v) && DescendingOk(v.tree, v.hidden, op, cur, stack)
    ensures cur in v.tree.nodes
    ensures var n := v.tree.nodes[cur];
            var i := Rank(n.keys, op.key);
            if n.Leaf? then LeafTarget(v.tree, v.hidden, op, cur, stack)
            else if i >= |n.children| then DescendingOk(v.tree, v.hidden, op, n.link, stack) && Nearer(v.tree, cur, n.link)
            else
              && DescendingOk(v.tree, v.hidden, op, n.children[i], if op.Put? then stack + [cur] else stack)
              && Nearer(v.tree, cur, n.children[i])
  {
    assert NodeOk(v.tree, v.pend.Keys, v.max, cur);
    var n := v.tree.nodes[cur];
    if n.Dir? {
      RouteOk(v.tree, v.pend.Keys, v.max, cur, op.key);
      var i := Rank(n.keys, op.key);
      if i < |n.children| {
        var c := n.children[i];
        assert c in v.hidden ==> HiddenOk(v, c);
        StackPush(v.tree, stack, v.tree.level[cur], cur, v.tree.low[c]);
      } else {
        assert n.link in v.hidden ==> HiddenOk(v, n.link);
        StackWiden(v.tree, stack, v.tree.level[cur], v.tree.low[cur], v.tree.low[n.link]);
      }
    }
  }

  lemma StackWiden(tr: Tree, stack: seq<Recid>, lvl: nat, b: Bound, b': Bound)
    requires StackOk(tr, stack, lvl, b) && Leq(b, b')
    ensures StackOk(tr, stack, lvl, b')
  {
  }

  lemma StackPush(tr: Tree, stack: seq<Recid>, lvl: nat, r: Recid, b: Bound)
    requires r in tr.low && r in tr.level && tr.level[r] == lvl > 0
    requires StackOk(tr, stack, lvl, tr.low[r]) && Leq(tr.low[r], b)
    ensures StackOk(tr, stack + [r], lvl - 1, b)
    ensures StackOk(tr, [], lvl - 1, b)
  {
  }

  lemma LeafHeldNext(v: Shared, t: Tid, op: Op, cur: Recid, stack: seq<Recid>)
    requires TreePart(v) && LeafTarget(v.tree, v.hidden, op, cur, stack) && Owns(v.locks, t, cur)
    requires v.tree.nodes[cur].link !in v.hidden
    ensures var n := v.tree.nodes[cur];
            if BeyondLeaf(n, op.key) then LeafTarget(v.tree, v.hidden, op, n.link, stack) && Nearer(v.tree, cur, n.link)
            else Current(v.tree, cur, n, op.key)
  {
    assert NodeOk(v.tree, v.pend.Keys, v.max, cur);
    var n := v.tree.nodes[cur];
    if BeyondLeaf(n, op.key) {
      StackWiden(v.tree, stack, 0, v.tree.low[cur], v.tree.low[n.link]);
    }
  }

  lemma GoodLeafHeld(v: Shared, t: Tid, op: Op, cur: Recid, stack: seq<Recid>)
    requires SharedOk(v) && Thread(v, t, LeafHeld(op, cur, stack))
    ensures Good(v, t, StepLeafHeld(v, t, op, cur, stack))
    ensures var m := StepLeafHeld(v, t, op, cur, stack);
            m.v == v && (m.pc.LeafOwned? || (m.pc == LeafMove(op, cur, m.pc.next, stack) && Nearer(v.tree, cur, m.pc.next)))
  {
    hide TreePart, RootPart, HiddenPart, LockPart, HotPart, EventPart, Guarantee, StackOk, Nearer;
    LinkNotHidden(v, t, LeafHeld(op, cur, stack), cur);
    LeafHeldNext(v, t, op, cur, stack);
    var m := StepLeafHeld(v, t, op, cur, stack);
    MoveOn(v, t, LeafHeld(op, cur, stack), m.pc);
  }

  /** The right sibling of a leaf locked by a thread that is not splitting it is never hidden. */
  lemma LinkNotHidden(v: Shared, t: Tid, pc: Pc, cur: Recid)
    requires SharedOk(v) && Accounts(v, t, pc) && Plain(pc) && Owns(v.locks, t, cur)
    requires cur in v.tree.low
    ensures cur in v.tree.nodes && v.tree.nodes[cur].link !in v.hidden
  {
    hide NodeOk, AllApart, RootPart, LockPart, HotPart, EventPart;
    var q := v.tree.nodes[cur].link;
    assert q in v.hidden ==> HiddenOk(v, q) && Owns(v.hidden, t, q);
  }

  lemma DirHeldNext(v: Shared, t: Tid, c: Carry, cur: Recid)
    requires TreePart(v) && DirTarget(v.tree, v.pend, v.growing, v.root, t, c, cur) && Owns(v.locks, t, cur)
    ensures cur in v.tree.nodes
    ensures var n := v.tree.nodes[cur];
            if BeyondDir(n, c.sep)
            then DirTarget(v.tree, v.pend, v.growing, v.root, t, c, n.link) && Nearer(v.tree, cur, n.link)
            else Current(v.tree, cur, n, c.sep)
  {
    assert NodeOk(v.tree, v.pend.Keys, v.max, cur);
    var n := v.tree.nodes[cur];
    if BeyondDir(n, c.sep) {
      StackWiden(v.tree, c.stack, c.level, v.tree.low[cur], v.tree.low[n.link]);
    }
  }

  lemma GoodDirHeld(v: Shared, t: Tid, c: Carry, cur: Recid)
    requires SharedOk(v) && Thread(v, t, DirHeld(c, cur))
    ensures Good(v, t, StepDirHeld(v, t, c, cur))
    ensures var m := StepDirHeld(v, t, c, cur);
            m.v == v && (m.pc.DirOwned? || (m.pc == DirMove(c, cur, m.pc.next) && Nearer(v.tree, cur, m.pc.next)))
  {
    hide TreePart, RootPart, HiddenPart, LockPart, HotPart, EventPart, Guarantee, StackOk, Nearer;
    DirHeldNext(v, t, c, cur);
    var m := StepDirHeld(v, t, c, cur);
    MoveOn(v, t, DirHeld(c, cur), m.pc);
  }

  lemma RisingNext(v: Shared, t: Tid, c: Carry)
    requires TreePart(v) && RootPart(v) && RisingOk(v.tree, v.pend, v.growing, v.root, t, c) && !c.root && (c.stack != [] || c.level < |v.edges|)
    ensures if c.stack == [] then DirTarget(v.tree, v.pend, v.growing, v.root, t, c, v.edges[c.level])
            else DirTarget(v.tree, v.pend, v.growing, v.root, t, c.(stack := Init(c.stack)), Last(c.stack))
  {
    if c.stack == [] {
      assert EdgeOk(v, c.level);
    } else {
      assert StackOk(v.tree, Init(c.stack), c.level, v.tree.low[Last(c.stack)]);
    }
  }

  lemma GoodRising(v: Shared, t: Tid, c: Carry)
    requires SharedOk(v) && Thread(v, t, Rising(c)) && (c.root || c.stack != [] || c.level < |v.edges|)
    ensures Good(v, t, StepRising(v, t, c))
  {
    hide TreePart, RootPart, HiddenPart, LockPart, HotPart, EventPart, Guarantee, StackOk;
    if !c.root {
      RisingNext(v, t, c);
    }
    var m := StepRising(v, t, c);
    MoveOn(v, t, Rising(c), m.pc);
  }

  // ---------- lock steps ----------

  lemma GoodLeafWait(v: Shared, t: Tid, op: Op, cur: Recid, stack: seq<Recid>)
    requires SharedOk(v) && Thread(v, t, LeafWait(op, cur, stack)) && cur !in v.locks
    ensures Good(v, t, Move(LeafHeld(op, cur, stack), v.(locks := v.locks[cur := t])))
  {
    hide TreePart, RootPart, HiddenPart, LockPart, HotPart, EventPart, Guarantee, StackOk;
    TakeLock(v, t, LeafWait(op, cur, stack), cur, LeafHeld(op, cur, stack));
  }

  lemma NodeNotPtr(v: Shared, r: Recid)
    requires TreePart(v) && r in v.tree.low
    ensures r in v.tree.nodes && r != v.rootPtr
  {
  }

  lemma GoodLeafMove(v: Shared, t: Tid, op: Op, cur: Recid, next: Recid, stack: seq<Recid>)
    requires SharedOk(v) && Thread(v, t, LeafMove(op, cur, next, stack))
    ensures Good(v, t, Move(LeafWait(op, next, stack), v.(locks := v.locks - {cur})))
  {
    hide TreePart, RootPart, HiddenPart, LockPart, HotPart, EventPart, Guarantee, StackOk;
    NodeNotPtr(v, cur);
    FreeLock(v, t, LeafMove(op, cur, next, stack), cur, LeafWait(op, next, stack));
  }

  lemma HiddenIsLeaf(v: Shared, r: Recid)
    requires HiddenPart(v) && r in v.hidden
    ensures r in v.tree.level && v.tree.level[r] == 0 && r in v.tree.low && v.tree.low[r].Fin?
  {
    assert HiddenOk(v, r);
  }

  lemma GoodDirWait(v: Shared, t: Tid, c: Carry, cur: Recid)
    requires SharedOk(v) && Thread(v, t, DirWait(c, cur)) && cur !in v.locks
    ensures Good(v, t, Move(DirHeld(c, cur), v.(locks := v.locks[cur := t])))
  {
    hide TreePart, RootPart, HiddenPart, LockPart, HotPart, EventPart, Guarantee, StackOk;
    if cur in v.hidden {
      HiddenIsLeaf(v, cur);
    }
    TakeLock(v, t, DirWait(c, cur), cur, DirHeld(c, cur));
  }

  lemma GoodDirMove(v: Shared, t: Tid, c: Carry, cur: Recid, next: Recid)
    requires SharedOk(v) && Thread(v, t, DirMove(c, cur, next))
    ensures Good(v, t, Move(DirWait(c, next), v.(locks := v.locks - {cur})))
  {
    hide TreePart, RootPart, HiddenPart, LockPart, HotPart, EventPart, Guarantee, StackOk;
    NodeNotPtr(v, cur);
    FreeLock(v, t, DirMove(c, cur, next), cur, DirWait(c, next));
  }

  lemma GoodRootWait(v: Shared, t: Tid, c: Carry)
    requires SharedOk(v) && Thread(v, t, RootWait(c)) && v.rootPtr !in v.locks
    ensures Good(v, t, Move(RootStore(c), v.(locks := v.locks[v.rootPtr := t])))
  {
    hide TreePart, RootPart, HiddenPart, LockPart, HotPart, EventPart, Guarantee, StackOk;
    PtrFree(v);
    TakeLock(v, t, RootWait(c), v.rootPtr, RootStore(c));
  }

  lemma PtrFree(v: Shared)
    requires SharedOk(v) && v.rootPtr !in v.locks
    ensures v.rootPtr !in v.hidden && !v.appending
  {
    hide NodeOk, AllApart, LockPart, HotPart, EventPart, EdgeOk, ShapedIsRoot;
    assert v.rootPtr in v.hidden ==> HiddenOk(v, v.rootPtr);
  }

  lemma GoodRootFree(v: Shared, t: Tid, c: Carry)
    requires SharedOk(v) && Thread(v, t, RootFree(c))
    ensures Good(v, t, Move(Done(c.op, None), v.(locks := v.locks - {v.rootPtr})))
  {
    hide TreePart, RootPart, HiddenPart, LockPart, HotPart, EventPart, Guarantee, StackOk;
    FreeLock(v, t, RootFree(c), v.rootPtr, Done(c.op, None));
  }

  // ---------- beginning, ending, releasing ----------

  lemma GoodIdle(v: Shared, t: Tid, op: Op)
    requires SharedOk(v) && Thread(v, t, Idle)
    ensures Good(v, t, Move(Begin(op), v))
  {
    hide TreePart, RootPart, HiddenPart, LockPart, HotPart, EventPart, Guarantee;
    MoveOn(v, t, Idle, Begin(op));
  }

  lemma GoodDone(v: Shared, t: Tid, op: Op, res: Option<Value>)
    requires SharedOk(v) && Thread(v, t, Done(op, res))
    ensures Good(v, t, Move(Idle, v))
  {
    hide TreePart, RootPart, HiddenPart, LockPart, HotPart, EventPart, Guarantee;
    MoveOn(v, t, Done(op, res), Idle);
  }

  /** Any root ever published is a sound place to start: it is the leftmost node of its level. */
  lemma RootsStart(v: Shared, r: Recid)
    requires RootPart(v) && HiddenPart(v) && r in v.roots
    ensures r in v.tree.low && r in v.tree.level && v.tree.low[r] == NegInf && r !in v.hidden
  {
    if r in v.hidden {
      HiddenIsLeaf(v, r);
    }
  }

  lemma GoodBegin(v: Shared, t: Tid, op: Op, r: Recid)
    requires SharedOk(v) && Thread(v, t, Begin(op)) && r in v.roots
    ensures Good(v, t, Move(if op.Get? then Reading(op, r) else Descending(op, r, []), v))
  {
    hide TreePart, RootPart, HiddenPart, LockPart, HotPart, EventPart, Guarantee;
    RootsStart(v, r);
    MoveOn(v, t, Begin(op), if op.Get? then Reading(op, r) else Descending(op, r, []));
  }

  lemma GoodDirFree(v: Shared, t: Tid, op: Op, cur: Recid, carry: Option<Carry>)
    requires SharedOk(v) && Thread(v, t, DirFree(op, cur, carry))
    ensures Good(v, t, Move(if carry.Some? then Rising(carry.value) else Done(op, None), v.(locks := v.locks - {cur})))
  {
    hide TreePart, RootPart, HiddenPart, LockPart, HotPart, EventPart, Guarantee, RisingOk;
    NodeNotPtr(v, cur);
    FreeLock(v, t, DirFree(op, cur, carry), cur, if carry.Some? then Rising(carry.value) else Done(op, None));
  }

  lemma GoodLeafFree(v: Shared, t: Tid, op: Op, cur: Recid, res: Option<Value>, carry: Option<Carry>)
    requires SharedOk(v) && Thread(v, t, LeafFree(op, cur, res, carry))
    ensures Good(v, t, StepLeafFree(v, t, op, cur, res, carry))
  {
    hide TreePart, RootPart, HiddenPart, LockPart, HotPart, EventPart, Guarantee, RisingOk;
    NodeNotPtr(v, cur);
    if carry.None? {
      FreeLock(v, t, LeafFree(op, cur, res, carry), cur, Done(op, res));
    } else {
      FreeSplit(v, t, op, cur, res, carry.value);
    }
  }

  /** Releasing the left half also ends the time its right half is hidden. */
  lemma FreeSplit(v: Shared, t: Tid, op: Op, cur: Recid, res: Option<Value>, c: Carry)
    requires SharedOk(v) && Accounts(v, t, LeafFree(op, cur, res, Some(c)))
    requires Owns(v.locks, t, cur) && Owns(v.hidden, t, c.right) && cur != v.rootPtr
    ensures var v' := v.(locks := v.locks - {cur}, hidden := v.hidden - {c.right});
            SharedOk(v') && Guarantee(v, v', t) && Accounts(v', t, Rising(c))
  {
    hide TreePart, RootPart, HiddenPart, LockPart, HotPart, EventPart, Guarantee;
    var v' := v.(locks := v.locks - {cur}, hidden := v.hidden - {c.right});
    forall q: Recid ensures !Owns(v'.locks, t, q) && !Owns(v'.hidden, t, q) {
      assert Owns(v'.locks, t, q) ==> Owns(v.locks, t, q);
      assert Owns(v'.hidden, t, q) ==> Owns(v.hidden, t, q);
    }
    UnhideParts(v, v', t, cur, c.right);
    UnhideGuarantee(v, v', t, cur, c.right);
    HotPartSame(v, v', t);
    EventPartSame(v, v');
  }

  lemma UnhideGuarantee(v: Shared, v': Shared, t: Tid, cur: Recid, q: Recid)
    requires v' == v.(locks := v.locks - {cur}, hidden := v.hidden - {q}) && Owns(v.locks, t, cur) && Owns(v.hidden, t, q)
    ensures Guarantee(v, v', t)
  {
  }

  lemma UnhideParts(v: Shared, v': Shared, t: Tid, cur: Recid, right: Recid)
    requires TreePart(v) && RootPart(v) && HiddenPart(v) && LockPart(v) && cur != v.rootPtr
    requires v' == v.(locks := v.locks - {cur}, hidden := v.hidden - {right}) && Owns(v.locks, t, cur) && Owns(v.hidden, t, right)
    requires forall q: Recid :: Owns(v.hidden, t, q) ==> q == right
    ensures TreePart(v') && RootPart(v') && HiddenPart(v') && LockPart(v')
  {
    hide NodeOk, AllApart, EdgeOk, ShapedIsRoot;
    forall q | q in v'.hidden ensures HiddenOk(v', q) {
      assert HiddenOk(v, q);
      assert v.hidden[q] == t ==> Owns(v.hidden, t, q);
    }
    RootPartSame(v, v');
  }

  // ---------- listener calls ----------

  lemma ForKeyAppend(es: seq<Event>, e: Event, k: Key)
    ensures ForKey(es + [e], k) == ForKey(es, k) + (if e.key == k then [e] else [])
  {
    assert (es + [e])[..|es + [e]| - 1] == es;
  }

  /** A listener call moves the one unreported change of its key from published to seen. */
  lemma FireInOrder(v: Shared, t: Tid, e: Event)
    requires EventPart(v) && e.key in v.hot && v.hot[e.key] == Hot(t, e)
    ensures EventPart(v.(events := v.events + [e], hot := v.hot - {e.key}))
  {
    var v' := v.(events := v.events + [e], hot := v.hot - {e.key});
    forall k ensures KeyInOrder(v', k) {
      assert KeyInOrder(v, k);
      ForKeyAppend(v.events, e, k);
    }
  }

  lemma FireShared(v: Shared, t: Tid, e: Event)
    requires SharedOk(v) && e.key in v.hot && v.hot[e.key] == Hot(t, e)
    ensures var v' := v.(events := v.events + [e], hot := v.hot - {e.key}); SharedOk(v') && Guarantee(v, v', t)
  {
    var v' := v.(events := v.events + [e], hot := v.hot - {e.key});
    FireInOrder(v, t, e);
    RootPartSame(v, v');
    forall q | q in v'.hidden ensures HiddenOk(v', q) {
      assert HiddenOk(v, q);
    }
    forall k | k in v'.hot ensures HotOk(v', k) {
      assert HotOk(v, k);
    }
  }

  lemma FireAccounts(v: Shared, t: Tid, op: Op, cur: Recid, e: Event, carry: Option<Carry>, res: Option<Value>)
    requires HotPart(v) && Accounts(v, t, Firing(op, cur, e, carry))
    ensures Accounts(v.(events := v.events + [e], hot := v.hot - {e.key}), t, LeafFree(op, cur, res, carry))
  {
    var v' := v.(events := v.events + [e], hot := v.hot - {e.key});
    forall k | k in v'.hot ensures v'.hot[k].who != t {
      assert HotOk(v, k);
    }
    forall q: Recid | Owns(v'.hidden, t, q) ensures Hides(LeafFree(op, cur, res, carry), q) {
      assert Hides(Firing(op, cur, e, carry), q);
    }
  }

  lemma GoodFiring(v: Shared, t: Tid, op: Op, cur: Recid, e: Event, carry: Option<Carry>)
    requires SharedOk(v) && Thread(v, t, Firing(op, cur, e, carry))
    ensures Good(v, t, Move(LeafFree(op, cur, Reply(op, e.was), carry),
                            v.(events := v.events + [e], hot := v.hot - {e.key})))
  {
    hide TreePart, RootPart, HiddenPart, LockPart, HotPart, EventPart, Guarantee, RisingOk;
    FireShared(v, t, e);
    FireAccounts(v, t, op, cur, e, carry, Reply(op, e.was));
    assert carry.Some? ==> op.Put?;
  }
}

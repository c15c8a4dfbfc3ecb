/**
 What every reachable state of the B-link machine satisfies: facts about the shared
 state, facts a thread knows at each program counter, and who owns what.  A step of
 one thread gives every other thread a guarantee strong enough to keep what it knows.
 */
module BLinkInvariant {
  import opened Basics
  import opened BLinkTree
  import opened BLinkMachine

  // ---------- what a thread knows at each program counter ----------

  /** Program counters at which a node is locked. */
  predicate AtNode(pc: Pc) {
    || pc.LeafHeld? || pc.LeafMove? || pc.LeafOwned? || pc.LeafStore? || pc.LeafPublish? || pc.Firing? || pc.LeafFree?
    || pc.DirHeld? || pc.DirMove? || pc.DirOwned? || pc.DirStore? || pc.DirPublish? || pc.DirFree?
  }

  /** Program counters at which the root pointer is locked. */
  predicate AtRoot(pc: Pc) {
    pc.RootStore? || pc.RootPublish? || pc.RootEdge? || pc.RootFree?
  }

  /** The lock a thread holds. */
  function Held(v: Shared, pc: Pc): Option<Recid> {
    if AtNode(pc) then Some(pc.cur) else if AtRoot(pc) then Some(v.rootPtr) else None
  }

  ghost predicate Owns(locks: map<Recid, Tid>, t: Tid, r: Recid) {
    r in locks && locks[r] == t
  }

  /** A published node of level `lvl` that starts left of `key`. */
  ghost predicate LeftOf(tr: Tree, r: Recid, lvl: nat, key: Key) {
    r in tr.low && r in tr.level && tr.level[r] == lvl && Lt(tr.low[r], Fin(key))
  }

  /** Remembered ancestors: one per level above `lvl`, none starting right of `b` or of a deeper one. */
  ghost predicate StackOk(tr: Tree, stack: seq<Recid>, lvl: nat, b: Bound) {
    && (forall j :: 0 <= j < |stack| ==>
          && stack[j] in tr.low && stack[j] in tr.level
          && tr.level[stack[j]] == lvl + |stack| - j
          && Leq(tr.low[stack[j]], b))
    && (forall i, j :: 0 <= i < j < |stack| ==> Leq(tr.low[stack[i]], tr.low[stack[j]]))
  }

  ghost predicate LeafTarget(tr: Tree, hidden: map<Recid, Tid>, op: Op, cur: Recid, stack: seq<Recid>) {
    && !op.Get?
    && LeftOf(tr, cur, 0, op.key) && cur !in hidden
    && StackOk(tr, stack, 0, tr.low[cur])
  }

  /** A put that must split leaf `n`; the root gate has been evaluated. */
  predicate LeafFull(op: Op, n: Node, max: nat, root: bool) {
    && op.Put? && Wellformed(n) && !Found(n.keys, op.key) && |n.keys| == max
    && (root <==> RootShaped(n))
  }

  ghost predicate Stored(v: Shared, t: Tid, q: Recid, n: Node) {
    && q != 0 && q !in v.tree.low
    && q in v.tree.nodes && v.tree.nodes[q] == n
    && Owns(v.pend, t, q)
  }

  /** What a thread knows about the separator it carries; `pend`, `growing` and `root` as in the shared state. */
  ghost predicate CarryOk(tr: Tree, pend: map<Recid, Tid>, growing: Option<Tid>, root: Recid, t: Tid, c: Carry) {
    && c.op.Put?
    && c.left in tr.low && c.left in tr.level && c.right in tr.low && c.right in tr.level
    && tr.level[c.left] + 1 == c.level && tr.level[c.right] + 1 == c.level
    && tr.low[c.right] == Fin(c.sep) && Lt(tr.low[c.left], Fin(c.sep))
    && Owns(pend, t, c.right)
    && (c.root <==> growing == Some(t))
    && (c.root ==> root == c.left)
  }

  /** Before a parent is chosen the whole remembered path is available. */
  ghost predicate RisingOk(tr: Tree, pend: map<Recid, Tid>, growing: Option<Tid>, root: Recid, t: Tid, c: Carry) {
    CarryOk(tr, pend, growing, root, t, c) && StackOk(tr, c.stack, c.level - 1, tr.low[c.left])
  }

  ghost predicate DirTarget(tr: Tree, pend: map<Recid, Tid>, growing: Option<Tid>, root: Recid, t: Tid, c: Carry, cur: Recid) {
    && CarryOk(tr, pend, growing, root, t, c) && !c.root
    && LeftOf(tr, cur, c.level, c.sep)
    && StackOk(tr, c.stack, c.level, tr.low[cur])
  }

  predicate DirFull(c: Carry, n: Node, max: nat, root: bool) {
    && Splittable(n, c.sep) && !Found(n.keys, c.sep) && |n.keys| == max
    && (root <==> RootShaped(n))
  }

  /** A split leaf is still locked on the left and its right half is hidden. */
  ghost predicate Splitting(v: Shared, t: Tid, cur: Recid, c: Carry) {
    c.left == cur && RisingOk(v.tree, v.pend, v.growing, v.root, t, c) && Owns(v.hidden, t, c.right)
  }

  /** A listener call reports the change its thread has published; a split comes from adding a key. */
  ghost predicate FiringOk(hot: map<Key, Hot>, t: Tid, op: Op, e: Event, carry: Option<Carry>) {
    && e.key == op.key && Mutates(op, e.was) && e.now == After(op, e.was)
    && e.key in hot && hot[e.key] == Hot(t, e)
    && (carry.Some? ==> e.was.None?)
  }

  ghost predicate ReadingOk(tr: Tree, op: Op, cur: Recid) {
    && op.Get? && cur in tr.low && cur in tr.level
    && (Lt(tr.low[cur], Fin(op.key)) || tr.level[cur] == 0)
  }

  ghost predicate DescendingOk(tr: Tree, hidden: map<Recid, Tid>, op: Op, cur: Recid, stack: seq<Recid>) {
    && !op.Get? && cur in tr.low && cur in tr.level && Lt(tr.low[cur], Fin(op.key))
    && cur !in hidden && StackOk(tr, stack, tr.level[cur], tr.low[cur]) && (!op.Put? ==> stack == [])
  }

  /** Program counters of a thread that is not carrying a separator. */
  predicate Free(pc: Pc) {
    || pc.Idle? || pc.Begin? || pc.Reading? || pc.Descending? || pc.Done?
    || pc.LeafWait? || pc.LeafHeld? || pc.LeafMove? || pc.LeafOwned? || pc.LeafStore? || pc.LeafPublish?
    || pc.RootEdge? || pc.RootFree? || ((pc.LeafFree? || pc.Firing? || pc.DirFree?) && pc.carry.None?)
  }

  /** What every program counter says about locks and growth. */
  ghost predicate Holding(v: Shared, t: Tid, pc: Pc) {
    && (Free(pc) ==> v.growing != Some(t))
    && (AtNode(pc) ==> Owns(v.locks, t, pc.cur) && pc.cur in v.tree.low)
    && (AtRoot(pc) ==> Owns(v.locks, t, v.rootPtr) && (v.appending <==> pc.RootEdge?))
  }

  /** What a thread on its way to a leaf, or at it, knows besides. */
  ghost predicate LeafPart(v: Shared, t: Tid, pc: Pc)
    requires LeafPhase(pc)
  {
    && LeafTarget(v.tree, v.hidden, pc.op, if pc.LeafMove? then pc.next else pc.cur, pc.stack)
    && (pc.LeafOwned? || pc.LeafStore? || pc.LeafPublish? ==> Current(v.tree, pc.cur, pc.n, pc.op.key))
    && (pc.LeafStore? || pc.LeafPublish? ==> LeafFull(pc.op, pc.n, v.max, pc.root))
    && (pc.LeafPublish? ==> LeafStored(v, t, pc.op, pc.n, pc.q))
  }

  /** The same for a thread on its way to a directory, or at it. */
  ghost predicate DirPart(v: Shared, t: Tid, pc: Pc)
    requires DirPhase(pc)
  {
    && DirTarget(v.tree, v.pend, v.growing, v.root, t, pc.c, if pc.DirMove? then pc.next else pc.cur)
    && (pc.DirOwned? || pc.DirStore? || pc.DirPublish? ==> Current(v.tree, pc.cur, pc.n, pc.c.sep))
    && (pc.DirStore? || pc.DirPublish? ==> DirFull(pc.c, pc.n, v.max, pc.root))
    && (pc.DirPublish? ==> DirStored(v, t, pc.c, pc.n, pc.q))
  }

  ghost predicate PcOk(v: Shared, t: Tid, pc: Pc) {
    && !pc.Fault? && Holding(v, t, pc) && (LeafPhase(pc) ==> LeafPart(v, t, pc)) && (DirPhase(pc) ==> DirPart(v, t, pc))
    && (pc.Reading? ==> ReadingOk(v.tree, pc.op, pc.cur))
    && (pc.Descending? ==> DescendingOk(v.tree, v.hidden, pc.op, pc.cur, pc.stack))
    && (pc.Firing? ==> FiringOk(v.hot, t, pc.op, pc.event, pc.carry))
    && (pc.LeafFree? && pc.carry.Some? ==> pc.res == None)
    && ((pc.Firing? || pc.LeafFree? || pc.DirFree?) && pc.carry.Some? ==> pc.carry.value.op == pc.op)
    && ((pc.Firing? || pc.LeafFree?) && pc.carry.Some? ==> Splitting(v, t, pc.cur, pc.carry.value))
    && (pc.DirFree? && pc.carry.Some? ==> RisingOk(v.tree, v.pend, v.growing, v.root, t, pc.carry.value))
    && (pc.Rising? ==> RisingOk(v.tree, v.pend, v.growing, v.root, t, pc.c))
    && (pc.RootWait? || pc.RootStore? || pc.RootPublish? ==>
          pc.c.root && CarryOk(v.tree, v.pend, v.growing, v.root, t, pc.c))
    && (pc.RootPublish? ==> Stored(v, t, pc.q, RootNode(pc.c.left, pc.c.right, pc.c.sep)) && pc.q != pc.c.right)
    && (pc.RootEdge? ==> pc.q == v.root && pc.c.level == |v.edges|)
  }

  predicate LeafPhase(pc: Pc) {
    pc.LeafWait? || pc.LeafHeld? || pc.LeafMove? || pc.LeafOwned? || pc.LeafStore? || pc.LeafPublish?
  }

  predicate DirPhase(pc: Pc) {
    pc.DirWait? || pc.DirHeld? || pc.DirMove? || pc.DirOwned? || pc.DirStore? || pc.DirPublish?
  }

  /** `n` is the content of `cur`, which covers `key`. */
  ghost predicate Current(tr: Tree, cur: Recid, n: Node, key: Key) {
    cur in tr.nodes && tr.nodes[cur] == n && Covers(tr, cur, key)
  }

  ghost predicate LeafStored(v: Shared, t: Tid, op: Op, n: Node, q: Recid) {
    && Wellformed(n) && |NewKeys(op, n)| == |NewVals(op, n)| >= 2
    && Stored(v, t, q, LeafRight(n, NewKeys(op, n), NewVals(op, n)))
  }

  ghost predicate DirStored(v: Shared, t: Tid, c: Carry, n: Node, q: Recid) {
    Splittable(n, c.sep) && Stored(v, t, q, DirRight(WithChild(n, c.sep, c.right))) && q != c.right
  }

  // ---------- the shared state ----------

  ghost predicate TreePart(v: Shared) {
    && v.max >= 4
    && TreeOk(v.tree, v.pend.Keys, v.max)
    && v.rootPtr !in v.tree.nodes && 0 !in v.tree.nodes
    && v.pend.Keys <= v.tree.nodes.Keys
  }

  ghost predicate EdgeOk(v: Shared, i: nat)
    requires i < |v.edges|
  {
    var r := v.edges[i];
    r in v.tree.low && r in v.tree.level && v.tree.low[r] == NegInf && v.tree.level[r] == i
  }

  ghost predicate ShapedIsRoot(v: Shared, r: Recid)
    requires r in v.tree.nodes
  {
    RootShaped(v.tree.nodes[r]) ==> r == v.root && v.growing.None?
  }

  ghost predicate RootPart(v: Shared) {
    && v.root in v.roots && v.root in v.tree.nodes
    && (forall r :: r in v.roots ==> r in v.tree.low && r in v.tree.level && v.tree.low[r] == NegInf && r !in v.pend)
    && (forall r :: r in v.tree.level ==> v.tree.level[r] <= v.tree.level[v.root])
    && |v.edges| == v.tree.level[v.root] + (if v.appending then 0 else 1)
    && |v.edges| >= 1
    && (forall i {:trigger EdgeOk(v, i)} :: 0 <= i < |v.edges| ==> EdgeOk(v, i))
    && (forall r {:trigger ShapedIsRoot(v, r)} :: r in v.tree.low && r in v.tree.nodes ==> ShapedIsRoot(v, r))
    && (v.appending ==> v.rootPtr in v.locks)
  }

  ghost predicate HiddenOk(v: Shared, q: Recid)
    requires q in v.hidden
  {
    && Owns(v.pend, v.hidden[q], q)
    && q in v.tree.low && v.tree.low[q].Fin? && q in v.tree.level && v.tree.level[q] == 0 && q !in v.locks
    && (forall r :: r in v.tree.low && r in v.tree.nodes && v.tree.nodes[r].link == q ==> Owns(v.locks, v.hidden[q], r))
  }

  ghost predicate HiddenPart(v: Shared) {
    forall q {:trigger HiddenOk(v, q)} :: q in v.hidden ==> HiddenOk(v, q)
  }

  ghost predicate LockPart(v: Shared) {
    forall r :: r in v.locks ==> r in v.tree.low || r == v.rootPtr
  }

  /** The leaf covering a key with an unreported change is locked or hidden by the thread that changed it. */
  ghost predicate HotOk(v: Shared, k: Key)
    requires k in v.hot
  {
    && v.hot[k].event.key == k
    && forall r :: Covers(v.tree, r, k) && r in v.tree.level && v.tree.level[r] == 0 ==>
         Owns(v.locks, v.hot[k].who, r) || Owns(v.hidden, v.hot[k].who, r)
  }

  ghost predicate HotPart(v: Shared) {
    forall k {:trigger HotOk(v, k)} :: k in v.hot ==> HotOk(v, k)
  }

  /** The events of one key, in order. */
  function ForKey(es: seq<Event>, k: Key): seq<Event> {
    if es == [] then []
    else
      var e := es[|es| - 1];
      ForKey(es[..|es| - 1], k) + (if e.key == k then [e] else [])
  }

  /** The published change of `k` whose listeners have not run. */
  function Unfired(hot: map<Key, Hot>, k: Key): seq<Event> {
    if k in hot then [hot[k].event] else []
  }

  /** For one key, listeners have seen its published changes, in order, except perhaps the last. */
  ghost predicate KeyInOrder(v: Shared, k: Key) {
    ForKey(v.pubs, k) == ForKey(v.events, k) + Unfired(v.hot, k)
  }

  ghost predicate EventPart(v: Shared) {
    forall k {:trigger KeyInOrder(v, k)} :: KeyInOrder(v, k)
  }

  ghost predicate Parts(v: Shared) {
    TreePart(v) && RootPart(v) && HiddenPart(v) && LockPart(v) && HotPart(v) && EventPart(v)
  }

  /** Unless a thread is growing the tree, the root node spans its whole level. */
  ghost predicate SharedOk(v: Shared) {
    match v.growing
    case None => Parts(v) && RootShaped(v.tree.nodes[v.root])
    case Some(_) => Parts(v)
  }

  // ---------- owners ----------

  /** The splitter has not released the left half of `q` yet. */
  predicate Hides(pc: Pc, q: Recid) {
    (pc.Firing? || pc.LeafFree?) && pc.carry.Some? && pc.carry.value.right == q
  }

  predicate Fires(pc: Pc, e: Event) {
    pc.Firing? && pc.event == e
  }

  /** Whatever the shared state says `t` owns, its program counter accounts for. */
  ghost predicate Accounts(v: Shared, t: Tid, pc: Pc) {
    && (forall r: Recid :: Owns(v.locks, t, r) ==> Held(v, pc) == Some(r))
    && (forall q: Recid :: Owns(v.hidden, t, q) ==> Hides(pc, q))
    && (forall k :: k in v.hot && v.hot[k].who == t ==> Fires(pc, v.hot[k].event))
  }

  ghost predicate Thread(v: Shared, t: Tid, pc: Pc) {
    PcOk(v, t, pc) && Accounts(v, t, pc)
  }

  /** Every owner is one of the threads. */
  ghost predicate OwnersKnown(v: Shared, ts: set<Tid>) {
    && v.locks.Values <= ts && v.hidden.Values <= ts
    && (forall k :: k in v.hot ==> v.hot[k].who in ts)
    && (v.growing.Some? ==> v.growing.value in ts)
  }

  ghost predicate Inv(s: State) {
    match s
    case State(v, pcs) =>
      && SharedOk(v) && OwnersKnown(v, pcs.Keys)
      && forall t {:trigger Thread(v, t, pcs[t])} :: t in pcs ==> Thread(v, t, pcs[t])
  }

  // ---------- what a step of `t` guarantees to the others ----------

  /** Other threads own exactly what they owned. */
  ghost predicate OthersKeep(m: map<Recid, Tid>, m': map<Recid, Tid>, t: Tid) {
    forall u, r {:trigger Owns(m, u, r)} {:trigger Owns(m', u, r)} :: u != t ==> (Owns(m, u, r) <==> Owns(m', u, r))
  }

  ghost predicate Guarantee(v: Shared, v': Shared, t: Tid) {
    && v'.max == v.max && v'.rootPtr == v.rootPtr
    && Extends(v.tree, v'.tree)
    && (forall r :: r in v'.tree.low && r !in v.tree.low ==> Owns(v.pend, t, r))
    && (forall r :: r in v.tree.nodes ==>
          r in v'.tree.nodes && (Owns(v.locks, t, r) || v'.tree.nodes[r] == v.tree.nodes[r]))
    && OthersKeep(v.locks, v'.locks, t) && OthersKeep(v.pend, v'.pend, t) && OthersKeep(v.hidden, v'.hidden, t)
    && (forall q :: q in v'.hidden && q !in v.hidden ==> q !in v.tree.low)
    && (forall k :: k in v.hot && v.hot[k].who != t ==> k in v'.hot && v'.hot[k] == v.hot[k])
    && (forall k :: k in v'.hot && v'.hot[k].who != t ==> k in v.hot && v'.hot[k] == v.hot[k])
    && (forall u :: u != t ==> (v.growing == Some(u) <==> v'.growing == Some(u)))
    && (v.growing.Some? && v.growing.value != t ==> v'.root == v.root)
    && (v.rootPtr in v.locks && v.locks[v.rootPtr] != t ==>
          v'.root == v.root && v'.edges == v.edges && v'.appending == v.appending)
  }

  /** A thread holds locks only on published nodes, none of them hidden, or on the root pointer. */
  ghost predicate HeldPublished(v: Shared, t: Tid) {
    v.rootPtr !in v.tree.nodes && forall r: Recid :: Owns(v.locks, t, r) ==> (r in v.tree.low || r == v.rootPtr) && r !in v.hidden
  }

  lemma HeldIsPublished(v: Shared, t: Tid)
    requires SharedOk(v)
    ensures HeldPublished(v, t)
  {
    forall r: Recid | Owns(v.locks, t, r) ensures r !in v.hidden {
      assert r in v.hidden ==> HiddenOk(v, r);
    }
  }

  lemma StackStable(tr: Tree, tr': Tree, stack: seq<Recid>, lvl: nat, b: Bound)
    requires Extends(tr, tr')
    ensures StackOk(tr, stack, lvl, b) ==> StackOk(tr', stack, lvl, b)
  {
  }

  lemma LeafStable(v: Shared, v': Shared, t: Tid, op: Op, cur: Recid, stack: seq<Recid>)
    requires Guarantee(v, v', t) && LeafTarget(v.tree, v.hidden, op, cur, stack)
    ensures LeafTarget(v'.tree, v'.hidden, op, cur, stack)
  {
    StackStable(v.tree, v'.tree, stack, 0, v.tree.low[cur]);
  }

  /** A node locked by another thread keeps its content and its interval. */
  lemma CurrentStable(v: Shared, v': Shared, t: Tid, u: Tid, cur: Recid, n: Node, key: Key)
    requires Guarantee(v, v', t) && u != t && Owns(v.locks, u, cur) && Current(v.tree, cur, n, key)
    ensures Current(v'.tree, cur, n, key)
  {
  }

  lemma StoredStable(v: Shared, v': Shared, t: Tid, u: Tid, q: Recid, n: Node)
    requires Guarantee(v, v', t) && u != t && Stored(v, u, q, n) && HeldPublished(v, t)
    ensures Stored(v', u, q, n)
  {
  }

  lemma CarryStable(v: Shared, v': Shared, t: Tid, u: Tid, c: Carry)
    requires Guarantee(v, v', t) && u != t && CarryOk(v.tree, v.pend, v.growing, v.root, u, c)
    ensures CarryOk(v'.tree, v'.pend, v'.growing, v'.root, u, c)
  {
  }

  lemma RisingStable(v: Shared, v': Shared, t: Tid, u: Tid, c: Carry)
    requires Guarantee(v, v', t) && u != t && RisingOk(v.tree, v.pend, v.growing, v.root, u, c)
    ensures RisingOk(v'.tree, v'.pend, v'.growing, v'.root, u, c)
  {
    CarryStable(v, v', t, u, c);
    StackStable(v.tree, v'.tree, c.stack, c.level - 1, v.tree.low[c.left]);
  }

  lemma DirStable(v: Shared, v': Shared, t: Tid, u: Tid, c: Carry, cur: Recid)
    requires Guarantee(v, v', t) && u != t && DirTarget(v.tree, v.pend, v.growing, v.root, u, c, cur)
    ensures DirTarget(v'.tree, v'.pend, v'.growing, v'.root, u, c, cur)
  {
    CarryStable(v, v', t, u, c);
    StackStable(v.tree, v'.tree, c.stack, c.level, v.tree.low[cur]);
  }

  lemma SplittingStable(v: Shared, v': Shared, t: Tid, u: Tid, cur: Recid, c: Carry)
    requires Guarantee(v, v', t) && u != t && Splitting(v, u, cur, c)
    ensures Splitting(v', u, cur, c)
  {
    RisingStable(v, v', t, u, c);
  }

  lemma HoldingStable(v: Shared, v': Shared, t: Tid, u: Tid, pc: Pc)
    requires u != t && Holding(v, u, pc) && Guarantee(v, v', t)
    ensures Holding(v', u, pc) && v'.max == v.max
  {
  }

  /** Whatever another thread knows survives a step of `t`. */
  lemma Stable(v: Shared, v': Shared, t: Tid, u: Tid, pc: Pc)
    requires u != t && PcOk(v, u, pc) && Guarantee(v, v', t) && HeldPublished(v, t)
    ensures PcOk(v', u, pc)
  {
    if LeafPhase(pc) {
      StableLeaf(v, v', t, u, pc);
    } else if DirPhase(pc) {
      StableDir(v, v', t, u, pc);
    } else if pc.Descending? {
      StackStable(v.tree, v'.tree, pc.stack, v.tree.level[pc.cur], v.tree.low[pc.cur]);
    } else if pc.Firing? {
      StableFiring(v, v', t, u, pc);
    } else if pc.LeafFree? || pc.DirFree? {
      StableFree(v, v', t, u, pc);
    } else if pc.Rising? {
      StableRising(v, v', t, u, pc);
    } else if pc.RootWait? || pc.RootStore? || pc.RootPublish? {
      CarryStable(v, v', t, u, pc.c);
      if pc.RootPublish? {
        StoredStable(v, v', t, u, pc.q, RootNode(pc.c.left, pc.c.right, pc.c.sep));
      }
    }
  }

  lemma LeafPartIs(v: Shared, t: Tid, pc: Pc)
    requires LeafPhase(pc)
    ensures PcOk(v, t, pc) <==> Holding(v, t, pc) && LeafPart(v, t, pc)
  {
    hide LeafTarget, LeafFull, LeafStored, Current, Owns;
  }

  lemma StableLeaf(v: Shared, v': Shared, t: Tid, u: Tid, pc: Pc)
    requires u != t && PcOk(v, u, pc) && Guarantee(v, v', t) && HeldPublished(v, t) && LeafPhase(pc)
    ensures PcOk(v', u, pc)
  {
    hide PcOk, Guarantee, StackOk, HeldPublished, LeafTarget;
    LeafPartIs(v, u, pc);
    LeafPartIs(v', u, pc);
    HoldingStable(v, v', t, u, pc);
    LeafStable(v, v', t, pc.op, if pc.LeafMove? then pc.next else pc.cur, pc.stack);
    if pc.LeafOwned? || pc.LeafStore? || pc.LeafPublish? {
      CurrentStable(v, v', t, u, pc.cur, pc.n, pc.op.key);
    }
    if pc.LeafPublish? {
      StoredStable(v, v', t, u, pc.q, LeafRight(pc.n, NewKeys(pc.op, pc.n), NewVals(pc.op, pc.n)));
    }
  }

  lemma DirPartIs(v: Shared, t: Tid, pc: Pc)
    requires DirPhase(pc)
    ensures PcOk(v, t, pc) <==> Holding(v, t, pc) && DirPart(v, t, pc)
  {
    hide DirTarget, DirFull, DirStored, Current, Owns;
  }

  lemma StableDir(v: Shared, v': Shared, t: Tid, u: Tid, pc: Pc)
    requires u != t && PcOk(v, u, pc) && Guarantee(v, v', t) && HeldPublished(v, t) && DirPhase(pc)
    ensures PcOk(v', u, pc)
  {
    hide PcOk, Guarantee, StackOk, HeldPublished, DirTarget;
    DirPartIs(v, u, pc);
    DirPartIs(v', u, pc);
    HoldingStable(v, v', t, u, pc);
    DirStable(v, v', t, u, pc.c, if pc.DirMove? then pc.next else pc.cur);
    if pc.DirOwned? || pc.DirStore? || pc.DirPublish? {
      CurrentStable(v, v', t, u, pc.cur, pc.n, pc.c.sep);
    }
    if pc.DirPublish? {
      StoredStable(v, v', t, u, pc.q, DirRight(WithChild(pc.n, pc.c.sep, pc.c.right)));
    }
  }

  lemma StableRising(v: Shared, v': Shared, t: Tid, u: Tid, pc: Pc)
    requires u != t && PcOk(v, u, pc) && Guarantee(v, v', t) && HeldPublished(v, t) && pc.Rising?
    ensures PcOk(v', u, pc)
  {
    hide Guarantee, StackOk, Extends;
    HoldingStable(v, v', t, u, pc);
    RisingStable(v, v', t, u, pc.c);
  }

  lemma StableFree(v: Shared, v': Shared, t: Tid, u: Tid, pc: Pc)
    requires u != t && PcOk(v, u, pc) && Guarantee(v, v', t) && HeldPublished(v, t) && (pc.LeafFree? || pc.DirFree?)
    ensures PcOk(v', u, pc)
  {
    hide Guarantee, StackOk, Extends;
    HoldingStable(v, v', t, u, pc);
    if pc.carry.Some? && pc.LeafFree? {
      SplittingStable(v, v', t, u, pc.cur, pc.carry.value);
    } else if pc.carry.Some? {
      RisingStable(v, v', t, u, pc.carry.value);
    }
  }

  lemma StableFiring(v: Shared, v': Shared, t: Tid, u: Tid, pc: Pc)
    requires u != t && PcOk(v, u, pc) && Guarantee(v, v', t) && HeldPublished(v, t) && pc.Firing?
    ensures PcOk(v', u, pc)
  {
    hide Guarantee, StackOk, Extends;
    HoldingStable(v, v', t, u, pc);
    FiringStable(v, v', t, u, pc.op, pc.event, pc.carry);
    if pc.carry.Some? {
      SplittingStable(v, v', t, u, pc.cur, pc.carry.value);
    }
  }

  lemma FiringStable(v: Shared, v': Shared, t: Tid, u: Tid, op: Op, e: Event, carry: Option<Carry>)
    requires u != t && FiringOk(v.hot, u, op, e, carry) && Guarantee(v, v', t)
    ensures FiringOk(v'.hot, u, op, e, carry)
  {
  }

  lemma AccountsStable(v: Shared, v': Shared, t: Tid, u: Tid, pc: Pc)
    requires u != t && Accounts(v, u, pc) && Guarantee(v, v', t)
    ensures Accounts(v', u, pc)
  {
  }
}

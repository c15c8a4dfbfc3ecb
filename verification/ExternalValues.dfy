/**
 What holds in every run of a map with external values: every recid in a leaf names a
 live record, which no other leaf slot names; every other record is in the hands of one
 thread; no lookup or writer misses a record; and the map of values is atomic.
 */
module ExternalValues {
  import opened Basics
  import opened BLinkTree
  import opened BLinkMachine
  import opened BLinkInvariant
  import opened BLinkRuns
  import opened BLinkRefinement
  import opened BLinkProgress
  import opened BLinkTheorems
  import opened ExternalMachine

  // ---------- the abstract map ----------

  /** The recid that the leaves hold under `k`. */
  ghost function Slot(w: World, k: Key): Option<Value> {
    Lookup(w.s.v.tree, k)
  }

  ghost function ValueOf(w: World, k: Key): Option<Value> {
    var r := Slot(w, k);
    if r.Some? && r.value in w.recs then Some(w.recs[r.value]) else None
  }

  /** A thread as its caller sees it. A lookup that has found no recid has settled. */
  ghost function XSeen(w: World, t: Tid): Status
    requires t in w.phases && t in w.s.pcs
  {
    match w.phases[t]
    case Resting => Quiet
    case Want(op) => Pending(op)
    case Start(op) => Pending(op)
    case Run(op) => if op.Get? && StatusOf(w.s.v.tree, w.s.pcs[t]) == Settled(op, None) then Settled(op, None) else Pending(op)
    case Expand(op, _) => Pending(op)
    case Have(op, _) => Pending(op)
    case Update(op, _, _) => Pending(op)
    case Alloc(op) => Pending(op)
    case Link(op, _) => Pending(op)
    case Unlink(op, _, _) => Pending(op)
    case Delete(op, _, was) => Settled(op, Some(was))
    case Finish(op, res) => Settled(op, res)
    case Release(op, res) => Settled(op, res)
    case Answer(op, res) => Settled(op, res)
    case Missing => Quiet
  }

  // ---------- invariant ----------

  ghost predicate By(own: map<Value, Tid>, t: Tid, r: Value) {
    r in own && own[r] == t
  }

  ghost predicate Linked(w: World, r: Value) {
    exists k :: Slot(w, k) == Some(r)
  }

  /** A linked recid names a live record that is in nobody's hands. */
  ghost predicate SlotOk(w: World, k: Key) {
    var r := Slot(w, k);
    r.Some? ==> r.value in w.recs && r.value !in w.own
  }

  /** A record has a recid of its own, and is linked or in one thread's hands. */
  ghost predicate RecOk(w: World, r: Value) {
    && r > 0 && r !in w.s.v.tree.nodes && r != w.s.v.rootPtr
    && (r in w.own || Linked(w, r))
  }

  ghost predicate VaultOk(w: World) {
    && (forall k {:trigger Slot(w, k)} :: SlotOk(w, k))
    && (forall k, j {:trigger Slot(w, k), Slot(w, j)} :: Slot(w, k).Some? && Slot(w, k) == Slot(w, j) ==> k == j)
    && (forall r {:trigger RecOk(w, r)} :: r in w.recs ==> RecOk(w, r))
    && w.own.Keys <= w.recs.Keys && (forall r :: r in w.own ==> w.own[r] in w.phases)
    && (w.writer.Some? ==> w.readers == {})
  }

  predicate Reads(ph: Phase) {
    (ph.Start? || ph.Run? || ph.Expand? || ph.Finish? || ph.Release?) && ph.op.Get?
  }

  predicate Bars(ph: Phase) {
    && (ph.Start? || ph.Run? || ph.Have? || ph.Unlink? || ph.Delete? || ph.Finish? || ph.Release?)
    && ph.op.Remove?
  }

  /** The record that only this thread can name. */
  predicate HoldsRec(ph: Phase, r: Value) {
    (ph.Link? || ph.Delete?) && ph.rec == r
  }

  /** The thread has locked the leaf of its key and is about to decide or act. */
  predicate InLeaf(ph: Phase) {
    ph.Have? || ph.Update? || ph.Alloc? || ph.Link? || ph.Unlink?
  }

  /** Searching: no leaf is locked, or the leaf is locked and nothing is decided. */
  predicate Searches(op: Op, pc: Pc) {
    if op.Get? then (pc.Begin? || pc.Reading? || pc.Done?) && pc.op == op
    else
      && (pc.Begin? || pc.Descending? || pc.LeafWait? || pc.LeafHeld? || pc.LeafMove? || pc.LeafOwned?)
      && pc.op == Search(op)
  }

  /** The tree has done its part of the call, or has nothing to do for it. */
  ghost predicate Past(tr: Tree, pc: Pc) {
    StatusOf(tr, pc).Settled? || (pc.LeafOwned? && Wellformed(pc.n) && !Mutates(pc.op, LeafGet(pc.n, pc.op.key)))
  }

  /** What the locked leaf says about the key. */
  ghost predicate LeafSays(pc: Pc, op: Op, treeOp: Op, rec: Option<Value>) {
    && (pc.LeafOwned? || pc.LeafStore? || pc.LeafPublish?)
    && pc.op == treeOp && treeOp.key == op.key && Wellformed(pc.n) && LeafGet(pc.n, op.key) == rec
  }

  ghost predicate PhaseOk(w: World, t: Tid)
    requires t in w.phases && t in w.s.pcs
  {
    var pc := w.s.pcs[t];
    match w.phases[t]
    case Resting => pc.Idle?
    case Want(op) => pc.Idle? && Barred(op)
    case Start(op) => pc.Idle?
    case Run(op) => Searches(op, pc) && (op.Get? && pc.Done? && pc.res.Some? ==> Slot(w, op.key) == pc.res)
    case Expand(op, rec) => op.Get? && pc.Done? && pc.op == op && Slot(w, op.key) == Some(rec)
    case Have(op, rec) => !op.Get? && pc.LeafOwned? && LeafSays(pc, op, Search(op), Some(rec))
    case Update(op, rec, was) =>
      && (op.Put? || op.Replace?) && pc.LeafOwned? && LeafSays(pc, op, Search(op), Some(rec))
      && rec in w.recs && w.recs[rec] == was && Mutates(op, Some(was))
    case Alloc(op) => op.Put? && pc.LeafOwned? && LeafSays(pc, op, Search(op), None)
    case Link(op, rec) =>
      && op.Put? && LeafSays(pc, op, Put(op.key, rec, true), None)
      && By(w.own, t, rec) && rec in w.recs && w.recs[rec] == op.value
    case Unlink(op, rec, was) =>
      && op.Remove? && pc.LeafOwned? && LeafSays(pc, op, Remove(op.key, Some(rec)), Some(rec))
      && rec in w.recs && w.recs[rec] == was && Mutates(op, Some(was))
    case Delete(op, rec, _) => op.Remove? && pc.Firing? && By(w.own, t, rec)
    case Finish(op, _) => Past(w.s.v.tree, pc)
    case Release(op, _) => pc.Idle? && Barred(op)
    case Answer(_, _) => pc.Idle?
    case Missing => false
  }

  /** The shared state and the phase agree on what a thread holds. */
  ghost predicate Tally(w: World, t: Tid)
    requires t in w.phases
  {
    var ph := w.phases[t];
    && (t in w.readers <==> Reads(ph)) && (w.writer == Some(t) <==> Bars(ph))
    && (forall r :: By(w.own, t, r) <==> HoldsRec(ph, r))
  }

  ghost predicate Fine(w: World, t: Tid)
    requires t in w.phases && t in w.s.pcs
  {
    PhaseOk(w, t) && Tally(w, t)
  }

  ghost predicate WorldOk(w: World) {
    && Inv(w.s) && VaultOk(w) && w.phases.Keys == w.s.pcs.Keys
    && w.readers <= w.phases.Keys && (w.writer.Some? ==> w.writer.value in w.phases)
    && (forall t {:trigger Fine(w, t)} :: t in w.phases ==> Fine(w, t))
  }

  // ---------- what the tree does in one step ----------

  /** A thread that has locked its leaf knows what the whole tree says about its key. */
  lemma OwnedSlot(s: State, t: Tid)
    requires Inv(s) && t in s.pcs && (s.pcs[t].LeafOwned? || s.pcs[t].LeafStore? || s.pcs[t].LeafPublish?)
    ensures var pc := s.pcs[t]; Wellformed(pc.n) && Lookup(s.v.tree, pc.op.key) == LeafGet(pc.n, pc.op.key)
  {
    hide HiddenPart, LockPart, HotPart, EventPart, Accounts, NodeOk, StackOk;
    assert Thread(s.v, t, s.pcs[t]);
    var pc := s.pcs[t];
    OwnedLookup(s.v, pc.op, pc.cur, pc.n);
  }

  /** Only publishing a leaf changes what the tree says. */
  lemma TreeSilent(s: State, t: Tid, x: Choice)
    requires Inv(s) && Can(s, t, x) && !s.pcs[t].LeafPublish?
    requires s.pcs[t].LeafOwned? ==> Wellformed(s.pcs[t].n) && !Mutates(s.pcs[t].op, LeafGet(s.pcs[t].n, s.pcs[t].op.key))
    ensures forall k :: Lookup(Next(s, t, x).v.tree, k) == Lookup(s.v.tree, k)
  {
    hide SharedOk, PcOk, Accounts, Lookup, Step, CanMove, StatusOf;
    var v, pc := s.v, s.pcs[t];
    assert Thread(v, t, pc);
    if AboveLeaves(pc) {
      AboveAtomic(v, t, pc, x);
      AboveKeepsStatus(v, t, pc, x);
      EveryStepGood(v, t, pc, x);
      NotFaulted(Step(v, t, pc, x).v, t, Step(v, t, pc, x).pc);
    } else {
      SameTree(v, t, pc, x);
    }
  }

  lemma SameTree(v: Shared, t: Tid, pc: Pc, x: Choice)
    requires CanMove(v, pc, x) && !AboveLeaves(pc) && !pc.LeafPublish?
    requires pc.LeafOwned? ==> Wellformed(pc.n) && !Mutates(pc.op, LeafGet(pc.n, pc.op.key))
    ensures Step(v, t, pc, x).v.tree == v.tree
  {
  }

  /** The nodes of the tree grow by at most the recid the store has handed out. */
  lemma NodesGrow(v: Shared, t: Tid, pc: Pc, x: Choice)
    requires CanMove(v, pc, x) && v.tree.level.Keys <= v.tree.nodes.Keys
    requires pc.LeafOwned? || pc.LeafPublish? || pc.DirOwned? || pc.DirPublish? ==> pc.cur in v.tree.nodes
    ensures var v' := Step(v, t, pc, x).v;
            v'.rootPtr == v.rootPtr && forall r :: r in v'.tree.nodes ==> r in v.tree.nodes || (Stores(pc) && r == x.recid)
  {
  }

  lemma TreeNodes(s: State, t: Tid, x: Choice)
    requires Inv(s) && Can(s, t, x)
    ensures var v' := Next(s, t, x).v;
            v'.rootPtr == s.v.rootPtr && forall r :: r in v'.tree.nodes ==> r in s.v.tree.nodes || (Stores(s.pcs[t]) && r == x.recid)
  {
    hide Step, CanMove, HiddenPart, LockPart, HotPart, EventPart, Accounts, NodeOk, StackOk, RootPart;
    assert Thread(s.v, t, s.pcs[t]);
    NodesGrow(s.v, t, s.pcs[t], x);
  }

  /** Settling the operation of a thread that has locked its leaf disturbs nobody. */
  lemma AimKeepsInv(s: State, t: Tid, op: Op)
    requires Inv(s) && t in s.pcs && s.pcs[t].LeafOwned? && op.key == s.pcs[t].op.key && !op.Get?
    ensures Inv(s.(pcs := s.pcs[t := Aimed(s.pcs[t], op)]))
  {
    hide SharedOk, OwnersKnown, StackOk;
    var pc := Aimed(s.pcs[t], op);
    assert Thread(s.v, t, s.pcs[t]);
    AimThread(s.v, t, s.pcs[t], op);
    var s' := s.(pcs := s.pcs[t := pc]);
    assert s'.pcs.Keys == s.pcs.Keys;
    forall u | u in s'.pcs ensures Thread(s'.v, u, s'.pcs[u]) {
      assert u != t ==> Thread(s.v, u, s.pcs[u]);
    }
  }

  lemma AimThread(v: Shared, t: Tid, pc: Pc, op: Op)
    requires Thread(v, t, pc) && pc.LeafOwned? && op.key == pc.op.key && !op.Get?
    ensures Thread(v, t, Aimed(pc, op))
  {
    hide StackOk;
  }

  // ---------- what a step leaves alone ----------

  ghost predicate OthersHold(own: map<Value, Tid>, own': map<Value, Tid>, t: Tid) {
    forall u: Tid, r: Value {:trigger By(own, u, r)} {:trigger By(own', u, r)} :: u != t ==> (By(own, u, r) <==> By(own', u, r))
  }

  /** The records that other threads know about, because they hold them or have locked the leaf that links them. */
  ghost predicate Minds(w: World, t: Tid, r: Value) {
    || (r in w.own && w.own[r] != t)
    || exists u :: u in w.s.pcs && u != t && Tends(w, u, r)
  }

  ghost predicate Tends(w: World, u: Tid, r: Value)
    requires u in w.s.pcs
  {
    var pc := w.s.pcs[u];
    (pc.LeafOwned? || pc.LeafStore? || pc.LeafPublish?) && Slot(w, pc.op.key) == Some(r)
  }

  ghost predicate Spares(w: World, w': World, t: Tid) {
    && w'.phases.Keys == w.phases.Keys && w'.s.pcs.Keys == w.s.pcs.Keys
    && (forall u :: u in w.phases && u != t ==> w'.phases[u] == w.phases[u])
    && (forall u :: u in w.s.pcs && u != t ==> w'.s.pcs[u] == w.s.pcs[u])
    && (forall u :: u != t ==> (u in w.readers <==> u in w'.readers))
    && (forall u :: u != t ==> (w.writer == Some(u) <==> w'.writer == Some(u)))
    && OthersHold(w.own, w'.own, t)
    && (forall r {:trigger Minds(w, t, r)} :: Minds(w, t, r) && r in w.recs ==> r in w'.recs && w'.recs[r] == w.recs[r])
    && (w.readers != {} ==> forall k {:trigger Slot(w, k)} {:trigger Slot(w', k)} :: Slot(w, k).Some? ==> Slot(w', k) == Slot(w, k))
    && (forall u :: u in w.s.pcs && u != t ==> StatusOf(w'.s.v.tree, w.s.pcs[u]) == StatusOf(w.s.v.tree, w.s.pcs[u]))
  }

  lemma OthersFine(w: World, w': World, t: Tid, u: Tid)
    requires WorldOk(w) && Spares(w, w', t) && u != t && u in w.phases
    ensures Fine(w', u) && XSeen(w', u) == XSeen(w, u)
  {
    hide Inv, StatusOf, Slot, Mutates, VaultOk, Wellformed;
    assert Fine(w, u);
    var ph, pc := w.phases[u], w.s.pcs[u];
    forall r ensures By(w'.own, u, r) <==> HoldsRec(ph, r) {
      assert By(w.own, u, r) <==> HoldsRec(ph, r);
    }
    if ph.Update? || ph.Unlink? {
      OwnedSlot(w.s, u);
      TendsOwn(w, u, ph.rec);
      assert Minds(w, t, ph.rec);
    }
    if ph.Link? || ph.Delete? {
      assert By(w.own, u, ph.rec);
      assert Minds(w, t, ph.rec);
    }
  }

  lemma TendsOwn(w: World, u: Tid, r: Value)
    requires u in w.s.pcs
    requires var pc := w.s.pcs[u]; (pc.LeafOwned? || pc.LeafStore? || pc.LeafPublish?) && Lookup(w.s.v.tree, pc.op.key) == Some(r)
    ensures Tends(w, u, r)
  {
  }

  // ---------- the effect of a step ----------

  ghost predicate SameValues(w: World, w': World) {
    forall k :: ValueOf(w', k) == ValueOf(w, k)
  }

  /** `op` takes its sequential effect on its key and leaves every other key alone. */
  ghost predicate Takes(w: World, w': World, op: Op, res: Option<Value>) {
    && Performs(op, ValueOf(w, op.key), ValueOf(w', op.key), res)
    && forall k :: k != op.key ==> ValueOf(w', k) == ValueOf(w, k)
  }

  ghost predicate AtomicShift(a: Status, a': Status, w: World, w': World) {
    || (a' == a && SameValues(w, w'))
    || (a.Quiet? && a'.Pending? && SameValues(w, w'))
    || (a.Settled? && a'.Quiet? && SameValues(w, w'))
    || (a.Pending? && a'.Settled? && a'.op == a.op && Takes(w, w', a.op, a'.res))
  }

  /** Everything a step of `t` from `w` to `w'` must establish. */
  ghost predicate StepOk(w: World, t: Tid, w': World)
    requires t in w.phases && t in w.s.pcs
  {
    && Inv(w'.s) && VaultOk(w') && Spares(w, w', t)
    && t in w'.phases && t in w'.s.pcs && Fine(w', t)
    && AtomicShift(XSeen(w, t), XSeen(w', t), w, w')
  }

  ghost predicate SameSlots(w: World, w': World) {
    forall k {:trigger Slot(w, k)} {:trigger Slot(w', k)} :: Slot(w', k) == Slot(w, k)
  }

  /** Records, their owners and what links them stay; new nodes take no recid of a record. */
  lemma VaultMoves(w: World, w': World)
    requires VaultOk(w) && SameSlots(w, w') && w'.recs == w.recs && w'.own == w.own && w'.phases.Keys == w.phases.Keys
    requires w'.s.v.rootPtr == w.s.v.rootPtr && forall r :: r in w.recs ==> r !in w'.s.v.tree.nodes
    requires w'.writer.Some? ==> w'.readers == {}
    ensures VaultOk(w') && SameValues(w, w')
  {
    hide Slot;
    forall k ensures SlotOk(w', k) {
      assert SlotOk(w, k);
    }
    forall k, j | Slot(w', k).Some? && Slot(w', k) == Slot(w', j) ensures k == j {
      assert Slot(w, k) == Slot(w, j);
    }
    forall r | r in w'.recs ensures RecOk(w', r) {
      assert RecOk(w, r);
      if r !in w.own {
        var k :| Slot(w, k) == Some(r);
        assert Slot(w', k) == Some(r);
      }
    }
  }

  // ---------- steps that only move the phase ----------

  /** Only the phase of `t` and its side of the barrier change. */
  ghost predicate PhaseMoves(w: World, w': World, t: Tid) {
    && w'.s == w.s && w'.recs == w.recs && w'.own == w.own && t in w.phases
    && w'.phases.Keys == w.phases.Keys && (forall u :: u in w.phases && u != t ==> w'.phases[u] == w.phases[u])
    && (forall u :: u != t ==> (u in w.readers <==> u in w'.readers))
    && (forall u :: u != t ==> (w.writer == Some(u) <==> w'.writer == Some(u)))
    && (w'.writer.Some? ==> w'.readers == {})
  }

  lemma PhaseSpares(w: World, w': World, t: Tid)
    requires PhaseMoves(w, w', t)
    ensures Spares(w, w', t) && SameSlots(w, w')
  {
    hide Minds, StatusOf;
  }

  lemma PhaseVault(w: World, w': World, t: Tid)
    requires VaultOk(w) && PhaseMoves(w, w', t)
    ensures VaultOk(w') && SameValues(w, w') && Spares(w, w', t)
  {
    hide VaultOk, Spares, SameValues;
    PhaseSpares(w, w', t);
    RecsApart(w);
    VaultMoves(w, w');
  }

  lemma RecsApart(w: World)
    requires VaultOk(w)
    ensures forall r :: r in w.recs ==> r > 0 && r !in w.s.v.tree.nodes && r != w.s.v.rootPtr
  {
    forall r | r in w.recs ensures r > 0 && r !in w.s.v.tree.nodes && r != w.s.v.rootPtr {
      assert RecOk(w, r);
    }
  }

  /** Beginning and returning from a call touch nothing but the phase. */
  lemma GoodQuiet(w: World, t: Tid, x: Pick)
    requires WorldOk(w) && Ready(w, t, x) && (w.phases[t].Resting? || w.phases[t].Answer?)
    ensures StepOk(w, t, Turn(w, t, x))
  {
    hide Inv, VaultOk, Spares, SameValues, Slot, StatusOf;
    assert Fine(w, t);
    var w' := Turn(w, t, x);
    BarrierFree(w, t);
    PhaseVault(w, w', t);
  }

  lemma GoodBarrier(w: World, t: Tid, x: Pick)
    requires WorldOk(w) && Ready(w, t, x) && (w.phases[t].Want? || w.phases[t].Release?)
    ensures StepOk(w, t, Turn(w, t, x))
  {
    hide Inv, VaultOk, Spares, SameValues, Slot, StatusOf;
    assert Fine(w, t);
    var w' := Turn(w, t, x);
    BarrierFree(w, t);
    PhaseVault(w, w', t);
  }

  lemma BarrierFree(w: World, t: Tid)
    requires VaultOk(w)
    ensures w.writer.Some? ==> w.readers == {}
  {
  }

  /** What a thread in its leaf knows about the key's slot, record and value. */
  lemma LeafKnows(w: World, t: Tid)
    requires WorldOk(w) && t in w.phases && w.s.pcs[t].LeafOwned?
    ensures var pc := w.s.pcs[t];
            && Wellformed(pc.n) && Slot(w, pc.op.key) == LeafGet(pc.n, pc.op.key)
            && (LeafGet(pc.n, pc.op.key).Some? ==>
                  var rec := LeafGet(pc.n, pc.op.key).value;
                  rec > 0 && rec in w.recs && rec !in w.own && ValueOf(w, pc.op.key) == Some(w.recs[rec]))
            && (LeafGet(pc.n, pc.op.key).None? ==> ValueOf(w, pc.op.key) == None)
  {
    hide Inv;
    OwnedSlot(w.s, t);
    var k := w.s.pcs[t].op.key;
    assert SlotOk(w, k);
    RecsApart(w);
  }

  lemma GoodFound(w: World, t: Tid, x: Pick)
    requires WorldOk(w) && Ready(w, t, x) && w.phases[t].Run? && w.phases[t].op.Get? && w.s.pcs[t].Done?
    ensures StepOk(w, t, Turn(w, t, x))
  {
    hide Inv, VaultOk, Spares, Slot, Lookup, LeafGet, Wellformed, ValueOf;
    assert Fine(w, t);
    var w' := Turn(w, t, x);
    BarrierFree(w, t);
    SlotsOfTree(w, w');
    PhaseVault(w, w', t);
  }

  lemma GoodArrived(w: World, t: Tid, x: Pick)
    requires WorldOk(w) && Ready(w, t, x) && w.phases[t].Run? && !w.phases[t].op.Get? && w.s.pcs[t].LeafOwned?
    ensures StepOk(w, t, Turn(w, t, x))
  {
    hide Inv, VaultOk, Spares, Slot, Lookup, LeafGet, Wellformed, ValueOf;
    assert Fine(w, t);
    var w' := Turn(w, t, x);
    BarrierFree(w, t);
    LeafKnows(w, t);
    PhaseVault(w, w', t);
  }

  lemma GoodExpand(w: World, t: Tid, x: Pick)
    requires WorldOk(w) && Ready(w, t, x) && w.phases[t].Expand?
    ensures StepOk(w, t, Turn(w, t, x))
  {
    hide Inv, Spares, Slot, Lookup;
    assert Fine(w, t);
    assert SlotOk(w, w.phases[t].op.key);
    var w' := Turn(w, t, x);
    hide VaultOk;
    BarrierFree(w, t);
    PhaseVault(w, w', t);
  }

  lemma GoodHave(w: World, t: Tid, x: Pick)
    requires WorldOk(w) && Ready(w, t, x) && w.phases[t].Have?
    requires !(w.phases[t].op.Remove? && w.phases[t].rec in w.recs && Mutates(w.phases[t].op, Some(w.recs[w.phases[t].rec])))
    ensures StepOk(w, t, Turn(w, t, x))
  {
    hide Inv, VaultOk, Spares, Slot, Lookup, LeafGet, Wellformed, ValueOf, StatusOf;
    assert Fine(w, t);
    var w' := Turn(w, t, x);
    BarrierFree(w, t);
    LeafKnows(w, t);
    PhaseVault(w, w', t);
  }

  // ---------- settling what happens to the leaf ----------

  lemma AimSpares(w: World, w': World, t: Tid)
    requires Inv(w.s) && t in w.s.pcs && t in w.phases && w.s.pcs.Keys == w.phases.Keys
    requires w'.s.v == w.s.v && w'.s.pcs.Keys == w.s.pcs.Keys && forall u :: u in w.s.pcs && u != t ==> w'.s.pcs[u] == w.s.pcs[u]
    requires w'.readers == w.readers && w'.writer == w.writer && w'.phases.Keys == w.phases.Keys
    requires (forall u :: u in w.phases && u != t ==> w'.phases[u] == w.phases[u]) && OthersHold(w.own, w'.own, t)
    requires forall r {:trigger Minds(w, t, r)} :: Minds(w, t, r) && r in w.recs ==> r in w'.recs && w'.recs[r] == w.recs[r]
    ensures Spares(w, w', t)
  {
    hide Inv, StatusOf, Minds;
  }

  lemma GoodUnlinking(w: World, t: Tid, x: Pick)
    requires WorldOk(w) && Ready(w, t, x) && w.phases[t].Have?
    requires w.phases[t].op.Remove? && w.phases[t].rec in w.recs && Mutates(w.phases[t].op, Some(w.recs[w.phases[t].rec]))
    ensures StepOk(w, t, Turn(w, t, x))
  {
    hide Inv, VaultOk, Spares, Slot, Lookup, LeafGet, Wellformed, ValueOf, StatusOf, Mutates;
    assert Fine(w, t);
    var w', ph := Turn(w, t, x), w.phases[t];
    AimKeepsInv(w.s, t, Remove(ph.op.key, Some(ph.rec)));
    BarrierFree(w, t);
    RecsApart(w);
    SlotsOfTree(w, w');
    VaultMoves(w, w');
    AimSpares(w, w', t);
  }

  lemma SlotsOfTree(w: World, w': World)
    requires w'.s.v == w.s.v
    ensures SameSlots(w, w')
  {
  }

  // ---------- steps of the tree that publish no leaf ----------

  /** The tree of `w'` is one step of `t` further; the phases of the others stay. */
  ghost predicate TreeMoves(w: World, w': World, t: Tid, x: Choice) {
    && TreeCan(w, t, x) && w'.s == Next(w.s, t, x) && w'.recs == w.recs
    && w'.readers == w.readers && w'.writer == w.writer
    && t in w.phases && w'.phases.Keys == w.phases.Keys && (forall u :: u in w.phases && u != t ==> w'.phases[u] == w.phases[u])
  }

  lemma OthersStatus(w: World, w': World, t: Tid, x: Choice)
    requires Inv(w.s) && TreeMoves(w, w', t, x)
    ensures Inv(w'.s) && w'.s.pcs.Keys == w.s.pcs.Keys
    ensures forall u :: u in w.s.pcs && u != t ==> w'.s.pcs[u] == w.s.pcs[u]
    ensures forall u :: u in w.s.pcs && u != t ==> StatusOf(w'.s.v.tree, w.s.pcs[u]) == StatusOf(w.s.v.tree, w.s.pcs[u])
  {
    hide SharedOk, PcOk, Accounts, OwnersKnown, Guarantee, StatusOf, Step, CanMove;
    StepKeepsInv(w.s, t, x);
    assert Thread(w.s.v, t, w.s.pcs[t]);
    EveryStepGood(w.s.v, t, w.s.pcs[t], x);
    forall u | u in w.s.pcs && u != t ensures StatusOf(w'.s.v.tree, w.s.pcs[u]) == StatusOf(w.s.v.tree, w.s.pcs[u]) {
      assert Thread(w.s.v, u, w.s.pcs[u]);
      OthersUnmoved(w.s.v, w'.s.v, t, u, w.s.pcs[u]);
    }
  }

  /** The node recids of the tree stay apart from the records. */
  lemma StaysApart(w: World, w': World, t: Tid, x: Choice)
    requires Inv(w.s) && VaultOk(w) && TreeMoves(w, w', t, x)
    ensures w'.s.v.rootPtr == w.s.v.rootPtr && forall r :: r in w.recs ==> r !in w'.s.v.tree.nodes
  {
    hide Inv, Next, CanMove;
    TreeNodes(w.s, t, x);
    RecsApart(w);
  }

  lemma TreeSteady(w: World, w': World, t: Tid, x: Choice)
    requires WorldOk(w) && TreeMoves(w, w', t, x) && w'.own == w.own && SameSlots(w, w')
    ensures Inv(w'.s) && VaultOk(w') && Spares(w, w', t) && SameValues(w, w') && t in w'.s.pcs
  {
    hide Inv, VaultOk, Next, CanMove, StatusOf, Lookup, SameValues, Minds;
    OthersStatus(w, w', t, x);
    StaysApart(w, w', t, x);
    BarrierFree(w, t);
    VaultMoves(w, w');
  }

  lemma TreeQuiet(w: World, w': World, t: Tid, x: Choice)
    requires WorldOk(w) && TreeMoves(w, w', t, x) && w'.own == w.own && !w.s.pcs[t].LeafPublish?
    requires var pc := w.s.pcs[t];
             pc.LeafOwned? ==> Wellformed(pc.n) && !Mutates(pc.op, LeafGet(pc.n, pc.op.key))
    ensures Inv(w'.s) && VaultOk(w') && Spares(w, w', t) && SameValues(w, w') && SameSlots(w, w') && t in w'.s.pcs
  {
    hide Inv, VaultOk, Next, CanMove, StatusOf, Lookup, SameValues, Spares, Wellformed, LeafGet;
    TreeSilent(w.s, t, x);
    assert SameSlots(w, w');
    TreeSteady(w, w', t, x);
  }

  lemma GoodStart(w: World, t: Tid, x: Pick)
    requires WorldOk(w) && Ready(w, t, x) && w.phases[t].Start?
    ensures StepOk(w, t, Turn(w, t, x))
  {
    hide Inv, VaultOk, Spares, SameValues, Slot, ValueOf;
    assert Fine(w, t);
    var w' := Turn(w, t, x);
    TreeQuiet(w, w', t, Choice(Search(w.phases[t].op), x.recid));
  }

  /** Where a search can be after a step, and that it has not failed. */
  lemma SearchMoves(s: State, t: Tid, x: Choice, op: Op)
    requires Inv(s) && Can(s, t, x) && Searches(op, s.pcs[t]) && !Arrived(op, s.pcs[t])
    ensures Searches(op, Next(s, t, x).pcs[t])
  {
    hide SharedOk, PcOk, Accounts, OwnersKnown;
    assert Thread(s.v, t, s.pcs[t]);
    EveryStepGood(s.v, t, s.pcs[t], x);
    NotFaulted(Step(s.v, t, s.pcs[t], x).v, t, Step(s.v, t, s.pcs[t], x).pc);
  }

  /** A lookup settles for what the tree holds under its key at that moment. */
  lemma LookupSettles(s: State, t: Tid, x: Choice, op: Op)
    requires Inv(s) && Can(s, t, x) && op.Get? && Searches(op, s.pcs[t]) && !s.pcs[t].Done?
    ensures var a, a' := StatusOf(s.v.tree, s.pcs[t]), StatusOf(Next(s, t, x).v.tree, Next(s, t, x).pcs[t]);
            if a.Settled? then a' == a else a == Pending(op) && (a' == a || a' == Settled(op, Lookup(s.v.tree, op.key)))
  {
    hide SharedOk, PcOk, Accounts, OwnersKnown, Lookup, Step, CanMove;
    assert Thread(s.v, t, s.pcs[t]);
    StepAtomic(s.v, t, s.pcs[t], x);
    SearchMoves(s, t, x, op);
  }

  lemma GoodSearch(w: World, t: Tid, x: Pick)
    requires WorldOk(w) && Ready(w, t, x) && w.phases[t].Run? && !Arrived(w.phases[t].op, w.s.pcs[t])
    ensures StepOk(w, t, Turn(w, t, x))
  {
    hide Inv, VaultOk, Spares, Next, CanMove, Lookup;
    assert Fine(w, t);
    var w', op, y := Turn(w, t, x), w.phases[t].op, Choice(w.phases[t].op, x.recid);
    SearchMoves(w.s, t, y, op);
    TreeQuiet(w, w', t, y);
    if op.Get? {
      LookupSettles(w.s, t, y, op);
    }
  }

  /** A call that the tree is done with stays done, or returns. */
  lemma PastMoves(s: State, t: Tid, x: Choice)
    requires Inv(s) && Can(s, t, x) && Past(s.v.tree, s.pcs[t])
    ensures var s' := Next(s, t, x); if s.pcs[t].Done? then s'.pcs[t].Idle? else Past(s'.v.tree, s'.pcs[t])
  {
    hide SharedOk, PcOk, Accounts, OwnersKnown, Lookup, CanMove, LeafGet;
    assert Thread(s.v, t, s.pcs[t]);
    var pc := s.pcs[t];
    StepAtomic(s.v, t, pc, x);
    EveryStepGood(s.v, t, pc, x);
    NotFaulted(Step(s.v, t, pc, x).v, t, Step(s.v, t, pc, x).pc);
    OnlyDoneReturns(s.v, t, pc, x);
    if pc.LeafOwned? {
      OwnedSlot(s, t);
    }
  }

  lemma OnlyDoneReturns(v: Shared, t: Tid, pc: Pc, x: Choice)
    requires CanMove(v, pc, x)
    ensures Step(v, t, pc, x).pc.Idle? <==> pc.Done?
  {
  }

  lemma GoodFinish(w: World, t: Tid, x: Pick)
    requires WorldOk(w) && Ready(w, t, x) && w.phases[t].Finish?
    ensures StepOk(w, t, Turn(w, t, x))
  {
    hide Inv, VaultOk, Spares, Next, CanMove, Lookup, Wellformed, LeafGet, Slot, ValueOf, SameValues;
    assert Fine(w, t);
    var w', y := Turn(w, t, x), Choice(w.phases[t].op, x.recid);
    PastMoves(w.s, t, y);
    TreeQuiet(w, w', t, y);
  }

  // ---------- steps that write a record ----------

  /** Nobody else minds the record that the leaf locked by `t` links under its key. */
  lemma NotMinded(w: World, t: Tid, rec: Value)
    requires WorldOk(w) && t in w.phases && w.s.pcs[t].LeafOwned? && Slot(w, w.s.pcs[t].op.key) == Some(rec)
    ensures !Minds(w, t, rec)
  {
    hide Inv, Slot;
    var k := w.s.pcs[t].op.key;
    assert SlotOk(w, k);
    forall u | u in w.s.pcs && u != t ensures !Tends(w, u, rec) {
      if Tends(w, u, rec) {
        assert w.s.pcs[u].op.key == k;
        KeyExclusion(w.s, t, u, k);
      }
    }
  }

  lemma UpdateVault(w: World, w': World, k: Key, rec: Value, value: Value)
    requires VaultOk(w) && Slot(w, k) == Some(rec) && rec in w.recs && w'.s == w.s && w'.recs == w.recs[rec := value]
    requires w'.own == w.own && w'.phases.Keys == w.phases.Keys && w'.readers == w.readers && w'.writer == w.writer
    ensures VaultOk(w') && forall j :: ValueOf(w', j) == if j == k then Some(value) else ValueOf(w, j)
  {
    hide Lookup;
    SlotsOfTree(w, w');
    forall j ensures SlotOk(w', j) && ValueOf(w', j) == if j == k then Some(value) else ValueOf(w, j) {
      assert SlotOk(w, j);
    }
    forall r | r in w'.recs ensures RecOk(w', r) {
      assert RecOk(w, r);
      if r !in w.own {
        var j :| Slot(w, j) == Some(r);
        assert Slot(w', j) == Some(r);
      }
    }
  }

  lemma GoodUpdate(w: World, t: Tid, x: Pick)
    requires WorldOk(w) && Ready(w, t, x) && w.phases[t].Update?
    ensures StepOk(w, t, Turn(w, t, x))
  {
    hide Inv, VaultOk, Spares, Slot, LeafGet, Wellformed, ValueOf, StatusOf;
    assert Fine(w, t);
    var w', ph := Turn(w, t, x), w.phases[t];
    LeafKnows(w, t);
    NotMinded(w, t, ph.rec);
    UpdateVault(w, w', ph.op.key, ph.rec, ph.op.value);
    AimSpares(w, w', t);
    assert Tally(w', t);
    assert PhaseOk(w', t);
  }

  lemma AllocVault(w: World, w': World, t: Tid, rec: Recid, value: Value)
    requires VaultOk(w) && FreshRec(w, rec) && w'.s.v == w.s.v && w'.recs == w.recs[rec := value] && w'.own == w.own[rec := t]
    requires t in w.phases && w'.phases.Keys == w.phases.Keys && w'.readers == w.readers && w'.writer == w.writer
    ensures VaultOk(w') && SameValues(w, w') && OthersHold(w.own, w'.own, t)
  {
    hide Lookup;
    SlotsOfTree(w, w');
    forall j ensures SlotOk(w', j) && ValueOf(w', j) == ValueOf(w, j) {
      assert SlotOk(w, j);
    }
    forall r | r in w'.recs ensures RecOk(w', r) {
      if r != rec {
        assert RecOk(w, r);
        if r !in w.own {
          var j :| Slot(w, j) == Some(r);
          assert Slot(w', j) == Some(r);
        }
      }
    }
  }

  lemma GoodAlloc(w: World, t: Tid, x: Pick)
    requires WorldOk(w) && Ready(w, t, x) && w.phases[t].Alloc?
    ensures StepOk(w, t, Turn(w, t, x))
  {
    hide Inv, VaultOk, Spares, Slot, Lookup, LeafGet, Wellformed, ValueOf, StatusOf, SameValues, Minds, Takes, Mutates, Reply;
    assert Fine(w, t);
    var w', ph := Turn(w, t, x), w.phases[t];
    AimKeepsInv(w.s, t, Put(ph.op.key, x.recid, true));
    AllocVault(w, w', t, x.recid, ph.op.value);
    OwnedLive(w);
    AimSpares(w, w', t);
    forall r ensures By(w'.own, t, r) <==> HoldsRec(w'.phases[t], r) {
      assert By(w.own, t, r) <==> HoldsRec(ph, r);
    }
  }

  lemma OwnedLive(w: World)
    requires VaultOk(w)
    ensures w.own.Keys <= w.recs.Keys
  {
  }

  lemma DeleteVault(w: World, w': World, t: Tid, rec: Value)
    requires VaultOk(w) && By(w.own, t, rec) && w'.s == w.s && w'.recs == w.recs - {rec} && w'.own == w.own - {rec}
    requires w'.phases.Keys == w.phases.Keys && w'.readers == w.readers && w'.writer == w.writer
    ensures VaultOk(w') && SameValues(w, w') && OthersHold(w.own, w'.own, t) && !Minds(w, t, rec)
  {
    hide Lookup;
    SlotsOfTree(w, w');
    forall j ensures SlotOk(w', j) && ValueOf(w', j) == ValueOf(w, j) && Slot(w, j) != Some(rec) {
      assert SlotOk(w, j);
    }
    forall r | r in w'.recs ensures RecOk(w', r) {
      assert RecOk(w, r);
      if r !in w.own {
        var j :| Slot(w, j) == Some(r);
        assert Slot(w', j) == Some(r);
      }
    }
  }

  lemma GoodDelete(w: World, t: Tid, x: Pick)
    requires WorldOk(w) && Ready(w, t, x) && w.phases[t].Delete?
    ensures StepOk(w, t, Turn(w, t, x))
  {
    hide Inv, VaultOk, Spares, Slot, ValueOf, SameValues;
    assert Fine(w, t);
    var w', ph := Turn(w, t, x), w.phases[t];
    DeleteVault(w, w', t, ph.rec);
    AimSpares(w, w', t);
    forall r ensures By(w'.own, t, r) <==> HoldsRec(w'.phases[t], r) {
      assert By(w.own, t, r) <==> HoldsRec(ph, r);
    }
    assert Tally(w', t);
  }

  // ---------- steps that publish a leaf ----------

  /** Only the slot of `k` changes. */
  ghost predicate SlotSet(tr: Tree, tr': Tree, k: Key, x: Option<Value>) {
    forall j :: Lookup(tr', j) == if j == k then x else Lookup(tr, j)
  }

  /** On its way to publishing a new key the tree says nothing new until it holds the recid. */
  lemma LinkMoves(s: State, t: Tid, x: Choice, op: Op, rec: Value)
    requires Inv(s) && Can(s, t, x) && LeafSays(s.pcs[t], op, Put(op.key, rec, true), None)
    ensures var s' := Next(s, t, x);
            t in s'.pcs &&
            if s'.pcs[t].Firing? then SlotSet(s.v.tree, s'.v.tree, op.key, Some(rec))
            else LeafSays(s'.pcs[t], op, Put(op.key, rec, true), None) && forall k :: Lookup(s'.v.tree, k) == Lookup(s.v.tree, k)
    ensures Lookup(s.v.tree, op.key) == None
  {
    hide SharedOk, PcOk, Accounts, OwnersKnown, Lookup, CanMove, LeafGet;
    var pc := s.pcs[t];
    assert Thread(s.v, t, pc);
    OwnedSlot(s, t);
    StepAtomic(s.v, t, pc, x);
    EveryStepGood(s.v, t, pc, x);
    NotFaulted(Step(s.v, t, pc, x).v, t, Step(s.v, t, pc, x).pc);
  }

  lemma UnlinkMoves(s: State, t: Tid, x: Choice, op: Op, rec: Value)
    requires Inv(s) && Can(s, t, x) && s.pcs[t].LeafOwned? && LeafSays(s.pcs[t], op, Remove(op.key, Some(rec)), Some(rec))
    ensures var s' := Next(s, t, x); t in s'.pcs && s'.pcs[t].Firing? && SlotSet(s.v.tree, s'.v.tree, op.key, None)
    ensures Lookup(s.v.tree, op.key) == Some(rec)
  {
    hide SharedOk, PcOk, Accounts, OwnersKnown, Lookup, CanMove, LeafGet;
    var pc := s.pcs[t];
    assert Thread(s.v, t, pc);
    OwnedSlot(s, t);
    EveryStepGood(s.v, t, pc, x);
    var m := Step(s.v, t, pc, x);
    OnlyPutsSplit(m.v, t, m.pc);
    NotFaulted(m.v, t, m.pc);
    StepAtomic(s.v, t, pc, x);
  }

  lemma OnlyPutsSplit(v: Shared, t: Tid, pc: Pc)
    requires PcOk(v, t, pc)
    ensures pc.LeafStore? ==> pc.op.Put?
  {
  }

  lemma LinkVault(w: World, w': World, t: Tid, k: Key, rec: Value)
    requires VaultOk(w) && By(w.own, t, rec) && Slot(w, k) == None && SlotSet(w.s.v.tree, w'.s.v.tree, k, Some(rec))
    requires w'.recs == w.recs && w'.own == w.own - {rec} && w'.phases.Keys == w.phases.Keys
    requires w'.readers == w.readers && w'.writer == w.writer
    requires w'.s.v.rootPtr == w.s.v.rootPtr && forall r :: r in w.recs ==> r !in w'.s.v.tree.nodes
    ensures VaultOk(w') && OthersHold(w.own, w'.own, t) && rec in w.recs
    ensures forall j :: ValueOf(w', j) == if j == k then Some(w.recs[rec]) else ValueOf(w, j)
    ensures forall j :: Slot(w, j).Some? ==> Slot(w', j) == Slot(w, j)
  {
    hide Lookup;
    forall j ensures Slot(w', j) == if j == k then Some(rec) else Slot(w, j) {
    }
    forall j ensures SlotOk(w', j) && (j != k ==> Slot(w', j) != Some(rec)) {
      assert SlotOk(w, j);
    }
    forall i, j | Slot(w', i).Some? && Slot(w', i) == Slot(w', j) ensures i == j {
      assert i != k && j != k ==> Slot(w, i) == Slot(w, j);
    }
    forall r | r in w'.recs ensures RecOk(w', r) {
      assert RecOk(w, r);
      if r == rec {
        assert Slot(w', k) == Some(rec);
      } else if r !in w.own {
        var j :| Slot(w, j) == Some(r);
        assert Slot(w', j) == Some(r);
      }
    }
  }

  lemma TreeSpares(w: World, w': World, t: Tid, x: Choice)
    requires Inv(w.s) && TreeMoves(w, w', t, x) && OthersHold(w.own, w'.own, t)
    requires w.readers != {} ==> forall k {:trigger Slot(w, k)} {:trigger Slot(w', k)} :: Slot(w, k).Some? ==> Slot(w', k) == Slot(w, k)
    ensures Inv(w'.s) && Spares(w, w', t) && t in w'.s.pcs
  {
    hide Inv, Next, CanMove, StatusOf, Slot, Minds;
    OthersStatus(w, w', t, x);
  }

  lemma GoodLink(w: World, t: Tid, x: Pick)
    requires WorldOk(w) && Ready(w, t, x) && w.phases[t].Link?
    ensures StepOk(w, t, Turn(w, t, x))
  {
    hide Inv, VaultOk, Spares, Next, CanMove, Lookup, LeafGet, Wellformed, ValueOf;
    assert Fine(w, t);
    var w', ph, y := Turn(w, t, x), w.phases[t], Choice(w.phases[t].op, x.recid);
    LinkMoves(w.s, t, y, ph.op, ph.rec);
    if Next(w.s, t, y).pcs[t].Firing? {
      assert TreeMoves(w, w', t, y);
      StaysApart(w, w', t, y);
      LinkVault(w, w', t, ph.op.key, ph.rec);
      TreeSpares(w, w', t, y);
      NoneIsNoValue(w, ph.op.key);
      forall r ensures By(w'.own, t, r) <==> HoldsRec(w'.phases[t], r) {
        assert By(w.own, t, r) <==> HoldsRec(ph, r);
      }
      assert PhaseOk(w', t) && Tally(w', t);
    } else {
      assert SameSlots(w, w');
      TreeSteady(w, w', t, y);
    }
  }

  lemma NoneIsNoValue(w: World, k: Key)
    ensures Slot(w, k) == None ==> ValueOf(w, k) == None
  {
  }

  lemma UnlinkVault(w: World, w': World, t: Tid, k: Key, rec: Value)
    requires VaultOk(w) && t in w.phases && Slot(w, k) == Some(rec) && SlotSet(w.s.v.tree, w'.s.v.tree, k, None)
    requires w'.recs == w.recs && w'.own == w.own[rec := t] && w'.phases.Keys == w.phases.Keys
    requires w'.readers == w.readers && w'.writer == w.writer
    requires w'.s.v.rootPtr == w.s.v.rootPtr && forall r :: r in w.recs ==> r !in w'.s.v.tree.nodes
    ensures VaultOk(w') && OthersHold(w.own, w'.own, t) && rec in w.recs && rec !in w.own
    ensures forall j :: ValueOf(w', j) == if j == k then None else ValueOf(w, j)
    ensures ValueOf(w, k) == Some(w.recs[rec])
  {
    hide Lookup;
    forall j ensures Slot(w', j) == if j == k then None else Slot(w, j) {
    }
    assert SlotOk(w, k);
    forall j ensures SlotOk(w', j) && Slot(w', j) != Some(rec) {
      assert SlotOk(w, j);
    }
    forall i, j | Slot(w', i).Some? && Slot(w', i) == Slot(w', j) ensures i == j {
      assert Slot(w, i) == Slot(w, j);
    }
    forall r | r in w'.recs ensures RecOk(w', r) {
      assert RecOk(w, r);
      if r != rec && r !in w.own {
        var j :| Slot(w, j) == Some(r);
        assert Slot(w', j) == Some(r);
      }
    }
  }

  lemma GoodUnlink(w: World, t: Tid, x: Pick)
    requires WorldOk(w) && Ready(w, t, x) && w.phases[t].Unlink?
    ensures StepOk(w, t, Turn(w, t, x))
  {
    hide Inv, VaultOk, Spares, Next, CanMove, Lookup, LeafGet, Wellformed, ValueOf;
    assert Fine(w, t);
    var w', ph, y := Turn(w, t, x), w.phases[t], Choice(w.phases[t].op, x.recid);
    UnlinkMoves(w.s, t, y, ph.op, ph.rec);
    BarrierFree(w, t);
    assert TreeMoves(w, w', t, y);
    StaysApart(w, w', t, y);
    UnlinkVault(w, w', t, ph.op.key, ph.rec);
    TreeSpares(w, w', t, y);
    forall r ensures By(w'.own, t, r) <==> HoldsRec(w'.phases[t], r) {
      assert By(w.own, t, r) <==> HoldsRec(ph, r);
    }
  }

  // ---------- every step ----------

  lemma TurnOk(w: World, t: Tid, x: Pick)
    requires WorldOk(w) && Ready(w, t, x)
    ensures StepOk(w, t, Turn(w, t, x))
  {
    hide Inv, VaultOk, StepOk, Turn, Mutates, PhaseOk, Tally;
    assert Fine(w, t);
    match w.phases[t]
    case Resting => GoodQuiet(w, t, x);
    case Want(_) => GoodBarrier(w, t, x);
    case Start(_) => GoodStart(w, t, x);
    case Run(op) =>
      if Arrived(op, w.s.pcs[t]) && op.Get? {
        GoodFound(w, t, x);
      } else if Arrived(op, w.s.pcs[t]) {
        GoodArrived(w, t, x);
      } else {
        GoodSearch(w, t, x);
      }
    case Expand(_, _) => GoodExpand(w, t, x);
    case Have(op, rec) =>
      if op.Remove? && rec in w.recs && Mutates(op, Some(w.recs[rec])) {
        GoodUnlinking(w, t, x);
      } else {
        GoodHave(w, t, x);
      }
    case Update(_, _, _) => GoodUpdate(w, t, x);
    case Alloc(_) => GoodAlloc(w, t, x);
    case Link(_, _) => GoodLink(w, t, x);
    case Unlink(_, _, _) => GoodUnlink(w, t, x);
    case Delete(_, _, _) => GoodDelete(w, t, x);
    case Finish(_, _) => GoodFinish(w, t, x);
    case Release(_, _) => GoodBarrier(w, t, x);
    case Answer(_, _) => GoodQuiet(w, t, x);
  }

  /** Every step of every thread keeps the invariant; no other caller sees it, and its own sees an atomic map. */
  lemma TurnKeepsWorld(w: World, t: Tid, x: Pick)
    requires WorldOk(w) && Ready(w, t, x)
    ensures WorldOk(Turn(w, t, x)) && Turn(w, t, x).phases.Keys == w.phases.Keys
    ensures AtomicShift(XSeen(w, t), XSeen(Turn(w, t, x), t), w, Turn(w, t, x))
    ensures forall u :: u in w.phases && u != t ==> XSeen(Turn(w, t, x), u) == XSeen(w, u)
  {
    hide Inv, VaultOk, Turn, PhaseOk, Tally, AtomicShift, XSeen;
    TurnOk(w, t, x);
    var w' := Turn(w, t, x);
    forall u | u in w'.phases ensures Fine(w', u) && (u != t ==> XSeen(w', u) == XSeen(w, u)) {
      if u != t {
        OthersFine(w, w', t, u);
      }
    }
  }

  // ---------- runs ----------

  /** Nobody is busy, and every record belongs to one key. */
  ghost predicate AtRest(w: World) {
    && Initial(w.s) && w.phases.Keys == w.s.pcs.Keys && (forall t :: t in w.phases ==> w.phases[t] == Resting)
    && w.readers == {} && w.writer == None && w.own == map[] && VaultOk(w)
  }

  ghost predicate IsHistory(ws: seq<World>, turns: seq<(Tid, Pick)>) {
    && |ws| == |turns| + 1 && AtRest(ws[0])
    && forall i :: 0 <= i < |turns| ==> Ready(ws[i], turns[i].0, turns[i].1) && ws[i + 1] == Turn(ws[i], turns[i].0, turns[i].1)
  }

  lemma RestOk(w: World)
    requires AtRest(w)
    ensures WorldOk(w)
  {
    hide VaultOk;
    InitialInv(w.s);
    forall t | t in w.phases ensures Fine(w, t) {
    }
  }

  /** A new map with external values. */
  lemma CreatedAtRest(max: nat, ptr: Recid, r: Recid, ts: set<Tid>)
    requires max >= 4 && r != 0 && ptr != r
    ensures AtRest(World(Created(max, ptr, r, ts), map[], {}, None, map t | t in ts :: Resting, map[]))
  {
    hide Initial, Lookup;
    CreatedIsInitial(max, ptr, r, ts);
    var w := World(Created(max, ptr, r, ts), map[], {}, None, map t | t in ts :: Resting, map[]);
    assert w.phases.Keys == w.s.pcs.Keys;
    forall k ensures SlotOk(w, k) && Slot(w, k) == None {
    }
  }

  /** Every state of every run satisfies the invariant; in particular no value record is ever missing. */
  lemma {:induction false} HistoryOk(ws: seq<World>, turns: seq<(Tid, Pick)>, i: nat)
    requires IsHistory(ws, turns) && i < |ws|
    ensures WorldOk(ws[i]) && forall t :: t in ws[i].phases ==> !ws[i].phases[t].Missing?
  {
    hide AtRest, Turn, Ready, WorldOk;
    if i == 0 {
      RestOk(ws[0]);
    } else {
      HistoryOk(ws, turns, i - 1);
      TurnKeepsWorld(ws[i - 1], turns[i - 1].0, turns[i - 1].1);
    }
    NobodyMisses(ws[i]);
  }

  lemma NobodyMisses(w: World)
    requires WorldOk(w)
    ensures forall t :: t in w.phases ==> !w.phases[t].Missing?
  {
    hide Inv, VaultOk, Tally;
    forall t | t in w.phases ensures !w.phases[t].Missing? {
      assert Fine(w, t);
    }
  }

  // ---------- the leaves ----------

  /** Slot `i` of the published leaf `r`. */
  ghost predicate LeafSlot(w: World, r: Recid, i: nat) {
    var tr := w.s.v.tree;
    && r in tr.low && r in tr.level && tr.level[r] == 0 && r in tr.nodes
    && tr.nodes[r].Leaf? && i < |tr.nodes[r].keys| == |tr.nodes[r].vals|
  }

  lemma SlotIsLookup(w: World, r: Recid, i: nat)
    requires Inv(w.s) && LeafSlot(w, r, i)
    ensures Covers(w.s.v.tree, r, w.s.v.tree.nodes[r].keys[i])
    ensures Slot(w, w.s.v.tree.nodes[r].keys[i]) == Some(w.s.v.tree.nodes[r].vals[i])
  {
    hide RootPart, HiddenPart, LockPart, HotPart, EventPart, Lookup;
    var v := w.s.v;
    var n := v.tree.nodes[r];
    assert NodeOk(v.tree, v.pend.Keys, v.max, r);
    LookupAtCover(v.tree, v.pend.Keys, v.max, r, n.keys[i]);
    FoundIffMember(n.keys, n.keys[i]);
    assert FoundAt(n.keys, n.keys[i], i);
  }

  /** Every recid in a published leaf names a live record, in nobody's hands, that holds the value of the key beside it. */
  lemma LeavesLive(w: World, r: Recid, i: nat)
    requires WorldOk(w) && LeafSlot(w, r, i)
    ensures var n := w.s.v.tree.nodes[r];
            n.vals[i] in w.recs && n.vals[i] !in w.own && ValueOf(w, n.keys[i]) == Some(w.recs[n.vals[i]])
  {
    hide Inv;
    SlotIsLookup(w, r, i);
    assert SlotOk(w, w.s.v.tree.nodes[r].keys[i]);
  }

  /** No recid is in two slots of the leaves. */
  lemma LeavesApart(w: World, r: Recid, i: nat, q: Recid, j: nat)
    requires WorldOk(w) && LeafSlot(w, r, i) && LeafSlot(w, q, j)
    requires w.s.v.tree.nodes[r].vals[i] == w.s.v.tree.nodes[q].vals[j]
    ensures r == q && i == j
  {
    hide HiddenPart, LockPart, HotPart, EventPart, RootPart, Lookup;
    SlotIsLookup(w, r, i);
    SlotIsLookup(w, q, j);
    var v := w.s.v;
    var k := v.tree.nodes[r].keys[i];
    assert Slot(w, k) == Slot(w, v.tree.nodes[q].keys[j]);
    CoverUnique(v.tree, v.pend.Keys, v.max, r, q, k);
    assert NodeOk(v.tree, v.pend.Keys, v.max, r);
  }

  /** In every state of every run, each recid in a published leaf names a live record and is in no other slot. */
  lemma HistoryLeaves(ws: seq<World>, turns: seq<(Tid, Pick)>, m: nat, r: Recid, i: nat, q: Recid, j: nat)
    requires IsHistory(ws, turns) && m < |ws| && LeafSlot(ws[m], r, i) && LeafSlot(ws[m], q, j)
    ensures var tr := ws[m].s.v.tree;
            && tr.nodes[r].vals[i] in ws[m].recs && tr.nodes[r].vals[i] !in ws[m].own
            && (tr.nodes[r].vals[i] == tr.nodes[q].vals[j] <==> r == q && i == j)
  {
    hide IsHistory, WorldOk;
    HistoryOk(ws, turns, m);
    LeavesLive(ws[m], r, i);
    if ws[m].s.v.tree.nodes[r].vals[i] == ws[m].s.v.tree.nodes[q].vals[j] {
      LeavesApart(ws[m], r, i, q, j);
    }
  }

  /** The record a lookup expands is the one its key's leaf names, at that moment, and no other slot names it. */
  lemma ExpandsOwnRecord(w: World, t: Tid, r: Recid)
    requires WorldOk(w) && t in w.phases && w.phases[t].Expand?
    requires var tr := w.s.v.tree; r in tr.level && tr.level[r] == 0 && Covers(tr, r, w.phases[t].op.key)
    ensures var k, rec, n := w.phases[t].op.key, w.phases[t].rec, w.s.v.tree.nodes[r];
            && Wellformed(n) && LeafGet(n, k) == Some(rec)
            && rec in w.recs && ValueOf(w, k) == Some(w.recs[rec]) && rec !in w.own && w.writer.None?
            && forall q, j: nat :: LeafSlot(w, q, j) && w.s.v.tree.nodes[q].vals[j] == rec ==> q == r && w.s.v.tree.nodes[q].keys[j] == k
  {
    hide HiddenPart, LockPart, HotPart, EventPart, RootPart, Lookup;
    assert Fine(w, t);
    var v, k, rec := w.s.v, w.phases[t].op.key, w.phases[t].rec;
    assert SlotOk(w, k);
    LookupAtCover(v.tree, v.pend.Keys, v.max, r, k);
    forall q, j: nat | LeafSlot(w, q, j) && v.tree.nodes[q].vals[j] == rec ensures q == r && v.tree.nodes[q].keys[j] == k {
      SlotIsLookup(w, q, j);
      assert Slot(w, v.tree.nodes[q].keys[j]) == Slot(w, k);
      CoverUnique(v.tree, v.pend.Keys, v.max, r, q, k);
    }
  }

  /** When nobody is busy every record is the value of a key: none has leaked. */
  lemma NoLeak(w: World, r: Value)
    requires WorldOk(w) && r in w.recs && forall t :: t in w.phases ==> w.phases[t].Resting?
    ensures exists k :: Slot(w, k) == Some(r)
  {
    hide Inv, Slot;
    assert RecOk(w, r);
    assert r in w.own ==> Fine(w, w.own[r]) && HoldsRec(w.phases[w.own[r]], r) by {
      assert r in w.own ==> By(w.own, w.own[r], r);
    }
  }

  // ---------- linearizability ----------

  lemma SameThread(ws: seq<World>, turns: seq<(Tid, Pick)>, n: nat)
    requires IsHistory(ws, turns) && 0 < n < |ws|
    ensures var t := turns[n - 1].0; t in ws[n - 1].phases && t in ws[n - 1].s.pcs && t in ws[n].phases && t in ws[n].s.pcs
  {
    hide AtRest, Turn, WorldOk, Ready;
    HistoryOk(ws, turns, n - 1);
    HistoryOk(ws, turns, n);
    TurnKeepsWorld(ws[n - 1], turns[n - 1].0, turns[n - 1].1);
    KnownThread(ws[n - 1], ws[n], turns[n - 1].0, turns[n - 1].1);
  }

  /** The calls of a run in the order in which they took effect. */
  ghost function XHistory(ws: seq<World>, turns: seq<(Tid, Pick)>, n: nat): seq<Effect>
    requires IsHistory(ws, turns) && n < |ws|
  {
    if n == 0 then []
    else
      SameThread(ws, turns, n);
      var a, a' := XSeen(ws[n - 1], turns[n - 1].0), XSeen(ws[n], turns[n - 1].0);
      XHistory(ws, turns, n - 1) + (if a.Pending? && a'.Settled? then [Effect(a'.op, a'.res)] else [])
  }

  ghost predicate XLegal(w0: World, es: seq<Effect>) {
    forall i :: 0 <= i < |es| ==> Explained(ValueOf(w0, es[i].op.key), es, i)
  }

  lemma XLegalAppend(w0: World, es: seq<Effect>, e: Effect, now: Option<Value>)
    requires XLegal(w0, es) && Performs(e.op, Replay(ValueOf(w0, e.op.key), es, e.op.key), now, e.res)
    ensures XLegal(w0, es + [e]) && Replay(ValueOf(w0, e.op.key), es + [e], e.op.key) == now
  {
    hide Explained, Performs, ValueOf, Replay;
    var es' := es + [e];
    ExplainedLast(ValueOf(w0, e.op.key), es, e, now);
    forall i | 0 <= i < |es'| ensures Explained(ValueOf(w0, es'[i].op.key), es', i) {
      if i < |es| {
        ExplainedStays(ValueOf(w0, es[i].op.key), es, e, i);
      }
    }
  }

  /**
   The calls of every run, in effect order, are a sequential execution in which each
   performs what it is for; it explains all results and all values.
   */
  lemma {:induction false} XHistoryIsSequential(ws: seq<World>, turns: seq<(Tid, Pick)>, n: nat)
    requires IsHistory(ws, turns) && n < |ws|
    ensures XLegal(ws[0], XHistory(ws, turns, n))
    ensures forall k :: ValueOf(ws[n], k) == Replay(ValueOf(ws[0], k), XHistory(ws, turns, n), k)
  {
    hide AtRest, Ready, Turn, WorldOk, ValueOf, XSeen, Replay, Performs;
    if n == 0 {
      NoEffects(ws[0].s.v.tree);
    } else {
      XHistoryIsSequential(ws, turns, n - 1);
      HistoryOk(ws, turns, n - 1);
      TurnKeepsWorld(ws[n - 1], turns[n - 1].0, turns[n - 1].1);
      var w0, es, t := ws[0], XHistory(ws, turns, n - 1), turns[n - 1].0;
      KnownThread(ws[n - 1], ws[n], t, turns[n - 1].1);
      var a, a' := XSeen(ws[n - 1], t), XSeen(ws[n], t);
      if a.Pending? && a'.Settled? {
        var e := Effect(a'.op, a'.res);
        XLegalAppend(w0, es, e, ValueOf(ws[n], e.op.key));
        forall k ensures ValueOf(ws[n], k) == Replay(ValueOf(w0, k), es + [e], k) {
          ReplayAppend(ValueOf(w0, k), es, e, k);
        }
      } else {
        assert es + [] == es;
      }
    }
  }

  lemma ShiftKinds(ws: seq<World>, turns: seq<(Tid, Pick)>, i: nat, t: Tid)
    requires IsHistory(ws, turns) && i < |turns| && t in ws[i].phases && t in ws[i].s.pcs
    ensures t in ws[i + 1].phases && t in ws[i + 1].s.pcs
    ensures var a, a' := XSeen(ws[i], t), XSeen(ws[i + 1], t);
            || a' == a || (a.Quiet? && a'.Pending?) || (a.Settled? && a'.Quiet?)
            || (a.Pending? && a'.Settled? && a'.op == a.op && turns[i].0 == t && Takes(ws[i], ws[i + 1], a.op, a'.res))
  {
    hide AtRest, Turn, Ready, XSeen, WorldOk, Takes;
    HistoryOk(ws, turns, i);
    HistoryOk(ws, turns, i + 1);
    TurnKeepsWorld(ws[i], turns[i].0, turns[i].1);
    KnownThread(ws[i], ws[i + 1], turns[i].0, turns[i].1);
    BothKnown(ws[i + 1], t);
  }

  lemma BothKnown(w: World, t: Tid)
    requires WorldOk(w)
    ensures t in w.phases <==> t in w.s.pcs
  {
  }

  /** A call takes effect, and performs what it is for, at one step of its own between its beginning and its return. */
  lemma {:induction false} XCallPerforms(ws: seq<World>, turns: seq<(Tid, Pick)>, t: Tid, a: nat, b: nat) returns (m: nat)
    requires IsHistory(ws, turns) && a <= b < |ws|
    requires forall i :: a <= i <= b ==> t in ws[i].phases && t in ws[i].s.pcs && !ws[i].phases[t].Resting?
    requires XSeen(ws[a], t).Pending? && XSeen(ws[b], t).Settled?
    ensures a <= m < b && turns[m].0 == t && XSeen(ws[m], t) == XSeen(ws[a], t) && XSeen(ws[b], t).op == XSeen(ws[a], t).op
    ensures Takes(ws[m], ws[m + 1], XSeen(ws[a], t).op, XSeen(ws[b], t).res)
    decreases b - a
  {
    hide AtRest, Turn, Ready, Takes;
    forall i | a <= i <= b ensures !XSeen(ws[i], t).Quiet? {
      HistoryOk(ws, turns, i);
    }
    if XSeen(ws[b - 1], t).Settled? {
      m := XCallPerforms(ws, turns, t, a, b - 1);
      ShiftKinds(ws, turns, b - 1, t);
    } else {
      m := b - 1;
      ShiftKinds(ws, turns, b - 1, t);
      SamePending(ws, turns, t, a, b - 1);
    }
  }

  lemma {:induction false} SamePending(ws: seq<World>, turns: seq<(Tid, Pick)>, t: Tid, a: nat, b: nat)
    requires IsHistory(ws, turns) && a <= b < |ws|
    requires forall i :: a <= i <= b ==> t in ws[i].phases && t in ws[i].s.pcs && !XSeen(ws[i], t).Quiet?
    requires XSeen(ws[b], t).Pending?
    ensures XSeen(ws[a], t) == XSeen(ws[b], t)
    decreases b - a
  {
    hide AtRest, Turn, Ready, XSeen, Takes;
    if a < b {
      ShiftKinds(ws, turns, b - 1, t);
      SamePending(ws, turns, t, a, b - 1);
    }
  }

  lemma KnownThread(w: World, w': World, t: Tid, x: Pick)
    requires WorldOk(w) && WorldOk(w') && Ready(w, t, x) && w'.phases.Keys == w.phases.Keys
    ensures t in w.phases && t in w.s.pcs && t in w'.phases && t in w'.s.pcs
  {
  }

  // ---------- progress ----------

  lemma FreshRecExists(w: World) returns (r: Recid)
    ensures FreshRec(w, r)
  {
    var rs := set r: int | r in w.recs.Keys && r >= 0 :: r as nat;
    r := UpperBound(w.s.v.tree.nodes.Keys + rs + {0, w.s.v.rootPtr});
    assert r in w.recs ==> r in rs;
  }

  /** A thread whose tree step is enabled, or that is busy with a record, can move. */
  lemma BusyMoves(w: World, u: Tid, y: Choice) returns (x: Pick)
    requires WorldOk(w) && Can(w.s, u, y) && !w.s.pcs[u].Idle?
    ensures Ready(w, u, x) && !w.phases[u].Resting?
  {
    hide Inv, VaultOk, Tally;
    assert Fine(w, u);
    var r := FreshRecExists(w);
    x := Pick(Get(0), if Stores(w.s.pcs[u]) || w.phases[u].Alloc? then r else y.recid);
  }

  /** As long as some call is under way, some thread with a call under way can take its next step. */
  lemma SomeoneMoves(w: World, t: Tid) returns (u: Tid, x: Pick)
    requires WorldOk(w) && t in w.phases && !w.phases[t].Resting?
    ensures Ready(w, u, x) && !w.phases[u].Resting?
  {
    hide Inv, VaultOk;
    assert Fine(w, t);
    u, x := t, Pick(Get(0), 0);
    if w.phases[t].Want? && !Ready(w, t, x) {
      u := if w.writer.Some? then w.writer.value else var q :| q in w.readers; q;
      assert Fine(w, u);
    }
    if !w.s.pcs[u].Idle? {
      var y;
      u, y := NoDeadlock(w.s, u);
      x := BusyMoves(w, u, y);
    }
  }
}

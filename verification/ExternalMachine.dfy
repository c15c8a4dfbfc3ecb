/**
 Maps that keep each value in a record of its own.  The leaves of the tree store the
 recids of the values; the store may hand a deleted recid out again, to a value or to a
 tree node.  Lookups hold the read side of a barrier from their search to the expansion
 of the recid; removals hold its write side; other writers take no side at all.

 The machine is the B-link machine with recids as the values in its leaves, and beside
 it the value records, the barrier, and for each thread the phase of its call.  A phase
 either lets the thread's B-link program counter take its next step or accesses a record
 or the barrier.  What a writer does to the leaf is settled once it has the leaf's lock.
 */
module ExternalMachine {
  import opened Basics
  import opened BLinkTree
  import opened BLinkMachine

  datatype Phase =
    | Resting
    | Want(op: Op)                                 // waits for its side of the barrier
    | Start(op: Op)
    | Run(op: Op)                                  // on the way to its leaf
    | Expand(op: Op, rec: Value)                   // a lookup that has found a recid
    | Have(op: Op, rec: Value)                     // a writer that has found a recid in its locked leaf
    | Update(op: Op, rec: Value, was: Value)
    | Alloc(op: Op)
    | Link(op: Op, rec: Value)                     // the record is stored; the leaf is next
    | Unlink(op: Op, rec: Value, was: Value)       // the leaf first, then the record
    | Delete(op: Op, rec: Value, was: Value)
    | Finish(op: Op, res: Option<Value>)           // listener, unlock, separators
    | Release(op: Op, res: Option<Value>)
    | Answer(op: Op, res: Option<Value>)
    | Missing                                      // a value record was not there: the code's corruption error

  datatype World = World(
    s: State,                      // the tree; the values in its leaves are recids
    recs: map<Value, Value>,       // live value records
    readers: set<Tid>,             // read side of the barrier
    writer: Option<Tid>,           // write side of the barrier
    phases: map<Tid, Phase>,
    own: map<Value, Tid>)          // history: records stored and not linked yet, or unlinked and not deleted yet

  /** What the environment decides: the next call, the root a descent starts from, the recid the store hands out. */
  datatype Pick = Pick(op: Op, recid: Recid)

  /** What a call asks of the tree until its leaf is locked: a search, or a change that never applies to a key that is there. */
  function Search(op: Op): Op {
    match op
    case Get(k) => Get(k)
    case Put(k, _, _) => Put(k, 0, true)
    case Remove(k, _) => Remove(k, Some(0))
    case Replace(k, _, _) => Replace(k, Some(0), 0)
  }

  /** Program counters at which the store hands out a recid for a node. */
  predicate Stores(pc: Pc) {
    pc.LeafStore? || pc.DirStore? || pc.RootStore?
  }

  predicate TreeCan(w: World, t: Tid, x: Choice) {
    Can(w.s, t, x) && (Stores(w.s.pcs[t]) ==> x.recid !in w.recs)
  }

  predicate FreshRec(w: World, r: Recid) {
    FreshRecid(w.s.v, r) && r !in w.recs
  }

  /** A searching thread whose leaf is reached: the phase, not the tree, moves on. */
  predicate Arrived(op: Op, pc: Pc) {
    if op.Get? then pc.Done? else pc.LeafOwned?
  }

  predicate Ready(w: World, t: Tid, x: Pick) {
    && t in w.s.pcs && t in w.phases
    && match w.phases[t]
       case Want(op) => w.writer.None? && (op.Remove? ==> w.readers == {})
       case Start(op) => w.s.pcs[t].Idle?
       case Run(op) => Arrived(op, w.s.pcs[t]) || TreeCan(w, t, Choice(op, x.recid))
       case Alloc(_) => FreshRec(w, x.recid)
       case Link(op, _) => TreeCan(w, t, Choice(op, x.recid))
       case Unlink(op, _, _) => TreeCan(w, t, Choice(op, x.recid))
       case Finish(op, _) => TreeCan(w, t, Choice(op, x.recid))
       case Missing => false
       case _ => true
  }

  function At(w: World, t: Tid, ph: Phase): World {
    w.(phases := w.phases[t := ph])
  }

  function TreeStep(w: World, t: Tid, x: Choice): World
    requires Can(w.s, t, x)
  {
    w.(s := Next(w.s, t, x))
  }

  function Aimed(pc: Pc, op: Op): Pc
    requires pc.LeafOwned?
  {
    LeafOwned(op, pc.cur, pc.n, pc.stack)
  }

  /** Settle what thread `t`, which has locked and read its leaf, does to it. */
  function Aim(w: World, t: Tid, op: Op): World {
    if t in w.s.pcs && w.s.pcs[t].LeafOwned?
    then w.(s := w.s.(pcs := w.s.pcs[t := Aimed(w.s.pcs[t], op)]))
    else w
  }

  predicate Barred(op: Op) {
    op.Get? || op.Remove?
  }

  function Turn(w: World, t: Tid, x: Pick): World
    requires Ready(w, t, x)
  {
    var pc := w.s.pcs[t];
    match w.phases[t]
    case Resting => At(w, t, if Barred(x.op) then Want(x.op) else Start(x.op))
    case Want(op) =>
      At(if op.Remove? then w.(writer := Some(t)) else w.(readers := w.readers + {t}), t, Start(op))
    case Start(op) => At(TreeStep(w, t, Choice(Search(op), x.recid)), t, Run(op))
    case Run(op) => if Arrived(op, pc) then At(w, t, Found(op, pc)) else TreeStep(w, t, Choice(op, x.recid))
    case Expand(op, rec) => At(w, t, if rec in w.recs then Finish(op, Some(w.recs[rec])) else Missing)
    case Have(op, rec) =>
      if rec !in w.recs then At(w, t, Missing)
      else
        var was := w.recs[rec];
        if !Mutates(op, Some(was)) then At(w, t, Finish(op, Reply(op, Some(was))))
        else if op.Remove? then At(Aim(w, t, Remove(op.key, Some(rec))), t, Unlink(op, rec, was))
        else At(w, t, Update(op, rec, was))
    case Update(op, rec, was) =>
      if op.Put? || op.Replace? then At(w.(recs := w.recs[rec := op.value]), t, Finish(op, Some(was))) else At(w, t, Missing)
    case Alloc(op) =>
      if op.Put?
      then At(Aim(w, t, Put(op.key, x.recid, true)).(recs := w.recs[x.recid := op.value], own := w.own[x.recid := t]), t, Link(op, x.recid))
      else At(w, t, Missing)
    case Link(op, rec) =>
      var w' := TreeStep(w, t, Choice(op, x.recid));
      if w'.s.pcs[t].Firing? then At(w'.(own := w.own - {rec}), t, Finish(op, None)) else w'
    case Unlink(op, rec, was) =>
      At(TreeStep(w, t, Choice(op, x.recid)).(own := w.own[rec := t]), t, Delete(op, rec, was))
    case Delete(op, rec, was) => At(w.(recs := w.recs - {rec}, own := w.own - {rec}), t, Finish(op, Some(was)))
    case Finish(op, res) =>
      var w' := TreeStep(w, t, Choice(op, x.recid));
      if pc.Done? then At(w', t, if Barred(op) then Release(op, res) else Answer(op, res)) else w'
    case Release(op, res) =>
      At(if op.Remove? then w.(writer := None) else w.(readers := w.readers - {t}), t, Answer(op, res))
    case Answer(_, _) => At(w, t, Resting)
    case Missing => w
  }

  /** What a lookup's result, or the leaf a writer has locked, says about the key. */
  function Found(op: Op, pc: Pc): Phase
    requires Arrived(op, pc)
  {
    if op.Get? then
      (if pc.res.None? then Finish(op, None) else Expand(op, pc.res.value))
    else if !Wellformed(pc.n) then Missing
    else
      match LeafGet(pc.n, op.key)
      case Some(rec) => Have(op, rec)
      case None => if op.Put? then Alloc(op) else Finish(op, None)
  }
}

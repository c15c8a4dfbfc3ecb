/**
 Calls on a map with external values return.  Every step of a thread, in the tree or on a
 record or the barrier, brings it closer to its result; a call that finds locks and
 barrier free ends within a number of steps linear in the number of nodes, having done
 what its operation is for.
 */
module ExternalSolo {
  import opened Basics
  import opened BLinkTree
  import opened BLinkMachine
  import opened BLinkInvariant
  import opened BLinkRuns
  import opened BLinkRefinement
  import opened BLinkSolo
  import opened ExternalMachine
  import opened ExternalValues

  // ---------- a bound on the steps to come ----------

  /** Steps besides those in the tree. */
  ghost function Beside(ph: Phase): nat {
    match ph
    case Want(_) => 9
    case Start(_) => 8
    case Run(_) => 7
    case Have(_, _) => 6
    case Alloc(_) => 6
    case Update(_, _, _) => 5
    case Link(_, _) => 5
    case Unlink(_, _, _) => 5
    case Expand(_, _) => 4
    case Delete(_, _, _) => 4
    case Finish(_, _) => 3
    case Release(_, _) => 2
    case Answer(_, _) => 1
    case _ => 0
  }

  predicate Begins(ph: Phase) {
    ph.Want? || ph.Start?
  }

  ghost function Left(w: World, t: Tid): nat
    requires t in w.phases && t in w.s.pcs
  {
    Beside(w.phases[t]) + if Begins(w.phases[t]) then 12 * |w.s.v.tree.low| + 30 else Togo(w.s.v.tree, w.s.pcs[t])
  }

  lemma TreeLowers(s: State, t: Tid, x: Choice)
    requires Inv(s) && Can(s, t, x) && Busy(s.pcs[t])
    ensures var s' := Next(s, t, x); t in s.pcs && t in s'.pcs && Togo(s'.v.tree, s'.pcs[t]) < Togo(s.v.tree, s.pcs[t])
  {
    hide SharedOk, PcOk, Accounts, OwnersKnown, Togo, Step, CanMove;
    assert Thread(s.v, t, s.pcs[t]);
    StepLowers(s.v, t, s.pcs[t], x);
  }

  /** The tree is at work, or done, whenever the phase hands it a step. */
  lemma TreeBusy(w: World, t: Tid)
    requires WorldOk(w) && t in w.phases
    ensures t in w.s.pcs
    ensures var ph, pc := w.phases[t], w.s.pcs[t];
            && (ph.Run? && !Arrived(ph.op, pc) ==> Busy(pc))
            && (ph.Link? || ph.Unlink? || (ph.Finish? && !pc.Done?) ==> Busy(pc))
            && (ph.Start? || ph.Want? || ph.Release? || ph.Answer? ==> pc.Idle?)
            && (InLeaf(ph) && !ph.Link? ==> pc.LeafOwned?)
            && !ph.Missing?
  {
    hide Inv, VaultOk, Tally, Slot, LeafGet, Wellformed, Mutates;
    assert Fine(w, t);
    OnlyTheEndIsQuiet(w.s.v.tree, w.s.pcs[t]);
  }

  /** What settling on a change of the leaf costs: nothing. */
  lemma AimedSame(tr: Tree, pc: Pc, op: Op)
    requires pc.LeafOwned?
    ensures Togo(tr, Aimed(pc, op)) == Togo(tr, pc)
  {
    hide Ahead, From, Over;
  }

  lemma RestIsFree(tr: Tree, op: Op, res: Option<Value>)
    ensures Togo(tr, Idle) == Togo(tr, Done(op, res)) == 0
  {
    hide Ahead, From, Over;
  }

  lemma CallStep(s: State, t: Tid, x: Choice)
    requires Can(s, t, x)
    ensures t in s.pcs && t in Next(s, t, x).pcs
    ensures s.pcs[t].Idle? ==> Next(s, t, x) == State(s.v, s.pcs[t := Begin(x.op)])
    ensures s.pcs[t].Done? ==> Next(s, t, x) == State(s.v, s.pcs[t := Idle])
  {
  }

  lemma StartLowers(w: World, t: Tid, x: Pick)
    requires WorldOk(w) && Ready(w, t, x) && w.phases[t].Start?
    ensures var w' := Turn(w, t, x); t in w'.phases && t in w'.s.pcs && Left(w', t) < Left(w, t)
  {
    hide WorldOk, Togo, CanMove, Can, Next, Mutates, Reply, LeafGet, Wellformed, Aim;
    TreeBusy(w, t);
    var y := Choice(Search(w.phases[t].op), x.recid);
    CallStep(w.s, t, y);
    TogoBound(w.s.v.tree, Begin(y.op));
  }

  lemma FinishLowers(w: World, t: Tid, x: Pick)
    requires WorldOk(w) && Ready(w, t, x) && w.phases[t].Finish?
    ensures var w' := Turn(w, t, x); t in w'.phases && t in w'.s.pcs && Left(w', t) < Left(w, t)
  {
    hide WorldOk, Togo, CanMove, Can, Next, Mutates, Reply, LeafGet, Wellformed, Aim;
    TreeBusy(w, t);
    TreeSound(w);
    var y, pc := Choice(w.phases[t].op, x.recid), w.s.pcs[t];
    if pc.Done? {
      CallStep(w.s, t, y);
      RestIsFree(w.s.v.tree, pc.op, pc.res);
    } else {
      TreeLowers(w.s, t, y);
    }
  }

  lemma LeafTurnLowers(w: World, t: Tid, x: Pick)
    requires WorldOk(w) && Ready(w, t, x) && (w.phases[t].Link? || w.phases[t].Unlink?)
    ensures var w' := Turn(w, t, x); t in w'.phases && t in w'.s.pcs && Left(w', t) < Left(w, t)
  {
    hide WorldOk, Togo, CanMove, Can, Next, Mutates, Reply, LeafGet, Wellformed, Aim;
    TreeBusy(w, t);
    TreeSound(w);
    TreeLowers(w.s, t, Choice(w.phases[t].op, x.recid));
  }

  lemma SearchLowers(w: World, t: Tid, x: Pick)
    requires WorldOk(w) && Ready(w, t, x) && w.phases[t].Run?
    ensures var w' := Turn(w, t, x); t in w'.phases && t in w'.s.pcs && Left(w', t) < Left(w, t)
  {
    hide WorldOk, Togo, CanMove, Can, Next, Mutates, Reply, LeafGet, Wellformed, Aim;
    TreeBusy(w, t);
    TreeSound(w);
    var op := w.phases[t].op;
    if !Arrived(op, w.s.pcs[t]) {
      TreeLowers(w.s, t, Choice(op, x.recid));
    }
  }

  lemma DecideLowers(w: World, t: Tid, x: Pick)
    requires WorldOk(w) && Ready(w, t, x) && (w.phases[t].Have? || w.phases[t].Alloc?)
    ensures var w' := Turn(w, t, x); t in w'.phases && t in w'.s.pcs && Left(w', t) < Left(w, t)
  {
    hide WorldOk, Togo, CanMove, Can, Next, Mutates, Reply, LeafGet, Wellformed;
    TreeBusy(w, t);
    var ph, pc := w.phases[t], w.s.pcs[t];
    if ph.Have? {
      AimedSame(w.s.v.tree, pc, Remove(ph.op.key, Some(ph.rec)));
    } else {
      AimedSame(w.s.v.tree, pc, Put(ph.op.key, x.recid, true));
    }
  }

  lemma BarrierLowers(w: World, t: Tid, x: Pick)
    requires Ready(w, t, x) && (w.phases[t].Want? || w.phases[t].Release? || w.phases[t].Answer?)
    ensures var w' := Turn(w, t, x); t in w'.phases && t in w'.s.pcs && Left(w', t) < Left(w, t)
  {
    hide Togo, CanMove, Can, Next, Aim, Mutates;
  }

  lemma RecordLowers(w: World, t: Tid, x: Pick)
    requires Ready(w, t, x) && (w.phases[t].Expand? || w.phases[t].Update? || w.phases[t].Delete?)
    ensures var w' := Turn(w, t, x); t in w'.phases && t in w'.s.pcs && Left(w', t) < Left(w, t)
  {
    hide Togo, CanMove, Can, Next, Aim, Mutates;
  }

  /** Every step of every thread brings it closer to its result. */
  lemma TurnLowers(w: World, t: Tid, x: Pick)
    requires WorldOk(w) && Ready(w, t, x) && !w.phases[t].Resting?
    ensures var w' := Turn(w, t, x); t in w'.phases && t in w'.s.pcs && Left(w', t) < Left(w, t)
  {
    hide WorldOk, Turn, Left, CanMove;
    match w.phases[t]
    case Want(_) => BarrierLowers(w, t, x);
    case Release(_, _) => BarrierLowers(w, t, x);
    case Answer(_, _) => BarrierLowers(w, t, x);
    case Start(_) => StartLowers(w, t, x);
    case Finish(_, _) => FinishLowers(w, t, x);
    case Link(_, _) => LeafTurnLowers(w, t, x);
    case Unlink(_, _, _) => LeafTurnLowers(w, t, x);
    case Run(_) => SearchLowers(w, t, x);
    case Have(_, _) => DecideLowers(w, t, x);
    case Alloc(_) => DecideLowers(w, t, x);
    case _ => RecordLowers(w, t, x);
  }

  lemma TreeSound(w: World)
    requires WorldOk(w)
    ensures Inv(w.s) && w.phases.Keys == w.s.pcs.Keys
  {
    hide Inv, VaultOk, Fine;
  }

  // ---------- a thread that runs alone ----------

  predicate Calling(ph: Phase) {
    !ph.Resting? && !ph.Answer? && !ph.Missing?
  }

  ghost predicate XSolo(ws: seq<World>, t: Tid, xs: seq<Pick>) {
    && |ws| == |xs| + 1 && WorldOk(ws[0]) && t in ws[0].phases
    && forall i :: 0 <= i < |xs| ==> Ready(ws[i], t, xs[i]) && Calling(ws[i].phases[t]) && ws[i + 1] == Turn(ws[i], t, xs[i])
  }

  lemma Known(w: World, t: Tid)
    requires WorldOk(w) && t in w.phases
    ensures t in w.s.pcs && Fine(w, t) && Inv(w.s) && !w.phases[t].Missing?
  {
    hide Inv, VaultOk, Tally, Slot;
    assert Fine(w, t);
  }

  lemma {:induction false} XSoloOk(ws: seq<World>, t: Tid, xs: seq<Pick>, i: nat)
    requires XSolo(ws, t, xs) && i < |ws|
    ensures WorldOk(ws[i]) && t in ws[i].phases && t in ws[i].s.pcs && !ws[i].phases[t].Missing?
  {
    hide WorldOk, Ready, Turn;
    if i > 0 {
      XSoloOk(ws, t, xs, i - 1);
      TurnKeepsWorld(ws[i - 1], t, xs[i - 1]);
    }
    Known(ws[i], t);
  }

  /** Alone, a thread takes at most as many steps as the bound says. */
  lemma {:induction false} XSoloEnds(ws: seq<World>, t: Tid, xs: seq<Pick>, i: nat)
    requires XSolo(ws, t, xs) && i < |ws|
    ensures t in ws[0].s.pcs && t in ws[i].phases && t in ws[i].s.pcs && i + Left(ws[i], t) <= Left(ws[0], t)
  {
    hide WorldOk, Ready, Turn, Left;
    XSoloOk(ws, t, xs, i);
    XSoloOk(ws, t, xs, 0);
    if i > 0 {
      XSoloEnds(ws, t, xs, i - 1);
      XSoloOk(ws, t, xs, i - 1);
      TurnLowers(ws[i - 1], t, xs[i - 1]);
    }
  }

  /** Nobody else is in the way, in the tree or at the barrier. */
  ghost predicate XUndisturbed(w: World, t: Tid) {
    Undisturbed(w.s.v, t) && w.readers <= {t} && (w.writer.None? || w.writer == Some(t))
  }

  lemma TreeUndisturbed(s: State, t: Tid, x: Choice)
    requires Inv(s) && Can(s, t, x) && Undisturbed(s.v, t)
    ensures Undisturbed(Next(s, t, x).v, t)
  {
    hide SharedOk, PcOk, Accounts, OwnersKnown, Step, CanMove, Undisturbed, Guarantee;
    assert Thread(s.v, t, s.pcs[t]);
    EveryStepGood(s.v, t, s.pcs[t], x);
    UndisturbedStays(s.v, Next(s, t, x).v, t);
  }

  /** A step leaves the tree's shared state alone or is one step of it. */
  lemma TurnTree(w: World, t: Tid, x: Pick) returns (y: Choice)
    requires Ready(w, t, x)
    ensures var w' := Turn(w, t, x); w'.s.v == w.s.v || (Can(w.s, t, y) && w'.s == Next(w.s, t, y))
    ensures var w' := Turn(w, t, x); w'.readers <= w.readers + {t} && (w'.writer == w.writer || w'.writer.None? || w'.writer == Some(t))
  {
    hide FreshRecid, Next, Mutates, Reply, LeafGet, Wellformed;
    var ph := w.phases[t];
    y := Choice(if ph.Start? then Search(ph.op) else if ph.Resting? || ph.Missing? then x.op else ph.op, x.recid);
  }

  lemma XUndisturbedStays(w: World, t: Tid, x: Pick)
    requires WorldOk(w) && Ready(w, t, x) && XUndisturbed(w, t)
    ensures XUndisturbed(Turn(w, t, x), t)
  {
    hide WorldOk, Ready, Turn, Undisturbed, CanMove, Next;
    var w' := Turn(w, t, x);
    var y := TurnTree(w, t, x);
    TreeSound(w);
    if w'.s.v != w.s.v {
      TreeUndisturbed(w.s, t, y);
    }
  }

  /** Undisturbed, a call can always take its next step. */
  lemma XSoloMoves(w: World, t: Tid) returns (x: Pick)
    requires WorldOk(w) && t in w.phases && XUndisturbed(w, t) && Calling(w.phases[t])
    ensures Ready(w, t, x)
  {
    hide Inv, VaultOk, Undisturbed, CanMove, Slot, LeafGet, Wellformed, Mutates;
    assert Fine(w, t);
    if w.s.pcs[t].Idle? {
      x := Pick(Get(0), 0);
    } else {
      var y := SoloMoves(w.s, t);
      x := BusyMoves(w, t, y);
    }
  }

  // ---------- what a thread that runs alone does ----------

  /** What a call of `op` has done so far to the map it found: nothing, or all of it. */
  ghost predicate XSoFar(w: World, w': World, a: Status, op: Op) {
    match a
    case Quiet => false
    case Pending(o) => o == op && forall k :: ValueOf(w', k) == ValueOf(w, k)
    case Settled(o, res) =>
      && o == op && Performs(op, ValueOf(w, op.key), ValueOf(w', op.key), res)
      && forall k :: k != op.key ==> ValueOf(w', k) == ValueOf(w, k)
  }

  lemma XSoFarMoves(w0: World, w: World, w': World, a: Status, a': Status, op: Op)
    requires XSoFar(w0, w, a, op) && AtomicShift(a, a', w, w') && !a'.Quiet?
    ensures XSoFar(w0, w', a', op)
  {
    hide ValueOf;
  }

  lemma {:induction false} XSoloEffect(ws: seq<World>, t: Tid, xs: seq<Pick>, i: nat)
    requires XSolo(ws, t, xs) && i < |ws| && Begins(ws[0].phases[t])
    ensures t in ws[i].phases && t in ws[i].s.pcs && XSoFar(ws[0], ws[i], XSeen(ws[i], t), ws[0].phases[t].op)
  {
    hide WorldOk, Ready, Turn, ValueOf, AtomicShift, StatusOf;
    XSoloOk(ws, t, xs, i);
    if i > 0 {
      XSoloEffect(ws, t, xs, i - 1);
      XSoloOk(ws, t, xs, i - 1);
      TurnKeepsWorld(ws[i - 1], t, xs[i - 1]);
      StillCalling(ws[i - 1], t, xs[i - 1]);
      XSoFarMoves(ws[0], ws[i - 1], ws[i], XSeen(ws[i - 1], t), XSeen(ws[i], t), ws[0].phases[t].op);
    }
  }

  lemma StillCalling(w: World, t: Tid, x: Pick)
    requires Ready(w, t, x) && Calling(w.phases[t])
    ensures t in Turn(w, t, x).phases && !Turn(w, t, x).phases[t].Resting?
  {
    hide Can, CanMove, Next, Mutates, Reply, LeafGet, Wellformed;
  }

  // ---------- calls return ----------

  lemma XSoloGrows(ws: seq<World>, t: Tid, xs: seq<Pick>, w: World, x: Pick)
    requires XSolo(ws, t, xs) && WorldOk(w) && t in w.phases && Calling(w.phases[t]) && Ready(w, t, x) && ws[0] == Turn(w, t, x)
    ensures XSolo([w] + ws, t, [x] + xs)
  {
    hide WorldOk, TreeCan, Turn;
    var ws', xs' := [w] + ws, [x] + xs;
    forall i | 0 <= i < |xs'| ensures Ready(ws'[i], t, xs'[i]) && Calling(ws'[i].phases[t]) && ws'[i + 1] == Turn(ws'[i], t, xs'[i]) {
      assert i > 0 ==> ws'[i] == ws[i - 1] && xs'[i] == xs[i - 1] && ws'[i + 1] == ws[i];
    }
  }

  lemma {:induction false} XRunToEnd(w: World, t: Tid) returns (ws: seq<World>, xs: seq<Pick>)
    requires WorldOk(w) && t in w.phases && t in w.s.pcs && XUndisturbed(w, t) && !w.phases[t].Resting?
    ensures XSolo(ws, t, xs) && ws[0] == w && t in ws[|xs|].phases && ws[|xs|].phases[t].Answer?
    decreases Left(w, t)
  {
    hide WorldOk, Ready, Turn, Left, XUndisturbed;
    Known(w, t);
    if w.phases[t].Answer? {
      ws, xs := [w], [];
    } else {
      var x := XSoloMoves(w, t);
      TurnKeepsWorld(w, t, x);
      TurnLowers(w, t, x);
      StillCalling(w, t, x);
      XUndisturbedStays(w, t, x);
      ws, xs := XRunToEnd(Turn(w, t, x), t);
      XSoloGrows(ws, t, xs, w, x);
      ws, xs := [w] + ws, [x] + xs;
    }
  }

  /** However a call runs alone, it takes few steps, and has done what it is for when it answers. */
  lemma XCallEnds(ws: seq<World>, t: Tid, xs: seq<Pick>)
    requires XSolo(ws, t, xs) && Begins(ws[0].phases[t])
    ensures |xs| <= 12 * |ws[0].s.v.tree.low| + 39 && t in ws[|xs|].phases
    ensures ws[|xs|].phases[t].Answer? ==>
              var op, w, w' := ws[0].phases[t].op, ws[0], ws[|xs|];
              && w'.phases[t].op == op && Performs(op, ValueOf(w, op.key), ValueOf(w', op.key), w'.phases[t].res)
              && forall k :: k != op.key ==> ValueOf(w', k) == ValueOf(w, k)
    ensures !ws[|xs|].phases[t].Answer? ==> XUndisturbed(ws[|xs|], t) ==> exists x :: Ready(ws[|xs|], t, x)
  {
    hide WorldOk, Ready, Turn, ValueOf, XUndisturbed, StatusOf;
    XSoloEnds(ws, t, xs, |xs|);
    XSoloEffect(ws, t, xs, |xs|);
    XSoloOk(ws, t, xs, |xs|);
    if !ws[|xs|].phases[t].Answer? && XUndisturbed(ws[|xs|], t) {
      var x := XSoloMoves(ws[|xs|], t);
    }
  }

  /** A call that begins while nobody else holds a lock or a side of the barrier, and then runs alone, returns. */
  lemma XCallReturns(w: World, t: Tid) returns (ws: seq<World>, xs: seq<Pick>)
    requires WorldOk(w) && t in w.phases && XUndisturbed(w, t) && Begins(w.phases[t])
    ensures XSolo(ws, t, xs) && ws[0] == w && |xs| <= 12 * |w.s.v.tree.low| + 39
    ensures t in ws[|xs|].phases && ws[|xs|].phases[t].Answer? && ws[|xs|].phases[t].op == w.phases[t].op
    ensures var op, w' := w.phases[t].op, ws[|xs|];
            && Performs(op, ValueOf(w, op.key), ValueOf(w', op.key), w'.phases[t].res)
            && forall k :: k != op.key ==> ValueOf(w', k) == ValueOf(w, k)
  {
    hide WorldOk, Ready, Turn, ValueOf, XUndisturbed;
    Known(w, t);
    ws, xs := XRunToEnd(w, t);
    XCallEnds(ws, t, xs);
  }
}

/**
 Theorems over whole runs of the concurrent map, from any quiescent well-formed tree:
 no corruption error, linearizability, listener order, tiling of every level, growth
 of the root, and freedom from deadlock.
 */
module BLinkTheorems {
  import opened Basics
  import opened BLinkTree
  import opened BLinkMachine
  import opened BLinkInvariant
  import opened BLinkSteps
  import opened BLinkRuns
  import opened BLinkRefinement

  // ---------- runs ----------

  /** Nobody is busy: as after creating or opening a map. */
  ghost predicate Initial(s: State) {
    && (forall t :: t in s.pcs ==> s.pcs[t] == Idle)
    && s.v.locks == map[] && s.v.hidden == map[] && s.v.hot == map[] && s.v.pend == map[]
    && s.v.growing == None && !s.v.appending && s.v.pubs == [] && s.v.events == []
    && TreePart(s.v) && RootPart(s.v) && RootShaped(s.v.tree.nodes[s.v.root])
  }

  datatype Act = Act(t: Tid, x: Choice)

  ghost predicate IsRun(ss: seq<State>, acts: seq<Act>) {
    && |ss| == |acts| + 1 && Initial(ss[0])
    && forall i :: 0 <= i < |acts| ==> Can(ss[i], acts[i].t, acts[i].x) && ss[i + 1] == Next(ss[i], acts[i].t, acts[i].x)
  }

  /** A new map: one empty leaf that is the root. */
  function Created(max: nat, ptr: Recid, r: Recid, ts: set<Tid>): State {
    State(
      Shared(Tree(map[r := Leaf(true, true, 0, [], [], None)], map[r := NegInf], map[r := 0]),
             max, ptr, r, [r], map[], {r}, map[], map[], map[], None, false, [], []),
      map t | t in ts :: Idle)
  }

  lemma CreatedIsInitial(max: nat, ptr: Recid, r: Recid, ts: set<Tid>)
    requires max >= 4 && r != 0 && ptr != r
    ensures Initial(Created(max, ptr, r, ts))
    ensures forall k :: Lookup(Created(max, ptr, r, ts).v.tree, k) == None
  {
    var v := Created(max, ptr, r, ts).v;
    assert NodeOk(v.tree, {}, max, r);
    assert EdgeOk(v, 0);
    assert ShapedIsRoot(v, r);
  }

  lemma InitialInv(s: State)
    requires Initial(s)
    ensures Inv(s)
  {
    forall k ensures KeyInOrder(s.v, k) {
    }
    forall t | t in s.pcs ensures Thread(s.v, t, s.pcs[t]) {
    }
  }

  /** Every state of every run satisfies the invariant. */
  lemma {:induction false} RunInv(ss: seq<State>, acts: seq<Act>, i: nat)
    requires IsRun(ss, acts) && i < |ss|
    ensures Inv(ss[i])
  {
    hide Inv, Initial, Next;
    if i == 0 {
      InitialInv(ss[0]);
    } else {
      RunInv(ss, acts, i - 1);
      StepKeepsInv(ss[i - 1], acts[i - 1].t, acts[i - 1].x);
    }
  }

  /** The corruption errors (duplicate separator, wrong node kind, edge out of order) are unreachable. */
  lemma NeverFaults(ss: seq<State>, acts: seq<Act>, i: nat, t: Tid)
    requires IsRun(ss, acts) && i < |ss| && t in ss[i].pcs
    ensures !ss[i].pcs[t].Fault?
  {
    hide SharedOk, Initial;
    RunInv(ss, acts, i);
    assert Thread(ss[i].v, t, ss[i].pcs[t]);
    NotFaulted(ss[i].v, t, ss[i].pcs[t]);
  }

  // ---------- linearizability ----------

  ghost function Seen(s: State, t: Tid): Status
    requires t in s.pcs
  {
    StatusOf(s.v.tree, s.pcs[t])
  }

  /** A step is atomic for the thread that takes it and unseen by the callers of the others. */
  lemma RunStep(ss: seq<State>, acts: seq<Act>, i: nat)
    requires IsRun(ss, acts) && i < |acts|
    ensures ss[i + 1].pcs.Keys == ss[i].pcs.Keys && acts[i].t in ss[i].pcs
    ensures Atomic(Seen(ss[i], acts[i].t), Seen(ss[i + 1], acts[i].t), ss[i].v, ss[i + 1].v)
    ensures forall u :: u in ss[i].pcs && u != acts[i].t ==> Seen(ss[i + 1], u) == Seen(ss[i], u)
  {
    hide SharedOk, PcOk, Accounts, Initial, Atomic, StatusOf, Step, CanMove, Guarantee;
    RunInv(ss, acts, i);
    var s, t, x := ss[i], acts[i].t, acts[i].x;
    assert Thread(s.v, t, s.pcs[t]);
    StepAtomic(s.v, t, s.pcs[t], x);
    EveryStepGood(s.v, t, s.pcs[t], x);
    forall u | u in s.pcs && u != t ensures Seen(ss[i + 1], u) == Seen(s, u) {
      assert Thread(s.v, u, s.pcs[u]);
      OthersUnmoved(s.v, ss[i + 1].v, t, u, s.pcs[u]);
    }
  }

  /** Threads are neither created nor lost. */
  lemma {:induction false} SameThreads(ss: seq<State>, acts: seq<Act>, i: nat)
    requires IsRun(ss, acts) && i < |ss|
    ensures ss[i].pcs.Keys == ss[0].pcs.Keys
  {
    if i > 0 {
      SameThreads(ss, acts, i - 1);
    }
  }

  /**
   A call pending at `a` that has settled by `b`, without returning in between, took
   its whole effect at one of its own steps `m` in that time: before `m` it is pending,
   after `m` its result is fixed.
   */
  lemma {:induction false} Linearizable(ss: seq<State>, acts: seq<Act>, t: Tid, a: nat, b: nat) returns (m: nat)
    requires IsRun(ss, acts) && a <= b < |ss| && t in ss[0].pcs
    requires forall i :: a <= i <= b ==> t in ss[i].pcs && !Seen(ss[i], t).Quiet?
    requires Seen(ss[a], t).Pending? && Seen(ss[b], t).Settled?
    ensures a <= m < b && acts[m].t == t
    ensures var op := Seen(ss[a], t).op;
            && Seen(ss[b], t).op == op
            && TakesEffect(ss[m].v, ss[m + 1].v, op, Seen(ss[b], t).res)
            && (forall i :: a <= i <= m ==> Seen(ss[i], t) == Pending(op))
            && (forall i :: m < i <= b ==> Seen(ss[i], t) == Seen(ss[b], t))
    decreases b - a
  {
    hide Initial, StatusOf, TakesEffect, Invisible, Next, Can;
    RunStep(ss, acts, b - 1);
    if Seen(ss[b - 1], t).Pending? {
      m := b - 1;
      AllPending(ss, acts, t, a, b - 1);
    } else {
      m := Linearizable(ss, acts, t, a, b - 1);
    }
  }

  /** A call that is still pending has been pending since it began. */
  lemma {:induction false} AllPending(ss: seq<State>, acts: seq<Act>, t: Tid, a: nat, b: nat)
    requires IsRun(ss, acts) && a <= b < |ss| && t in ss[0].pcs
    requires forall i :: a <= i <= b ==> t in ss[i].pcs && !Seen(ss[i], t).Quiet?
    requires Seen(ss[b], t).Pending?
    ensures forall i :: a <= i <= b ==> Seen(ss[i], t) == Seen(ss[b], t)
    decreases b - a
  {
    hide Initial, StatusOf, TakesEffect, Invisible, Next, Can;
    if a < b {
      RunStep(ss, acts, b - 1);
      AllPending(ss, acts, t, a, b - 1);
    }
  }

  /**
   What a caller can rely on, from the beginning of a call to its return: at one step of
   its own in between, the call met `was` under its key and performed exactly what it is
   for, together with its report to the listeners, and left every other key alone.
   */
  lemma CallPerforms(ss: seq<State>, acts: seq<Act>, t: Tid, a: nat, b: nat) returns (m: nat)
    requires IsRun(ss, acts) && a <= b < |ss| && t in ss[0].pcs
    requires forall i :: a <= i <= b ==> t in ss[i].pcs && !ss[i].pcs[t].Idle?
    requires ss[a].pcs[t].Begin? && ss[b].pcs[t].Done?
    ensures a <= m < b && acts[m].t == t && ss[b].pcs[t].op == ss[a].pcs[t].op
    ensures var op, res, v, v' := ss[a].pcs[t].op, ss[b].pcs[t].res, ss[m].v, ss[m + 1].v;
            var was, now := Lookup(v.tree, op.key), Lookup(v'.tree, op.key);
            && Performs(op, was, now, res)
            && v'.pubs == v.pubs + (if Reported(op, was, res) then [Event(op.key, was, now)] else [])
            && forall k :: k != op.key ==> Lookup(v'.tree, k) == Lookup(v.tree, k)
  {
    hide Next, Can, Lookup, Initial;
    forall i | a <= i <= b ensures !Seen(ss[i], t).Quiet? {
      NeverFaults(ss, acts, i, t);
    }
    m := Linearizable(ss, acts, t, a, b);
  }

  datatype Effect = Effect(op: Op, res: Option<Value>)

  /** The calls of a run in the order in which they took effect. */
  ghost function History(ss: seq<State>, acts: seq<Act>, n: nat): seq<Effect>
    requires IsRun(ss, acts) && n < |ss|
  {
    if n == 0 then []
    else
      var a, a' := Seen(ss[n - 1], acts[n - 1].t), Seen(ss[n], acts[n - 1].t);
      History(ss, acts, n - 1) + (if a.Pending? && a'.Settled? then [Effect(a'.op, a'.res)] else [])
  }

  /** Value of `k` after a sequential execution of `es` that starts with `was` under it. */
  function Replay(was: Option<Value>, es: seq<Effect>, k: Key): Option<Value> {
    if es == [] then was
    else
      var w, e := Replay(was, es[..|es| - 1], k), es[|es| - 1];
      if e.op.key == k then After(e.op, w) else w
  }

  lemma ReplayAppend(was: Option<Value>, es: seq<Effect>, e: Effect, k: Key)
    ensures Replay(was, es + [e], k) == if e.op.key == k then After(e.op, Replay(was, es, k)) else Replay(was, es, k)
  {
    assert (es + [e])[..|es + [e]| - 1] == es;
  }

  /** Call `i` of a sequential execution performs what it is for. */
  ghost predicate Explained(was: Option<Value>, es: seq<Effect>, i: nat)
    requires i < |es|
  {
    Performs(es[i].op, Replay(was, es[..i], es[i].op.key), Replay(was, es[..i + 1], es[i].op.key), es[i].res)
  }

  lemma ExplainedStays(was: Option<Value>, es: seq<Effect>, e: Effect, i: nat)
    requires i < |es| && Explained(was, es, i)
    ensures Explained(was, es + [e], i)
  {
    assert (es + [e])[..i] == es[..i] && (es + [e])[..i + 1] == es[..i + 1] && (es + [e])[i] == es[i];
  }

  lemma ExplainedLast(was: Option<Value>, es: seq<Effect>, e: Effect, now: Option<Value>)
    requires Performs(e.op, Replay(was, es, e.op.key), now, e.res)
    ensures Explained(was, es + [e], |es|) && Replay(was, es + [e], e.op.key) == now
  {
    hide Performs, Replay;
    PerformsIs(e.op, Replay(was, es, e.op.key), now, e.res);
    ReplayAppend(was, es, e, e.op.key);
    assert (es + [e])[..|es|] == es && (es + [e])[..|es| + 1] == es + [e];
  }

  /** Executing `es` one after another on an initial map gives each call its recorded result. */
  ghost predicate Legal(t0: Tree, es: seq<Effect>) {
    forall i :: 0 <= i < |es| ==> Explained(Lookup(t0, es[i].op.key), es, i)
  }

  lemma LegalAppend(t0: Tree, es: seq<Effect>, e: Effect, now: Option<Value>)
    requires Legal(t0, es) && Performs(e.op, Replay(Lookup(t0, e.op.key), es, e.op.key), now, e.res)
    ensures Legal(t0, es + [e]) && Replay(Lookup(t0, e.op.key), es + [e], e.op.key) == now
  {
    hide Explained, Performs, Lookup, Replay;
    var es' := es + [e];
    ExplainedLast(Lookup(t0, e.op.key), es, e, now);
    forall i | 0 <= i < |es'| ensures Explained(Lookup(t0, es'[i].op.key), es', i) {
      if i < |es| {
        ExplainedStays(Lookup(t0, es[i].op.key), es, e, i);
      }
    }
  }

  /**
   The calls of every run, in effect order, are a sequential execution in which each
   performs what it is for; it explains all results and the contents.
   */
  lemma {:induction false} HistoryIsSequential(ss: seq<State>, acts: seq<Act>, n: nat)
    requires IsRun(ss, acts) && n < |ss|
    ensures Legal(ss[0].v.tree, History(ss, acts, n))
    ensures forall k :: Lookup(ss[n].v.tree, k) == Replay(Lookup(ss[0].v.tree, k), History(ss, acts, n), k)
  {
    hide Initial, Seen, Next, Can, Lookup, Legal, Replay, Performs;
    if n == 0 {
      NoEffects(ss[0].v.tree);
    } else {
      HistoryIsSequential(ss, acts, n - 1);
      RunStep(ss, acts, n - 1);
      var t0, es, t := ss[0].v.tree, History(ss, acts, n - 1), acts[n - 1].t;
      var a, a' := Seen(ss[n - 1], t), Seen(ss[n], t);
      if a.Pending? && a'.Settled? {
        var e := Effect(a'.op, a'.res);
        LegalAppend(t0, es, e, Lookup(ss[n].v.tree, e.op.key));
        forall k ensures Lookup(ss[n].v.tree, k) == Replay(Lookup(t0, k), es + [e], k) {
          ReplayAppend(Lookup(t0, k), es, e, k);
        }
      } else {
        assert es + [] == es;
      }
    }
  }

  lemma NoEffects(t0: Tree)
    ensures Legal(t0, []) && forall was, k :: Replay(was, [], k) == was
  {
  }

  // ---------- listeners ----------

  /** Reported changes of one key lead from `was` to `now`, each starting where the one before ended. */
  predicate Chained(was: Option<Value>, es: seq<Event>, now: Option<Value>) {
    if es == [] then was == now
    else es[|es| - 1].now == now && Chained(was, es[..|es| - 1], es[|es| - 1].was)
  }

  lemma ChainAppend(was: Option<Value>, es: seq<Event>, e: Event)
    requires Chained(was, es, e.was)
    ensures Chained(was, es + [e], e.now)
  {
    assert (es + [e])[..|es + [e]| - 1] == es;
  }

  /** The published changes of a key explain how its value came about. */
  lemma {:induction false} ChangesChain(ss: seq<State>, acts: seq<Act>, n: nat, k: Key)
    requires IsRun(ss, acts) && n < |ss|
    ensures Chained(Lookup(ss[0].v.tree, k), ForKey(ss[n].v.pubs, k), Lookup(ss[n].v.tree, k))
  {
    hide Next, Can, Lookup, Seen, TreePart, RootPart;
    if n > 0 {
      ChangesChain(ss, acts, n - 1, k);
      RunStep(ss, acts, n - 1);
      var v, v', t := ss[n - 1].v, ss[n].v, acts[n - 1].t;
      var a, a' := Seen(ss[n - 1], t), Seen(ss[n], t);
      if a.Pending? && a'.Settled? && Reported(a.op, Lookup(v.tree, a.op.key), a'.res) {
        var e := Event(a.op.key, Lookup(v.tree, a.op.key), Lookup(v'.tree, a.op.key));
        ForKeyAppend(v.pubs, e, k);
        if k == a.op.key {
          ChainAppend(Lookup(ss[0].v.tree, k), ForKey(v.pubs, k), e);
        } else {
          assert ForKey(v'.pubs, k) == ForKey(v.pubs, k);
        }
      } else {
        assert v'.pubs == v.pubs;
      }
    }
  }

  /**
   Listeners hear of each key's changes in the order in which they were published, each
   once, and lag behind by at most the one change whose writer still holds its leaf.
   */
  lemma ListenersInOrder(ss: seq<State>, acts: seq<Act>, n: nat, k: Key)
    requires IsRun(ss, acts) && n < |ss|
    ensures var v := ss[n].v;
            if k in v.hot
            then ForKey(v.pubs, k) == ForKey(v.events, k) + [v.hot[k].event] && v.hot[k].event.key == k
            else ForKey(v.pubs, k) == ForKey(v.events, k)
    ensures k !in ss[n].v.hot ==> Chained(Lookup(ss[0].v.tree, k), ForKey(ss[n].v.events, k), Lookup(ss[n].v.tree, k))
  {
    hide Initial, Next, Can, Lookup, TreePart, RootPart, HiddenPart, Chained, ForKey;
    RunInv(ss, acts, n);
    ChangesChain(ss, acts, n, k);
    assert KeyInOrder(ss[n].v, k);
    assert k in ss[n].v.hot ==> HotOk(ss[n].v, k);
  }
}

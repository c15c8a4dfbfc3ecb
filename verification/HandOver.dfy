/**
 A run in which a unique index loses an entry although the map never holds two entries
 with the same derived key.  Key 1 gives up the value 7 and then key 2 takes it, in
 different leaves; the listener of the second change runs before that of the first.
 */
module HandOver {
  import opened Basics
  import opened BLinkTree
  import opened BLinkMachine
  import opened BLinkTheorems
  import opened BLinkOpen
  import opened Bindings

  // ---------- the map ----------

  function LeafOne(): Node { Leaf(true, false, 2, [1], [7], Some(1)) }
  function LeafTwo(): Node { Leaf(false, true, 0, [], [], None) }
  function Top(): Node { Dir(true, true, 0, [1], [1, 2]) }

  /** Two leaves: key 1 in the first, nothing in the second. */
  function Small(): Tree {
    Tree(map[1 := LeafOne(), 2 := LeafTwo(), 3 := Top()], map[1 := NegInf, 2 := Fin(1), 3 := NegInf], map[1 := 0, 2 := 0, 3 := 1])
  }

  function Before(): State {
    Opened(Small(), 4, 9, 3, [1, 3], {1, 2})
  }

  lemma SmallOk()
    ensures TreeOk(Small(), {}, 4)
  {
    var t := Small();
    assert NodeOk(t, {}, 4, 1) && NodeOk(t, {}, 4, 2);
    assert ChildOk(t, {}, 1, ChildLow(Top(), NegInf, 0), 1) && ChildOk(t, {}, 2, ChildLow(Top(), NegInf, 1), 1);
    assert NodeOk(t, {}, 4, 3);
  }

  lemma BeforeIsInitial()
    ensures Initial(Before())
  {
    hide TreeOk, Initial;
    SmallOk();
    assert Leftmost(Small(), 1, 0) && Leftmost(Small(), 3, 1);
    OpenedIsInitial(Small(), 4, 9, 3, [1, 3], {1, 2});
  }

  lemma BeforeHolds(k: Key)
    ensures Lookup(Before().v.tree, k) == if k == 1 then Some(7) else None
  {
    hide TreeOk;
    SmallOk();
    LookupAtCover(Small(), {}, 4, if k <= 1 then 1 else 2, k);
  }

  // ---------- the run ----------

  /** A run, its listeners' accesses, and the state and ear they have come to. */
  datatype Tape = Tape(ss: seq<State>, acts: seq<Act>, ears: seq<Ear>, hs: seq<Half>)

  ghost predicate Plays(p: Tape, s: State, log: seq<Event>, drawn: set<Key>) {
    && IsListening(p.ss, p.acts, p.ears, p.hs)
    && p.ss[0] == Before() && p.ss[|p.acts|] == s && p.ears[|p.hs|] == Ear(|p.acts|, log, drawn)
  }

  /** Accesses heard so far are heard in a longer run too. */
  lemma Longer(ss: seq<State>, acts: seq<Act>, ss': seq<State>, acts': seq<Act>, a: Ear, h: Half)
    requires ss <= ss' && acts <= acts' && |ss| == |acts| + 1 && CanHear(ss, acts, a, h)
    ensures CanHear(ss', acts', a, h) && Hear(ss', acts', a, h) == Hear(ss, acts, a, h)
  {
  }

  lemma HearMore(p: Tape, ss: seq<State>, acts: seq<Act>, h: Half) returns (q: Tape)
    requires IsListening(p.ss, p.acts, p.ears, p.hs) && IsRun(ss, acts) && p.ss <= ss && p.acts <= acts
    requires CanHear(ss, acts, p.ears[|p.hs|], h)
    ensures q.ss == ss && q.acts == acts && IsListening(ss, acts, q.ears, q.hs) && |q.hs| == |p.hs| + 1
    ensures q.ears[|q.hs|] == Hear(ss, acts, p.ears[|p.hs|], h)
  {
    q := Tape(ss, acts, p.ears + [Hear(ss, acts, p.ears[|p.hs|], h)], p.hs + [h]);
    hide CanHear, Hear;
    forall i | 0 <= i < |q.hs| ensures CanHear(ss, acts, q.ears[i], q.hs[i]) && q.ears[i + 1] == Hear(ss, acts, q.ears[i], q.hs[i]) {
      if i < |p.hs| {
        Longer(p.ss, p.acts, ss, acts, p.ears[i], p.hs[i]);
      }
    }
  }

  lemma Extend(ss: seq<State>, acts: seq<Act>, t: Tid, x: Choice) returns (ss': seq<State>, acts': seq<Act>)
    requires IsRun(ss, acts) && Can(ss[|acts|], t, x)
    ensures IsRun(ss', acts') && ss <= ss' && acts <= acts' && |ss'| == |acts'| + 1 == |acts| + 2
    ensures ss'[|acts|] == ss[|acts|] && acts'[|acts|] == Act(t, x) && ss'[|acts'|] == Next(ss[|acts|], t, x)
  {
    hide Initial, Can, Next;
    ss', acts' := ss + [Next(ss[|acts|], t, x)], acts + [Act(t, x)];
  }

  /** A step of thread `t`, which was at `pc`, to `pc'`; the listener it may be calling claims. */
  lemma Play(p: Tape, v: Shared, pcs: map<Tid, Pc>, t: Tid, pc: Pc, x: Choice, pc': Pc, v': Shared, log: seq<Event>, drawn: set<Key>)
    returns (q: Tape)
    requires Plays(p, State(v, pcs[t := pc]), log, drawn) && CanMove(v, pc, x) && Step(v, t, pc, x) == Move(pc', v')
    requires pc.Firing? ==> pc.event.key in drawn
    ensures Plays(q, State(v', pcs[t := pc']),
                  if pc.Firing? then log + [Event(pc.event.key, None, pc.event.now)] else log,
                  if pc.Firing? then drawn - {pc.event.key} else drawn)
  {
    hide Initial, CanMove, Step;
    var ss, acts := Extend(p.ss, p.acts, t, x);
    assert pcs[t := pc][t := pc'] == pcs[t := pc'];
    q := HearMore(p, ss, acts, Pass);
  }

  /** The listener that `t` is calling withdraws. */
  lemma PlayDraw(p: Tape, s: State, t: Tid, log: seq<Event>, drawn: set<Key>) returns (q: Tape)
    requires Plays(p, s, log, drawn) && t in s.pcs && s.pcs[t].Firing? && s.pcs[t].event.key !in drawn
    ensures var e := s.pcs[t].event; Plays(q, s, log + [Event(e.key, e.was, None)], drawn + {e.key})
  {
    hide IsRun;
    RunLength(p.ss, p.acts);
    q := HearMore(p, p.ss, p.acts, Draw(t));
  }

  lemma RunLength(ss: seq<State>, acts: seq<Act>)
    requires IsRun(ss, acts)
    ensures |ss| == |acts| + 1
  {
  }

  /** The tree of a state still has the directory, and the leaf of `op` as it was. */
  ghost predicate Intact(v: Shared, op: Op, leaf: Recid, n: Node) {
    && 3 in v.roots && leaf !in v.locks && 3 in v.tree.nodes && v.tree.nodes[3] == Top()
    && leaf in v.tree.nodes && v.tree.nodes[leaf] == n && n.Leaf? && !BeyondLeaf(n, op.key)
    && !op.Get? && leaf == if op.key <= 1 then 1 else 2
  }

  /** An idle writer walks from the root to its leaf, locks and reads it. */
  lemma Walk(p: Tape, v: Shared, pcs: map<Tid, Pc>, t: Tid, op: Op, leaf: Recid, n: Node, log: seq<Event>, drawn: set<Key>)
    returns (q: Tape)
    requires Plays(p, State(v, pcs[t := Idle]), log, drawn) && Intact(v, op, leaf, n)
    ensures Plays(q, State(v.(locks := v.locks[leaf := t]), pcs[t := LeafOwned(op, leaf, n, if op.Put? then [3] else [])]), log, drawn)
  {
    hide Plays;
    var x, path := Choice(op, 3), if op.Put? then [3] else [];
    assert Rank([1], op.key) == leaf - 1 && [] + [3] == [3];
    q := Play(p, v, pcs, t, Idle, x, Begin(op), v, log, drawn);
    q := Play(q, v, pcs, t, Begin(op), x, Descending(op, 3, []), v, log, drawn);
    q := Play(q, v, pcs, t, Descending(op, 3, []), x, Descending(op, leaf, path), v, log, drawn);
    q := Play(q, v, pcs, t, Descending(op, leaf, path), x, LeafWait(op, leaf, path), v, log, drawn);
    var v' := v.(locks := v.locks[leaf := t]);
    q := Play(q, v, pcs, t, LeafWait(op, leaf, path), x, LeafHeld(op, leaf, path), v', log, drawn);
    q := Play(q, v', pcs, t, LeafHeld(op, leaf, path), x, LeafOwned(op, leaf, n, path), v', log, drawn);
  }

  function Gave(): Event { Event(1, Some(7), None) }
  function Took(): Event { Event(2, None, Some(7)) }

  /** What the listeners do, in order: both accesses for key 2, then both for key 1. */
  function Heard(): seq<Event> {
    [Event(2, None, None), Event(2, None, Some(7)), Event(1, Some(7), None), Event(1, None, None)]
  }

  /** Thread 1 removes key 1 up to its listener call. */
  lemma GiveUp() returns (p: Tape, v: Shared, pcs: map<Tid, Pc>)
    ensures Plays(p, State(v, pcs), [], {}) && pcs == map[1 := Firing(Remove(1, None), 1, Gave(), None), 2 := Idle]
    ensures v == Before().v.(tree := EditLeaf(Small(), 1, [], []), locks := map[1 := 1], pubs := [Gave()], hot := map[1 := Hot(1, Gave())])
  {
    hide Plays, Initial;
    var op, v0, all := Remove(1, None), Before().v, map[1 := Idle, 2 := Idle];
    p := Tape([Before()], [], [Ear(0, [], {})], []);
    assert Before() == State(v0, all[1 := Idle]);
    Starts(p);
    p := Walk(p, v0, all, 1, op, 1, LeafOne(), [], {});
    var v1 := v0.(locks := v0.locks[1 := 1]);
    var pc, pc' := LeafOwned(op, 1, LeafOne(), []), Firing(op, 1, Gave(), None);
    v := Before().v.(tree := EditLeaf(Small(), 1, [], []), locks := map[1 := 1], pubs := [Gave()], hot := map[1 := Hot(1, Gave())]);
    GiveStep(v1, v);
    p := Play(p, v1, all, 1, pc, Choice(op, 0), pc', v, [], {});
    pcs := all[1 := pc'];
  }

  lemma Starts(p: Tape)
    requires p == Tape([Before()], [], [Ear(0, [], {})], [])
    ensures Plays(p, Before(), [], {})
  {
    hide Initial;
    BeforeIsInitial();
  }

  lemma GiveStep(v1: Shared, v: Shared)
    requires v1 == Before().v.(locks := Before().v.locks[1 := 1])
    requires v == Before().v.(tree := EditLeaf(Small(), 1, [], []), locks := map[1 := 1], pubs := [Gave()], hot := map[1 := Hot(1, Gave())])
    ensures var op := Remove(1, None);
            Step(v1, 1, LeafOwned(op, 1, LeafOne(), []), Choice(op, 0)) == Move(Firing(op, 1, Gave(), None), v)
  {
    var op, n := Remove(1, None), LeafOne();
    assert Rank([1], 1) == 0 && DeleteAt([1], 0) == [] && DeleteAt([7], 0) == [];
    assert NewKeys(op, n) == [] && NewVals(op, n) == [] && LeafGet(n, 1) == Some(7);
  }

  lemma SecondLeafStays(v: Shared)
    requires v.roots == {3} && v.locks == map[1 := 1] && v.tree == EditLeaf(Small(), 1, [], [])
    ensures Intact(v, Put(2, 7, false), 2, LeafTwo())
  {
  }

  lemma TakeStep(v1: Shared, v2: Shared)
    requires v1.max == 4 && v1.pubs == [Gave()] && 2 in v1.tree.nodes && v1.tree.nodes[2] == LeafTwo()
    requires v2 == v1.(tree := EditLeaf(v1.tree, 2, [2], [7]), pubs := [Gave(), Took()], hot := v1.hot[2 := Hot(2, Took())])
    ensures var op := Put(2, 7, false);
            Step(v1, 2, LeafOwned(op, 2, LeafTwo(), [3]), Choice(op, 0)) == Move(Firing(op, 2, Took(), None), v2)
  {
    var op, n := Put(2, 7, false), LeafTwo();
    assert InsertAt([], 0, 2) == [2] && InsertAt([], 0, 7) == [7];
    assert NewKeys(op, n) == [2] && NewVals(op, n) == [7] && LeafGet(n, 2) == None;
    assert [Gave()] + [Took()] == [Gave(), Took()];
  }

  /** Then thread 2 puts 7 under key 2, up to its listener call. */
  lemma TakeOver() returns (p: Tape, v: Shared, pcs: map<Tid, Pc>)
    ensures Plays(p, State(v, pcs), [], {}) && v.pubs == [Gave(), Took()] && v.events == []
    ensures v.hot == map[1 := Hot(1, Gave()), 2 := Hot(2, Took())]
    ensures pcs == map[1 := Firing(Remove(1, None), 1, Gave(), None), 2 := Firing(Put(2, 7, false), 2, Took(), None)]
  {
    hide Plays;
    var v0, pcs0;
    p, v0, pcs0 := GiveUp();
    var op := Put(2, 7, false);
    assert pcs0 == pcs0[2 := Idle];
    SecondLeafStays(v0);
    hide EditLeaf, Intact;
    p := Walk(p, v0, pcs0, 2, op, 2, LeafTwo(), [], {});
    var v1 := v0.(locks := v0.locks[2 := 2]);
    var pc2 := Firing(op, 2, Took(), None);
    v := v1.(tree := EditLeaf(v1.tree, 2, [2], [7]), pubs := [Gave(), Took()], hot := v1.hot[2 := Hot(2, Took())]);
    TakeStep(v1, v);
    p := Play(p, v1, pcs0, 2, LeafOwned(op, 2, LeafTwo(), [3]), Choice(op, 0), pc2, v, [], {});
    pcs := pcs0[2 := pc2];
  }

  /** The whole call of a listener: it withdraws, claims and returns. */
  lemma Report(p: Tape, v: Shared, pcs: map<Tid, Pc>, t: Tid, op: Op, cur: Recid, e: Event, log: seq<Event>)
    returns (q: Tape, v': Shared, pcs': map<Tid, Pc>)
    requires Plays(p, State(v, pcs), log, {}) && t in pcs && pcs[t] == Firing(op, cur, e, None)
    ensures Plays(q, State(v', pcs'), log + [Event(e.key, e.was, None)] + [Event(e.key, None, e.now)], {})
    ensures v' == v.(events := v.events + [e], hot := v.hot - {e.key}) && pcs' == pcs[t := LeafFree(op, cur, Reply(op, e.was), None)]
  {
    hide Plays;
    q := PlayDraw(p, State(v, pcs), t, log, {});
    assert pcs[t := pcs[t]] == pcs && {} + {e.key} == {e.key} && {e.key} - {e.key} == {};
    v' := v.(events := v.events + [e], hot := v.hot - {e.key});
    var free := LeafFree(op, cur, Reply(op, e.was), None);
    q := Play(q, v, pcs, t, pcs[t], Choice(op, 0), free, v', log + [Event(e.key, e.was, None)], {e.key});
    pcs' := pcs[t := free];
  }

  /** Both listeners run, that of key 2 first. */
  lemma BothReport() returns (p: Tape, s: State)
    ensures Plays(p, s, Heard(), {})
    ensures s.v.pubs == [Gave(), Took()] && s.v.events == [Took(), Gave()] && s.v.hot == map[]
  {
    hide Plays;
    var v, pcs;
    p, v, pcs := TakeOver();
    p, v, pcs := Report(p, v, pcs, 2, Put(2, 7, false), 2, Took(), []);
    var log := [] + [Event(2, None, None)] + [Event(2, None, Some(7))];
    p, v, pcs := Report(p, v, pcs, 1, Remove(1, None), 1, Gave(), log);
    assert log + [Event(1, Some(7), None)] + [Event(1, None, None)] == Heard();
    s := State(v, pcs);
  }

  // ---------- what is known along the way ----------

  function Seven(): Base {
    (k: Key) => if k == 1 then Some(7) else None
  }

  function Same(): (Key, Value) -> Value {
    (k: Key, x: Value) => x
  }

  lemma KnownHeard(k: Key, n: nat)
    requires n <= 4
    ensures Known(Seven(), Heard()[..n], k) == if k == 1 && n < 3 then Some(7) else if k == 2 && n >= 2 then Some(7) else None
  {
    if n > 0 {
      KnownHeard(k, n - 1);
      assert Heard()[..n] == Heard()[..n - 1] + [Heard()[n - 1]];
      KnownAppend(Seven(), Heard()[..n - 1], Heard()[n - 1], k);
    }
  }

  lemma KnownPublished(k: Key, n: nat)
    requires n <= 2
    ensures Known(Seven(), [Gave(), Took()][..n], k) == if k == 1 && n == 0 then Some(7) else if k == 2 && n == 2 then Some(7) else None
  {
    var es := [Gave(), Took()];
    if n > 0 {
      KnownPublished(k, n - 1);
      assert es[..n] == es[..n - 1] + [es[n - 1]];
      KnownAppend(Seven(), es[..n - 1], es[n - 1], k);
    }
  }

  /** In the order of publication the derived keys are always unique: the map never holds 7 twice. */
  lemma NeverTwice(n: nat)
    requires n <= 2
    ensures Unique(Same(), Seven(), [Gave(), Took()][..n])
  {
    hide Known;
    var es := [Gave(), Took()][..n];
    forall j, k
      ensures var x, y := Known(Seven(), es, j), Known(Seven(), es, k);
              x.Some? && y.Some? && Same()(j, x.value) == Same()(k, y.value) ==> j == k
    {
      KnownPublished(j, n);
      KnownPublished(k, n);
    }
  }

  /**
   A run and an index that has heard it.  No two keys ever held 7, and at the end only key 2 does,
   all listeners have returned, and the index finds nothing under 7.
   */
  method LosesEntry() returns (index: SecondaryKey<Value>, took: bool, gave: bool, ghost p: Tape, ghost s: State)
    ensures Plays(p, s, Heard(), {}) && s.v.pubs == [Gave(), Took()] && s.v.events == [Took(), Gave()] && s.v.hot == map[]
    ensures forall n: nat :: n <= 2 ==> Unique(Same(), Seven(), [Gave(), Took()][..n])
    ensures forall k :: Lookup(p.ss[0].v.tree, k) == Seven()(k)
    ensures forall k :: Lookup(s.v.tree, k) == if k == 2 then Some(7) else None
    ensures fresh(index) && index.Valid() && index.heard == Heard() && index.base == Seven() && index.derive == Same()
    ensures !took && gave && forall k :: !At(index.secondary, 7, k)
  {
    hide Plays, Known, Unique, Lookup, Lost;
    p, s := BothReport();
    EndHolds(p, s);
    forall n: nat | n <= 2 ensures Unique(Same(), Seven(), [Gave(), Took()][..n]) {
      NeverTwice(n);
    }
    var f := Same();
    ghost var b := Seven();
    index := new SecondaryKey(f, b);
    var ok := index.Populate([Scan.Entry(1, 7)]);
    Prefixes();
    KnownHeard(2, 0);
    index.Withdraw(2, None);
    KnownHeard(2, 1);
    assert index.heard == Heard()[..1];
    RejectedHere();
    took := index.Claim(2, Some(7));
    assert index.heard == Heard()[..2];
    KnownHeard(1, 2);
    index.Withdraw(1, Some(7));
    assert index.heard == Heard()[..3];
    KnownHeard(1, 3);
    gave := index.Claim(1, None);
    assert index.heard == Heard();
    LostHere();
    forall k ensures !At(index.secondary, 7, k) {
      KnownHeard(k, 4);
      assert index.Agrees(k, Known(b, Heard(), k), Lost(f, b, Heard()));
    }
  }

  lemma Prefixes()
    ensures Heard()[..0] == [] && Heard()[..1] == [Heard()[0]] && Heard()[..2] == Heard()[..1] + [Heard()[1]]
    ensures Heard()[..3] == Heard()[..2] + [Heard()[2]] && Heard()[..4] == Heard()[..3] + [Heard()[3]] == Heard()
  {
  }

  /** Key 1 still holds 7 when key 2 claims it. */
  lemma RejectedHere()
    ensures Lost(Same(), Seven(), Heard()[..1]) == {}
    ensures !Claimable(Same(), Seven(), Heard()[..1], {}, Heard()[1])
  {
    Prefixes();
    LostAppend(Same(), Seven(), [], Heard()[0]);
    assert [] + [Heard()[0]] == Heard()[..1];
    KnownHeard(1, 1);
    assert Claims(Same(), Seven(), Heard()[..1], {}, 1, Same()(2, 7));
  }

  lemma LostHere()
    ensures 2 in Lost(Same(), Seven(), Heard())
  {
    hide Lost, Claimable, Known;
    Prefixes();
    RejectedHere();
    LostAppend(Same(), Seven(), Heard()[..1], Heard()[1]);
    LostAppend(Same(), Seven(), Heard()[..2], Heard()[2]);
    LostAppend(Same(), Seven(), Heard()[..3], Heard()[3]);
  }

  /** What the map holds at the start and at the end of the run. */
  lemma EndHolds(p: Tape, s: State)
    requires Plays(p, s, Heard(), {}) && s.v.hot == map[]
    ensures forall k :: Lookup(p.ss[0].v.tree, k) == Seven()(k)
    ensures forall k :: Lookup(s.v.tree, k) == if k == 2 then Some(7) else None
  {
    hide IsRun, Lookup, Known;
    ListeningOk(p.ss, p.acts, p.ears, p.hs, |p.hs|);
    assert Heard()[..4] == Heard();
    forall k ensures Lookup(p.ss[0].v.tree, k) == Seven()(k) {
      BeforeHolds(k);
    }
    forall k ensures Lookup(s.v.tree, k) == if k == 2 then Some(7) else None {
      KnownHeard(k, 4);
      KnownSame(BaseOf(p.ss[0].v.tree), Seven(), Heard(), k);
    }
  }

  lemma {:induction false} KnownSame(b: Base, c: Base, es: seq<Event>, k: Key)
    requires b(k) == c(k)
    ensures Known(b, es, k) == Known(c, es, k)
  {
    if es != [] {
      KnownSame(b, c, es[..|es| - 1], k);
    }
  }
}

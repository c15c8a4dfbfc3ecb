/**
 The descending scan of a map that is being written to.  It keeps copies of directories
 from one descent to the next; they may be stale, but what a directory says about where
 its children start stays true, so the bound still decreases with every leaf.
 */
module LiveScanDown {
  import opened Basics
  import opened BLinkTree
  import opened BLinkScan
  import opened BLinkTheorems
  import opened LiveScan

  // ---------- kept directories ----------

  /** The frame's node is a copy of a published directory that starts at the deepest separator on the path. */
  ghost predicate FrameLive(t: Tree, max: nat, stack: seq<Frame>, j: nat)
    requires j < |stack|
  {
    Snap(t, max, stack[j].recid, stack[j].node) && t.low[stack[j].recid] == BoundOf(DeepestSep(stack[..j + 1]))
  }

  ghost predicate FramesLive(t: Tree, max: nat, stack: seq<Frame>) {
    forall j {:trigger FrameLive(t, max, stack, j)} :: 0 <= j < |stack| ==> FrameLive(t, max, stack, j)
  }

  ghost predicate AllDirs(stack: seq<Frame>) {
    forall j :: 0 <= j < |stack| ==> stack[j].node.Dir?
  }

  /** Frames stay valid while the tree grows. */
  lemma FramesStay(t: Tree, t': Tree, max: nat, stack: seq<Frame>)
    requires FramesLive(t, max, stack) && Extends(t, t')
    ensures FramesLive(t', max, stack)
  {
    hide Snap, Extends;
    forall j | 0 <= j < |stack| ensures FrameLive(t', max, stack, j) {
      assert FrameLive(t, max, stack, j);
      SnapStays(t, t', max, stack[j].recid, stack[j].node);
    }
  }

  lemma LivePrefix(t: Tree, max: nat, stack: seq<Frame>, n: nat)
    requires FramesLive(t, max, stack) && n <= |stack|
    ensures FramesLive(t, max, stack[..n])
  {
    hide Snap;
    forall j | 0 <= j < n ensures FrameLive(t, max, stack[..n], j) {
      assert FrameLive(t, max, stack, j);
      assert stack[..n][..j + 1] == stack[..j + 1];
    }
  }

  lemma LivePush(t: Tree, max: nat, stack: seq<Frame>, f: Frame)
    requires FramesLive(t, max, stack) && Snap(t, max, f.recid, f.node)
    requires t.low[f.recid] == BoundOf(if f.sep.Some? then f.sep else DeepestSep(stack))
    ensures FramesLive(t, max, stack + [f]) && DeepestSep(stack + [f]) == if f.sep.Some? then f.sep else DeepestSep(stack)
  {
    hide Snap;
    var s := stack + [f];
    assert s[..|s| - 1] == stack && s[..|s|] == s;
    forall j | 0 <= j < |s| ensures FrameLive(t, max, s, j) {
      if j < |stack| {
        assert FrameLive(t, max, stack, j);
        assert s[..j + 1] == stack[..j + 1];
      }
    }
  }

  lemma LiveTop(t: Tree, max: nat, stack: seq<Frame>)
    requires stack != [] && FramesLive(t, max, stack)
    ensures var top := stack[|stack| - 1];
            Snap(t, max, top.recid, top.node) && t.low[top.recid] == BoundOf(DeepestSep(stack))
  {
    hide Snap;
    assert FrameLive(t, max, stack, |stack| - 1);
    assert stack[..|stack|] == stack;
  }

  /** Drop the frames that a tightened bound has moved left of. */
  method LiveDropFrames(stack0: seq<Frame>, hi: Option<Key>, ghost t: Tree, ghost max: nat) returns (stack: seq<Frame>)
    requires FramesLive(t, max, stack0) && AllDirs(stack0)
    ensures FramesLive(t, max, stack) && AllDirs(stack) && LeftOf(BoundOf(DeepestSep(stack)), hi) && (hi.None? ==> stack == [])
  {
    if hi.None? {
      return [];
    }
    stack := stack0;
    while true
      invariant FramesLive(t, max, stack) && AllDirs(stack)
      decreases |stack|
    {
      var p := DeepestAt(stack);
      if p.None? || stack[p.value].sep.value < hi.value {
        return;
      }
      LivePrefix(t, max, stack, p.value);
      stack := stack[..p.value];
    }
  }

  // ---------- going down for an upper bound ----------

  lemma SnapDownHi(t: Tree, max: nat, r: Recid, n: Node, hi: Option<Key>)
    requires Snap(t, max, r, n) && LeftOf(t.low[r], hi) && n.Dir?
    ensures var i := DownIndex(n, hi);
            if i.Some? then
              && i.value < |n.children| && i.value <= |n.keys| && n.children[i.value] in t.low && n.children[i.value] in t.level
              && t.level[n.children[i.value]] < t.level[r]
              && t.low[n.children[i.value]] == (if i.value > 0 then Fin(n.keys[i.value - 1]) else t.low[r])
              && LeftOf(t.low[n.children[i.value]], hi)
            else
              && |n.keys| > 0 && n.link in t.low && n.link in t.level && t.level[n.link] == t.level[r] > 0
              && t.low[n.link] == Fin(n.keys[|n.keys| - 1]) && LeftOf(t.low[n.link], hi) && Lt(t.low[r], t.low[n.link])
  {
    var i := DownIndex(n, hi);
    if i.Some? {
      assert ChildOk(t, {}, n.children[i.value], ChildLow(n, t.low[r], i.value), t.level[r]);
    }
  }

  /** Where a descent stands: directories, and on top one more or a leaf copied just now. */
  ghost predicate Standing(live: LiveMap, stack: seq<Frame>, step: Option<Key>, hi: Option<Key>)
    reads live
  {
    && live.Valid() && stack != [] && FramesLive(live.Cur(), live.ss[0].v.max, stack) && AllDirs(stack[..|stack| - 1])
    && step == DeepestSep(stack) && LeftOf(BoundOf(step), hi)
    && var top := stack[|stack| - 1];
       && top.recid in live.Cur().low && top.recid in live.Cur().level
       && (top.node.Leaf? ==> LeafCopy(live.ss, live.now, top.recid, top.node))
  }

  /** Load a node and put it on top of `base`. */
  method Stack(live: LiveMap, base: seq<Frame>, r: Recid, sep: Option<Key>, hi: Option<Key>)
    returns (stack: seq<Frame>, ghost step: Option<Key>)
    requires live.Valid() && FramesLive(live.Cur(), live.ss[0].v.max, base) && AllDirs(base) && r in live.Cur().low
    requires live.Cur().low[r] == BoundOf(if sep.Some? then sep else DeepestSep(base)) && LeftOf(live.Cur().low[r], hi)
    modifies live
    ensures old(live.now) <= live.now && |stack| == |base| + 1 && stack[..|base|] == base && stack[|base|].recid == r
    ensures step == (if sep.Some? then sep else DeepestSep(base)) && Standing(live, stack, step, hi)
  {
    hide IsRun, Snap, FramesLive, Extends;
    ghost var t, max := live.Cur(), live.ss[0].v.max;
    var n := live.Load(r);
    FramesStay(t, live.Cur(), max, base);
    LowStays(t, live.Cur(), r);
    SnapKnown(live.Cur(), max, r, n);
    LivePush(live.Cur(), max, base, Frame(r, n, sep));
    stack := base + [Frame(r, n, sep)];
    step := if sep.Some? then sep else DeepestSep(base);
    assert stack[..|stack| - 1] == base;
    if n.Leaf? {
      LeafLevel(live.Cur(), max, r, n);
    }
  }

  lemma LowStays(t: Tree, t': Tree, r: Recid)
    requires Extends(t, t') && r in t.low
    ensures r in t'.low && t'.low[r] == t.low[r]
  {
  }

  /** Descend from the deepest kept directory to a leaf left of the bound; `step` is where that leaf starts. */
  method LiveDescend(live: LiveMap, stack0: seq<Frame>, hi: Option<Key>)
    returns (stack: seq<Frame>, n: Node, step: Option<Key>, ghost r: Recid)
    requires live.Valid() && FramesLive(live.Cur(), live.ss[0].v.max, stack0) && AllDirs(stack0)
    requires LeftOf(BoundOf(DeepestSep(stack0)), hi)
    modifies live
    ensures live.Valid() && old(live.now) <= live.now
    ensures FramesLive(live.Cur(), live.ss[0].v.max, stack) && AllDirs(stack)
    ensures LeafCopy(live.ss, live.now, r, n) && live.Cur().low[r] == BoundOf(step) && LeftOf(live.Cur().low[r], hi)
  {
    hide IsRun, Snap, FramesLive, Extends, Above, LeafCopy;
    stack := stack0;
    ghost var max := live.ss[0].v.max;
    if stack == [] {
      ghost var t := live.Cur();
      var root := live.RootRecid();
      FramesStay(t, live.Cur(), max, stack);
      ghost var st;
      stack, st := Stack(live, stack, root, None, hi);
    } else {
      LiveTop(live.Cur(), max, stack);
      SnapKnown(live.Cur(), max, stack[|stack| - 1].recid, stack[|stack| - 1].node);
      assert stack[|stack| - 1].node.Dir?;
    }
    step := DeepestSep(stack);
    ReachesLast(live);
    while stack[|stack| - 1].node.Dir?
      invariant Standing(live, stack, step, hi) && old(live.now) <= live.now
      invariant stack[|stack| - 1].recid in live.Last().low && stack[|stack| - 1].recid in live.Last().level
      decreases live.Last().level[stack[|stack| - 1].recid], Above(live.Last(), live.Last().low[stack[|stack| - 1].recid])
    {
      stack, step := DescendOnce(live, stack, step, hi);
    }
    LiveTop(live.Cur(), max, stack);
    LivePrefix(live.Cur(), max, stack, |stack| - 1);
    n, r := stack[|stack| - 1].node, stack[|stack| - 1].recid;
    stack := stack[..|stack| - 1];
  }

  method DescendOnce(live: LiveMap, stack0: seq<Frame>, step0: Option<Key>, hi: Option<Key>) returns (stack: seq<Frame>, step: Option<Key>)
    requires Standing(live, stack0, step0, hi) && stack0[|stack0| - 1].node.Dir?
    modifies live
    ensures old(live.now) <= live.now && Standing(live, stack, step, hi)
    ensures var r, q, last := stack0[|stack0| - 1].recid, stack[|stack| - 1].recid, live.Last();
            r in last.low && r in last.level && q in last.low && q in last.level && Nearer(last, r, q)
  {
    hide IsRun, Snap, FramesLive, Extends, Above, LeafCopy;
    var top := stack0[|stack0| - 1];
    ghost var t, max := live.Cur(), live.ss[0].v.max;
    LiveTop(t, max, stack0);
    SnapDownHi(t, max, top.recid, top.node, hi);
    ReachesLast(live);
    var i := DownIndex(top.node, hi);
    ghost var st;
    if i.None? {
      var lastKey := Some(top.node.keys[|top.node.keys| - 1]);
      LivePrefix(t, max, stack0, |stack0| - 1);
      GoesNearer(t, live.Last(), top.recid, top.node.link);
      stack, st := Stack(live, stack0[..|stack0| - 1], top.node.link, lastKey, hi);
      step := lastKey;
    } else {
      var child := top.node.children[i.value];
      var sep := if i.value > 0 then Some(top.node.keys[i.value - 1]) else None;
      assert AllDirs(stack0);
      GoesNearer(t, live.Last(), top.recid, child);
      stack, st := Stack(live, stack0, child, sep, hi);
      step := if sep.Some? then sep else step0;
    }
  }

  // ---------- going right among the leaves ----------

  /** No key that was in the map throughout lies above `s` and yet at or below `b`. */
  ghost predicate LiveGap(ss: seq<M.State>, start: nat, now: nat, s: Option<Key>, b: Bound) {
    && Leq(BoundOf(s), b)
    && forall k {:trigger Throughout(ss, start, now, k)} :: Throughout(ss, start, now, k) && Leq(Fin(k), b) ==> s.Some? && k <= s.value
  }

  lemma GapStays(ss: seq<M.State>, start: nat, now: nat, now': nat, s: Option<Key>, b: Bound)
    requires LiveGap(ss, start, now, s, b) && now <= now'
    ensures LiveGap(ss, start, now', s, b)
  {
    hide Lookup;
    forall k | Throughout(ss, start, now', k) ensures Throughout(ss, start, now, k) {
    }
  }

  /** Leaving a copied leaf to the right, the last key of the copy is the new step. */
  lemma LiveGapRides(ss: seq<M.State>, acts: seq<Act>, start: nat, m: nat, now: nat, r: Recid, n: Node, s: Option<Key>)
    requires IsRun(ss, acts) && LeafCopy(ss, m, r, n) && start <= m <= now && LiveGap(ss, start, now, s, ss[m].v.tree.low[r])
    ensures LiveGap(ss, start, now, RideStep(n, s), High(n))
  {
    hide IsRun, Lookup;
    CopyShape(ss, acts, m, r, n);
    var low := ss[m].v.tree.low[r];
    forall k | Throughout(ss, start, now, k) && Leq(Fin(k), High(n)) ensures RideStep(n, s).Some? && k <= RideStep(n, s).value {
      if Lt(low, Fin(k)) {
        assert Lookup(ss[m].v.tree, k).Some?;
        CopyAnswers(ss, acts, m, r, n, k);
      } else {
        assert n.keys != [] ==> Lt(low, Fin(n.keys[|n.keys| - 1]));
      }
    }
  }

  lemma LiveNotBeyond(ss: seq<M.State>, acts: seq<Act>, m: nat, r: Recid, n: Node, hi: Option<Key>)
    requires IsRun(ss, acts) && LeafCopy(ss, m, r, n) && LeftOf(ss[m].v.tree.low[r], hi)
    ensures !Beyond(n, hi) ==> if hi.None? then n.right else Leq(Fin(hi.value), High(n))
    ensures Beyond(n, hi) ==> n.link != 0 && LeftOf(High(n), hi)
  {
    hide IsRun, Lookup;
    CopyShape(ss, acts, m, r, n);
    LoadedSnap(ss, acts, m, r);
  }

  /** A leaf copied at `when`, at or below whose start the step leaves nothing out. */
  ghost predicate OnLeaf(live: LiveMap, start: nat, when: nat, r: Recid, n: Node, step: Option<Key>, hi: Option<Key>)
    reads live
  {
    && live.Valid() && start <= when <= live.now && LeafCopy(live.ss, when, r, n)
    && LeftOf(live.ss[when].v.tree.low[r], hi) && LiveGap(live.ss, start, live.now, step, live.ss[when].v.tree.low[r])
  }

  method RideOnce(live: LiveMap, ghost start: nat, ghost w0: nat, ghost r0: Recid, n0: Node, step0: Option<Key>, hi: Option<Key>)
    returns (n: Node, step: Option<Key>, ghost r: Recid, ghost when: nat)
    requires OnLeaf(live, start, w0, r0, n0, step0, hi) && Beyond(n0, hi)
    modifies live
    ensures old(live.now) <= live.now && OnLeaf(live, start, when, r, n, step, hi) && when == live.now && FurtherRight(live.Last(), r0, r)
  {
    hide IsRun, Lookup, LiveGap, Extends;
    ghost var was := live.now;
    CopyShape(live.ss, live.acts, w0, r0, n0);
    LiveNotBeyond(live.ss, live.acts, w0, r0, n0, hi);
    LiveGapRides(live.ss, live.acts, start, w0, live.now, r0, n0, step0);
    step := RideStep(n0, step0);
    RunExtends(live.ss, live.acts, w0, live.now);
    LowStays(live.ss[w0].v.tree, live.Cur(), r0);
    LowStays(live.ss[w0].v.tree, live.Cur(), n0.link);
    LevelStays(live.ss[w0].v.tree, live.Cur(), n0.link);
    ghost var t := live.Cur();
    n := live.Load(n0.link);
    r, when := n0.link, live.now;
    LowStays(t, live.Cur(), r);
    LevelStays(t, live.Cur(), r);
    LowStays(t, live.Cur(), r0);
    GapStays(live.ss, start, was, live.now, step, High(n0));
    ReachesLast(live);
    GoesRight(live.Last(), r0, r);
  }

  lemma LevelStays(t: Tree, t': Tree, r: Recid)
    requires Extends(t, t') && r in t.level
    ensures r in t'.level && t'.level[r] == t.level[r]
  {
  }

  lemma GoesRight(last: Tree, r: Recid, q: Recid)
    requires r in last.low && q in last.low && Lt(last.low[r], last.low[q])
    ensures FurtherRight(last, r, q)
  {
    assert q in Above(last, last.low[r]) && q !in Above(last, last.low[q]);
  }

  method LiveRideRight(live: LiveMap, ghost start: nat, ghost r0: Recid, n0: Node, step0: Option<Key>, hi: Option<Key>)
    returns (n: Node, step: Option<Key>, ghost r: Recid, ghost when: nat)
    requires OnLeaf(live, start, live.now, r0, n0, step0, hi)
    modifies live
    ensures old(live.now) <= live.now && OnLeaf(live, start, when, r, n, step, hi) && !Beyond(n, hi)
  {
    hide IsRun, LiveGap, LeafCopy, Above;
    n, step, r, when := n0, step0, r0, live.now;
    while Beyond(n, hi)
      invariant old(live.now) <= live.now && OnLeaf(live, start, when, r, n, step, hi)
      decreases if r in live.Last().low then Above(live.Last(), live.Last().low[r]) else {}
    {
      n, step, r, when := RideOnce(live, start, when, r, n, step, hi);
    }
  }

  // ---------- one refill ----------

  /** What a refill must give: the next batch and the bound for what is left. */
  ghost predicate RefillOk(live: LiveMap, start: nat, g: Range, batch: seq<Entry>, next: Option<Key>)
    reads live
    requires live.Valid()
  {
    && Ascending(batch) && SeenOk(live.ss, start, live.now, g, batch)
    && (next.Some? ==> (g.hi.Some? ==> next.value < g.hi.value) && forall j :: 0 <= j < |batch| ==> next.value < batch[j].key)
    && (forall k {:trigger Yielded(batch, k)} ::
          Within(k, g) && Throughout(live.ss, start, live.now, k) ==> Yielded(batch, k) || (next.Some? && k <= next.value))
    && (next.Some? ==> Left(live.Last(), next) < Left(live.Last(), g.hi))
  }

  lemma BatchSeen(live: LiveMap, start: nat, when: nat, r: Recid, n: Node, g: Range, batch: seq<Entry>)
    requires live.Valid() && start <= when <= live.now && LeafCopy(live.ss, when, r, n)
    requires n.Leaf? && |n.vals| == |n.keys| && batch == Select(Group(n), g)
    ensures Ascending(batch) && SeenOk(live.ss, start, live.now, g, batch)
    ensures forall j :: 0 <= j < |batch| ==> Lt(live.ss[when].v.tree.low[r], Fin(batch[j].key))
    ensures forall i :: 0 <= i < |n.keys| && Within(n.keys[i], g) ==> Yielded(batch, n.keys[i])
  {
    hide IsRun, Lookup, Select, Within;
    CopyShape(live.ss, live.acts, when, r, n);
    var all := Group(n);
    SelectMembers(all, g);
    forall j | 0 <= j < |batch|
      ensures Within(batch[j].key, g) && WasThere(live.ss, start, live.now, batch[j])
      ensures Lt(live.ss[when].v.tree.low[r], Fin(batch[j].key))
    {
      assert batch[j] in batch;
      var i :| 0 <= i < |all| && all[i] == batch[j];
      assert Lookup(live.ss[when].v.tree, n.keys[i]) == Some(n.vals[i]);
    }
    forall i | 0 <= i < |n.keys| && Within(n.keys[i], g) ensures Yielded(batch, n.keys[i]) {
      assert all[i] in all && all[i] in batch;
    }
  }

  /** A key in bounds that was there throughout is in the copied leaf or at or below the step. */
  lemma LeafOrStep(live: LiveMap, start: nat, when: nat, r: Recid, n: Node, step: Option<Key>, g: Range, k: Key)
    requires OnLeaf(live, start, when, r, n, step, g.hi) && !Beyond(n, g.hi)
    requires Within(k, g) && Throughout(live.ss, start, live.now, k)
    ensures if Lt(live.ss[when].v.tree.low[r], Fin(k)) then k in n.keys else step.Some? && k <= step.value
  {
    hide IsRun, Lookup;
    CopyShape(live.ss, live.acts, when, r, n);
    LiveNotBeyond(live.ss, live.acts, when, r, n, g.hi);
    if Lt(live.ss[when].v.tree.low[r], Fin(k)) {
      assert Lookup(live.ss[when].v.tree, k).Some?;
      CopyAnswers(live.ss, live.acts, when, r, n, k);
    }
  }

  lemma RefillGood(live: LiveMap, start: nat, when: nat, r: Recid, n: Node, step: Option<Key>, g: Range, batch: seq<Entry>, below: bool)
    requires OnLeaf(live, start, when, r, n, step, g.hi) && !Beyond(n, g.hi)
    requires n.Leaf? && |n.vals| == |n.keys| && batch == Select(Group(n), g)
    requires below ==> exists i :: 0 <= i < |n.keys| && !AboveLo(n.keys[i], g)
    ensures RefillOk(live, start, g, batch, if below then None else step)
  {
    hide IsRun, Lookup, Select, Throughout, SeenOk, Ascending, Left;
    BatchSeen(live, start, when, r, n, g, batch);
    var low, next := live.ss[when].v.tree.low[r], if below then None else step;
    forall k | Within(k, g) && Throughout(live.ss, start, live.now, k) ensures Yielded(batch, k) || (next.Some? && k <= next.value) {
      LeafOrStep(live, start, when, r, n, step, g, k);
      if Lt(low, Fin(k)) {
        var i :| 0 <= i < |n.keys| && n.keys[i] == k;
        assert Yielded(batch, n.keys[i]);
      } else if below {
        BelowIsPast(live.ss, live.acts, when, r, n, g, k);
      }
    }
    RunReaches(live, when, r);
    StepShrinks(live.Last(), r, g.hi, step);
  }

  /** A leaf with a key below the lower bound starts below every key in bounds. */
  lemma BelowIsPast(ss: seq<M.State>, acts: seq<Act>, m: nat, r: Recid, n: Node, g: Range, k: Key)
    requires IsRun(ss, acts) && LeafCopy(ss, m, r, n) && Within(k, g) && exists i :: 0 <= i < |n.keys| && !AboveLo(n.keys[i], g)
    ensures Lt(ss[m].v.tree.low[r], Fin(k))
  {
    hide IsRun, Lookup;
    CopyShape(ss, acts, m, r, n);
    var i :| 0 <= i < |n.keys| && !AboveLo(n.keys[i], g);
    assert Lt(ss[m].v.tree.low[r], Fin(n.keys[i]));
  }

  lemma RunReaches(live: LiveMap, m: nat, r: Recid)
    requires live.Valid() && m < |live.ss| && r in live.ss[m].v.tree.low
    ensures r in live.Last().low && live.Last().low[r] == live.ss[m].v.tree.low[r]
  {
    hide IsRun;
    RunExtends(live.ss, live.acts, m, |live.ss| - 1);
  }

  /** Nothing lies between the start of a leaf and the separator it was reached by. */
  lemma StartsTight(ss: seq<M.State>, start: nat, now: nat, low: Bound, step: Option<Key>)
    requires low == BoundOf(step)
    ensures LiveGap(ss, start, now, step, low)
  {
  }

  /** One refill: the in-range entries of the last leaf below the bound, and the next, smaller bound. */
  method LiveBatch(live: LiveMap, ghost start: nat, stack0: seq<Frame>, g: Range)
    returns (stack: seq<Frame>, batch: seq<Entry>, next: Option<Key>)
    requires live.Valid() && start <= live.now && FramesLive(live.Cur(), live.ss[0].v.max, stack0) && AllDirs(stack0)
    modifies live
    ensures live.Valid() && old(live.now) <= live.now && FramesLive(live.Cur(), live.ss[0].v.max, stack) && AllDirs(stack)
    ensures RefillOk(live, start, g, batch, next)
  {
    hide IsRun, FramesLive, Lookup, Select, RefillOk, Extends;
    var n, step, below;
    ghost var r, when;
    stack := LiveDropFrames(stack0, g.hi, live.Cur(), live.ss[0].v.max);
    stack, n, step, r := LiveDescend(live, stack, g.hi);
    ghost var m := live.now;
    StartsTight(live.ss, start, m, live.Cur().low[r], step);
    n, step, r, when := LiveRideRight(live, start, r, n, step, g.hi);
    RunExtends(live.ss, live.acts, m, live.now);
    FramesStay(live.ss[m].v.tree, live.Cur(), live.ss[0].v.max, stack);
    CopyShape(live.ss, live.acts, when, r, n);
    batch, below := TakeBatch(n, g);
    RefillGood(live, start, when, r, n, step, g, batch, below);
    next := if below then None else step;
  }

  // ---------- the descending scan ----------

  ghost predicate Descending(seen: seq<Entry>) {
    forall i, j :: 0 <= i < j < |seen| ==> seen[j].key < seen[i].key
  }

  /** Yielded, then buffered, then what is below the bound: each part lies strictly below the one before. */
  ghost predicate InOrder(seen: seq<Entry>, buf: seq<Entry>, upper: Option<Key>, begun: bool) {
    && Descending(seen) && Ascending(buf)
    && (forall i, j :: 0 <= i < |seen| && 0 <= j < |buf| ==> buf[j].key < seen[i].key)
    && (begun && upper.Some? ==>
          && (forall j :: 0 <= j < |buf| ==> upper.value < buf[j].key)
          && (forall i :: 0 <= i < |seen| ==> upper.value < seen[i].key))
    && (!begun ==> seen == [] && buf == [])
  }

  /** No key that is in bounds and was in the map throughout has been passed over. */
  ghost predicate NoneMissedDown(ss: seq<M.State>, start: nat, now: nat, g: Range, seen: seq<Entry>, buf: seq<Entry>, over: bool, h: Range) {
    forall k {:trigger Yielded(seen, k)} ::
      Within(k, g) && Throughout(ss, start, now, k) ==> Yielded(seen, k) || Yielded(buf, k) || (!over && Within(k, h))
  }

  lemma RefilledOrder(seen: seq<Entry>, upper: Option<Key>, begun: bool, g: Range, batch: seq<Entry>, next: Option<Key>, ss: seq<M.State>, start: nat, now: nat)
    requires InOrder(seen, [], upper, begun) && g.hi == upper && (begun ==> upper.Some?) && Ascending(batch) && SeenOk(ss, start, now, g, batch)
    requires next.Some? ==> (upper.Some? ==> next.value < upper.value) && forall j :: 0 <= j < |batch| ==> next.value < batch[j].key
    ensures InOrder(seen, batch, next, true)
  {
    hide WasThere;
    forall j | 0 <= j < |batch| ensures upper.Some? ==> batch[j].key <= upper.value {
      assert Within(batch[j].key, g);
    }
  }

  ghost predicate Inner(h: Range, g: Range) {
    forall k :: Within(k, h) ==> Within(k, g)
  }

  lemma InnerStill(h: Range, g: Range, next: Key)
    requires Inner(h, g) && (h.hi.Some? ==> next < h.hi.value)
    ensures Inner(Range(h.lo, h.loInc, Some(next), true), g)
  {
    forall k | Within(k, Range(h.lo, h.loInc, Some(next), true)) ensures Within(k, h) {
    }
  }

  class LiveDescending {
    const live: LiveMap
    const range: Range
    var upper: Option<Key>
    var upperInc: bool
    var upperOpen: bool
    var buf: seq<Entry>
    var stack: seq<Frame>
    var done: bool
    ghost const start: nat
    ghost var begun: bool
    ghost var seen: seq<Entry>

    function Bounds(): Range
      reads this
    {
      Range(range.lo, range.loInc, upper, upperInc)
    }

    predicate Exhausted()
      reads this
    {
      done || (!upperOpen && upper.None?)
    }

    ghost predicate Valid()
      reads this, live
    {
      && live.Valid() && start <= live.now && FramesLive(live.Cur(), live.ss[0].v.max, stack) && AllDirs(stack)
      && (upperOpen ==> upper.None?) && (begun && !Exhausted() ==> upper.Some?)
      && (Exhausted() || Inner(Bounds(), range))
      && InOrder(seen, buf, if Exhausted() then None else upper, begun)
      && SeenOk(live.ss, start, live.now, range, seen) && SeenOk(live.ss, start, live.now, range, buf)
      && NoneMissedDown(live.ss, start, live.now, range, seen, buf, Exhausted(), Bounds())
    }

    constructor (m: LiveMap, g: Range)
      requires m.Valid()
      ensures Valid() && live == m && range == g && start == m.now && seen == []
    {
      live, range, start := m, g, m.now;
      upperOpen, upper, upperInc := g.hi.None?, g.hi, g.hiInc;
      buf, stack, done, begun, seen := [], [], false, false, [];
    }

    /** Fetch the next leaf; the bound strictly decreases, so the corruption error is never raised. */
    method Refill() returns (ok: bool)
      requires Valid() && buf == [] && !Exhausted()
      modifies live, this`upper, this`upperInc, this`upperOpen, this`buf, this`stack, this`done, this`begun
      ensures ok && Valid() && old(live.now) <= live.now && !upperOpen && begun
      ensures !Exhausted() ==> upper.Some? && Left(live.Last(), upper) < Left(live.Last(), old(upper))
    {
      hide IsRun, FramesLive, Throughout, WasThere, Left, Lookup, SeenOk, InOrder, NoneMissedDown, Inner, Within, Ascending;
      ghost var was, b0 := live.now, Bounds();
      var next;
      stack, buf, next := LiveBatch(live, start, stack, Bounds());
      ok := next.None? || upper.None? || next.value < upper.value;
      Refilled(live, start, b0, range, seen, upper, begun, buf, next, was);
      done, buf := next.None? || !ok, if ok then buf else [];
      upper, upperInc := if next.Some? then next else upper, upperInc || next.Some?;
      upperOpen, begun := false, true;
      if next.None? {
        NothingLeft(live.ss, start, live.now, range, seen, buf, Range(b0.lo, b0.loInc, None, true), Bounds());
      }
    }

    method Next() returns (p: Pulled)
      requires Valid()
      modifies live, this`upper, this`upperInc, this`upperOpen, this`buf, this`stack, this`done, this`begun, this`seen
      ensures Valid() && old(live.now) <= live.now && !p.Corrupt?
      ensures seen == if p.Yield? then old(seen) + [p.entry] else old(seen)
      ensures p.End? ==> Exhausted() && buf == []
      ensures p.Yield? ==>
                || (Exhausted() == old(Exhausted()) && upper == old(upper) && upperOpen == old(upperOpen) && |buf| < |old(buf)|)
                || (!old(Exhausted()) && (Exhausted() || Left(live.Last(), upper) < Left(live.Last(), old(upper))))
    {
      hide IsRun, FramesLive, Throughout, WasThere, Left, Lookup, SeenOk, InOrder, NoneMissedDown, Inner, Within, Ascending;
      while buf == []
        invariant Valid() && seen == old(seen) && old(live.now) <= live.now
        invariant (Exhausted() == old(Exhausted()) && upper == old(upper) && upperOpen == old(upperOpen) && buf == old(buf))
               || (!old(Exhausted()) && (Exhausted() || Left(live.Last(), upper) < Left(live.Last(), old(upper))))
        decreases !Exhausted(), Left(live.Last(), upper), upperOpen
      {
        if Exhausted() {
          if !done {
            NothingLeft(live.ss, start, live.now, range, seen, buf, Bounds(), Bounds());
          }
          done := true;
          return End;
        }
        var ok := Refill();
        if !ok {
          return Corrupt;
        }
      }
      var e := buf[|buf| - 1];
      Pop(live.ss, start, live.now, range, seen, buf, if Exhausted() then None else upper, begun, Exhausted(), Bounds());
      p := Yield(e);
      buf := buf[..|buf| - 1];
      seen := seen + [e];
    }
  }

  lemma NothingLeft(ss: seq<M.State>, start: nat, now: nat, g: Range, seen: seq<Entry>, buf: seq<Entry>, h: Range, h': Range)
    requires NoneMissedDown(ss, start, now, g, seen, buf, true, h)
    ensures NoneMissedDown(ss, start, now, g, seen, buf, true, h')
  {
    hide Throughout;
  }

  /** Yielding the last buffered entry. */
  lemma Pop(ss: seq<M.State>, start: nat, now: nat, g: Range, seen: seq<Entry>, buf: seq<Entry>, upper: Option<Key>, begun: bool, over: bool, h: Range)
    requires buf != [] && InOrder(seen, buf, upper, begun) && SeenOk(ss, start, now, g, seen) && SeenOk(ss, start, now, g, buf)
    requires NoneMissedDown(ss, start, now, g, seen, buf, over, h)
    ensures var seen', buf' := seen + [buf[|buf| - 1]], buf[..|buf| - 1];
            && InOrder(seen', buf', upper, begun) && SeenOk(ss, start, now, g, seen') && SeenOk(ss, start, now, g, buf')
            && NoneMissedDown(ss, start, now, g, seen', buf', over, h)
  {
    hide Throughout, WasThere, Within;
    var e := buf[|buf| - 1];
    var seen', buf' := seen + [e], buf[..|buf| - 1];
    forall k | Yielded(seen, k) || Yielded(buf, k) ensures Yielded(seen', k) || Yielded(buf', k) {
      if Yielded(seen, k) {
        var j :| 0 <= j < |seen| && seen[j].key == k;
        assert seen'[j].key == k;
      } else {
        var j :| 0 <= j < |buf| && buf[j].key == k;
        assert if j < |buf'| then buf'[j].key == k else seen'[|seen|].key == k;
      }
    }
    forall i, j | 0 <= i < j < |seen'| ensures seen'[j].key < seen'[i].key {
      assert j == |seen| ==> buf[|buf| - 1].key < seen[i].key;
    }
  }

  lemma Refilled(live: LiveMap, start: nat, h: Range, g: Range, seen: seq<Entry>, upper: Option<Key>, begun: bool,
                 batch: seq<Entry>, next: Option<Key>, was: nat)
    requires live.Valid() && was <= live.now && RefillOk(live, start, h, batch, next) && h.hi == upper && (begun ==> upper.Some?)
    requires InOrder(seen, [], upper, begun) && Inner(h, g)
    requires SeenOk(live.ss, start, was, g, seen) && NoneMissedDown(live.ss, start, was, g, seen, [], false, h)
    ensures InOrder(seen, batch, next, true) && SeenOk(live.ss, start, live.now, g, seen) && SeenOk(live.ss, start, live.now, g, batch)
    ensures NoneMissedDown(live.ss, start, live.now, g, seen, batch, next.None?, Range(h.lo, h.loInc, next, true))
    ensures next.Some? ==> Inner(Range(h.lo, h.loInc, next, true), g) && (upper.Some? ==> next.value < upper.value)
    ensures next.Some? ==> Left(live.Last(), next) < Left(live.Last(), upper)
  {
    hide IsRun, Throughout, WasThere, Left, Lookup, SeenOk, InOrder, NoneMissedDown, Inner, Within;
    RefilledOrder(seen, upper, begun, h, batch, next, live.ss, start, live.now);
    SeenStays(live.ss, start, was, live.now, g, seen);
    Inside(live.ss, start, live.now, h, g, batch);
    StillNone(live.ss, start, was, live.now, g, seen, batch, h, next);
    if next.Some? {
      InnerStill(h, g, next.value);
    }
  }

  lemma Inside(ss: seq<M.State>, start: nat, now: nat, h: Range, g: Range, batch: seq<Entry>)
    requires SeenOk(ss, start, now, h, batch) && Inner(h, g)
    ensures SeenOk(ss, start, now, g, batch)
  {
    hide WasThere;
  }

  /** What a refill leaves out is at or below the next bound. */
  lemma StillNone(ss: seq<M.State>, start: nat, was: nat, now: nat, g: Range, seen: seq<Entry>, batch: seq<Entry>, h: Range, next: Option<Key>)
    requires NoneMissedDown(ss, start, was, g, seen, [], false, h) && was <= now
    requires forall k {:trigger Yielded(batch, k)} ::
               Within(k, h) && Throughout(ss, start, now, k) ==> Yielded(batch, k) || (next.Some? && k <= next.value)
    ensures NoneMissedDown(ss, start, now, g, seen, batch, next.None?, Range(h.lo, h.loInc, next, true))
  {
    hide Lookup;
    forall k | Within(k, g) && Throughout(ss, start, now, k)
      ensures Yielded(seen, k) || Yielded(batch, k) || (next.Some? && Within(k, Range(h.lo, h.loInc, next, true)))
    {
      assert Throughout(ss, start, was, k);
      assert Yielded(seen, k) || Within(k, h);
      assert Yielded(batch, k) || !Yielded(batch, k);
    }
  }

  /** Drain a descending scan of a map that is being written to; `ok` says that no corruption error came up. */
  method LiveCollectDown(scan: LiveDescending) returns (es: seq<Entry>, ok: bool)
    requires scan.Valid() && scan.seen == []
    modifies scan, scan.live
    ensures ok && scan.Valid() && scan.seen == es && old(scan.live.now) <= scan.live.now
    ensures forall i, j :: 0 <= i < j < |es| ==> es[j].key < es[i].key
    ensures forall i :: 0 <= i < |es| ==>
              && WasThere(scan.live.ss, scan.start, scan.live.now, es[i])
              && (scan.range.lo.Some? ==> scan.range.lo.value < es[i].key || (scan.range.loInc && es[i].key == scan.range.lo.value))
              && (scan.range.hi.Some? ==> es[i].key < scan.range.hi.value || (scan.range.hiInc && es[i].key == scan.range.hi.value))
    ensures forall k ::
              && Throughout(scan.live.ss, scan.start, scan.live.now, k)
              && (scan.range.lo.Some? ==> scan.range.lo.value < k || (scan.range.loInc && k == scan.range.lo.value))
              && (scan.range.hi.Some? ==> k < scan.range.hi.value || (scan.range.hiInc && k == scan.range.hi.value))
              ==> Yielded(es, k)
  {
    hide IsRun, FramesLive, Throughout, WasThere, Left, Lookup, SeenOk, Inner, Within, Ascending;
    es, ok := [], true;
    while true
      invariant ok && scan.Valid() && scan.seen == es && old(scan.live.now) <= scan.live.now
      decreases !scan.Exhausted(), Left(scan.live.Last(), scan.upper), scan.upperOpen, |scan.buf|
    {
      var p := scan.Next();
      if p.End? {
        ListedInBounds(scan.live.ss, scan.start, scan.live.now, scan.range, es);
        return;
      } else if p.Corrupt? {
        ok := false;
        return;
      }
      es := es + [p.entry];
    }
  }
}

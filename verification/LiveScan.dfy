/**
 Scans of a map that is being written to.  Every node a scan loads is a copy of the node
 at the moment of the load, and the run goes on between loads; the descending scan also
 keeps copies of directories from one descent to the next.  Both scans are weakly
 consistent: they yield strictly monotone keys in bounds, each with a value that the map
 held under it at some moment of the scan, and they miss no key in bounds that the map
 held throughout.
 */
module LiveScan {
  import opened Basics
  import opened BLinkTree
  import opened BLinkScan
  import opened BLinkTheorems
  import M = BLinkMachine
  import I = BLinkInvariant
  import R = BLinkRuns

  // ---------- copies of nodes ----------

  /** `n` is, or once was, the content of the published node `r`. */
  ghost predicate Snap(t: Tree, max: nat, r: Recid, n: Node) {
    && r in t.low && r in t.level && ShapeOk(n, t.low[r], t.level[r], max)
    && LinkOk(t, n, t.level[r]) && ChildrenOk(t, {}, n, t.low[r], t.level[r])
  }

  lemma SnapStays(t: Tree, t': Tree, max: nat, r: Recid, n: Node)
    requires Snap(t, max, r, n) && Extends(t, t')
    ensures Snap(t', max, r, n) && t'.low[r] == t.low[r] && t'.level[r] == t.level[r]
  {
    if n.Dir? {
      forall i | 0 <= i < |n.children| ensures ChildOk(t', {}, n.children[i], ChildLow(n, t'.low[r], i), t'.level[r]) {
        assert ChildOk(t, {}, n.children[i], ChildLow(n, t.low[r], i), t.level[r]);
      }
    }
  }

  lemma NodeIsSnap(t: Tree, pend: set<Recid>, max: nat, r: Recid)
    requires NodeOk(t, pend, max, r)
    ensures Snap(t, max, r, t.nodes[r])
  {
    var n := t.nodes[r];
    if n.Dir? {
      forall i | 0 <= i < |n.children| ensures ChildOk(t, {}, n.children[i], ChildLow(n, t.low[r], i), t.level[r]) {
        assert ChildOk(t, pend, n.children[i], ChildLow(n, t.low[r], i), t.level[r]);
      }
    }
  }

  lemma ExtendsTwice(a: Tree, b: Tree, c: Tree)
    requires Extends(a, b) && Extends(b, c)
    ensures Extends(a, c)
  {
  }

  /** Published nodes stay published, with their low bounds and levels. */
  lemma {:induction false} RunExtends(ss: seq<M.State>, acts: seq<Act>, i: nat, j: nat)
    requires IsRun(ss, acts) && i <= j < |ss|
    ensures Extends(ss[i].v.tree, ss[j].v.tree) && ss[j].v.max == ss[i].v.max
    decreases j
  {
    hide Initial, I.SharedOk, I.Thread, M.Step, M.CanMove, Extends;
    if i == j {
      ExtendsSelf(ss[i].v.tree);
    } else {
      RunExtends(ss, acts, i, j - 1);
      RunInv(ss, acts, j - 1);
      var s, t, x := ss[j - 1], acts[j - 1].t, acts[j - 1].x;
      assert I.Thread(s.v, t, s.pcs[t]);
      R.EveryStepGood(s.v, t, s.pcs[t], x);
      ExtendsTwice(ss[i].v.tree, s.v.tree, ss[j].v.tree);
    }
  }

  lemma ExtendsSelf(t: Tree)
    ensures Extends(t, t)
  {
  }

  /** What a loaded node is. */
  lemma LoadedSnap(ss: seq<M.State>, acts: seq<Act>, m: nat, r: Recid)
    requires IsRun(ss, acts) && m < |ss| && r in ss[m].v.tree.low
    ensures r in ss[m].v.tree.nodes && Snap(ss[m].v.tree, ss[0].v.max, r, ss[m].v.tree.nodes[r])
  {
    hide IsRun, Snap, I.RootPart, I.HiddenPart, I.LockPart, I.HotPart, I.EventPart, AllApart;
    RunInv(ss, acts, m);
    RunExtends(ss, acts, 0, m);
    var v := ss[m].v;
    assert NodeOk(v.tree, v.pend.Keys, v.max, r);
    NodeIsSnap(v.tree, v.pend.Keys, v.max, r);
  }

  // ---------- what was in the map when ----------

  /** `n` is the content of the published leaf `r` in state `m`. */
  ghost predicate LeafCopy(ss: seq<M.State>, m: nat, r: Recid, n: Node) {
    && m < |ss| && r in ss[m].v.tree.low && r in ss[m].v.tree.level && ss[m].v.tree.level[r] == 0
    && r in ss[m].v.tree.nodes && ss[m].v.tree.nodes[r] == n
  }

  /** The map held the entry at some moment from `a` to `b`. */
  ghost predicate WasThere(ss: seq<M.State>, a: nat, b: nat, e: Entry) {
    exists m :: a <= m <= b && m < |ss| && Lookup(ss[m].v.tree, e.key) == Some(e.value)
  }

  /** The map held some value under `k` at every moment from `a` to `b`. */
  ghost predicate Throughout(ss: seq<M.State>, a: nat, b: nat, k: Key) {
    forall m :: a <= m <= b && m < |ss| ==> Lookup(ss[m].v.tree, k).Some?
  }

  /** A copied leaf answers, for the keys in its interval, as the map did at that moment. */
  lemma CopyAnswers(ss: seq<M.State>, acts: seq<Act>, m: nat, r: Recid, n: Node, k: Key)
    requires IsRun(ss, acts) && LeafCopy(ss, m, r, n) && Lt(ss[m].v.tree.low[r], Fin(k)) && Leq(Fin(k), High(n))
    ensures n.Leaf? && |n.vals| == |n.keys| && (k in n.keys <==> Lookup(ss[m].v.tree, k).Some?)
    ensures forall i :: 0 <= i < |n.keys| && n.keys[i] == k ==> Lookup(ss[m].v.tree, k) == Some(n.vals[i])
  {
    hide IsRun, I.RootPart, I.HiddenPart, I.LockPart, I.HotPart, I.EventPart, Lookup;
    RunInv(ss, acts, m);
    var v := ss[m].v;
    LookupAtCover(v.tree, v.pend.Keys, v.max, r, k);
    assert NodeOk(v.tree, v.pend.Keys, v.max, r);
    FoundIffMember(n.keys, k);
    forall i | 0 <= i < |n.keys| && n.keys[i] == k ensures Lookup(v.tree, k) == Some(n.vals[i]) {
      assert FoundAt(n.keys, k, i);
    }
  }

  /** The entries of a copied leaf, and its link. */
  lemma CopyShape(ss: seq<M.State>, acts: seq<Act>, m: nat, r: Recid, n: Node)
    requires IsRun(ss, acts) && LeafCopy(ss, m, r, n)
    ensures n.Leaf? && |n.vals| == |n.keys| && Sorted(n.keys) && (n.right <==> n.link == 0) && Lt(ss[m].v.tree.low[r], High(n))
    ensures forall i :: 0 <= i < |n.keys| ==> Lt(ss[m].v.tree.low[r], Fin(n.keys[i])) && Leq(Fin(n.keys[i]), High(n))
    ensures forall i :: 0 <= i < |n.keys| ==> Lookup(ss[m].v.tree, n.keys[i]) == Some(n.vals[i])
    ensures n.right <==> High(n) == PosInf
    ensures n.link != 0 ==>
              var t := ss[m].v.tree; n.link in t.low && n.link in t.level && t.level[n.link] == 0 && t.low[n.link] == High(n)
  {
    hide IsRun, Lookup;
    LoadedSnap(ss, acts, m, r);
    forall i | 0 <= i < |n.keys| ensures Lookup(ss[m].v.tree, n.keys[i]) == Some(n.vals[i]) {
      CopyAnswers(ss, acts, m, r, n, n.keys[i]);
    }
  }

  // ---------- the map as a scan meets it ----------

  class LiveMap {
    const ss: seq<M.State>
    ghost const acts: seq<Act>
    var now: nat

    ghost predicate Valid()
      reads this
    {
      IsRun(ss, acts) && now < |ss|
    }

    ghost function Cur(): Tree
      reads this
      requires now < |ss|
    {
      ss[now].v.tree
    }

    constructor (run: seq<M.State>, ghost steps: seq<Act>)
      requires IsRun(run, steps)
      ensures Valid() && ss == run && acts == steps && now == 0
    {
      ss, acts, now := run, steps, 0;
    }

    /** Other threads take some steps, or none. */
    method Elapse()
      requires Valid()
      modifies this
      ensures Valid() && old(now) <= now && Extends(old(Cur()), Cur())
    {
      hide IsRun, Extends;
      var later :| now <= later < |ss|;
      RunExtends(ss, acts, now, later);
      now := later;
    }

    /** The root pointer or its cached copy: some root that has been published. */
    method RootRecid() returns (r: Recid)
      requires Valid()
      modifies this
      ensures Valid() && old(now) <= now && Extends(old(Cur()), Cur())
      ensures r in Cur().low && r in Cur().level && Cur().low[r] == NegInf
    {
      hide IsRun, Extends, I.TreePart, I.HiddenPart, I.LockPart, I.HotPart, I.EventPart;
      Elapse();
      RunInv(ss, acts, now);
      r :| r in ss[now].v.roots;
    }

    method Load(r: Recid) returns (n: Node)
      requires Valid() && r in Cur().low
      modifies this
      ensures Valid() && old(now) <= now && Extends(old(Cur()), Cur())
      ensures r in Cur().low && r in Cur().nodes && n == Cur().nodes[r] && Snap(Cur(), ss[0].v.max, r, n)
    {
      hide IsRun, Snap;
      Elapse();
      LoadedSnap(ss, acts, now, r);
      n := ss[now].v.tree.nodes[r];
    }

    /** The last state of the run, by which loads are bounded. */
    ghost function Last(): Tree
      reads this
      requires Valid()
    {
      ss[|ss| - 1].v.tree
    }
  }

  // ---------- going down for a lower bound ----------

  lemma SnapDown(t: Tree, max: nat, r: Recid, n: Node, lo: Option<Key>)
    requires Snap(t, max, r, n) && Before(t, r, lo) && n.Dir?
    ensures var next := Step(n, lo);
            if next.Some? then next.value in t.low && next.value in t.level && t.level[next.value] < t.level[r] && Before(t, next.value, lo)
            else n.link in t.low && n.link in t.level && t.level[n.link] == t.level[r] && Before(t, n.link, lo) && Lt(t.low[r], t.low[n.link])
  {
    var i := if lo.None? then 0 else Rank(n.keys, lo.value);
    if i < |n.children| {
      assert ChildOk(t, {}, n.children[i], ChildLow(n, t.low[r], i), t.level[r]);
    }
  }

  /** Going down lowers the level; going right leaves fewer nodes further right. */
  ghost predicate Nearer(t: Tree, r: Recid, q: Recid)
    requires r in t.low && r in t.level && q in t.low && q in t.level
  {
    t.level[q] < t.level[r] || (t.level[q] == t.level[r] && Above(t, t.low[q]) < Above(t, t.low[r]))
  }

  lemma GoesNearer(t: Tree, last: Tree, r: Recid, q: Recid)
    requires Extends(t, last) && r in t.low && r in t.level && q in t.low && q in t.level
    requires t.level[q] < t.level[r] || (t.level[q] == t.level[r] && Lt(t.low[r], t.low[q]))
    ensures r in last.low && r in last.level && q in last.low && q in last.level && Nearer(last, r, q)
  {
    if t.level[q] == t.level[r] {
      assert q in Above(last, last.low[r]) && q !in Above(last, last.low[q]);
    }
  }

  lemma ReachesLast(live: LiveMap)
    requires live.Valid()
    ensures Extends(live.Cur(), live.Last())
    ensures forall r :: r in live.Cur().low ==> r in live.Last().low && live.Last().low[r] == live.Cur().low[r]
    ensures forall r :: r in live.Cur().level ==> r in live.Last().level && live.Last().level[r] == live.Cur().level[r]
  {
    RunExtends(live.ss, live.acts, live.now, |live.ss| - 1);
  }

  lemma LeafLevel(t: Tree, max: nat, r: Recid, n: Node)
    requires Snap(t, max, r, n)
    ensures n.Leaf? <==> t.level[r] == 0
  {
  }

  method LiveFirstLeaf(live: LiveMap, lo: Option<Key>) returns (n: Node, ghost r: Recid)
    requires live.Valid()
    modifies live
    ensures live.Valid() && old(live.now) <= live.now && LeafCopy(live.ss, live.now, r, n) && Before(live.Cur(), r, lo)
  {
    hide IsRun, Snap, Extends, Above;
    var cur := live.RootRecid();
    ghost var t := live.Cur();
    n := live.Load(cur);
    BeforeStays(t, live.Cur(), cur, lo);
    SnapKnown(live.Cur(), live.ss[0].v.max, cur, n);
    ReachesLast(live);
    while n.Dir?
      invariant live.Valid() && old(live.now) <= live.now && cur in live.Cur().low && cur in live.Cur().level
      invariant cur in live.Cur().nodes && n == live.Cur().nodes[cur] && Snap(live.Cur(), live.ss[0].v.max, cur, n)
      invariant Before(live.Cur(), cur, lo) && cur in live.Last().low && cur in live.Last().level
      decreases live.Last().level[cur], Above(live.Last(), live.Last().low[cur])
    {
      ghost var t, was := live.Cur(), cur;
      SnapDown(t, live.ss[0].v.max, cur, n, lo);
      var next := Step(n, lo);
      cur := if next.Some? then next.value else n.link;
      ReachesLast(live);
      GoesNearer(t, live.Last(), was, cur);
      n := live.Load(cur);
      BeforeStays(t, live.Cur(), cur, lo);
      SnapKnown(live.Cur(), live.ss[0].v.max, cur, n);
    }
    LeafLevel(live.Cur(), live.ss[0].v.max, cur, n);
    r := cur;
  }

  lemma BeforeStays(t: Tree, t': Tree, r: Recid, lo: Option<Key>)
    requires Extends(t, t') && r in t.low && Before(t, r, lo)
    ensures r in t'.low && Before(t', r, lo)
  {
  }

  lemma SnapKnown(t: Tree, max: nat, r: Recid, n: Node)
    requires Snap(t, max, r, n)
    ensures r in t.low && r in t.level
  {
  }

  // ---------- weak consistency ----------

  ghost predicate Yielded(seen: seq<Entry>, k: Key) {
    exists j :: 0 <= j < |seen| && seen[j].key == k
  }

  /** Yielded entries are in bounds and each was in the map at some moment of the scan. */
  ghost predicate SeenOk(ss: seq<M.State>, start: nat, now: nat, g: Range, seen: seq<Entry>) {
    forall j :: 0 <= j < |seen| ==> Within(seen[j].key, g) && WasThere(ss, start, now, seen[j])
  }

  lemma ListedInBounds(ss: seq<M.State>, start: nat, now: nat, g: Range, seen: seq<Entry>)
    requires SeenOk(ss, start, now, g, seen)
    ensures forall i :: 0 <= i < |seen| ==>
              && WasThere(ss, start, now, seen[i])
              && (g.lo.Some? ==> g.lo.value < seen[i].key || (g.loInc && seen[i].key == g.lo.value))
              && (g.hi.Some? ==> seen[i].key < g.hi.value || (g.hiInc && seen[i].key == g.hi.value))
    ensures forall k :: Within(k, g) <==>
              && (g.lo.Some? ==> g.lo.value < k || (g.loInc && k == g.lo.value))
              && (g.hi.Some? ==> k < g.hi.value || (g.hiInc && k == g.hi.value))
  {
    hide WasThere;
  }

  lemma SeenStays(ss: seq<M.State>, start: nat, now: nat, now': nat, g: Range, seen: seq<Entry>)
    requires SeenOk(ss, start, now, g, seen) && now <= now'
    ensures SeenOk(ss, start, now', g, seen)
  {
    hide Lookup;
    forall j | 0 <= j < |seen| ensures WasThere(ss, start, now', seen[j]) {
      assert WasThere(ss, start, now, seen[j]);
    }
  }

  lemma SeenMore(ss: seq<M.State>, start: nat, now: nat, g: Range, seen: seq<Entry>, m: nat, e: Entry)
    requires SeenOk(ss, start, now, g, seen) && Within(e.key, g)
    requires start <= m <= now && m < |ss| && Lookup(ss[m].v.tree, e.key) == Some(e.value)
    ensures SeenOk(ss, start, now, g, seen + [e])
  {
    hide Lookup;
    assert WasThere(ss, start, now, e);
  }

  // ---------- the ascending scan ----------

  /** A key not yielded yet is in the rest of the copied leaf or beyond it. */
  ghost predicate Upward(leaf: Option<Node>, pos: nat, k: Key) {
    leaf.Some? && (Lt(High(leaf.value), Fin(k)) || exists i :: pos <= i < |leaf.value.keys| && leaf.value.keys[i] == k)
  }

  /** No key that is in bounds and was in the map throughout has been passed over. */
  ghost predicate NoneMissed(ss: seq<M.State>, start: nat, now: nat, g: Range, seen: seq<Entry>, done: bool, leaf: Option<Node>, pos: nat) {
    forall k {:trigger Yielded(seen, k)} ::
      Within(k, g) && Throughout(ss, start, now, k) ==> Yielded(seen, k) || (!done && Upward(leaf, pos, k))
  }

  /** The cursor is past everything yielded. */
  ghost predicate Behind(seen: seq<Entry>, leaf: Option<Node>, pos: nat) {
    && Ascending(seen)
    && (leaf.Some? ==>
          && (forall i :: pos <= i < |leaf.value.keys| && seen != [] ==> seen[|seen| - 1].key < leaf.value.keys[i])
          && (seen != [] ==> Leq(Fin(seen[|seen| - 1].key), High(leaf.value))))
  }

  /** Entering leaf `r`, copied now, when only keys above its low bound are still to come. */
  lemma EnterLeaf(ss: seq<M.State>, acts: seq<Act>, start: nat, now: nat, g: Range, seen: seq<Entry>, r: Recid, n: Node, pos: nat)
    requires IsRun(ss, acts) && LeafCopy(ss, now, r, n) && start <= now && Ascending(seen)
    requires pos <= |n.keys| && forall i :: 0 <= i < pos ==> !Within(n.keys[i], g)
    requires forall k {:trigger Yielded(seen, k)} ::
               Within(k, g) && Throughout(ss, start, now, k) ==> Yielded(seen, k) || Lt(ss[now].v.tree.low[r], Fin(k))
    requires seen != [] ==> Leq(Fin(seen[|seen| - 1].key), ss[now].v.tree.low[r])
    ensures NoneMissed(ss, start, now, g, seen, false, Some(n), pos) && Behind(seen, Some(n), pos)
  {
    hide IsRun, Lookup;
    CopyShape(ss, acts, now, r, n);
    forall k | Within(k, g) && Throughout(ss, start, now, k) && !Yielded(seen, k) ensures Upward(Some(n), pos, k) {
      if Leq(Fin(k), High(n)) {
        CopyAnswers(ss, acts, now, r, n, k);
        var i :| 0 <= i < |n.keys| && n.keys[i] == k;
      }
    }
  }

  /** Keys in bounds lie above the low bound of the first leaf, and behind its start position none is. */
  lemma BelowStart(t: Tree, r: Recid, n: Node, g: Range)
    requires r in t.low && Before(t, r, g.lo)
    ensures StartPos(n, g) <= |n.keys| && forall i :: 0 <= i < StartPos(n, g) ==> !Within(n.keys[i], g)
    ensures forall k :: Within(k, g) ==> Lt(t.low[r], Fin(k))
  {
  }

  ghost predicate FurtherRight(last: Tree, r: Recid, q: Recid) {
    r in last.low && q in last.low && Above(last, last.low[q]) < Above(last, last.low[r])
  }

  /** The cursor has moved within its leaf, or to a leaf further right, or off the end. */
  ghost predicate Advanced(last: Tree, leaf: Option<Node>, recid: Recid, pos: nat, leaf': Option<Node>, recid': Recid, pos': nat) {
    && leaf.Some?
    && (leaf'.None? || FurtherRight(last, recid, recid') || (leaf' == leaf && recid' == recid && pos < pos' <= |leaf.value.keys|))
  }

  /** Once a key was above the lower bound, greater keys are. */
  lemma AboveOnceAbove(seen: seq<Entry>, g: Range, k: Key)
    requires seen != [] && AboveLo(seen[|seen| - 1].key, g) && seen[|seen| - 1].key < k
    ensures AboveLo(k, g)
  {
  }

  class LiveAscending {
    const live: LiveMap
    const range: Range
    var done: bool
    var leaf: Option<Node>
    var pos: nat
    var loPending: bool
    ghost const start: nat
    ghost var recid: Recid           // of the leaf copied last
    ghost var when: nat              // moment of that copy
    ghost var seen: seq<Entry>       // what has been yielded

    ghost predicate Valid()
      reads this, live
    {
      && live.Valid() && start <= live.now
      && (leaf.Some? ==> start <= when <= live.now && LeafCopy(live.ss, when, recid, leaf.value) && pos <= |leaf.value.keys|)
      && Behind(seen, leaf, pos) && SeenOk(live.ss, start, live.now, range, seen)
      && NoneMissed(live.ss, start, live.now, range, seen, done, leaf, pos)
      && (!loPending && range.lo.Some? && !done ==> seen != [])
    }

    constructor (m: LiveMap, g: Range)
      requires m.Valid()
      modifies m
      ensures Valid() && live == m && range == g && start == old(m.now) && seen == [] && !done
    {
      hide IsRun, Lookup, Throughout, WasThere;
      var n, r := LiveFirstLeaf(m, g.lo);
      live, range, start := m, g, old(m.now);
      done, leaf, pos, loPending := false, Some(n), StartPos(n, g), g.lo.Some?;
      recid, when, seen := r, m.now, [];
      new;
      CopyShape(m.ss, m.acts, m.now, r, n);
      BelowStart(m.Cur(), r, n, g);
      EnterLeaf(m.ss, m.acts, start, m.now, g, [], r, n, StartPos(n, g));
    }

    /** Follow links past exhausted leaves. */
    method SkipLeaves()
      requires Valid() && !done
      modifies live, this`leaf, this`pos, this`recid, this`when
      ensures Valid() && old(live.now) <= live.now && (leaf.Some? ==> pos < |leaf.value.keys|)
      ensures leaf.Some? ==> old(leaf).Some? && ((leaf == old(leaf) && pos == old(pos) && recid == old(recid)) || FurtherRight(live.Last(), old(recid), recid))
    {
      hide IsRun, Lookup, LeafCopy, NoneMissed, Behind, SeenOk;
      while leaf.Some? && pos >= |leaf.value.keys|
        invariant Valid() && old(live.now) <= live.now
        invariant leaf.Some? ==> old(leaf).Some? && ((leaf == old(leaf) && pos == old(pos) && recid == old(recid)) || FurtherRight(live.Last(), old(recid), recid))
        decreases leaf.Some?, if leaf.Some? && recid in live.Last().low then Above(live.Last(), live.Last().low[recid]) else {}
      {
        FollowLink();
      }
    }

    method FollowLink()
      requires Valid() && !done && leaf.Some? && pos >= |leaf.value.keys|
      modifies live, this`leaf, this`pos, this`recid, this`when
      ensures Valid() && old(live.now) <= live.now
      ensures leaf.Some? ==> FurtherRight(live.Last(), old(recid), recid)
    {
      hide IsRun, Lookup;
      var n := leaf.value;
      ghost var was, t0, r0 := live.now, live.ss[when].v.tree, recid;
      CopyShape(live.ss, live.acts, when, recid, n);
      RunExtends(live.ss, live.acts, when, live.now);
      if n.link == 0 {
        leaf, pos := None, 0;
      } else {
        var n' := live.Load(n.link);
        RunExtends(live.ss, live.acts, when, live.now);
        ReachesLast(live);
        GoesNearer(live.Cur(), live.Last(), r0, n.link);
        SeenStays(live.ss, start, was, live.now, range, seen);
        EnterLeaf(live.ss, live.acts, start, live.now, range, seen, n.link, n', 0);
        leaf, pos, recid, when := Some(n'), 0, n.link, live.now;
      }
    }

    /** Pass over the entry under the cursor, which is below the lower bound. */
    method Skip()
      requires Valid() && !done && leaf.Some? && pos < |leaf.value.keys| && !AboveLo(leaf.value.keys[pos], range)
      modifies this`pos
      ensures Valid() && pos == old(pos) + 1
    {
      hide IsRun, Lookup, LeafCopy, SeenOk, Throughout;
      ghost var k0 := leaf.value.keys[pos];
      forall k | Within(k, range) && Upward(leaf, pos, k) ensures Upward(leaf, pos + 1, k) {
        assert k != k0;
      }
      pos := pos + 1;
    }

    /** End at an entry beyond the upper bound. */
    method Stop()
      requires Valid() && !done && leaf.Some? && pos < |leaf.value.keys| && !BelowHi(leaf.value.keys[pos], range)
      modifies this`done, this`loPending
      ensures Valid() && done
    {
      hide IsRun, Lookup, SeenOk, Throughout;
      CopyShape(live.ss, live.acts, when, recid, leaf.value);
      forall k | Upward(leaf, pos, k) ensures !Within(k, range) {
        assert Leq(Fin(leaf.value.keys[pos]), High(leaf.value));
      }
      done, loPending := true, false;
    }

    /** Yield the entry under the cursor. */
    method Yield() returns (e: Entry)
      requires Valid() && !done && leaf.Some? && pos < |leaf.value.keys| && Within(leaf.value.keys[pos], range)
      modifies this`pos, this`seen, this`loPending
      ensures Valid() && seen == old(seen) + [e] && pos == old(pos) + 1
    {
      hide IsRun, Lookup, Throughout;
      var n := leaf.value;
      CopyShape(live.ss, live.acts, when, recid, n);
      e := Entry(n.keys[pos], n.vals[pos]);
      SeenMore(live.ss, start, live.now, range, seen, when, e);
      ghost var was := seen;
      seen := seen + [e];
      forall k | Yielded(was, k) || Upward(leaf, pos, k) ensures Yielded(seen, k) || Upward(leaf, pos + 1, k) {
        if Yielded(was, k) {
          var j :| 0 <= j < |was| && was[j].key == k;
          assert seen[j].key == k;
        } else if k == e.key {
          assert seen[|was|].key == k;
        }
      }
      pos, loPending := pos + 1, false;
    }

    /** Look at the entry under the cursor: skip it, yield it, or end the scan. */
    method Look() returns (again: bool, e: Option<Entry>)
      requires Valid() && !done && leaf.Some? && pos < |leaf.value.keys|
      modifies this`done, this`pos, this`seen, this`loPending
      ensures Valid() && (again ==> e == None && !done && seen == old(seen)) && (again || e.Some? ==> pos == old(pos) + 1)
      ensures !again ==> seen == if e.Some? then old(seen) + [e.value] else old(seen)
      ensures !again && e.None? ==> done
    {
      hide IsRun, Lookup, LeafCopy, Throughout, NoneMissed, Upward;
      var k := leaf.value.keys[pos];
      if loPending && !AboveLo(k, range) {
        Skip();
        return true, None;
      }
      if !loPending && range.lo.Some? {
        AboveOnceAbove(seen, range, k);
      }
      if !BelowHi(k, range) {
        Stop();
        return false, None;
      }
      var y := Yield();
      return false, Some(y);
    }

    /** The next entry, or none: then no key in bounds that was in the map throughout is missing from what was yielded. */
    method Next() returns (e: Option<Entry>)
      requires Valid()
      modifies live, this
      ensures Valid() && old(live.now) <= live.now
      ensures seen == if e.Some? then old(seen) + [e.value] else old(seen)
      ensures e.None? ==> done
      ensures e.Some? ==> Advanced(live.Last(), old(leaf), old(recid), old(pos), leaf, recid, pos)
    {
      hide IsRun, Lookup, LeafCopy, Throughout, NoneMissed, Upward, Behind, SeenOk, Above;
      if done {
        return None;
      }
      var again := true;
      e := None;
      while again
        invariant Valid() && old(live.now) <= live.now && (again ==> seen == old(seen) && !done && e == None)
        invariant !again ==> seen == (if e.Some? then old(seen) + [e.value] else old(seen)) && (e.None? ==> done)
        invariant (again && leaf == old(leaf) && recid == old(recid) && pos == old(pos))
               || Advanced(live.Last(), old(leaf), old(recid), old(pos), leaf, recid, pos) || (!again && e.None?)
        decreases again, if leaf.Some? && recid in live.Last().low then Above(live.Last(), live.Last().low[recid]) else {},
                  if leaf.Some? && pos <= |leaf.value.keys| then |leaf.value.keys| - pos else 0
      {
        ghost var l0, r0, p0 := leaf, recid, pos;
        SkipLeaves();
        if leaf.None? {
          NoneAhead(live.ss, start, live.now, range, seen, pos);
          done := true;
          return None;
        }
        again, e := Look();
        if again || e.Some? {
          AdvancedTwice(live.Last(), old(leaf), old(recid), old(pos), l0, r0, p0, leaf, recid, pos);
        }
      }
    }
  }

  lemma NoneAhead(ss: seq<M.State>, start: nat, now: nat, g: Range, seen: seq<Entry>, pos: nat)
    requires NoneMissed(ss, start, now, g, seen, false, None, pos)
    ensures NoneMissed(ss, start, now, g, seen, true, None, pos)
  {
    hide Throughout;
  }

  lemma AdvancedTwice(last: Tree, l0: Option<Node>, r0: Recid, p0: nat, l1: Option<Node>, r1: Recid, p1: nat,
                      l2: Option<Node>, r2: Recid, p2: nat)
    requires (l1 == l0 && r1 == r0 && p1 == p0) || Advanced(last, l0, r0, p0, l1, r1, p1)
    requires Advanced(last, l1, r1, p1, l2, r2, p2)
    ensures Advanced(last, l0, r0, p0, l2, r2, p2)
  {
    hide Above;
  }

  /** Drain an ascending scan of a map that is being written to. */
  method LiveCollect(scan: LiveAscending) returns (es: seq<Entry>)
    requires scan.Valid() && scan.seen == []
    modifies scan, scan.live
    ensures scan.Valid() && scan.done && scan.seen == es && old(scan.live.now) <= scan.live.now
    ensures forall i, j :: 0 <= i < j < |es| ==> es[i].key < es[j].key
    ensures forall i :: 0 <= i < |es| ==>
              && WasThere(scan.live.ss, scan.start, scan.live.now, es[i])
              && (scan.range.lo.Some? ==> scan.range.lo.value < es[i].key || (scan.range.loInc && es[i].key == scan.range.lo.value))
              && (scan.range.hi.Some? ==> es[i].key < scan.range.hi.value || (scan.range.hiInc && es[i].key == scan.range.hi.value))
    ensures forall k ::
              && Throughout(scan.live.ss, scan.start, scan.live.now, k)
              && (scan.range.lo.Some? ==> scan.range.lo.value < k || (scan.range.loInc && k == scan.range.lo.value))
              && (scan.range.hi.Some? ==> k < scan.range.hi.value || (scan.range.hiInc && k == scan.range.hi.value))
              ==> Yielded(es, k)
  {
    hide IsRun, Lookup, LeafCopy, Throughout, SeenOk, WasThere;
    es := [];
    while true
      invariant scan.Valid() && scan.seen == es && old(scan.live.now) <= scan.live.now
      decreases scan.leaf.Some?, if scan.leaf.Some? && scan.recid in scan.live.Last().low then Above(scan.live.Last(), scan.live.Last().low[scan.recid]) else {},
                if scan.leaf.Some? && scan.pos <= |scan.leaf.value.keys| then |scan.leaf.value.keys| - scan.pos else 0
    {
      var e := scan.Next();
      if e.None? {
        ListedInBounds(scan.live.ss, scan.start, scan.live.now, scan.range, es);
        return;
      }
      es := es + [e.value];
    }
  }
}

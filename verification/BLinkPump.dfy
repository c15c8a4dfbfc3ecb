/**
 The bulk loader.  Entries arrive in ascending order; one node per level is under
 construction, and a full node is written once, to a recid reserved when its left
 sibling was written, with a link to the recid reserved for its right sibling.
 The result is a B-link tree with nothing pending.
 */
module BLinkPump {
  import opened Basics
  import opened BLinkTree
  import opened BLinkScan

  /** The node under construction at one level; `pending` is the recid reserved for it, 0 if none. */
  datatype Level = Level(keys: seq<Key>, vals: seq<Value>, children: seq<Recid>, pending: Recid, first: bool)

  // ---------- written and reserved nodes ----------

  /** Reserved nodes have a low bound and a level; written ones are sound and apart. */
  ghost predicate Built(t: Tree, max: nat) {
    && t.low.Keys == t.level.Keys && t.nodes.Keys <= t.low.Keys && 0 !in t.low
    && (forall r {:trigger NodeOk(t, {}, max, r)} :: r in t.nodes ==> NodeOk(t, {}, max, r))
    && (forall r, q {:trigger Apart(t, r, q)} ::
          r in t.nodes && q in t.nodes && r != q && t.level[r] == t.level[q] ==> Apart(t, r, q))
  }

  /** Everything written at level `i` ends where the open node starts, or before. */
  ghost predicate EndsBy(t: Tree, i: nat, lo: Bound) {
    forall r :: r in t.nodes && r in t.level && t.level[r] == i ==> Leq(High(t.nodes[r]), lo)
  }

  function Reserved(t: Tree, r: Recid, lo: Bound, lvl: nat): Tree {
    t.(low := t.low[r := lo], level := t.level[r := lvl])
  }

  function Written(t: Tree, r: Recid, n: Node): Tree {
    t.(nodes := t.nodes[r := n])
  }

  lemma ReserveOk(t: Tree, max: nat, r: Recid, lo: Bound, lvl: nat)
    requires Built(t, max) && r !in t.low && r != 0
    ensures Built(Reserved(t, r, lo, lvl), max) && Extends(t, Reserved(t, r, lo, lvl))
  {
    var t' := Reserved(t, r, lo, lvl);
    forall q | q in t'.nodes ensures NodeOk(t', {}, max, q) {
      assert NodeOk(t, {}, max, q);
      RefsKept(t, t', {}, {}, t.nodes[q], t.low[q], t.level[q]);
    }
    forall p, q | p in t'.nodes && q in t'.nodes && p != q && t'.level[p] == t'.level[q] ensures Apart(t', p, q) {
      assert Apart(t, p, q);
    }
  }

  lemma WriteOk(t: Tree, max: nat, r: Recid, n: Node)
    requires Built(t, max) && r in t.low && r !in t.nodes
    requires ShapeOk(n, t.low[r], t.level[r], max) && LinkOk(t, n, t.level[r])
    requires ChildrenOk(t, {}, n, t.low[r], t.level[r]) && EndsBy(t, t.level[r], t.low[r])
    ensures Built(Written(t, r, n), max)
  {
    var t' := Written(t, r, n);
    forall q | q in t'.nodes ensures NodeOk(t', {}, max, q) {
      assert q != r ==> NodeOk(t, {}, max, q);
      RefsKept(t, t', {}, {}, t'.nodes[q], t.low[q], t.level[q]);
    }
    forall p, q | p in t'.nodes && q in t'.nodes && p != q && t'.level[p] == t'.level[q] ensures Apart(t', p, q) {
      assert p != r && q != r ==> Apart(t, p, q);
    }
  }

  /** Once everything reserved is written, the tree meets the B-link invariant with nothing pending. */
  lemma BuiltIsTree(t: Tree, max: nat)
    requires Built(t, max) && t.nodes.Keys == t.low.Keys
    ensures TreeOk(t, {}, max)
  {
    forall r | r in t.low ensures NodeOk(t, {}, max, r) {
    }
    forall r, q | r in t.low && q in t.low && r != q && t.level[r] == t.level[q] ensures Apart(t, r, q) {
    }
  }

  // ---------- the open node of a level ----------

  /** Where the next key of an open node must lie above. */
  function OpenEnd(lv: Level, lo: Bound): Bound {
    if lv.keys == [] then lo else Fin(lv.keys[|lv.keys| - 1])
  }

  ghost predicate OpenOk(t: Tree, fill: nat, i: nat, lv: Level, lo: Bound) {
    && (lv.first <==> lo == NegInf) && (lv.first <==> lv.pending == 0) && lo != PosInf
    && (!lv.first ==> lv.pending in t.low && lv.pending !in t.nodes && lv.pending in t.level && t.low[lv.pending] == lo && t.level[lv.pending] == i)
    && Sorted(lv.keys) && |lv.keys| <= fill
    && (forall j :: 0 <= j < |lv.keys| ==> Lt(lo, Fin(lv.keys[j])))
    && (if i == 0 then |lv.vals| == |lv.keys| else |lv.children| == |lv.keys| && OpenChildren(t, i, lv, lo))
  }

  ghost predicate OpenChildren(t: Tree, i: nat, lv: Level, lo: Bound) {
    |lv.children| <= |lv.keys| + 1 &&
    forall j :: 0 <= j < |lv.children| ==> ChildOk(t, {}, lv.children[j], if j == 0 then lo else Fin(lv.keys[j - 1]), i)
  }

  /** The node under construction, closed with a link: leaves get a fence, directories end with their last key. */
  function Closed(i: nat, lv: Level, link: Recid): Node
    requires lv.keys != []
  {
    if i == 0 then Leaf(lv.first, false, link, lv.keys, lv.vals, Some(lv.keys[|lv.keys| - 1]))
    else Dir(lv.first, false, link, lv.keys, lv.children)
  }

  lemma ClosedOk(t: Tree, fill: nat, max: nat, i: nat, lv: Level, lo: Bound, link: Recid)
    requires 2 <= fill <= max && OpenOk(t, fill, i, lv, lo) && |lv.keys| == fill && link != 0
    requires link in t.low && link in t.level && t.low[link] == OpenEnd(lv, lo) && t.level[link] == i
    ensures var n := Closed(i, lv, link);
            && ShapeOk(n, lo, i, max) && LinkOk(t, n, i) && ChildrenOk(t, {}, n, lo, i) && High(n) == OpenEnd(lv, lo)
  {
    var n := Closed(i, lv, link);
    if i > 0 {
      forall j | 0 <= j < |n.children| ensures ChildOk(t, {}, n.children[j], ChildLow(n, lo, j), i) {
      }
    }
  }

  /** The last node of a level: a directory also gets the last node of the level below. */
  function Ending(i: nat, lv: Level, child: Recid): Node {
    if i == 0 then Leaf(lv.first, true, 0, lv.keys, lv.vals, None)
    else Dir(lv.first, true, 0, lv.keys, lv.children + [child])
  }

  lemma EndingOk(t: Tree, fill: nat, max: nat, i: nat, lv: Level, lo: Bound, child: Recid)
    requires 2 <= fill <= max && OpenOk(t, fill, i, lv, lo) && (i > 0 ==> lv.keys != [])
    requires i > 0 ==> ChildOk(t, {}, child, OpenEnd(lv, lo), i)
    ensures var n := Ending(i, lv, child); ShapeOk(n, lo, i, max) && LinkOk(t, n, i) && ChildrenOk(t, {}, n, lo, i)
  {
    var n := Ending(i, lv, child);
    if i > 0 {
      forall j | 0 <= j < |n.children| ensures ChildOk(t, {}, n.children[j], ChildLow(n, lo, j), i) {
        assert j < |lv.children| ==> ChildOk(t, {}, lv.children[j], if j == 0 then lo else Fin(lv.keys[j - 1]), i);
      }
    }
  }

  lemma OpenKept(t: Tree, t': Tree, fill: nat, i: nat, lv: Level, lo: Bound)
    requires OpenOk(t, fill, i, lv, lo) && Extends(t, t') && (!lv.first ==> lv.pending !in t'.nodes)
    ensures OpenOk(t', fill, i, lv, lo)
  {
    if i > 0 {
      forall j | 0 <= j < |lv.children|
        ensures ChildOk(t', {}, lv.children[j], if j == 0 then lo else Fin(lv.keys[j - 1]), i)
      {
        assert ChildOk(t, {}, lv.children[j], if j == 0 then lo else Fin(lv.keys[j - 1]), i);
      }
    }
  }

  /** The tree after the open node of level `i` is written to `r` and `link` is reserved for its right sibling. */
  function AfterClose(t: Tree, i: nat, lv: Level, r: Recid, link: Recid): Tree
    requires lv.keys != []
  {
    var t1 := if lv.first then Reserved(t, r, NegInf, i) else t;
    Written(Reserved(t1, link, Fin(lv.keys[|lv.keys| - 1]), i), r, Closed(i, lv, link))
  }

  lemma CloseOk(t: Tree, fill: nat, max: nat, i: nat, lv: Level, lo: Bound, r: Recid, link: Recid)
    requires Built(t, max) && 2 <= fill <= max && OpenOk(t, fill, i, lv, lo) && EndsBy(t, i, lo) && |lv.keys| == fill
    requires if lv.first then r !in t.low && r != 0 else r == lv.pending
    requires link !in t.low && link != 0 && link != r
    ensures var t' := AfterClose(t, i, lv, r, link);
            && Built(t', max) && Extends(t, t') && r !in t.nodes
            && r in t'.low && t'.low[r] == lo && t'.level[r] == i
            && OpenOk(t', fill, i, Level([], [], [], link, false), OpenEnd(lv, lo)) && EndsBy(t', i, OpenEnd(lv, lo))
            && High(t'.nodes[r]) == OpenEnd(lv, lo) && Lt(lo, OpenEnd(lv, lo))
  {
    hide Built, EndsBy;
    var end := OpenEnd(lv, lo);
    var t2 := CloseReserves(t, fill, max, i, lv, lo, r, link);
    ClosedOk(t2, fill, max, i, lv, lo, link);
    WriteOk(t2, max, r, Closed(i, lv, link));
    WriteEnds(t2, i, lo, end, r, Closed(i, lv, link));
  }

  /** The recids of the open node and of its right sibling are reserved. */
  lemma CloseReserves(t: Tree, fill: nat, max: nat, i: nat, lv: Level, lo: Bound, r: Recid, link: Recid) returns (t2: Tree)
    requires Built(t, max) && OpenOk(t, fill, i, lv, lo) && EndsBy(t, i, lo) && lv.keys != []
    requires if lv.first then r !in t.low && r != 0 else r == lv.pending
    requires link !in t.low && link != 0 && link != r
    ensures t2 == Reserved(if lv.first then Reserved(t, r, NegInf, i) else t, link, OpenEnd(lv, lo), i)
    ensures Built(t2, max) && Extends(t, t2) && OpenOk(t2, fill, i, lv, lo) && EndsBy(t2, i, lo) && r !in t2.nodes && link !in t2.nodes
  {
    hide NodeOk, Apart;
    var t1 := if lv.first then Reserved(t, r, NegInf, i) else t;
    if lv.first {
      ReserveOk(t, max, r, NegInf, i);
    }
    ReserveOk(t1, max, link, OpenEnd(lv, lo), i);
    t2 := Reserved(t1, link, OpenEnd(lv, lo), i);
    OpenKept(t, t2, fill, i, lv, lo);
  }

  lemma WriteEnds(t: Tree, i: nat, lo: Bound, end: Bound, r: Recid, n: Node)
    requires EndsBy(t, i, lo) && Lt(lo, end) && High(n) == end
    ensures EndsBy(Written(t, r, n), i, end)
  {
  }

  // ---------- all levels ----------

  ghost predicate LevelOk(t: Tree, fill: nat, levels: seq<Level>, lows: seq<Bound>, i: nat)
    requires i < |levels| == |lows|
  {
    && OpenOk(t, fill, i, levels[i], lows[i]) && EndsBy(t, i, lows[i])
    && (levels[i].first ==> i == |levels| - 1)
  }

  /** The open node of level `i` ends where the open node below it starts. */
  ghost predicate LinkedUp(levels: seq<Level>, lows: seq<Bound>, i: nat)
    requires 0 < i < |levels| == |lows|
  {
    levels[i].keys != [] && OpenEnd(levels[i], lows[i]) == lows[i - 1]
  }

  /** Written nodes are full and not last; every reserved recid is the pending one of its level. */
  ghost predicate Accounted(t: Tree, fill: nat, levels: seq<Level>) {
    && (forall r :: r in t.nodes ==> r in t.level && t.level[r] < |levels| && !t.nodes[r].right && |t.nodes[r].keys| == fill)
    && (forall r :: r in t.low && r !in t.nodes ==>
          r in t.level && t.level[r] < |levels| && r == levels[t.level[r]].pending)
  }

  /** The state while a separator is on its way to level `h`; the levels above it are in order. */
  ghost predicate Shape(t: Tree, fill: nat, max: nat, levels: seq<Level>, lows: seq<Bound>, h: nat) {
    && 2 <= fill <= max && 0 < |levels| == |lows|
    && Built(t, max) && Accounted(t, fill, levels)
    && (forall i {:trigger LevelOk(t, fill, levels, lows, i)} :: 0 <= i < |levels| ==> LevelOk(t, fill, levels, lows, i))
    && (h < |levels| ==> levels[|levels| - 1].first)
    && (forall i {:trigger LinkedUp(levels, lows, i)} :: h < i < |levels| ==> LinkedUp(levels, lows, i))
  }

  /** `child`, just written, is to be entered into level `i` under `sep`. */
  ghost predicate Hanging(t: Tree, levels: seq<Level>, lows: seq<Bound>, i: nat, sep: Key, child: Recid)
    requires 0 < i <= |levels| == |lows|
  {
    && lows[i - 1] == Fin(sep)
    && ChildOk(t, {}, child, if i == |levels| then NegInf else OpenEnd(levels[i], lows[i]), i)
    && Lt(t.low[child], Fin(sep))
  }

  /** Recids for the open node and its right sibling: the pending one or a fresh one, and a fresh one. */
  ghost predicate Recids(t: Tree, lv: Level, r: Recid, link: Recid) {
    && (if lv.first then r !in t.low && r != 0 else r == lv.pending)
    && link !in t.low && link != 0 && link != r
  }

  lemma CloseLevels(t: Tree, fill: nat, max: nat, levels: seq<Level>, lows: seq<Bound>, i: nat, r: Recid, link: Recid, j: nat)
    requires Shape(t, fill, max, levels, lows, i) && i < |levels| && |levels[i].keys| == fill && j < |levels|
    requires Recids(t, levels[i], r, link)
    ensures LevelOk(AfterClose(t, i, levels[i], r, link), fill, levels[i := Level([], [], [], link, false)],
                    lows[i := OpenEnd(levels[i], lows[i])], j)
  {
    assert LevelOk(t, fill, levels, lows, i) && LevelOk(t, fill, levels, lows, j);
    CloseOk(t, fill, max, i, levels[i], lows[i], r, link);
    var t' := AfterClose(t, i, levels[i], r, link);
    if j != i {
      OpenKept(t, t', fill, j, levels[j], lows[j]);
    }
  }

  lemma CloseAccounted(t: Tree, fill: nat, max: nat, levels: seq<Level>, i: nat, r: Recid, link: Recid)
    requires Built(t, max) && Accounted(t, fill, levels) && i < |levels| && |levels[i].keys| == fill >= 2
    requires Recids(t, levels[i], r, link) && (if levels[i].first then levels[i].pending == 0 else r in t.level && t.level[r] == i)
    ensures Accounted(AfterClose(t, i, levels[i], r, link), fill, levels[i := Level([], [], [], link, false)])
  {
    hide NodeOk;
  }

  lemma CloseHangs(t: Tree, fill: nat, max: nat, levels: seq<Level>, lows: seq<Bound>, i: nat, r: Recid, link: Recid)
    requires Shape(t, fill, max, levels, lows, i) && i < |levels| && |levels[i].keys| == fill
    requires Recids(t, levels[i], r, link)
    ensures Hanging(AfterClose(t, i, levels[i], r, link), levels[i := Level([], [], [], link, false)],
                    lows[i := OpenEnd(levels[i], lows[i])], i + 1, levels[i].keys[fill - 1], r)
  {
    hide EndsBy, Accounted;
    assert LevelOk(t, fill, levels, lows, i);
    assert i + 1 < |levels| ==> LinkedUp(levels, lows, i + 1);
    CloseOk(t, fill, max, i, levels[i], lows[i], r, link);
  }

  lemma CloseShape(t: Tree, fill: nat, max: nat, levels: seq<Level>, lows: seq<Bound>, i: nat, r: Recid, link: Recid)
    requires Shape(t, fill, max, levels, lows, i) && i < |levels| && |levels[i].keys| == fill
    requires Recids(t, levels[i], r, link)
    ensures var t' := AfterClose(t, i, levels[i], r, link);
            var levels', lows' := levels[i := Level([], [], [], link, false)], lows[i := OpenEnd(levels[i], lows[i])];
            Shape(t', fill, max, levels', lows', i + 1) && Extends(t, t')
  {
    hide Built, Accounted, AfterClose, EndsBy, ChildOk;
    var t' := AfterClose(t, i, levels[i], r, link);
    var levels', lows' := levels[i := Level([], [], [], link, false)], lows[i := OpenEnd(levels[i], lows[i])];
    assert LevelOk(t, fill, levels, lows, i);
    CloseOk(t, fill, max, i, levels[i], lows[i], r, link);
    CloseAccounted(t, fill, max, levels, i, r, link);
    forall j | 0 <= j < |levels'| ensures LevelOk(t', fill, levels', lows', j) {
      CloseLevels(t, fill, max, levels, lows, i, r, link, j);
    }
    forall j | i + 1 < j < |levels'| ensures LinkedUp(levels', lows', j) {
      assert LinkedUp(levels, lows, j);
    }
  }

  // ---------- entering a child ----------

  function Pushed(lv: Level, sep: Key, child: Recid): Level {
    lv.(keys := lv.keys + [sep], children := lv.children + [child])
  }

  lemma NewLevelShape(t: Tree, fill: nat, max: nat, levels: seq<Level>, lows: seq<Bound>, sep: Key, child: Recid)
    requires Shape(t, fill, max, levels, lows, |levels|) && Hanging(t, levels, lows, |levels|, sep, child)
    ensures var levels', lows' := levels + [Level([], [], [], 0, true)], lows + [NegInf];
            Shape(t, fill, max, levels', lows', |levels|) && Hanging(t, levels', lows', |levels|, sep, child)
  {
    var levels', lows' := levels + [Level([], [], [], 0, true)], lows + [NegInf];
    assert LevelOk(t, fill, levels, lows, |levels| - 1);
    forall j | 0 <= j < |levels'| ensures LevelOk(t, fill, levels', lows', j) {
      assert j < |levels| ==> LevelOk(t, fill, levels, lows, j);
    }
  }

  lemma PushOpen(t: Tree, fill: nat, i: nat, lv: Level, lo: Bound, sep: Key, child: Recid)
    requires i > 0 && OpenOk(t, fill, i, lv, lo) && |lv.keys| < fill
    requires ChildOk(t, {}, child, OpenEnd(lv, lo), i) && Lt(OpenEnd(lv, lo), Fin(sep))
    ensures OpenOk(t, fill, i, Pushed(lv, sep, child), lo)
  {
    var lv' := Pushed(lv, sep, child);
    forall k | 0 <= k < |lv'.children|
      ensures ChildOk(t, {}, lv'.children[k], if k == 0 then lo else Fin(lv'.keys[k - 1]), i)
    {
      assert k < |lv.children| ==> ChildOk(t, {}, lv.children[k], if k == 0 then lo else Fin(lv.keys[k - 1]), i);
    }
  }

  lemma PushShape(t: Tree, fill: nat, max: nat, levels: seq<Level>, lows: seq<Bound>, i: nat, sep: Key, child: Recid)
    requires Shape(t, fill, max, levels, lows, i) && 0 < i < |levels| && Hanging(t, levels, lows, i, sep, child)
    requires |levels[i].keys| < fill
    ensures Shape(t, fill, max, levels[i := Pushed(levels[i], sep, child)], lows, i - 1)
  {
    hide Built, OpenOk;
    var levels' := levels[i := Pushed(levels[i], sep, child)];
    assert LevelOk(t, fill, levels, lows, i);
    PushOpen(t, fill, i, levels[i], lows[i], sep, child);
    forall j | 0 <= j < |levels'| ensures LevelOk(t, fill, levels', lows, j) {
      assert LevelOk(t, fill, levels, lows, j);
    }
    forall j | i - 1 < j < |levels'| ensures LinkedUp(levels', lows, j) {
      assert j > i ==> LinkedUp(levels, lows, j);
    }
  }

  lemma PutShape(t: Tree, fill: nat, max: nat, levels: seq<Level>, lows: seq<Bound>, key: Key, value: Value)
    requires Shape(t, fill, max, levels, lows, 0) && |levels[0].keys| < fill && Lt(OpenEnd(levels[0], lows[0]), Fin(key))
    ensures Shape(t, fill, max, levels[0 := levels[0].(keys := levels[0].keys + [key], vals := levels[0].vals + [value])], lows, 0)
  {
    hide Built;
    var levels' := levels[0 := levels[0].(keys := levels[0].keys + [key], vals := levels[0].vals + [value])];
    forall j | 0 <= j < |levels'| ensures LevelOk(t, fill, levels', lows, j) {
      assert LevelOk(t, fill, levels, lows, j);
    }
    forall j | 0 < j < |levels'| ensures LinkedUp(levels', lows, j) {
      assert LinkedUp(levels, lows, j);
    }
  }

  // ---------- ending every level ----------

  /** All but last nodes are full; what is reserved and not written is pending at level `i` or above. */
  ghost predicate EndedAccounts(t: Tree, fill: nat, levels: seq<Level>, i: nat) {
    && (forall r :: r in t.nodes && !t.nodes[r].right ==> |t.nodes[r].keys| == fill)
    && (forall r :: r in t.nodes ==> r in t.level && t.level[r] < |levels|)
    && (forall r :: r in t.low && r !in t.nodes ==>
          r in t.level && i <= t.level[r] < |levels| && r == levels[t.level[r]].pending)
  }

  /** Levels below `i` have their last node; `child` is the last node of the level below. */
  ghost predicate EndingShape(t: Tree, fill: nat, max: nat, levels: seq<Level>, lows: seq<Bound>, i: nat, child: Recid) {
    && 2 <= fill <= max && i <= |levels| == |lows| && levels != [] && levels[|levels| - 1].first
    && Built(t, max)
    && (forall j {:trigger LevelOk(t, fill, levels, lows, j)} :: i <= j < |levels| ==> LevelOk(t, fill, levels, lows, j))
    && (forall j {:trigger LinkedUp(levels, lows, j)} :: 0 < j < |levels| ==> LinkedUp(levels, lows, j))
    && EndedAccounts(t, fill, levels, i)
    && (i > 0 ==>
          && child in t.nodes && ChildOk(t, {}, child, lows[i - 1], i)
          && t.nodes[child].right && t.nodes[child].left == levels[i - 1].first)
  }

  lemma EndingStarts(t: Tree, fill: nat, max: nat, levels: seq<Level>, lows: seq<Bound>)
    requires Shape(t, fill, max, levels, lows, 0)
    ensures EndingShape(t, fill, max, levels, lows, 0, 0)
  {
  }

  function AfterEnd(t: Tree, i: nat, lv: Level, r: Recid, child: Recid): Tree {
    Written(if lv.first then Reserved(t, r, NegInf, i) else t, r, Ending(i, lv, child))
  }

  lemma EndOk(t: Tree, fill: nat, max: nat, i: nat, lv: Level, lo: Bound, r: Recid, child: Recid)
    requires Built(t, max) && 2 <= fill <= max && OpenOk(t, fill, i, lv, lo) && EndsBy(t, i, lo)
    requires if lv.first then r !in t.low && r != 0 else r == lv.pending
    requires i > 0 ==> lv.keys != [] && ChildOk(t, {}, child, OpenEnd(lv, lo), i)
    ensures var t' := AfterEnd(t, i, lv, r, child);
            && Built(t', max) && Extends(t, t') && r !in t.nodes
            && r in t'.low && r in t'.level && t'.low[r] == lo && t'.level[r] == i
  {
    var t1 := if lv.first then Reserved(t, r, NegInf, i) else t;
    if lv.first {
      ReserveOk(t, max, r, NegInf, i);
    }
    OpenKept(t, t1, fill, i, lv, lo);
    EndingOk(t1, fill, max, i, lv, lo, child);
    assert EndsBy(t1, i, lo);
    WriteOk(t1, max, r, Ending(i, lv, child));
  }

  lemma EndLevel(t: Tree, fill: nat, max: nat, levels: seq<Level>, lows: seq<Bound>, i: nat, r: Recid, child: Recid, j: nat)
    requires EndingShape(t, fill, max, levels, lows, i, child) && i < j < |levels|
    requires if levels[i].first then r !in t.low && r != 0 else r == levels[i].pending
    requires Extends(t, AfterEnd(t, i, levels[i], r, child))
    ensures LevelOk(AfterEnd(t, i, levels[i], r, child), fill, levels, lows, j)
  {
    assert LevelOk(t, fill, levels, lows, i) && LevelOk(t, fill, levels, lows, j);
    OpenKept(t, AfterEnd(t, i, levels[i], r, child), fill, j, levels[j], lows[j]);
  }

  lemma EndAccounts(t: Tree, fill: nat, levels: seq<Level>, i: nat, r: Recid, child: Recid)
    requires EndedAccounts(t, fill, levels, i) && i < |levels| && 0 !in t.low
    requires if levels[i].first then levels[i].pending == 0 else r == levels[i].pending && r in t.low
    ensures EndedAccounts(AfterEnd(t, i, levels[i], r, child), fill, levels, i + 1)
  {
  }

  lemma EndShape(t: Tree, fill: nat, max: nat, levels: seq<Level>, lows: seq<Bound>, i: nat, r: Recid, child: Recid)
    requires EndingShape(t, fill, max, levels, lows, i, child) && i < |levels|
    requires if levels[i].first then r !in t.low && r != 0 else r == levels[i].pending
    ensures EndingShape(AfterEnd(t, i, levels[i], r, child), fill, max, levels, lows, i + 1, r)
    ensures Extends(t, AfterEnd(t, i, levels[i], r, child)) && r !in t.nodes
  {
    hide EndsBy, EndedAccounts;
    var t' := AfterEnd(t, i, levels[i], r, child);
    assert LevelOk(t, fill, levels, lows, i);
    assert i > 0 ==> LinkedUp(levels, lows, i);
    EndOk(t, fill, max, i, levels[i], lows[i], r, child);
    EndAccounts(t, fill, levels, i, r, child);
    hide Built, Extends;
    forall j | i + 1 <= j < |levels| ensures LevelOk(t', fill, levels, lows, j) {
      EndLevel(t, fill, max, levels, lows, i, r, child, j);
    }
  }

  // ---------- the loader ----------

  ghost predicate LeafNode(t: Tree, r: Recid) {
    r in t.nodes && t.nodes[r].Leaf? && |t.nodes[r].vals| == |t.nodes[r].keys|
  }

  /** Entries of the leaves written so far. */
  ghost function Flat(t: Tree, chain: seq<Recid>): seq<Entry>
    requires forall j :: 0 <= j < |chain| ==> LeafNode(t, chain[j])
  {
    if chain == [] then []
    else
      assert LeafNode(t, chain[|chain| - 1]);
      Flat(t, chain[..|chain| - 1]) + Group(t.nodes[chain[|chain| - 1]])
  }

  /** `chain` are the written leaves from the first on; `open` is the recid reserved for the next one. */
  ghost predicate ChainOk(t: Tree, chain: seq<Recid>, open: Recid) {
    && (forall j :: 0 <= j < |chain| ==> LeafNode(t, chain[j]))
    && (forall j :: 0 <= j < |chain| ==> chain[j] in t.level && t.level[chain[j]] == 0 && !t.nodes[chain[j]].right)
    && (forall j :: 0 <= j < |chain| ==> t.nodes[chain[j]].link == if j + 1 < |chain| then chain[j + 1] else open)
    && (chain != [] ==> chain[0] in t.low && t.low[chain[0]] == NegInf)
  }

  /** `t'` has all of `t`; only nodes of level `i` and above were added. */
  ghost predicate GrowsAbove(t: Tree, t': Tree, i: nat) {
    && Extends(t, t')
    && (forall r :: r in t.nodes ==> r in t'.nodes && t'.nodes[r] == t.nodes[r])
    && (forall r :: r in t'.nodes && r !in t.nodes ==> r in t'.level && t'.level[r] >= i)
  }

  lemma {:induction false} FlatKept(t: Tree, t': Tree, chain: seq<Recid>)
    requires forall j :: 0 <= j < |chain| ==> LeafNode(t, chain[j])
    requires forall r :: r in t.nodes ==> r in t'.nodes && t'.nodes[r] == t.nodes[r]
    ensures forall j :: 0 <= j < |chain| ==> LeafNode(t', chain[j])
    ensures Flat(t', chain) == Flat(t, chain)
  {
    if chain != [] {
      FlatKept(t, t', chain[..|chain| - 1]);
    }
  }

  lemma ChainKept(t: Tree, t': Tree, chain: seq<Recid>, open: Recid)
    requires ChainOk(t, chain, open) && GrowsAbove(t, t', 0)
    ensures ChainOk(t', chain, open) && Flat(t', chain) == Flat(t, chain)
  {
    FlatKept(t, t', chain);
  }

  lemma FlatAppend(t: Tree, chain: seq<Recid>, r: Recid)
    requires (forall j :: 0 <= j < |chain| ==> LeafNode(t, chain[j])) && LeafNode(t, r)
    ensures forall j :: 0 <= j < |chain + [r]| ==> LeafNode(t, (chain + [r])[j])
    ensures Flat(t, chain + [r]) == Flat(t, chain) + Group(t.nodes[r])
  {
    assert (chain + [r])[..|chain + [r]| - 1] == chain;
  }

  /** The leaf just written continues the chain. */
  lemma ChainGrows(t: Tree, t': Tree, chain: seq<Recid>, open: Recid, r: Recid, open': Recid)
    requires ChainOk(t, chain, open) && GrowsAbove(t, t', 0) && LeafNode(t', r)
    requires r in t'.level && t'.level[r] == 0 && !t'.nodes[r].right && t'.nodes[r].link == open'
    requires if chain == [] then r in t'.low && t'.low[r] == NegInf else r == open
    ensures ChainOk(t', chain + [r], open') && Flat(t', chain + [r]) == Flat(t, chain) + Group(t'.nodes[r])
  {
    hide Flat;
    ChainKept(t, t', chain, open);
    FlatAppend(t', chain, r);
    var chain' := chain + [r];
    forall j | 0 <= j < |chain'|
      ensures chain'[j] in t'.level && t'.level[chain'[j]] == 0 && !t'.nodes[chain'[j]].right
      ensures t'.nodes[chain'[j]].link == if j + 1 < |chain'| then chain'[j + 1] else open'
    {
      if j < |chain| {
        assert chain'[j] == chain[j] && LeafNode(t, chain[j]);
        assert t.nodes[chain[j]].link == if j + 1 < |chain| then chain[j + 1] else open;
      }
    }
  }

  lemma LinkedRest(t: Tree, max: nat, r: Recid, q: Recid)
    requires IsLeaf(t, {}, max, r) && LeafNode(t, r) && !t.nodes[r].right && t.nodes[r].link == q
    ensures IsLeaf(t, {}, max, q) && Rest(t, {}, max, r) == Group(t.nodes[r]) + Rest(t, {}, max, q)
  {
    GroupBounds(t, {}, max, r);
  }

  lemma LastRest(t: Tree, max: nat, r: Recid)
    requires IsLeaf(t, {}, max, r) && LeafNode(t, r) && t.nodes[r].right
    ensures Rest(t, {}, max, r) == Group(t.nodes[r])
  {
  }

  lemma Regroup(a: seq<Entry>, b: seq<Entry>, c: seq<Entry>)
    ensures a + (b + c) == (a + b) + c
  {
  }

  lemma ChainLink(t: Tree, chain: seq<Recid>, open: Recid, k: nat)
    requires ChainOk(t, chain, open) && k < |chain|
    ensures LeafNode(t, chain[k]) && !t.nodes[chain[k]].right
    ensures t.nodes[chain[k]].link == if k + 1 < |chain| then chain[k + 1] else open
  {
  }

  /** With its last leaf in place, walking the links yields the chain's entries. */
  lemma {:induction false} ChainRest(t: Tree, max: nat, chain: seq<Recid>, last: Recid, k: nat)
    requires TreeOk(t, {}, max) && ChainOk(t, chain, last) && k <= |chain|
    requires IsLeaf(t, {}, max, last) && LeafNode(t, last) && t.nodes[last].right
    ensures var r := if k < |chain| then chain[k] else last;
            IsLeaf(t, {}, max, r) && Flat(t, chain[..k]) + Rest(t, {}, max, r) == Flat(t, chain) + Group(t.nodes[last])
    decreases |chain| - k
  {
    hide Rest, NodeOk, AllApart, Flat;
    if k == |chain| {
      assert chain[..k] == chain;
      LastRest(t, max, last);
    } else {
      var q := if k + 1 < |chain| then chain[k + 1] else last;
      assert LeafNode(t, chain[k]) && IsLeaf(t, {}, max, chain[k]);
      ChainLink(t, chain, last, k);
      LinkedRest(t, max, chain[k], q);
      ChainRest(t, max, chain, last, k + 1);
      assert chain[..k] + [chain[k]] == chain[..k + 1];
      FlatAppend(t, chain[..k], chain[k]);
      Regroup(Flat(t, chain[..k]), Group(t.nodes[chain[k]]), Rest(t, {}, max, q));
    }
  }

  function Pairs(keys: seq<Key>, vals: seq<Value>): (es: seq<Entry>)
    requires |keys| == |vals|
    ensures |es| == |keys| && forall i :: 0 <= i < |es| ==> es[i] == Entry(keys[i], vals[i])
  {
    seq(|keys|, i requires 0 <= i < |keys| => Entry(keys[i], vals[i]))
  }

  datatype Outcome = Done | NotSorted

  lemma CloseGrows(t: Tree, i: nat, lv: Level, r: Recid, link: Recid)
    requires lv.keys != [] && Recids(t, lv, r, link) && r !in t.nodes && Extends(t, AfterClose(t, i, lv, r, link))
    requires r in AfterClose(t, i, lv, r, link).level && AfterClose(t, i, lv, r, link).level[r] == i
    ensures GrowsAbove(t, AfterClose(t, i, lv, r, link), i)
  {
  }

  /** All there is to know about writing the open node of level `i`. */
  lemma CloseAll(t: Tree, fill: nat, max: nat, levels: seq<Level>, lows: seq<Bound>, i: nat, r: Recid, link: Recid)
    requires Shape(t, fill, max, levels, lows, i) && i < |levels| && |levels[i].keys| == fill
    requires Recids(t, levels[i], r, link)
    ensures var t' := AfterClose(t, i, levels[i], r, link);
            var levels', lows' := levels[i := Level([], [], [], link, false)], lows[i := OpenEnd(levels[i], lows[i])];
            && Shape(t', fill, max, levels', lows', i + 1) && GrowsAbove(t, t', i) && r !in t.nodes
            && Hanging(t', levels', lows', i + 1, levels[i].keys[fill - 1], r)
            && r in t'.low && r in t'.level && t'.low[r] == lows[i] && t'.level[r] == i
  {
    hide Built, Accounted, EndsBy, ChildOk, Hanging, GrowsAbove;
    assert LevelOk(t, fill, levels, lows, i);
    CloseOk(t, fill, max, i, levels[i], lows[i], r, link);
    CloseShape(t, fill, max, levels, lows, i, r, link);
    CloseHangs(t, fill, max, levels, lows, i, r, link);
    CloseGrows(t, i, levels[i], r, link);
  }

  lemma FirstUnreserved(t: Tree, fill: nat, max: nat, levels: seq<Level>, lows: seq<Bound>, h: nat, i: nat)
    requires Shape(t, fill, max, levels, lows, h) && i < |levels|
    ensures levels[i].first <==> levels[i].pending == 0
    ensures !levels[i].first ==> levels[i].pending in t.low
  {
    assert LevelOk(t, fill, levels, lows, i);
  }

  lemma KeysFit(t: Tree, fill: nat, max: nat, levels: seq<Level>, lows: seq<Bound>, h: nat, i: nat)
    requires Shape(t, fill, max, levels, lows, h) && i < |levels|
    ensures |levels[i].keys| <= fill
  {
    assert LevelOk(t, fill, levels, lows, i);
  }

  /** A hanging child keeps hanging while its parent level is emptied and the levels above change. */
  lemma HangsStill(t: Tree, t': Tree, levels: seq<Level>, lows: seq<Bound>, levels': seq<Level>, lows': seq<Bound>, i: nat, sep: Key, child: Recid)
    requires 0 < i < |levels| == |lows| && i < |levels'| == |lows'| && Hanging(t, levels, lows, i, sep, child)
    requires GrowsAbove(t, t', i) && lows'[i - 1] == lows[i - 1]
    requires levels'[i].keys == [] && lows'[i] == OpenEnd(levels[i], lows[i])
    ensures Hanging(t', levels', lows', i, sep, child)
  {
  }

  lemma GrowsKeeps(a: Tree, b: Tree, i: nat, r: Recid)
    requires GrowsAbove(a, b, i) && r in a.nodes
    ensures r in b.nodes && b.nodes[r] == a.nodes[r]
  {
  }

  lemma ClosedLeaf(lv: Level, link: Recid)
    requires |lv.vals| == |lv.keys| > 0
    ensures var n := Closed(0, lv, link);
            n.Leaf? && |n.vals| == |n.keys| && !n.right && n.link == link && Group(n) == Pairs(lv.keys, lv.vals)
  {
  }

  lemma GrowsTwice(a: Tree, b: Tree, c: Tree, i: nat, j: nat)
    requires GrowsAbove(a, b, i) && GrowsAbove(b, c, j) && i <= j
    ensures GrowsAbove(a, c, i)
  {
  }

  /** Every node was written, and none twice. */
  ghost predicate WrittenOnce(log: seq<Recid>, nodes: map<Recid, Node>) {
    && (forall i, j :: 0 <= i < j < |log| ==> log[i] != log[j])
    && (forall r :: r in nodes <==> r in log)
  }

  class Pump {
    const fill: nat
    const max: nat
    var nodes: map<Recid, Node>
    var taken: set<Recid>
    var levels: seq<Level>
    var prevKey: Option<Key>
    ghost var low: map<Recid, Bound>
    ghost var level: map<Recid, nat>
    ghost var lows: seq<Bound>
    ghost var input: seq<Entry>
    ghost var chain: seq<Recid>
    ghost var log: seq<Recid>       // recids in the order in which they were written

    ghost function Now(): Tree
      reads this
    {
      Tree(nodes, low, level)
    }

    ghost predicate Shaped(h: nat)
      reads this
    {
      Shape(Now(), fill, max, levels, lows, h) && taken == low.Keys && WrittenOnce(log, nodes)
    }

    /** Leaves written so far and the open leaf hold the input so far. */
    ghost predicate Holding()
      reads this
    {
      && levels != [] && |levels[0].vals| == |levels[0].keys|
      && ChainOk(Now(), chain, levels[0].pending) && (chain == [] <==> levels[0].first)
      && input == Flat(Now(), chain) + Pairs(levels[0].keys, levels[0].vals)
    }

    ghost predicate Valid()
      reads this
    {
      && Shaped(0) && Holding()
      && (if prevKey.None? then levels[0].keys == []
          else levels[0].keys != [] && levels[0].keys[|levels[0].keys| - 1] == prevKey.value)
      && (prevKey.None? ==> levels[0].first)
    }

    constructor (f: nat, m: nat)
      requires 2 <= f <= m
      ensures Valid() && fill == f && max == m && input == []
    {
      fill, max, nodes, taken, levels, prevKey := f, m, map[], {}, [Level([], [], [], 0, true)], None;
      low, level, lows, input, chain, log := map[], map[], [NegInf], [], [], [];
    }

    /** A recid that is not in use. */
    method Preallocate() returns (r: Recid)
      modifies this`taken
      ensures r !in old(taken) && r != 0 && taken == old(taken) + {r}
    {
      ghost var m := UpperBound(taken + {0});
      assert m !in taken && m != 0;
      r :| r !in taken && r != 0;
      taken := taken + {r};
    }

    /** The recid the open node of a level goes to: reserved before, or fresh for a level's first node. */
    method NodeRecid(lv: Level) returns (r: Recid)
      modifies this`taken
      ensures if lv.pending != 0 then r == lv.pending && taken == old(taken)
              else r !in old(taken) && r != 0 && taken == old(taken) + {r}
    {
      if lv.pending != 0 {
        r := lv.pending;
      } else {
        r := Preallocate();
      }
    }

    /** The one place where a node is written. */
    method Write(r: Recid, n: Node)
      modifies this`nodes, this`log
      ensures nodes == old(nodes)[r := n] && log == old(log) + [r]
      ensures WrittenOnce(old(log), old(nodes)) && r !in old(nodes) ==> WrittenOnce(log, nodes)
    {
      nodes := nodes[r := n];
      log := log + [r];
    }

    /** Write the full open node of level `i`, once, and reserve its right sibling. */
    method Close(i: nat) returns (r: Recid, sep: Key)
      requires Shaped(i) && i < |levels| == |lows| && |levels[i].keys| == fill >= 2
      modifies this`nodes, this`log, this`taken, this`levels, this`low, this`level, this`lows
      ensures |levels| == |lows| == |old(levels)| && levels == old(levels)[i := Level([], [], [], levels[i].pending, false)]
      ensures lows == old(lows)[i := OpenEnd(old(levels[i]), old(lows[i]))]
      ensures Shaped(i + 1) && Hanging(Now(), levels, lows, i + 1, sep, r)
      ensures r !in old(nodes) && nodes == old(nodes)[r := Closed(i, old(levels[i]), levels[i].pending)] && log == old(log) + [r]
      ensures GrowsAbove(old(Now()), Now(), i) && r in low && r in level && low[r] == old(lows[i]) && level[r] == i
      ensures !old(levels[i]).first ==> r == old(levels[i]).pending
    {
      hide Shape, Hanging, GrowsAbove;
      ghost var t := Now();
      var lv := levels[i];
      FirstUnreserved(t, fill, max, levels, lows, i, i);
      r := NodeRecid(lv);
      var link := Preallocate();
      sep := lv.keys[|lv.keys| - 1];
      CloseAll(t, fill, max, levels, lows, i, r, link);
      Write(r, Closed(i, lv, link));
      low, level := AfterClose(t, i, lv, r, link).low, AfterClose(t, i, lv, r, link).level;
      levels := levels[i := Level([], [], [], link, false)];
      lows := lows[i := OpenEnd(lv, lows[i])];
      assert Now() == AfterClose(t, i, lv, r, link);
    }

    /** Enter a written node into its parent level, writing a full parent first. */
    method PushUp(i: nat, sep: Key, child: Recid)
      requires 0 < i <= |levels| == |lows| && 2 <= fill && Shaped(i) && Hanging(Now(), levels, lows, i, sep, child)
      modifies this`nodes, this`log, this`taken, this`levels, this`low, this`level, this`lows
      ensures |old(levels)| <= |levels| == |lows| && Shaped(i - 1) && old(log) <= log
      ensures levels[..i] == old(levels[..i]) && lows[..i] == old(lows[..i]) && GrowsAbove(old(Now()), Now(), i)
      decreases |levels| - i
    {
      hide Shape, Hanging, GrowsAbove;
      ghost var t := Now();
      GrowsSelf(t, i);
      if i == |levels| {
        NewLevelShape(t, fill, max, levels, lows, sep, child);
        levels, lows := levels + [Level([], [], [], 0, true)], lows + [NegInf];
      } else {
        KeysFit(t, fill, max, levels, lows, i, i);
        if |levels[i].keys| == fill {
          ghost var lvs, los := levels, lows;
          var r, up := Close(i);
          ghost var t1, mid, mids := Now(), levels[..i + 1], lows[..i + 1];
          PushUp(i + 1, up, r);
          GrowsTwice(t, t1, Now(), i, i + 1);
          assert levels[i] == mid[i] && lows[i] == mids[i] && lows[i - 1] == mids[i - 1];
          HangsStill(t, Now(), lvs, los, levels, lows, i, sep, child);
          assert levels[..i] == mid[..i] && lows[..i] == mids[..i];
        }
      }
      PushShape(Now(), fill, max, levels, lows, i, sep, child);
      levels := levels[i := Pushed(levels[i], sep, child)];
    }

    /** Write the full open leaf. */
    method CloseLeaf() returns (r: Recid, sep: Key)
      requires Shaped(0) && Holding() && |levels| == |lows| && |levels[0].keys| == fill >= 2
      modifies this`nodes, this`log, this`taken, this`levels, this`low, this`level, this`lows, this`chain
      ensures |levels| == |lows| > 0 && Shaped(1) && Hanging(Now(), levels, lows, 1, sep, r)
      ensures levels[0] == Level([], [], [], levels[0].pending, false) && lows[0] == OpenEnd(old(levels[0]), old(lows[0]))
      ensures chain == old(chain) + [r] && ChainOk(Now(), chain, levels[0].pending) && input == Flat(Now(), chain)
      ensures log == old(log) + [r] && r !in old(nodes) && nodes == old(nodes)[r := Closed(0, old(levels[0]), levels[0].pending)]
    {
      hide Shape, Hanging, Flat, GrowsAbove, WrittenOnce, Closed, ChainOk;
      ghost var t, lv := Now(), levels[0];
      LeafStart(t, fill, max, levels, lows);
      r, sep := Close(0);
      ClosedLeaf(lv, levels[0].pending);
      ChainGrows(t, Now(), chain, lv.pending, r, levels[0].pending);
      chain := chain + [r];
    }

    /** Write the full open leaf and enter it above. */
    method FlushLeaf()
      requires Shaped(0) && Holding() && |levels| == |lows| && |levels[0].keys| == fill >= 2
      modifies this`nodes, this`log, this`taken, this`levels, this`low, this`level, this`lows, this`chain
      ensures Shaped(0) && Holding() && |levels| == |lows| && levels[0].keys == []
      ensures old(log) < log
      ensures var r := log[|old(log)|];
              r !in old(nodes) && r in nodes && nodes[r] == Closed(0, old(levels[0]), levels[0].pending)
      ensures lows[0] == OpenEnd(old(levels[0]), old(lows[0])) && input == old(input)
    {
      hide Shape, Hanging, Flat, GrowsAbove, WrittenOnce, Closed, ChainOk;
      var r, sep := CloseLeaf();
      ghost var t1, mid, mids := Now(), levels[..1], lows[..1];
      PushUp(1, sep, r);
      assert levels[0] == mid[0] && lows[0] == mids[0];
      ChainStays(t1, Now(), chain, levels[0].pending, 1);
      GrowsKeeps(t1, Now(), 1, r);
      assert Pairs(levels[0].keys, levels[0].vals) == [];
      assert Flat(Now(), chain) + [] == Flat(Now(), chain);
    }

    /** Append to the open leaf. */
    method Append(key: Key, value: Value)
      requires Shaped(0) && Holding() && |levels| == |lows| && |levels[0].keys| < fill
      requires Lt(OpenEnd(levels[0], lows[0]), Fin(key))
      modifies this`levels, this`prevKey, this`input
      ensures Valid() && prevKey == Some(key) && input == old(input) + [Entry(key, value)]
    {
      hide Shape, Flat, ChainOk;
      PutShape(Now(), fill, max, levels, lows, key, value);
      ghost var was := Pairs(levels[0].keys, levels[0].vals);
      levels := levels[0 := levels[0].(keys := levels[0].keys + [key], vals := levels[0].vals + [value])];
      prevKey := Some(key);
      input := input + [Entry(key, value)];
      assert Pairs(levels[0].keys, levels[0].vals) == was + [Entry(key, value)];
    }

    /** Add an entry; a key that does not follow its predecessor is refused and nothing changes. */
    method Put(key: Key, value: Value) returns (o: Outcome)
      requires Valid()
      modifies this`nodes, this`log, this`taken, this`levels, this`low, this`level, this`lows, this`chain, this`prevKey, this`input
      ensures Valid()
      ensures o == NotSorted <==> old(prevKey).Some? && key <= old(prevKey).value
      ensures o == NotSorted ==> unchanged(this)
      ensures old(log) <= log
      ensures o == Done ==> prevKey == Some(key) && input == old(input) + [Entry(key, value)]
    {
      hide Shape, Flat, ChainOk, Pairs;
      if prevKey.Some? && key <= prevKey.value {
        return NotSorted;
      }
      LeafStart(Now(), fill, max, levels, lows);
      if |levels[0].keys| == fill {
        FlushLeaf();
      }
      Append(key, value);
      o := Done;
    }

    ghost predicate Ended(i: nat, child: Recid)
      reads this
    {
      EndingShape(Now(), fill, max, levels, lows, i, child) && taken == low.Keys && WrittenOnce(log, nodes)
    }

    /** Write the last node of level `i`. */
    method EndLevel(i: nat, child: Recid) returns (r: Recid)
      requires Ended(i, child) && i < |levels| == |lows|
      modifies this`nodes, this`log, this`taken, this`low, this`level
      ensures Ended(i + 1, r) && r !in old(nodes) && nodes == old(nodes)[r := Ending(i, levels[i], child)] && log == old(log) + [r]
      ensures GrowsAbove(old(Now()), Now(), i) && r in low && r in level && low[r] == lows[i] && level[r] == i
      ensures !levels[i].first ==> r == levels[i].pending
    {
      hide EndingShape, GrowsAbove;
      ghost var t := Now();
      var lv := levels[i];
      EndFirst(t, fill, max, levels, lows, i, child);
      r := NodeRecid(lv);
      EndAll(t, fill, max, levels, lows, i, r, child);
      Write(r, Ending(i, lv, child));
      low, level := AfterEnd(t, i, lv, r, child).low, AfterEnd(t, i, lv, r, child).level;
      assert Now() == AfterEnd(t, i, lv, r, child);
    }

    /** Write the last nodes of the directory levels, bottom up. */
    method EndDirs(child: Recid) returns (root: Recid)
      requires Ended(1, child) && 1 <= |levels| == |lows|
      modifies this`nodes, this`log, this`taken, this`low, this`level
      ensures Ended(|levels|, root) && GrowsAbove(old(Now()), Now(), 1) && old(log) <= log
    {
      hide EndingShape, GrowsAbove;
      ghost var t := Now();
      root := child;
      GrowsSelf(t, 1);
      var i := 1;
      while i < |levels|
        invariant 1 <= i <= |levels| == |lows| && Ended(i, root) && GrowsAbove(t, Now(), 1) && old(log) <= log
      {
        ghost var t1 := Now();
        root := EndLevel(i, root);
        GrowsTwice(t, t1, Now(), 1, i);
        i := i + 1;
      }
    }

    /** Write the last node of every level, bottom up, and return the root. */
    method Finish() returns (root: Recid, ghost first: Recid)
      requires Valid()
      modifies this`nodes, this`log, this`taken, this`low, this`level
      ensures Loaded(Now(), fill, max, root, first, input) && nodes.Keys == taken
      ensures WrittenOnce(log, nodes) && old(log) <= log
      ensures GrowsAbove(old(Now()), Now(), 0)
    {
      hide Shape, EndingShape, Flat, ChainOk, GrowsAbove, Loaded, Pairs;
      ghost var t := Now();
      EndingStarts(t, fill, max, levels, lows);
      LeafStart(t, fill, max, levels, lows);
      root := EndLevel(0, 0);
      ghost var last, t1 := root, Now();
      ChainStays(t, t1, chain, levels[0].pending, 0);
      root := EndDirs(root);
      ChainStays(t1, Now(), chain, levels[0].pending, 1);
      first := LoadedOk(Now(), fill, max, levels, lows, root, chain, last, t1, input);
      GrowsTwice(t, t1, Now(), 0, 1);
    }
  }

  /**
   A finished load: the tree meets the B-link invariant with nothing pending, every recid
   taken from the store is written, all but the last node of each level hold exactly `fill`
   keys, the root spans its level, and a full scan yields the input.
   */
  ghost predicate Loaded(t: Tree, fill: nat, max: nat, root: Recid, first: Recid, input: seq<Entry>) {
    && TreeOk(t, {}, max) && t.nodes.Keys == t.low.Keys
    && (forall r :: r in t.nodes && !t.nodes[r].right ==> |t.nodes[r].keys| == fill)
    && root in t.nodes && t.nodes[root].left && t.nodes[root].right && t.low[root] == NegInf
    && (forall r :: r in t.level ==> t.level[r] <= t.level[root])
    && IsLeaf(t, {}, max, first) && t.low[first] == NegInf && Rest(t, {}, max, first) == input
  }

  lemma LoadedOk(t: Tree, fill: nat, max: nat, levels: seq<Level>, lows: seq<Bound>, root: Recid,
                 chain: seq<Recid>, last: Recid, t1: Tree, input: seq<Entry>)
    returns (first: Recid)
    requires EndingShape(t, fill, max, levels, lows, |levels|, root)
    requires ChainOk(t, chain, levels[0].pending) && |levels[0].vals| == |levels[0].keys|
    requires input == Flat(t, chain) + Pairs(levels[0].keys, levels[0].vals)
    requires GrowsAbove(t1, t, 1) && last in t1.nodes && t1.nodes[last] == Ending(0, levels[0], 0)
    requires last in t1.low && last in t1.level && t1.level[last] == 0
    requires if chain == [] then t1.low[last] == NegInf else last == levels[0].pending
    ensures Loaded(t, fill, max, root, first, input) && t.nodes.Keys == t.low.Keys
  {
    hide ChainOk, Flat, GrowsAbove;
    EndedTree(t, fill, max, levels, lows, root);
    hide EndingShape, TreeOk;
    first := FirstOf(t, max, chain, levels[0], last, t1, input);
  }

  /** Load a whole input: it succeeds exactly if the keys are strictly ascending, and then holds the input. */
  method LoadSorted(entries: seq<Entry>, f: nat, m: nat) returns (o: Outcome, pump: Pump, root: Recid, ghost first: Recid)
    requires 2 <= f <= m
    ensures fresh(pump) && (o == Done <==> Ascending(entries))
    ensures o == Done ==> Loaded(pump.Now(), f, m, root, first, entries)
    ensures o == Done ==> pump.nodes.Keys == pump.taken && WrittenOnce(pump.log, pump.nodes)
  {
    hide Shape, Loaded, Flat, ChainOk, GrowsAbove;
    pump := new Pump(f, m);
    root, first := 0, 0;
    var i := 0;
    while i < |entries|
      invariant 0 <= i <= |entries| && fresh(pump) && pump.Valid() && pump.fill == f && pump.max == m
      invariant pump.input == entries[..i] && Ascending(entries[..i])
      invariant pump.prevKey == if i == 0 then None else Some(entries[i - 1].key)
    {
      o := pump.Put(entries[i].key, entries[i].value);
      if o == NotSorted {
        return;
      }
      assert entries[..i + 1] == entries[..i] + [entries[i]];
      i := i + 1;
    }
    assert entries[..i] == entries;
    root, first := pump.Finish();
    o := Done;
  }

  lemma EndFirst(t: Tree, fill: nat, max: nat, levels: seq<Level>, lows: seq<Bound>, i: nat, child: Recid)
    requires EndingShape(t, fill, max, levels, lows, i, child) && i < |levels|
    ensures levels[i].first <==> levels[i].pending == 0
    ensures !levels[i].first ==> levels[i].pending in t.low
  {
    assert LevelOk(t, fill, levels, lows, i);
  }

  lemma EndAll(t: Tree, fill: nat, max: nat, levels: seq<Level>, lows: seq<Bound>, i: nat, r: Recid, child: Recid)
    requires EndingShape(t, fill, max, levels, lows, i, child) && i < |levels|
    requires if levels[i].first then r !in t.low && r != 0 else r == levels[i].pending
    ensures var t' := AfterEnd(t, i, levels[i], r, child);
            && EndingShape(t', fill, max, levels, lows, i + 1, r) && GrowsAbove(t, t', i) && r !in t.nodes
            && r in t'.low && r in t'.level && t'.low[r] == lows[i] && t'.level[r] == i
  {
    hide EndedAccounts, EndsBy;
    assert LevelOk(t, fill, levels, lows, i);
    assert i > 0 ==> LinkedUp(levels, lows, i);
    EndOk(t, fill, max, i, levels[i], lows[i], r, child);
    EndShape(t, fill, max, levels, lows, i, r, child);
  }

  lemma EndedTree(t: Tree, fill: nat, max: nat, levels: seq<Level>, lows: seq<Bound>, root: Recid)
    requires EndingShape(t, fill, max, levels, lows, |levels|, root)
    ensures TreeOk(t, {}, max) && t.nodes.Keys == t.low.Keys
    ensures forall r :: r in t.nodes && !t.nodes[r].right ==> |t.nodes[r].keys| == fill
    ensures root in t.nodes && root in t.low && t.nodes[root].left && t.nodes[root].right && t.low[root] == NegInf
    ensures forall r :: r in t.level ==> t.level[r] <= t.level[root]
  {
    BuiltIsTree(t, max);
    assert NodeOk(t, {}, max, root);
  }

  /** The leaf a full scan starts from, and what it yields. */
  lemma FirstOf(t: Tree, max: nat, chain: seq<Recid>, lv: Level, last: Recid, t1: Tree, input: seq<Entry>) returns (first: Recid)
    requires TreeOk(t, {}, max) && ChainOk(t, chain, lv.pending) && |lv.vals| == |lv.keys|
    requires input == Flat(t, chain) + Pairs(lv.keys, lv.vals)
    requires GrowsAbove(t1, t, 1) && last in t1.nodes && t1.nodes[last] == Ending(0, lv, 0)
    requires last in t1.low && last in t1.level && t1.level[last] == 0
    requires if chain == [] then t1.low[last] == NegInf else last == lv.pending
    ensures IsLeaf(t, {}, max, first) && t.low[first] == NegInf && Rest(t, {}, max, first) == input
  {
    hide Rest, NodeOk, AllApart, Flat;
    first := if chain == [] then last else chain[0];
    assert chain[..0] == [];
    LastLeaf(t, max, last, lv, t1);
    ChainRest(t, max, chain, last, 0);
    FlatEmpty(t);
  }

  lemma FlatEmpty(t: Tree)
    ensures Flat(t, []) == []
  {
  }

  lemma LastLeaf(t: Tree, max: nat, last: Recid, lv: Level, t1: Tree)
    requires TreeOk(t, {}, max) && GrowsAbove(t1, t, 1) && last in t1.nodes && t1.nodes[last] == Ending(0, lv, 0)
    requires last in t1.low && last in t1.level && t1.level[last] == 0 && |lv.vals| == |lv.keys|
    ensures IsLeaf(t, {}, max, last) && LeafNode(t, last) && t.nodes[last].right && t.low[last] == t1.low[last]
    ensures Group(t.nodes[last]) == Pairs(lv.keys, lv.vals)
  {
  }

  lemma LeafStart(t: Tree, fill: nat, max: nat, levels: seq<Level>, lows: seq<Bound>)
    requires Shape(t, fill, max, levels, lows, 0)
    ensures |levels| == |lows| && fill >= 2 && |levels[0].keys| <= fill
    ensures lows[0] == NegInf <==> levels[0].first
    ensures lows[0] != PosInf
  {
    assert LevelOk(t, fill, levels, lows, 0);
  }

  lemma ChainStays(t: Tree, t': Tree, chain: seq<Recid>, open: Recid, i: nat)
    requires ChainOk(t, chain, open) && GrowsAbove(t, t', i)
    ensures ChainOk(t', chain, open) && Flat(t', chain) == Flat(t, chain)
  {
    ChainKept(t, t', chain, open);
  }

  lemma GrowsSelf(t: Tree, i: nat)
    ensures GrowsAbove(t, t, i)
  {
  }
}

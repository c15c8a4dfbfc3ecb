/**
 Opening a map.  The left edges are not stored: they are rebuilt by walking down the
 leftmost children.  Opening a well-formed tree, in particular one the bulk loader has
 just written, gives a state from which every theorem about runs applies.
 */
module BLinkOpen {
  import opened Basics
  import opened BLinkTree
  import opened BLinkMachine
  import opened BLinkInvariant
  import opened BLinkTheorems
  import Scan = BLinkScan
  import Pump = BLinkPump

  /** `r` starts level `i`. */
  ghost predicate Leftmost(t: Tree, r: Recid, i: int) {
    r in t.low && r in t.level && t.low[r] == NegInf && t.level[r] == i
  }

  /** `edges` names the leftmost node of every level up to `top`. */
  ghost predicate LeftEdges(t: Tree, edges: seq<Recid>, top: nat) {
    |edges| == top + 1 && forall i :: 0 <= i < |edges| ==> Leftmost(t, edges[i], i)
  }

  /** Fails exactly if the root pointer names a node that is not both ends of its level. */
  method BuildLeftEdges(nodes: map<Recid, Node>, ghost t: Tree, ghost max: nat, root: Recid) returns (edges: Option<seq<Recid>>)
    requires nodes == t.nodes && TreeOk(t, {}, max) && root in t.low
    ensures edges.Some? <==> RootShaped(nodes[root])
    ensures edges.Some? ==> LeftEdges(t, edges.value, t.level[root])
  {
    assert NodeOk(t, {}, max, root);
    var cur, spine, n := root, [root], nodes[root];
    if !RootShaped(n) {
      return None;
    }
    while n.Dir?
      invariant cur in t.low && n == nodes[cur] && Leftmost(t, cur, t.level[cur])
      invariant |spine| == t.level[root] - t.level[cur] + 1
      invariant forall i :: 0 <= i < |spine| ==> Leftmost(t, spine[i], t.level[root] - i)
      decreases t.level[cur]
    {
      assert NodeOk(t, {}, max, cur);
      assert ChildOk(t, {}, n.children[0], ChildLow(n, NegInf, 0), t.level[cur]);
      cur := n.children[0];
      assert NodeOk(t, {}, max, cur);
      spine, n := spine + [cur], nodes[cur];
    }
    assert NodeOk(t, {}, max, cur);
    edges := Some(seq(|spine|, i requires 0 <= i < |spine| => spine[|spine| - 1 - i]));
  }

  /** A level with a level above it has more than one node. */
  lemma NotShapedBelow(t: Tree, max: nat, up: Recid, r: Recid)
    requires TreeOk(t, {}, max) && r in t.low && Leftmost(t, up, t.level[r] + 1)
    ensures !RootShaped(t.nodes[r])
  {
    assert NodeOk(t, {}, max, r) && NodeOk(t, {}, max, up);
    var n := t.nodes[up];
    var q := n.children[1];
    assert ChildOk(t, {}, q, ChildLow(n, NegInf, 1), t.level[up]);
    assert NodeOk(t, {}, max, q) && (q != r ==> Apart(t, r, q));
  }

  lemma OnlyRootIsShaped(t: Tree, max: nat, root: Recid, edges: seq<Recid>, r: Recid)
    requires TreeOk(t, {}, max) && root in t.low && RootShaped(t.nodes[root])
    requires LeftEdges(t, edges, t.level[root])
    requires r in t.low && t.level[r] <= t.level[root] && RootShaped(t.nodes[r])
    ensures r == root
  {
    assert NodeOk(t, {}, max, r) && NodeOk(t, {}, max, root);
    assert t.level[r] == t.level[root] by {
      if t.level[r] < t.level[root] {
        NotShapedBelow(t, max, edges[t.level[r] + 1], r);
      }
    }
    assert r != root ==> Apart(t, r, root);
  }

  /** The state after opening tree `t`, whose root pointer record is `ptr`. */
  function Opened(t: Tree, max: nat, ptr: Recid, root: Recid, edges: seq<Recid>, ts: set<Tid>): State {
    State(Shared(t, max, ptr, root, edges, map[], {root}, map[], map[], map[], None, false, [], []),
          map u | u in ts :: Idle)
  }

  lemma OpenedIsInitial(t: Tree, max: nat, ptr: Recid, root: Recid, edges: seq<Recid>, ts: set<Tid>)
    requires max >= 4 && TreeOk(t, {}, max) && t.nodes.Keys == t.low.Keys && ptr !in t.nodes
    requires root in t.low && RootShaped(t.nodes[root]) && LeftEdges(t, edges, t.level[root])
    requires forall r :: r in t.level ==> t.level[r] <= t.level[root]
    ensures Initial(Opened(t, max, ptr, root, edges, ts))
  {
    var v := Opened(t, max, ptr, root, edges, ts).v;
    assert v.pend.Keys == {};
    assert NodeOk(t, {}, max, root) && (0 in t.low ==> NodeOk(t, {}, max, 0));
    forall i | 0 <= i < |edges| ensures EdgeOk(v, i) {
      assert Leftmost(t, edges[i], i);
    }
    forall r | r in t.low ensures ShapedIsRoot(v, r) {
      if RootShaped(t.nodes[r]) {
        OnlyRootIsShaped(t, max, root, edges, r);
      }
    }
  }

  /** The entries are the contents of the tree. */
  ghost predicate Lists(entries: seq<Scan.Entry>, t: Tree) {
    forall k, x :: Scan.Entry(k, x) in entries <==> Lookup(t, k) == Some(x)
  }

  /**
   Bulk creation succeeds exactly if the keys are strictly ascending; the map then holds
   exactly the input and is ready for concurrent use.
   */
  method CreateFromSorted(entries: seq<Scan.Entry>, fill: nat, max: nat, ghost ts: set<Tid>)
    returns (ok: bool, nodes: map<Recid, Node>, ptr: Recid, root: Recid, edges: seq<Recid>, ghost t: Tree, ghost log: seq<Recid>)
    requires 2 <= fill <= max && max >= 4
    ensures ok <==> Scan.Ascending(entries)
    ensures ok ==> nodes == t.nodes && Lists(entries, t) && Initial(Opened(t, max, ptr, root, edges, ts))
    ensures ok ==> Pump.WrittenOnce(log, nodes)
  {
    hide TreeOk, Lookup, Initial, Scan.Rest, LeftEdges, Lists;
    nodes, ptr, edges, t, log := map[], 0, [], Tree(map[], map[], map[]), [];
    var o, pump;
    ghost var first;
    o, pump, root, first := Pump.LoadSorted(entries, fill, max);
    ok := o == Pump.Done;
    if ok {
      nodes, t, log := pump.nodes, pump.Now(), pump.log;
      ptr := pump.Preallocate();
      var le := BuildLeftEdges(nodes, t, max, root);
      edges := le.value;
      OpenedIsInitial(t, max, ptr, root, edges, ts);
      LoadedLists(t, fill, max, root, first, entries);
    }
  }

  lemma LoadedLists(t: Tree, fill: nat, max: nat, root: Recid, first: Recid, entries: seq<Scan.Entry>)
    requires Pump.Loaded(t, fill, max, root, first, entries)
    ensures Lists(entries, t)
  {
    hide TreeOk, Lookup, Scan.Rest;
    forall k, x ensures Scan.Entry(k, x) in entries <==> Lookup(t, k) == Some(x) {
      Scan.RestLookup(t, {}, max, first, k, x);
    }
  }
}

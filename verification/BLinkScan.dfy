/**
 Scans of a quiescent tree.  The ascending scan walks the leaf links.  The descending
 scan has no links to follow: it descends again for every leaf, from a stack of
 directories kept from the descent before, toward a bound it lowers each time.
 Neither needs the separators of split-off nodes to have reached their parents.
 */
module BLinkScan {
  import opened Basics
  import opened BLinkTree

  datatype Entry = Entry(key: Key, value: Value)

  /** Bounds of a scan; an absent bound is open. */
  datatype Range = Range(lo: Option<Key>, loInc: bool, hi: Option<Key>, hiInc: bool)

  predicate AboveLo(k: Key, g: Range) {
    g.lo.None? || g.lo.value < k || (g.loInc && g.lo.value == k)
  }

  predicate BelowHi(k: Key, g: Range) {
    g.hi.None? || k < g.hi.value || (g.hiInc && k == g.hi.value)
  }

  predicate Within(k: Key, g: Range) {
    AboveLo(k, g) && BelowHi(k, g)
  }

  /** The entries of `es` that lie within the bounds. */
  function Select(es: seq<Entry>, g: Range): seq<Entry> {
    if es == [] then []
    else (if Within(es[0].key, g) then [es[0]] else []) + Select(es[1..], g)
  }

  function Reversed(es: seq<Entry>): seq<Entry> {
    if es == [] then [] else Reversed(es[1..]) + [es[0]]
  }

  lemma {:induction false} ReversedAt(es: seq<Entry>)
    ensures |Reversed(es)| == |es| && forall i :: 0 <= i < |es| ==> Reversed(es)[i] == es[|es| - 1 - i]
  {
    if es != [] {
      ReversedAt(es[1..]);
    }
  }

  // ---------- the contents of a tree as one ascending sequence ----------

  function Group(n: Node): (es: seq<Entry>)
    requires n.Leaf? && |n.vals| == |n.keys|
    ensures |es| == |n.keys|
    ensures forall i :: 0 <= i < |es| ==> es[i] == Entry(n.keys[i], n.vals[i])
  {
    seq(|n.keys|, i requires 0 <= i < |n.keys| => Entry(n.keys[i], n.vals[i]))
  }

  ghost predicate IsLeaf(t: Tree, pend: set<Recid>, max: nat, r: Recid) {
    TreeOk(t, pend, max) && r in t.low && r in t.level && r in t.nodes && t.level[r] == 0
  }

  /** The entries of leaf `r` and of every leaf to its right. */
  ghost function Rest(t: Tree, pend: set<Recid>, max: nat, r: Recid): seq<Entry>
    requires IsLeaf(t, pend, max, r)
    decreases Above(t, t.low[r])
  {
    assert NodeOk(t, pend, max, r);
    var n := t.nodes[r];
    if n.right then Group(n)
    else
      assert n.link in Above(t, t.low[r]) && n.link !in Above(t, t.low[n.link]);
      Group(n) + Rest(t, pend, max, n.link)
  }

  ghost predicate Ascending(es: seq<Entry>) {
    forall i, j :: 0 <= i < j < |es| ==> es[i].key < es[j].key
  }

  /** All keys of `es` lie strictly above `b`. */
  ghost predicate KeysAbove(es: seq<Entry>, b: Bound) {
    forall i :: 0 <= i < |es| ==> Lt(b, Fin(es[i].key))
  }

  ghost predicate KeysUpTo(es: seq<Entry>, b: Bound) {
    forall i :: 0 <= i < |es| ==> Leq(Fin(es[i].key), b)
  }

  lemma GroupBounds(t: Tree, pend: set<Recid>, max: nat, r: Recid)
    requires IsLeaf(t, pend, max, r)
    ensures t.nodes[r].Leaf? && |t.nodes[r].vals| == |t.nodes[r].keys|
    ensures var es := Group(t.nodes[r]); Ascending(es) && KeysAbove(es, t.low[r]) && KeysUpTo(es, High(t.nodes[r]))
    ensures Lt(t.low[r], High(t.nodes[r])) && (t.nodes[r].right <==> High(t.nodes[r]) == PosInf)
    ensures !t.nodes[r].right ==> IsLeaf(t, pend, max, t.nodes[r].link) && t.low[t.nodes[r].link] == High(t.nodes[r])
    ensures t.nodes[r].right <==> t.nodes[r].link == 0
  {
    assert NodeOk(t, pend, max, r);
  }

  lemma {:induction false} RestBounds(t: Tree, pend: set<Recid>, max: nat, r: Recid)
    requires IsLeaf(t, pend, max, r)
    ensures var es := Rest(t, pend, max, r); Ascending(es) && KeysAbove(es, t.low[r])
    decreases Above(t, t.low[r])
  {
    GroupBounds(t, pend, max, r);
    var n := t.nodes[r];
    if !n.right {
      assert n.link in Above(t, t.low[r]) && n.link !in Above(t, t.low[n.link]);
      RestBounds(t, pend, max, n.link);
    }
  }

  /** Seen from a leaf further left, the entries split at leaf `r`. */
  lemma {:induction false} RestSplits(t: Tree, pend: set<Recid>, max: nat, first: Recid, r: Recid) returns (before: seq<Entry>)
    requires IsLeaf(t, pend, max, first) && IsLeaf(t, pend, max, r) && Leq(t.low[first], t.low[r])
    ensures Rest(t, pend, max, first) == before + Rest(t, pend, max, r) && KeysUpTo(before, t.low[r])
    decreases Above(t, t.low[first])
  {
    if first == r {
      before := [];
    } else {
      NextStarts(t, pend, max, first, r);
      GroupBounds(t, pend, max, first);
      GroupBounds(t, pend, max, r);
      var n := t.nodes[first];
      assert n.link in Above(t, t.low[first]) && n.link !in Above(t, t.low[n.link]);
      var rest := RestSplits(t, pend, max, n.link, r);
      before := Group(n) + rest;
    }
  }

  /** From leaf `r` on, the sequence lists exactly what point reads find. */
  lemma {:induction false} RestLookup(t: Tree, pend: set<Recid>, max: nat, r: Recid, k: Key, x: Value)
    requires IsLeaf(t, pend, max, r) && Lt(t.low[r], Fin(k))
    ensures Entry(k, x) in Rest(t, pend, max, r) <==> Lookup(t, k) == Some(x)
    decreases Above(t, t.low[r])
  {
    hide TreeOk, Lookup;
    GroupBounds(t, pend, max, r);
    var n := t.nodes[r];
    if !n.right {
      RestBounds(t, pend, max, n.link);
    }
    if Leq(Fin(k), High(n)) {
      LookupAtCover(t, pend, max, r, k);
      GroupLookup(n, k, x);
    } else {
      assert n.link in Above(t, t.low[r]) && n.link !in Above(t, t.low[n.link]);
      RestLookup(t, pend, max, n.link, k, x);
    }
  }

  lemma GroupLookup(n: Node, k: Key, x: Value)
    requires n.Leaf? && |n.vals| == |n.keys| && Ascending(Group(n))
    ensures Entry(k, x) in Group(n) <==> LeafGet(n, k) == Some(x)
  {
    forall i, j | 0 <= i < j < |n.keys| ensures n.keys[i] < n.keys[j] {
      assert Group(n)[i].key < Group(n)[j].key;
    }
    FoundIffMember(n.keys, k);
    if LeafGet(n, k) == Some(x) {
      assert Group(n)[Rank(n.keys, k)] == Entry(k, x);
    }
  }

  // ---------- selecting ----------

  lemma {:induction false} SelectConcat(a: seq<Entry>, b: seq<Entry>, g: Range)
    ensures Select(a + b, g) == Select(a, g) + Select(b, g)
  {
    if a == [] {
      assert a + b == b;
    } else {
      assert (a + b)[0] == a[0] && (a + b)[1..] == a[1..] + b;
      SelectConcat(a[1..], b, g);
    }
  }

  lemma {:induction false} SelectMembers(es: seq<Entry>, g: Range)
    requires Ascending(es)
    ensures Ascending(Select(es, g))
    ensures forall e :: e in Select(es, g) <==> e in es && Within(e.key, g)
  {
    if es != [] {
      assert es == [es[0]] + es[1..];
      SelectMembers(es[1..], g);
      forall e | e in es[1..] ensures es[0].key < e.key {
        var i :| 0 < i < |es| && es[i] == e;
      }
    }
  }

  lemma {:induction false} SelectNone(es: seq<Entry>, g: Range)
    requires forall i :: 0 <= i < |es| ==> !Within(es[i].key, g)
    ensures Select(es, g) == []
  {
    if es != [] {
      assert !Within(es[0].key, g);
      SelectNone(es[1..], g);
    }
  }

  lemma {:induction false} SelectSame(es: seq<Entry>, g: Range, h: Range)
    requires forall i :: 0 <= i < |es| ==> (Within(es[i].key, g) <==> Within(es[i].key, h))
    ensures Select(es, g) == Select(es, h)
  {
    if es != [] {
      assert Within(es[0].key, g) <==> Within(es[0].key, h);
      SelectSame(es[1..], g, h);
    }
  }

  /** Where a search for the lower bound goes next. */
  function Step(n: Node, lo: Option<Key>): Option<Recid>
    requires n.Dir?
  {
    var i := if lo.None? then 0 else Rank(n.keys, lo.value);
    if i < |n.children| then Some(n.children[i]) else None
  }

  /** `r` starts left of the bound; with no bound it starts its level. */
  ghost predicate Before(t: Tree, r: Recid, lo: Option<Key>)
    requires r in t.low
  {
    if lo.None? then t.low[r] == NegInf else Lt(t.low[r], Fin(lo.value))
  }

  /** A quiescent tree reached through any node that starts its level. */
  ghost predicate Ready(t: Tree, pend: set<Recid>, max: nat, root: Recid, first: Recid) {
    && TreeOk(t, pend, max) && root in t.low && t.low[root] == NegInf
    && first in t.low && t.low[first] == NegInf && t.level[first] == 0
  }

  lemma StepDown(t: Tree, pend: set<Recid>, max: nat, r: Recid, lo: Option<Key>)
    requires TreeOk(t, pend, max) && r in t.low && Before(t, r, lo) && t.nodes[r].Dir?
    ensures var next := Step(t.nodes[r], lo);
            if next.Some? then next.value in t.low && t.level[next.value] < t.level[r] && Before(t, next.value, lo)
            else
              var q := t.nodes[r].link;
              && q in t.low && t.level[q] == t.level[r] && Before(t, q, lo)
              && q in Above(t, t.low[r]) && Above(t, t.low[q]) < Above(t, t.low[r])
  {
    assert NodeOk(t, pend, max, r);
    var n := t.nodes[r];
    var i := if lo.None? then 0 else Rank(n.keys, lo.value);
    if i < |n.children| {
      assert ChildOk(t, pend, n.children[i], ChildLow(n, t.low[r], i), t.level[r]);
    } else {
      assert n.link in Above(t, t.low[r]) && n.link !in Above(t, t.low[n.link]);
    }
  }

  /** The leaf that an unlocked descent for the lower bound ends at. */
  method FirstLeaf(t: Tree, ghost pend: set<Recid>, ghost max: nat, root: Recid, lo: Option<Key>) returns (r: Recid)
    requires TreeOk(t, pend, max) && root in t.low && t.low[root] == NegInf
    ensures IsLeaf(t, pend, max, r) && Before(t, r, lo)
  {
    r := root;
    while t.nodes[r].Dir?
      invariant r in t.low && Before(t, r, lo)
      decreases t.level[r], Above(t, t.low[r])
    {
      StepDown(t, pend, max, r, lo);
      var next := Step(t.nodes[r], lo);
      r := if next.Some? then next.value else t.nodes[r].link;
    }
    assert NodeOk(t, pend, max, r);
  }

  // ---------- the ascending scan ----------

  /** Position in the first leaf at which the scan begins. */
  function StartPos(n: Node, g: Range): nat {
    if g.lo.None? then 0
    else
      var i := Rank(n.keys, g.lo.value);
      if FoundAt(n.keys, g.lo.value, i) && !g.loInc then i + 1 else i
  }

  lemma StartsAtLo(t: Tree, pend: set<Recid>, max: nat, first: Recid, r: Recid, g: Range)
    requires IsLeaf(t, pend, max, first) && t.low[first] == NegInf && IsLeaf(t, pend, max, r) && Before(t, r, g.lo)
    ensures var i := StartPos(t.nodes[r], g);
            && i <= |t.nodes[r].keys| <= |Rest(t, pend, max, r)|
            && Select(Rest(t, pend, max, first), g) == Select(Rest(t, pend, max, r)[i..], g)
  {
    hide TreeOk, Select, Rest;
    GroupBounds(t, pend, max, r);
    var es, i := Rest(t, pend, max, r), StartPos(t.nodes[r], g);
    var before := RestSplits(t, pend, max, first, r);
    SelectConcat(before, es, g);
    LeftIsBelow(before, t.low[r], g);
    PrefixIsBelow(t.nodes[r], g);
    RestPrefix(t, pend, max, r, i);
    SelectConcat(es[..i], es[i..], g);
    assert es[..i] + es[i..] == es;
  }

  lemma RestPrefix(t: Tree, pend: set<Recid>, max: nat, r: Recid, i: nat)
    requires IsLeaf(t, pend, max, r) && i <= |t.nodes[r].keys|
    ensures t.nodes[r].Leaf? && |t.nodes[r].vals| == |t.nodes[r].keys| <= |Rest(t, pend, max, r)|
    ensures Rest(t, pend, max, r)[..i] == Group(t.nodes[r])[..i]
  {
    GroupBounds(t, pend, max, r);
  }

  lemma LeftIsBelow(es: seq<Entry>, b: Bound, g: Range)
    requires KeysUpTo(es, b) && if g.lo.None? then b == NegInf else Lt(b, Fin(g.lo.value))
    ensures Select(es, g) == []
  {
    forall i | 0 <= i < |es| ensures !Within(es[i].key, g) {
      assert Leq(Fin(es[i].key), b);
    }
    SelectNone(es, g);
  }

  lemma PrefixIsBelow(n: Node, g: Range)
    requires n.Leaf? && |n.vals| == |n.keys|
    ensures StartPos(n, g) <= |n.keys| && Select(Group(n)[..StartPos(n, g)], g) == []
  {
    SelectNone(Group(n)[..StartPos(n, g)], g);
  }

  /** At an entry beyond the upper bound nothing further is in range. */
  lemma NothingAhead(es: seq<Entry>, g: Range)
    requires Ascending(es) && es != [] && !BelowHi(es[0].key, g)
    ensures Select(es, g) == []
  {
    SelectNone(es, g);
  }

  lemma SelectHead(es: seq<Entry>, g: Range)
    requires es != []
    ensures Select(es, g) == (if Within(es[0].key, g) then [es[0]] else []) + Select(es[1..], g)
  {
  }

  lemma AllAboveLo(es: seq<Entry>, g: Range)
    requires Ascending(es) && es != [] && AboveLo(es[0].key, g)
    ensures forall i :: 0 <= i < |es| ==> AboveLo(es[i].key, g)
  {
  }

  class AscendingScan {
    const tree: Tree
    const range: Range
    ghost const pend: set<Recid>
    ghost const max: nat
    var done: bool
    var leaf: Option<Recid>
    var pos: nat
    var loPending: bool

    ghost predicate AtLeaf()
      reads this
    {
      leaf.Some? ==> IsLeaf(tree, pend, max, leaf.value) && pos <= |Rest(tree, pend, max, leaf.value)|
    }

    /** Entries from the cursor on, in or out of range. */
    ghost function Ahead(): seq<Entry>
      reads this
      requires AtLeaf()
    {
      if leaf.None? then [] else Rest(tree, pend, max, leaf.value)[pos..]
    }

    ghost predicate Valid()
      reads this
    {
      && AtLeaf()
      && (leaf.Some? ==> pos <= |tree.nodes[leaf.value].keys|)
      && (range.lo.None? ==> !loPending)
      && (!loPending ==> forall i :: 0 <= i < |Ahead()| ==> AboveLo(Ahead()[i].key, range))
    }

    /** What the scan has still to yield. */
    ghost function Remaining(): seq<Entry>
      reads this
      requires Valid()
    {
      if done then [] else Select(Ahead(), range)
    }

    constructor (t: Tree, ghost p: set<Recid>, ghost m: nat, root: Recid, ghost first: Recid, g: Range)
      requires Ready(t, p, m, root, first)
      ensures Valid() && tree == t && range == g && pend == p && max == m
      ensures Remaining() == Select(Rest(t, p, m, first), g)
    {
      var r := FirstLeaf(t, p, m, root, g.lo);
      tree, range, pend, max := t, g, p, m;
      done, leaf, pos, loPending := false, Some(r), StartPos(t.nodes[r], g), g.lo.Some?;
      new;
      StartsAtLo(t, p, m, first, r, g);
    }

    /** Past the last entry of a leaf the scan continues at its link, or ends. */
    lemma LeafEnds()
      requires Valid() && leaf.Some? && pos == |tree.nodes[leaf.value].keys|
      ensures var n := tree.nodes[leaf.value];
              if n.link == 0 then Ahead() == []
              else IsLeaf(tree, pend, max, n.link) && Ahead() == Rest(tree, pend, max, n.link)
    {
      GroupBounds(tree, pend, max, leaf.value);
    }

    lemma EntryHere()
      requires Valid() && leaf.Some? && pos < |tree.nodes[leaf.value].keys|
      ensures Ahead() != [] && Ascending(Ahead()) && tree.nodes[leaf.value].Leaf?
      ensures var n := tree.nodes[leaf.value]; |n.vals| == |n.keys| && Ahead()[0] == Entry(n.keys[pos], n.vals[pos])
      ensures Ahead()[1..] == Rest(tree, pend, max, leaf.value)[pos + 1..]
    {
      GroupBounds(tree, pend, max, leaf.value);
      RestBounds(tree, pend, max, leaf.value);
      assert Ahead()[0] == Group(tree.nodes[leaf.value])[pos];
    }

    /** Follow links past exhausted leaves. */
    method SkipLeaves()
      requires Valid() && !done
      modifies this`leaf, this`pos
      ensures Valid() && Ahead() == old(Ahead())
      ensures leaf.Some? ==> pos < |tree.nodes[leaf.value].keys|
    {
      while leaf.Some? && pos >= |tree.nodes[leaf.value].keys|
        invariant Valid() && Ahead() == old(Ahead())
        decreases leaf.Some?, if leaf.Some? then Above(tree, tree.low[leaf.value]) else {}
      {
        LeafEnds();
        GroupBounds(tree, pend, max, leaf.value);
        var link := tree.nodes[leaf.value].link;
        if link != 0 {
          assert link in Above(tree, tree.low[leaf.value]) && link !in Above(tree, tree.low[link]);
        }
        leaf, pos := if link == 0 then None else Some(link), 0;
      }
    }

    /** Look at the entry under the cursor: skip it, yield it, or end the scan. */
    method Examine() returns (again: bool, e: Option<Entry>)
      requires Valid() && !done && leaf.Some? && pos < |tree.nodes[leaf.value].keys|
      modifies this`done, this`pos, this`loPending
      ensures Valid()
      ensures again ==> !done && Remaining() == old(Remaining()) && |Ahead()| < |old(Ahead())|
      ensures !again ==> if old(Remaining()) == [] then e == None && Remaining() == []
              else e == Some(old(Remaining())[0]) && Remaining() == old(Remaining())[1..]
    {
      hide Rest, TreeOk, Ascending, Select;
      EntryHere();
      ghost var ahead := Ahead();
      SelectHead(ahead, range);
      var n := tree.nodes[leaf.value];
      var k := n.keys[pos];
      if loPending && !AboveLo(k, range) {
        pos := pos + 1;
        assert Ahead() == ahead[1..];
        return true, None;
      }
      AllAboveLo(ahead, range);
      loPending := false;
      if !BelowHi(k, range) {
        NothingAhead(ahead, range);
        done := true;
        return false, None;
      }
      e := Some(Entry(k, n.vals[pos]));
      pos := pos + 1;
      assert Ahead() == ahead[1..];
      again := false;
    }

    method Next() returns (e: Option<Entry>)
      requires Valid()
      modifies this`done, this`leaf, this`pos, this`loPending
      ensures Valid()
      ensures if old(Remaining()) == [] then e == None && Remaining() == []
              else e == Some(old(Remaining())[0]) && Remaining() == old(Remaining())[1..]
    {
      hide Rest, TreeOk, Select;
      if done {
        return None;
      }
      var again := true;
      e := None;
      while again
        invariant Valid()
        invariant again ==> !done && Remaining() == old(Remaining())
        invariant !again ==> if old(Remaining()) == [] then e == None && Remaining() == []
                  else e == Some(old(Remaining())[0]) && Remaining() == old(Remaining())[1..]
        decreases again, |Ahead()|
      {
        SkipLeaves();
        if leaf.None? {
          SelectNone(Ahead(), range);
          done := true;
          return None;
        }
        again, e := Examine();
      }
    }
  }

  /** Drain an ascending scan. */
  method Collect(scan: AscendingScan) returns (es: seq<Entry>)
    requires scan.Valid()
    modifies scan
    ensures es == old(scan.Remaining())
  {
    hide Rest, IsLeaf, Select, AboveLo;
    es := [];
    while true
      invariant scan.Valid() && es + scan.Remaining() == old(scan.Remaining())
      decreases |scan.Remaining()|
    {
      ghost var rem := scan.Remaining();
      var e := scan.Next();
      if e.None? {
        return;
      }
      assert rem == [e.value] + scan.Remaining();
      es := es + [e.value];
    }
  }

  // ---------- the descending scan ----------

  /** A directory kept from an earlier descent, with the separator it was entered at. */
  datatype Frame = Frame(recid: Recid, node: Node, sep: Option<Key>)

  /** Position of the deepest frame that was entered at a separator. */
  function DeepestAt(stack: seq<Frame>): (p: Option<nat>)
    ensures p.Some? ==> p.value < |stack| && stack[p.value].sep.Some?
    ensures forall j :: (if p.Some? then p.value + 1 else 0) <= j < |stack| ==> stack[j].sep.None?
  {
    if stack == [] then None
    else if stack[|stack| - 1].sep.Some? then Some(|stack| - 1)
    else DeepestAt(stack[..|stack| - 1])
  }

  function DeepestSep(stack: seq<Frame>): Option<Key> {
    var p := DeepestAt(stack);
    if p.Some? then stack[p.value].sep else None
  }

  function BoundOf(s: Option<Key>): Bound {
    if s.None? then NegInf else Fin(s.value)
  }

  /** Every frame starts at the deepest separator on the path to it. */
  ghost predicate FramesOk(t: Tree, stack: seq<Frame>) {
    forall j :: 0 <= j < |stack| ==> FrameOk(t, stack, j)
  }

  ghost predicate FrameOk(t: Tree, stack: seq<Frame>, j: nat)
    requires j < |stack|
  {
    && stack[j].recid in t.low && stack[j].recid in t.nodes && stack[j].node == t.nodes[stack[j].recid]
    && t.low[stack[j].recid] == BoundOf(DeepestSep(stack[..j + 1]))
  }

  /** `b` starts left of an upper bound. */
  ghost predicate LeftOf(b: Bound, hi: Option<Key>) {
    hi.None? || Lt(b, Fin(hi.value))
  }

  lemma FramesPrefix(t: Tree, stack: seq<Frame>, n: nat)
    requires FramesOk(t, stack) && n <= |stack|
    ensures FramesOk(t, stack[..n])
  {
    forall j | 0 <= j < n ensures FrameOk(t, stack[..n], j) {
      assert FrameOk(t, stack, j);
      assert stack[..n][..j + 1] == stack[..j + 1];
    }
  }

  lemma FramesPush(t: Tree, stack: seq<Frame>, f: Frame)
    requires FramesOk(t, stack) && f.recid in t.low && f.recid in t.nodes && f.node == t.nodes[f.recid]
    requires t.low[f.recid] == BoundOf(if f.sep.Some? then f.sep else DeepestSep(stack))
    ensures FramesOk(t, stack + [f]) && DeepestSep(stack + [f]) == if f.sep.Some? then f.sep else DeepestSep(stack)
  {
    var s := stack + [f];
    assert s[..|s| - 1] == stack && s[..|s|] == s;
    forall j | 0 <= j < |s| ensures FrameOk(t, s, j) {
      if j < |stack| {
        assert FrameOk(t, stack, j);
        assert s[..j + 1] == stack[..j + 1];
      }
    }
  }

  /** Drop the frames that a tightened bound has moved left of. */
  method DropFrames(t: Tree, stack0: seq<Frame>, hi: Option<Key>) returns (stack: seq<Frame>)
    requires FramesOk(t, stack0)
    ensures FramesOk(t, stack) && LeftOf(BoundOf(DeepestSep(stack)), hi) && (hi.None? ==> stack == [])
  {
    if hi.None? {
      return [];
    }
    stack := stack0;
    while true
      invariant FramesOk(t, stack)
      decreases |stack|
    {
      var p := DeepestAt(stack);
      if p.None? || stack[p.value].sep.value < hi.value {
        return;
      }
      FramesPrefix(t, stack, p.value);
      stack := stack[..p.value];
    }
  }

  /** The child to enter for an upper bound; none if the bound lies beyond the node. */
  function DownIndex(n: Node, hi: Option<Key>): Option<nat>
    requires n.Dir?
  {
    if hi.None? then (if n.link != 0 || |n.children| == 0 then None else Some(|n.children| - 1))
    else if Rank(n.keys, hi.value) < |n.children| then Some(Rank(n.keys, hi.value)) else None
  }

  lemma DownOk(t: Tree, pend: set<Recid>, max: nat, r: Recid, hi: Option<Key>)
    requires TreeOk(t, pend, max) && r in t.low && LeftOf(t.low[r], hi) && t.nodes[r].Dir?
    ensures var n := t.nodes[r];
            var i := DownIndex(n, hi);
            if i.Some? then
              && i.value < |n.children| && i.value <= |n.keys| && n.children[i.value] in t.low
              && t.level[n.children[i.value]] < t.level[r]
              && t.low[n.children[i.value]] == (if i.value > 0 then Fin(n.keys[i.value - 1]) else t.low[r])
              && LeftOf(t.low[n.children[i.value]], hi)
            else
              && |n.keys| > 0 && n.link in t.low && t.level[n.link] == t.level[r]
              && t.low[n.link] == Fin(n.keys[|n.keys| - 1]) && LeftOf(t.low[n.link], hi)
              && Above(t, t.low[n.link]) < Above(t, t.low[r])
  {
    assert NodeOk(t, pend, max, r);
    var n := t.nodes[r];
    var i := DownIndex(n, hi);
    if i.Some? {
      assert ChildOk(t, pend, n.children[i.value], ChildLow(n, t.low[r], i.value), t.level[r]);
    } else {
      assert n.link in Above(t, t.low[r]) && n.link !in Above(t, t.low[n.link]);
    }
  }

  /** Descend from the deepest kept directory to a leaf left of the bound; `step` is where that leaf starts. */
  method Descend(t: Tree, ghost pend: set<Recid>, ghost max: nat, root: Recid, stack0: seq<Frame>, hi: Option<Key>)
    returns (stack: seq<Frame>, r: Recid, step: Option<Key>)
    requires TreeOk(t, pend, max) && root in t.low && t.low[root] == NegInf
    requires FramesOk(t, stack0) && LeftOf(BoundOf(DeepestSep(stack0)), hi)
    ensures FramesOk(t, stack) && IsLeaf(t, pend, max, r) && t.low[r] == BoundOf(step) && LeftOf(t.low[r], hi)
  {
    hide NodeOk, AllApart, FramesOk;
    stack := stack0;
    if stack == [] {
      FramesPush(t, stack, Frame(root, t.nodes[root], None));
      stack := stack + [Frame(root, t.nodes[root], None)];
    }
    step := DeepestSep(stack);
    while true
      invariant stack != [] && FramesOk(t, stack) && step == DeepestSep(stack) && LeftOf(BoundOf(step), hi)
      decreases TopLevel(t, stack), TopAbove(t, stack)
    {
      var top := stack[|stack| - 1];
      TopFrame(t, stack);
      if top.node.Leaf? {
        LeafHasLevelZero(t, pend, max, top.recid);
        FramesPrefix(t, stack, |stack| - 1);
        return stack[..|stack| - 1], top.recid, step;
      }
      DownOk(t, pend, max, top.recid, hi);
      var i := DownIndex(top.node, hi);
      if i.None? {
        var last := Some(top.node.keys[|top.node.keys| - 1]);
        var f := Frame(top.node.link, t.nodes[top.node.link], last);
        FramesPrefix(t, stack, |stack| - 1);
        FramesPush(t, stack[..|stack| - 1], f);
        step := last;
        stack := stack[..|stack| - 1] + [f];
      } else {
        var child := top.node.children[i.value];
        var sep := if i.value > 0 then Some(top.node.keys[i.value - 1]) else None;
        step := if sep.Some? then sep else step;
        if t.nodes[child].Leaf? {
          LeafHasLevelZero(t, pend, max, child);
          return stack, child, step;
        }
        FramesPush(t, stack, Frame(child, t.nodes[child], sep));
        stack := stack + [Frame(child, t.nodes[child], sep)];
      }
    }
  }

  ghost function TopLevel(t: Tree, stack: seq<Frame>): nat {
    if stack != [] && stack[|stack| - 1].recid in t.level then t.level[stack[|stack| - 1].recid] else 0
  }

  ghost function TopAbove(t: Tree, stack: seq<Frame>): set<Recid> {
    if stack != [] && stack[|stack| - 1].recid in t.low then Above(t, t.low[stack[|stack| - 1].recid]) else {}
  }

  lemma TopFrame(t: Tree, stack: seq<Frame>)
    requires stack != [] && FramesOk(t, stack)
    ensures var top := stack[|stack| - 1];
            && top.recid in t.low && top.recid in t.nodes && top.node == t.nodes[top.recid]
            && t.low[top.recid] == BoundOf(DeepestSep(stack))
  {
    assert FrameOk(t, stack, |stack| - 1);
    assert stack[..|stack|] == stack;
  }

  lemma LeafHasLevelZero(t: Tree, pend: set<Recid>, max: nat, r: Recid)
    requires TreeOk(t, pend, max) && r in t.low && t.nodes[r].Leaf?
    ensures IsLeaf(t, pend, max, r)
  {
    assert NodeOk(t, pend, max, r);
  }

  /** No entry lies above `s` and yet at or below `b`. */
  ghost predicate Gap(es: seq<Entry>, s: Option<Key>, b: Bound) {
    Leq(BoundOf(s), b) && forall i :: 0 <= i < |es| && Leq(Fin(es[i].key), b) ==> s.Some? && es[i].key <= s.value
  }

  /** All entries, seen as those left of leaf `r`, those in it, and those right of it. */
  lemma SplitAtLeaf(t: Tree, pend: set<Recid>, max: nat, first: Recid, r: Recid)
    returns (before: seq<Entry>, after: seq<Entry>)
    requires IsLeaf(t, pend, max, first) && t.low[first] == NegInf && IsLeaf(t, pend, max, r)
    ensures t.nodes[r].Leaf? && |t.nodes[r].vals| == |t.nodes[r].keys|
    ensures Rest(t, pend, max, first) == before + Group(t.nodes[r]) + after
    ensures KeysUpTo(before, t.low[r]) && KeysAbove(after, High(t.nodes[r])) && (t.nodes[r].right ==> after == [])
  {
    hide TreeOk, Ascending, Rest, KeysUpTo;
    GroupBounds(t, pend, max, r);
    before := RestSplits(t, pend, max, first, r);
    after := RestHere(t, pend, max, r);
    Joined(before, Group(t.nodes[r]), after);
  }

  /** What follows the entries of leaf `r`. */
  lemma RestHere(t: Tree, pend: set<Recid>, max: nat, r: Recid) returns (after: seq<Entry>)
    requires IsLeaf(t, pend, max, r)
    ensures t.nodes[r].Leaf? && |t.nodes[r].vals| == |t.nodes[r].keys| && Rest(t, pend, max, r) == Group(t.nodes[r]) + after
    ensures KeysAbove(after, High(t.nodes[r])) && (t.nodes[r].right ==> after == [])
  {
    hide TreeOk, Ascending;
    GroupBounds(t, pend, max, r);
    var n := t.nodes[r];
    after := [];
    if n.right {
      assert Group(n) + [] == Group(n);
    } else {
      after := Rest(t, pend, max, n.link);
      RestBounds(t, pend, max, n.link);
    }
  }

  lemma Joined(a: seq<Entry>, b: seq<Entry>, c: seq<Entry>)
    ensures a + (b + c) == a + b + c
  {
  }

  /** The last key of a leaf left behind, or the old step if it was empty. */
  function RideStep(n: Node, s: Option<Key>): Option<Key> {
    if n.keys == [] then s else Some(n.keys[|n.keys| - 1])
  }

  lemma GapRides(t: Tree, pend: set<Recid>, max: nat, first: Recid, r: Recid, s: Option<Key>)
    requires IsLeaf(t, pend, max, first) && t.low[first] == NegInf && IsLeaf(t, pend, max, r)
    requires Gap(Rest(t, pend, max, first), s, t.low[r])
    ensures Gap(Rest(t, pend, max, first), RideStep(t.nodes[r], s), High(t.nodes[r]))
  {
    hide TreeOk, Rest;
    var es, n, s' := Rest(t, pend, max, first), t.nodes[r], RideStep(t.nodes[r], s);
    GroupBounds(t, pend, max, r);
    var before, after := SplitAtLeaf(t, pend, max, first, r);
    var g := Group(n);
    forall i | |before| + |g| <= i < |es| ensures Lt(High(n), Fin(es[i].key)) {
      assert es[i] == after[i - |before| - |g|];
    }
    forall i | 0 <= i < |es| && Leq(Fin(es[i].key), High(n)) ensures s'.Some? && es[i].key <= s'.value {
      if i < |before| {
        assert es[i] == before[i];
        assert n.keys != [] ==> Lt(t.low[r], Fin(g[|g| - 1].key));
      } else if i < |before| + |g| {
        assert es[i] == g[i - |before|];
        assert es[i].key <= g[|g| - 1].key;
      }
    }
    assert n.keys != [] ==> Leq(Fin(g[|g| - 1].key), High(n));
  }

  /** Whether the bound lies beyond leaf `n`, so that the scan must go right. */
  predicate Beyond(n: Node, hi: Option<Key>) {
    n.link != 0 && (hi.None? || (n.Leaf? && n.fence.Some? && n.fence.value < hi.value))
  }

  /** Leaf `r` holds the greatest entries below the bound. */
  ghost predicate HoldsTop(t: Tree, r: Recid, hi: Option<Key>)
    requires r in t.low && r in t.nodes
  {
    LeftOf(t.low[r], hi) && (if hi.None? then t.nodes[r].right else Leq(Fin(hi.value), High(t.nodes[r])))
  }

  lemma NotBeyond(t: Tree, pend: set<Recid>, max: nat, r: Recid, hi: Option<Key>)
    requires IsLeaf(t, pend, max, r) && LeftOf(t.low[r], hi)
    ensures !Beyond(t.nodes[r], hi) ==> HoldsTop(t, r, hi)
    ensures Beyond(t.nodes[r], hi) ==>
              && IsLeaf(t, pend, max, t.nodes[r].link) && LeftOf(t.low[t.nodes[r].link], hi)
              && t.low[t.nodes[r].link] == High(t.nodes[r]) && Above(t, t.low[t.nodes[r].link]) < Above(t, t.low[r])
  {
    assert NodeOk(t, pend, max, r);
    var n := t.nodes[r];
    if Beyond(n, hi) {
      assert n.link in Above(t, t.low[r]) && n.link !in Above(t, t.low[n.link]);
    }
  }

  method RideRight(t: Tree, ghost pend: set<Recid>, ghost max: nat, ghost first: Recid, r0: Recid, step0: Option<Key>, hi: Option<Key>)
    returns (r: Recid, step: Option<Key>)
    requires IsLeaf(t, pend, max, first) && t.low[first] == NegInf && IsLeaf(t, pend, max, r0)
    requires LeftOf(t.low[r0], hi) && t.low[r0] == BoundOf(step0)
    ensures IsLeaf(t, pend, max, r) && HoldsTop(t, r, hi) && Gap(Rest(t, pend, max, first), step, t.low[r])
  {
    hide TreeOk, Rest;
    r, step := r0, step0;
    while Beyond(t.nodes[r], hi)
      invariant IsLeaf(t, pend, max, r) && LeftOf(t.low[r], hi) && Gap(Rest(t, pend, max, first), step, t.low[r])
      decreases Above(t, t.low[r])
    {
      NotBeyond(t, pend, max, r, hi);
      GapRides(t, pend, max, first, r, step);
      step := RideStep(t.nodes[r], step);
      r := t.nodes[r].link;
    }
    NotBeyond(t, pend, max, r, hi);
  }

  // ---------- one refill ----------

  /** The entries of the top leaf that are in range, and whether it reaches below the lower bound. */
  method TakeBatch(n: Node, g: Range) returns (batch: seq<Entry>, below: bool)
    requires n.Leaf? && |n.vals| == |n.keys| && Sorted(n.keys)
    ensures batch == Select(Group(n), g)
    ensures below ==> exists i :: 0 <= i < |n.keys| && !AboveLo(n.keys[i], g)
  {
    hide Select, Within;
    batch, below := [], false;
    var pos := 0;
    ghost var all := Group(n);
    assert all[0..] == all;
    while pos < |n.keys|
      invariant 0 <= pos <= |n.keys|
      invariant batch + Select(all[pos..], g) == Select(all, g)
      invariant below ==> exists i :: 0 <= i < |n.keys| && !AboveLo(n.keys[i], g)
    {
      var k := n.keys[pos];
      TakeOne(all[pos..], g);
      assert all[pos..][1..] == all[pos + 1..];
      if !AboveLo(k, g) {
        below := true;
      } else if !BelowHi(k, g) {
        return;
      } else {
        batch := batch + [Entry(k, n.vals[pos])];
      }
      pos := pos + 1;
    }
    SelectNone(all[pos..], g);
  }

  lemma TakeOne(es: seq<Entry>, g: Range)
    requires es != [] && Ascending(es)
    ensures !AboveLo(es[0].key, g) ==> Select(es, g) == Select(es[1..], g)
    ensures !BelowHi(es[0].key, g) ==> Select(es, g) == []
    ensures Within(es[0].key, g) ==> Select(es, g) == [es[0]] + Select(es[1..], g)
    ensures Within(es[0].key, g) <==> AboveLo(es[0].key, g) && BelowHi(es[0].key, g)
  {
    if !BelowHi(es[0].key, g) {
      NothingAhead(es, g);
    }
  }

  lemma KeepLower(es: seq<Entry>, s: Option<Key>, b: Bound, g: Range)
    requires KeysUpTo(es, b) && LeftOf(b, g.hi) && s.Some?
    requires forall i :: 0 <= i < |es| ==> es[i].key <= s.value
    ensures Select(es, g) == Select(es, g.(hi := s, hiInc := true))
  {
    forall i | 0 <= i < |es| ensures Within(es[i].key, g) <==> Within(es[i].key, g.(hi := s, hiInc := true)) {
      assert Leq(Fin(es[i].key), b);
    }
    SelectSame(es, g, g.(hi := s, hiInc := true));
  }

  lemma DropUpper(es: seq<Entry>, b: Bound, hi: Option<Key>, g: Range)
    requires KeysAbove(es, b) && g.hi.Some? && Leq(Fin(g.hi.value), b)
    ensures Select(es, g) == []
  {
    forall i | 0 <= i < |es| ensures !Within(es[i].key, g) {
      assert Lt(b, Fin(es[i].key));
    }
    SelectNone(es, g);
  }

  /** What is in range is what is in range at or below the step, followed by the batch of the top leaf. */
  lemma RefillOk(t: Tree, pend: set<Recid>, max: nat, first: Recid, r: Recid, g: Range, step: Option<Key>)
    requires IsLeaf(t, pend, max, first) && t.low[first] == NegInf && IsLeaf(t, pend, max, r)
    requires HoldsTop(t, r, g.hi) && Gap(Rest(t, pend, max, first), step, t.low[r])
    ensures t.nodes[r].Leaf? && |t.nodes[r].vals| == |t.nodes[r].keys|
    ensures var es, batch := Rest(t, pend, max, first), Select(Group(t.nodes[r]), g);
            Select(es, g) == if step.None? then batch else Select(es, g.(hi := step, hiInc := true)) + batch
  {
    hide TreeOk, Rest, Select, Within;
    var es, n := Rest(t, pend, max, first), t.nodes[r];
    GroupBounds(t, pend, max, r);
    var before, after := SplitAtLeaf(t, pend, max, first, r);
    SelectSplit(before, Group(n), after, g);
    if g.hi.None? {
      SelectNone(after, g);
    } else {
      DropUpper(after, High(n), g.hi, g);
    }
    forall i | 0 <= i < |before| ensures step.Some? && before[i].key <= step.value {
      assert es[i] == before[i] && Leq(Fin(before[i].key), t.low[r]);
    }
    if step.None? {
      SelectNone(before, g);
    } else {
      var h := g.(hi := step, hiInc := true);
      KeepLower(before, step, t.low[r], g);
      SelectSplit(before, Group(n), after, h);
      DropUpper(Group(n), t.low[r], g.hi, h);
      DropUpper(after, High(n), g.hi, h);
    }
  }

  lemma SelectSplit(a: seq<Entry>, b: seq<Entry>, c: seq<Entry>, g: Range)
    ensures Select(a + b + c, g) == Select(a, g) + Select(b, g) + Select(c, g)
  {
    SelectConcat(a + b, c, g);
    SelectConcat(a, b, g);
  }

  /** If the top leaf already reaches below the lower bound, its batch is all that is left. */
  lemma BelowEnds(t: Tree, pend: set<Recid>, max: nat, first: Recid, r: Recid, g: Range)
    requires IsLeaf(t, pend, max, first) && t.low[first] == NegInf && IsLeaf(t, pend, max, r) && HoldsTop(t, r, g.hi)
    requires exists i :: 0 <= i < |t.nodes[r].keys| && !AboveLo(t.nodes[r].keys[i], g)
    ensures t.nodes[r].Leaf? && |t.nodes[r].vals| == |t.nodes[r].keys|
    ensures Select(Rest(t, pend, max, first), g) == Select(Group(t.nodes[r]), g)
  {
    hide TreeOk, Rest, Select;
    var n := t.nodes[r];
    GroupBounds(t, pend, max, r);
    var before, after := SplitAtLeaf(t, pend, max, first, r);
    SelectSplit(before, Group(n), after, g);
    if g.hi.None? {
      SelectNone(after, g);
    } else {
      DropUpper(after, High(n), g.hi, g);
    }
    var i :| 0 <= i < |n.keys| && !AboveLo(n.keys[i], g);
    assert Lt(t.low[r], Fin(Group(n)[i].key));
    forall j | 0 <= j < |before| ensures !Within(before[j].key, g) {
      assert Leq(Fin(before[j].key), t.low[r]);
    }
    SelectNone(before, g);
  }

  /** Nodes that start left of an upper bound; a refill makes this smaller. */
  ghost function Left(t: Tree, hi: Option<Key>): set<Recid> {
    set r | r in t.low && LeftOf(t.low[r], hi)
  }

  /** One refill: the in-range entries of the last leaf below the bound, and the next, smaller bound. */
  method LastLeafBatch(t: Tree, ghost pend: set<Recid>, ghost max: nat, root: Recid, ghost first: Recid,
                       stack0: seq<Frame>, g: Range)
    returns (stack: seq<Frame>, batch: seq<Entry>, next: Option<Key>)
    requires Ready(t, pend, max, root, first) && FramesOk(t, stack0)
    ensures FramesOk(t, stack)
    ensures next.Some? ==> (g.hi.Some? ==> next.value < g.hi.value) && Left(t, next) < Left(t, g.hi)
    ensures IsLeaf(t, pend, max, first)
    ensures var es := Rest(t, pend, max, first);
            Select(es, g) == if next.None? then batch else Select(es, g.(hi := next, hiInc := true)) + batch
  {
    hide FramesOk, Rest, NodeOk, Select, Within;
    var r, step, below;
    stack := DropFrames(t, stack0, g.hi);
    stack, r, step := Descend(t, pend, max, root, stack, g.hi);
    r, step := RideRight(t, pend, max, first, r, step, g.hi);
    GroupBounds(t, pend, max, r);
    LeafSorted(t, pend, max, r);
    batch, below := TakeBatch(t.nodes[r], g);
    next := if below then None else step;
    if below {
      BelowEnds(t, pend, max, first, r, g);
    } else {
      RefillOk(t, pend, max, first, r, g, step);
    }
    StepShrinks(t, r, g.hi, step);
  }

  lemma LeafSorted(t: Tree, pend: set<Recid>, max: nat, r: Recid)
    requires IsLeaf(t, pend, max, r)
    ensures Sorted(t.nodes[r].keys)
  {
    assert NodeOk(t, pend, max, r);
  }

  lemma StepShrinks(t: Tree, r: Recid, hi: Option<Key>, step: Option<Key>)
    requires r in t.low && LeftOf(t.low[r], hi) && Leq(BoundOf(step), t.low[r])
    ensures step.Some? ==> (hi.Some? ==> step.value < hi.value) && Left(t, step) < Left(t, hi)
  {
    if step.Some? {
      assert r in Left(t, hi) && r !in Left(t, step);
    }
  }

  lemma {:induction false} ReversedConcat(a: seq<Entry>, b: seq<Entry>)
    ensures Reversed(a + b) == Reversed(b) + Reversed(a)
  {
    if a == [] {
      assert a + b == b;
    } else {
      assert (a + b)[0] == a[0] && (a + b)[1..] == a[1..] + b;
      ReversedConcat(a[1..], b);
    }
  }

  lemma ReversedLast(es: seq<Entry>, e: Entry)
    ensures Reversed(es + [e]) == [e] + Reversed(es)
  {
    ReversedConcat(es, [e]);
    assert [e][1..] == [];
  }

  datatype Pulled = Yield(entry: Entry) | End | Corrupt

  class DescendingScan {
    const tree: Tree
    const root: Recid
    const lo: Option<Key>
    const loInc: bool
    ghost const pend: set<Recid>
    ghost const max: nat
    ghost const first: Recid
    var upper: Option<Key>
    var upperInc: bool
    var upperOpen: bool
    var buf: seq<Entry>
    var stack: seq<Frame>
    var done: bool

    ghost predicate Valid()
      reads this
    {
      && Ready(tree, pend, max, root, first) && FramesOk(tree, stack)
      && (upperOpen ==> upper.None?) && IsLeaf(tree, pend, max, first)
    }

    /** The bounds the next refill uses. */
    function Bounds(): Range
      reads this
    {
      Range(lo, loInc, upper, upperInc)
    }

    predicate Exhausted()
      reads this
    {
      done || (!upperOpen && upper.None?)
    }

    /** What the scan has still to yield: its buffer backward, then everything below its bound backward. */
    ghost function Remaining(): seq<Entry>
      reads this
      requires Valid()
    {
      Reversed(buf) + (if Exhausted() then [] else Reversed(Select(Rest(tree, pend, max, first), Bounds())))
    }

    constructor (t: Tree, ghost p: set<Recid>, ghost m: nat, r: Recid, ghost f: Recid, g: Range)
      requires Ready(t, p, m, r, f)
      ensures Valid() && IsLeaf(t, p, m, f) && Remaining() == Reversed(Select(Rest(t, p, m, f), g))
    {
      tree, root, pend, max, first := t, r, p, m, f;
      lo, loInc, upperOpen, upper, upperInc := g.lo, g.loInc, g.hi.None?, g.hi, g.hiInc;
      buf, stack, done := [], [], false;
    }

    /** Fetch the next leaf; the bound strictly decreases, so the corruption error is never raised. */
    method Refill() returns (ok: bool)
      requires Valid() && buf == [] && !Exhausted()
      modifies this`upper, this`upperInc, this`upperOpen, this`buf, this`stack, this`done
      ensures ok && Valid() && Remaining() == old(Remaining()) && !upperOpen
      ensures !Exhausted() ==> upper.Some? && Left(tree, upper) < Left(tree, old(upper))
    {
      hide Rest, FramesOk, Ready, Select;
      ghost var es := Rest(tree, pend, max, first);
      var next;
      stack, buf, next := LastLeafBatch(tree, pend, max, root, first, stack, Bounds());
      ok := next.None? || upper.None? || next.value < upper.value;
      if next.Some? {
        ReversedConcat(Select(es, Range(lo, loInc, next, true)), buf);
      }
      done, buf := next.None? || !ok, if ok then buf else [];
      upper, upperInc := if next.Some? then next else upper, upperInc || next.Some?;
      upperOpen := false;
    }

    method Next() returns (p: Pulled)
      requires Valid()
      modifies this`upper, this`upperInc, this`upperOpen, this`buf, this`stack, this`done
      ensures Valid()
      ensures if old(Remaining()) == [] then p == End && Remaining() == []
              else p == Yield(old(Remaining())[0]) && Remaining() == old(Remaining())[1..]
    {
      hide Rest, FramesOk, Ready, Select, IsLeaf;
      while buf == []
        invariant Valid() && Remaining() == old(Remaining())
        decreases !Exhausted(), Left(tree, upper), upperOpen
      {
        if Exhausted() {
          done := true;
          return End;
        }
        var ok := Refill();
        if !ok {
          return Corrupt;
        }
      }
      assert buf == buf[..|buf| - 1] + [buf[|buf| - 1]];
      ReversedLast(buf[..|buf| - 1], buf[|buf| - 1]);
      p := Yield(buf[|buf| - 1]);
      buf := buf[..|buf| - 1];
    }
  }

  /** Drain a descending scan; `ok` says that no corruption error came up. */
  method CollectDown(scan: DescendingScan) returns (es: seq<Entry>, ok: bool)
    requires scan.Valid()
    modifies scan
    ensures ok && es == old(scan.Remaining())
  {
    hide Rest, FramesOk, Ready, Select, IsLeaf;
    es, ok := [], true;
    while true
      invariant ok && scan.Valid() && es + scan.Remaining() == old(scan.Remaining())
      decreases |scan.Remaining()|
    {
      var p := scan.Next();
      if p.End? {
        return;
      } else if p.Corrupt? {
        ok := false;
        return;
      }
      es := es + [p.entry];
    }
  }

  /** A scan lists, in ascending order, exactly the keys in bounds with the values point reads find. */
  lemma ScanIsLookup(t: Tree, pend: set<Recid>, max: nat, first: Recid, g: Range)
    requires IsLeaf(t, pend, max, first) && t.low[first] == NegInf
    ensures var up := Select(Rest(t, pend, max, first), g);
            && Ascending(up)
            && forall k, x :: Entry(k, x) in up <==>
                 && Lookup(t, k) == Some(x)
                 && (g.lo.Some? ==> g.lo.value < k || (g.loInc && k == g.lo.value))
                 && (g.hi.Some? ==> k < g.hi.value || (g.hiInc && k == g.hi.value))
  {
    hide Rest, IsLeaf, Select, Lookup;
    RestBounds(t, pend, max, first);
    SelectMembers(Rest(t, pend, max, first), g);
    forall k, x ensures Entry(k, x) in Select(Rest(t, pend, max, first), g) <==> Within(k, g) && Lookup(t, k) == Some(x) {
      RestLookup(t, pend, max, first, k, x);
    }
  }

  /** For all bounds, on any tree meeting the invariant, the descending scan is the reverse of the ascending one. */
  method ScanBothWays(t: Tree, ghost pend: set<Recid>, ghost max: nat, root: Recid, ghost first: Recid, g: Range)
    returns (up: seq<Entry>, down: seq<Entry>, ok: bool)
    requires Ready(t, pend, max, root, first)
    ensures ok && |down| == |up| && forall i :: 0 <= i < |up| ==> down[i] == up[|up| - 1 - i]
    ensures forall i, j :: 0 <= i < j < |up| ==> up[i].key < up[j].key
    ensures forall k, x :: Entry(k, x) in up <==>
              && Lookup(t, k) == Some(x)
              && (g.lo.Some? ==> g.lo.value < k || (g.loInc && k == g.lo.value))
              && (g.hi.Some? ==> k < g.hi.value || (g.hiInc && k == g.hi.value))
  {
    hide Rest, NodeOk, Select, Lookup;
    ScanIsLookup(t, pend, max, first, g);
    var a := new AscendingScan(t, pend, max, root, first, g);
    up := Collect(a);
    var d := new DescendingScan(t, pend, max, root, first, g);
    down, ok := CollectDown(d);
    ReversedAt(up);
  }
}

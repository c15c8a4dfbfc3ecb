/**
 The B-link tree as a value: nodes, the invariant that every published node keeps,
 and the four structural changes a writer can publish (edit a leaf, split a node,
 insert a separator, grow a root), each proved to keep the invariant.

 A node does not store its low bound or its level.  They are history: `low` and
 `level` record them when a node is published and never change afterwards, so every
 argument about stale pointers rests on these two maps only growing.
 */
module BLinkTree {
  import opened Basics

  type Key = int
  type Value = int

  /** An end of a key interval. */
  datatype Bound = NegInf | Fin(key: Key) | PosInf

  predicate Lt(a: Bound, b: Bound) {
    match a
    case NegInf => !b.NegInf?
    case Fin(x) => b.PosInf? || (b.Fin? && x < b.key)
    case PosInf => false
  }

  predicate Leq(a: Bound, b: Bound) {
    a == b || Lt(a, b)
  }

  /** A copy-on-write tree node; `link` is 0 exactly on the rightmost node of a level. */
  datatype Node =
    | Leaf(left: bool, right: bool, link: Recid, keys: seq<Key>, vals: seq<Value>, fence: Option<Key>)
    | Dir(left: bool, right: bool, link: Recid, keys: seq<Key>, children: seq<Recid>)

  /** Published nodes are the ones with a low bound; `nodes` may also hold unpublished records. */
  datatype Tree = Tree(nodes: map<Recid, Node>, low: map<Recid, Bound>, level: map<Recid, nat>)

  // ---------- searching a sorted key group ----------

  /** The first position whose key is at least `key`. */
  function Rank(keys: seq<Key>, key: Key): (r: nat)
    ensures r <= |keys|
    ensures forall i :: 0 <= i < r ==> keys[i] < key
    ensures r < |keys| ==> key <= keys[r]
  {
    if keys == [] || key <= keys[0] then 0 else 1 + Rank(keys[1..], key)
  }

  predicate Sorted(keys: seq<Key>) {
    forall i, j :: 0 <= i < j < |keys| ==> keys[i] < keys[j]
  }

  /** Position of `key` in a group, when it is there. */
  predicate FoundAt(keys: seq<Key>, key: Key, i: nat) {
    i < |keys| && keys[i] == key
  }

  predicate Found(keys: seq<Key>, key: Key) {
    FoundAt(keys, key, Rank(keys, key))
  }

  lemma FoundIffMember(keys: seq<Key>, key: Key)
    requires Sorted(keys)
    ensures Found(keys, key) <==> key in keys
    ensures forall i: nat :: FoundAt(keys, key, i) ==> i == Rank(keys, key)
  {
    if key in keys {
      var i :| 0 <= i < |keys| && keys[i] == key;
      assert Rank(keys, key) <= i;
    }
  }

  function InsertAt<T>(s: seq<T>, i: nat, x: T): (r: seq<T>)
    requires i <= |s|
    ensures |r| == |s| + 1
    ensures forall j :: 0 <= j < |r| ==> r[j] == if j < i then s[j] else if j == i then x else s[j - 1]
  {
    s[..i] + [x] + s[i..]
  }

  function DeleteAt<T>(s: seq<T>, i: nat): (r: seq<T>)
    requires i < |s|
    ensures |r| == |s| - 1
    ensures forall j :: 0 <= j < |r| ==> r[j] == if j < i then s[j] else s[j + 1]
  {
    s[..i] + s[i + 1..]
  }

  // ---------- the invariant ----------

  /** Inclusive high bound of a node: a leaf's fence, or a directory's last key. */
  function High(n: Node): Bound {
    if n.right then PosInf
    else if n.Leaf? then (if n.fence.Some? then Fin(n.fence.value) else NegInf)
    else if n.keys == [] then NegInf else Fin(n.keys[|n.keys| - 1])
  }

  /** What a node satisfies by itself, given its low bound and level. */
  predicate ShapeOk(n: Node, lo: Bound, lvl: nat, max: nat) {
    && (n.left <==> lo == NegInf)
    && (n.right <==> n.link == 0)
    && Lt(lo, High(n))
    && Sorted(n.keys)
    && |n.keys| <= max
    && (forall i :: 0 <= i < |n.keys| ==> Lt(lo, Fin(n.keys[i])) && Leq(Fin(n.keys[i]), High(n)))
    && match n
       case Leaf(_, _, _, _, _, _) => lvl == 0 && |n.vals| == |n.keys| && (n.fence.Some? <==> !n.right)
       case Dir(_, _, _, _, _) =>
         lvl > 0 && |n.children| >= 2 && |n.children| == |n.keys| + (if n.right then 1 else 0)
  }

  /** Low bound that the child at position `i` of a directory must have. */
  function ChildLow(n: Node, lo: Bound, i: nat): Bound
    requires n.Dir? && i <= |n.keys|
  {
    if i == 0 then lo else Fin(n.keys[i - 1])
  }

  ghost predicate ChildOk(t: Tree, pend: set<Recid>, c: Recid, lo: Bound, lvl: nat) {
    && c in t.low && c in t.level
    && t.low[c] == lo
    && t.level[c] + 1 == lvl
    && c !in pend
  }

  ghost predicate ChildrenOk(t: Tree, pend: set<Recid>, n: Node, lo: Bound, lvl: nat) {
    n.Dir? ==>
      |n.children| <= |n.keys| + 1
      && forall i :: 0 <= i < |n.children| ==> ChildOk(t, pend, n.children[i], ChildLow(n, lo, i), lvl)
  }

  ghost predicate LinkOk(t: Tree, n: Node, lvl: nat) {
    !n.right ==>
      n.link in t.low && n.link in t.level && t.level[n.link] == lvl && t.low[n.link] == High(n)
  }

  ghost predicate NodeOk(t: Tree, pend: set<Recid>, max: nat, r: Recid) {
    && r != 0 && r in t.nodes && r in t.low && r in t.level
    && ShapeOk(t.nodes[r], t.low[r], t.level[r], max)
    && LinkOk(t, t.nodes[r], t.level[r])
    && ChildrenOk(t, pend, t.nodes[r], t.low[r], t.level[r])
  }

  /** The intervals of two nodes of one level do not overlap. */
  ghost predicate Apart(t: Tree, r: Recid, q: Recid)
    requires r in t.nodes && q in t.nodes && r in t.low && q in t.low
  {
    Leq(High(t.nodes[r]), t.low[q]) || Leq(High(t.nodes[q]), t.low[r])
  }

  ghost predicate AllApart(t: Tree)
    requires t.low.Keys == t.level.Keys && t.low.Keys <= t.nodes.Keys
  {
    forall r, q {:trigger Apart(t, r, q)} :: r in t.low && q in t.low && r != q && t.level[r] == t.level[q] ==> Apart(t, r, q)
  }

  /**
   The B-link invariant.  `pend` are the published nodes whose separator has not
   reached a parent yet: no directory names one of them.
   */
  ghost predicate TreeOk(t: Tree, pend: set<Recid>, max: nat) {
    && t.low.Keys == t.level.Keys && t.low.Keys <= t.nodes.Keys
    && (forall r {:trigger NodeOk(t, pend, max, r)} :: r in t.low ==> NodeOk(t, pend, max, r))
    && AllApart(t)
  }

  /** `key` lies in the interval of node `r`. */
  ghost predicate Covers(t: Tree, r: Recid, key: Key) {
    && r in t.low && r in t.nodes
    && Lt(t.low[r], Fin(key)) && Leq(Fin(key), High(t.nodes[r]))
  }

  lemma CoverUnique(t: Tree, pend: set<Recid>, max: nat, r: Recid, q: Recid, key: Key)
    requires TreeOk(t, pend, max)
    requires Covers(t, r, key) && Covers(t, q, key)
    requires t.level[r] == t.level[q]
    ensures r == q
  {
    assert r != q ==> Apart(t, r, q);
  }

  lemma LowUnique(t: Tree, pend: set<Recid>, max: nat, r: Recid, q: Recid)
    requires TreeOk(t, pend, max)
    requires r in t.low && q in t.low
    requires t.level[r] == t.level[q] && t.low[r] == t.low[q]
    ensures r == q
  {
    assert NodeOk(t, pend, max, r) && NodeOk(t, pend, max, q);
    assert r != q ==> Apart(t, r, q);
  }

  /** Low bounds and levels of published nodes are kept; nothing is unpublished. */
  ghost predicate Extends(t: Tree, t': Tree) {
    && t.low.Keys <= t'.low.Keys && t.level.Keys <= t'.level.Keys
    && (forall r :: r in t.low ==> t'.low[r] == t.low[r])
    && (forall r :: r in t.level ==> t'.level[r] == t.level[r])
  }

  // ---------- the chain of a level tiles the key space ----------

  ghost function Above(t: Tree, b: Bound): set<Recid> {
    set r | r in t.low && Lt(b, t.low[r])
  }

  /** From a node left of `key`, links lead to the one node of its level covering `key`. */
  lemma {:induction false} CoverExists(t: Tree, pend: set<Recid>, max: nat, r: Recid, key: Key) returns (c: Recid)
    requires TreeOk(t, pend, max)
    requires r in t.low && Lt(t.low[r], Fin(key))
    ensures Covers(t, c, key) && t.level[c] == t.level[r]
    decreases Above(t, t.low[r])
  {
    assert NodeOk(t, pend, max, r);
    var n := t.nodes[r];
    if Leq(Fin(key), High(n)) {
      c := r;
    } else {
      assert n.link in Above(t, t.low[r]) && n.link !in Above(t, t.low[n.link]);
      c := CoverExists(t, pend, max, n.link, key);
    }
  }

  /** From `r` rightward: the links visit the rest of the level, in order, without gap or overlap, to the end. */
  ghost predicate Tiles(t: Tree, r: Recid, path: seq<Recid>)
    requires t.low.Keys == t.level.Keys && t.low.Keys <= t.nodes.Keys && r in t.low
  {
    && path != [] && path[0] == r
    && (forall i :: 0 <= i < |path| ==> path[i] in t.low && t.level[path[i]] == t.level[r])
    && (forall i :: 0 <= i < |path| - 1 ==>
          t.nodes[path[i]].link == path[i + 1] && High(t.nodes[path[i]]) == t.low[path[i + 1]])
    && (forall i :: 0 < i < |path| ==> Lt(t.low[path[i - 1]], t.low[path[i]]))
    && t.nodes[path[|path| - 1]].right && t.nodes[path[|path| - 1]].link == 0
    && (forall q :: q in t.low && t.level[q] == t.level[r] && Leq(t.low[r], t.low[q]) ==> q in path)
  }

  /** Whatever starts right of `r` on its level starts no earlier than `r` ends. */
  lemma NextStarts(t: Tree, pend: set<Recid>, max: nat, r: Recid, q: Recid)
    requires TreeOk(t, pend, max) && r in t.low && q in t.low && t.level[q] == t.level[r] && Leq(t.low[r], t.low[q])
    ensures q == r || Leq(High(t.nodes[r]), t.low[q])
  {
    assert NodeOk(t, pend, max, r) && NodeOk(t, pend, max, q);
    assert q != r ==> Apart(t, r, q);
  }

  lemma {:induction false} ChainTiles(t: Tree, pend: set<Recid>, max: nat, r: Recid) returns (path: seq<Recid>)
    requires TreeOk(t, pend, max) && r in t.low
    ensures Tiles(t, r, path)
    decreases Above(t, t.low[r])
  {
    hide AllApart, ChildrenOk;
    assert NodeOk(t, pend, max, r);
    var n := t.nodes[r];
    var rest := [];
    if !n.right {
      assert n.link in Above(t, t.low[r]) && n.link !in Above(t, t.low[n.link]);
      rest := ChainTiles(t, pend, max, n.link);
    }
    path := [r] + rest;
    forall q | q in t.low && t.level[q] == t.level[r] && Leq(t.low[r], t.low[q]) ensures q in path {
      NextStarts(t, pend, max, r, q);
      assert NodeOk(t, pend, max, q);
    }
  }

  // ---------- contents ----------

  ghost predicate Holds(t: Tree, r: Recid, i: nat, key: Key) {
    r in t.low && r in t.nodes && t.nodes[r].Leaf? && FoundAt(t.nodes[r].keys, key, i) && i < |t.nodes[r].vals|
  }

  /** The abstract map: the value some published leaf stores under `key`. */
  ghost function Lookup(t: Tree, key: Key): Option<Value> {
    if exists r, i: nat :: Holds(t, r, i, key)
    then var r, i: nat :| Holds(t, r, i, key); Some(t.nodes[r].vals[i])
    else None
  }

  function LeafGet(n: Node, key: Key): Option<Value>
    requires n.Leaf? && |n.vals| == |n.keys|
  {
    if Found(n.keys, key) then Some(n.vals[Rank(n.keys, key)]) else None
  }

  /** The leaf that covers a key decides what the map says about it. */
  lemma LookupAtCover(t: Tree, pend: set<Recid>, max: nat, r: Recid, key: Key)
    requires TreeOk(t, pend, max)
    requires Covers(t, r, key) && t.level[r] == 0
    ensures t.nodes[r].Leaf? && |t.nodes[r].vals| == |t.nodes[r].keys|
    ensures Lookup(t, key) == LeafGet(t.nodes[r], key)
  {
    assert NodeOk(t, pend, max, r);
    var n := t.nodes[r];
    forall q, i: nat | Holds(t, q, i, key)
      ensures q == r && i == Rank(n.keys, key) && Found(n.keys, key)
    {
      assert NodeOk(t, pend, max, q);
      CoverUnique(t, pend, max, r, q, key);
      FoundIffMember(n.keys, key);
    }
    if Found(n.keys, key) {
      assert Holds(t, r, Rank(n.keys, key), key);
    }
  }

  // ---------- replacing a node by one with the same interval and link ----------

  /** References of a node stay good while the tree only grows and pending nodes only leave. */
  lemma RefsKept(t: Tree, t': Tree, pend: set<Recid>, pend': set<Recid>, n: Node, lo: Bound, lvl: nat)
    requires Extends(t, t')
    requires forall c :: c in pend' && c in t.low ==> c in pend
    ensures LinkOk(t, n, lvl) ==> LinkOk(t', n, lvl)
    ensures ChildrenOk(t, pend, n, lo, lvl) ==> ChildrenOk(t', pend', n, lo, lvl)
  {
    if n.Dir? && ChildrenOk(t, pend, n, lo, lvl) {
      forall i | 0 <= i < |n.children| ensures ChildOk(t', pend', n.children[i], ChildLow(n, lo, i), lvl) {
        assert ChildOk(t, pend, n.children[i], ChildLow(n, lo, i), lvl);
      }
    }
  }

  lemma ReplaceOk(t: Tree, pend: set<Recid>, pend': set<Recid>, max: nat, r: Recid, n: Node)
    requires TreeOk(t, pend, max) && r in t.low && pend' <= pend
    requires ShapeOk(n, t.low[r], t.level[r], max) && ChildrenOk(t, pend', n, t.low[r], t.level[r])
    requires n.right == t.nodes[r].right && n.link == t.nodes[r].link && High(n) == High(t.nodes[r])
    ensures TreeOk(t.(nodes := t.nodes[r := n]), pend', max)
  {
    var t' := t.(nodes := t.nodes[r := n]);
    forall q | q in t'.low ensures NodeOk(t', pend', max, q) {
      assert NodeOk(t, pend, max, q);
      RefsKept(t, t', if q == r then pend' else pend, pend', t'.nodes[q], t.low[q], t.level[q]);
    }
    forall p, q | p in t'.low && q in t'.low && p != q && t'.level[p] == t'.level[q] ensures Apart(t', p, q) {
      assert Apart(t, p, q);
    }
  }

  /** A record that no node refers to may be stored at any time. */
  lemma StoreOk(t: Tree, pend: set<Recid>, max: nat, q: Recid, n: Node)
    requires TreeOk(t, pend, max) && q !in t.nodes
    ensures TreeOk(t.(nodes := t.nodes[q := n]), pend + {q}, max)
  {
    var t' := t.(nodes := t.nodes[q := n]);
    forall r | r in t'.low ensures NodeOk(t', pend + {q}, max, r) {
      assert NodeOk(t, pend, max, r);
      RefsKept(t, t', pend, pend + {q}, t.nodes[r], t.low[r], t.level[r]);
    }
    forall p, r | p in t'.low && r in t'.low && p != r && t'.level[p] == t'.level[r] ensures Apart(t', p, r) {
      assert Apart(t, p, r);
    }
  }

  // ---------- editing a leaf in place ----------

  function EditLeaf(t: Tree, r: Recid, keys: seq<Key>, vals: seq<Value>): Tree
    requires r in t.nodes && t.nodes[r].Leaf?
  {
    t.(nodes := t.nodes[r := t.nodes[r].(keys := keys, vals := vals)])
  }

  ghost predicate KeysWithin(keys: seq<Key>, lo: Bound, hi: Bound) {
    Sorted(keys) && forall i :: 0 <= i < |keys| ==> Lt(lo, Fin(keys[i])) && Leq(Fin(keys[i]), hi)
  }

  lemma EditLeafOk(t: Tree, pend: set<Recid>, max: nat, r: Recid, keys: seq<Key>, vals: seq<Value>)
    requires TreeOk(t, pend, max)
    requires r in t.low && t.nodes[r].Leaf?
    requires |keys| == |vals| <= max && KeysWithin(keys, t.low[r], High(t.nodes[r]))
    ensures TreeOk(EditLeaf(t, r, keys, vals), pend, max)
  {
    assert NodeOk(t, pend, max, r);
    ReplaceOk(t, pend, pend, max, r, t.nodes[r].(keys := keys, vals := vals));
  }

  // ---------- splitting a node ----------

  /** Publish `a` over `r`; its new right sibling `q`, already stored, becomes part of the tree. */
  function PublishSplit(t: Tree, r: Recid, a: Node, q: Recid, sep: Key): Tree
    requires r in t.level
  {
    Tree(t.nodes[r := a], t.low[q := Fin(sep)], t.level[q := t.level[r]])
  }

  ghost predicate Halves(n: Node, lo: Bound, lvl: nat, max: nat, a: Node, b: Node, q: Recid, sep: Key) {
    && ShapeOk(a, lo, lvl, max) && ShapeOk(b, Fin(sep), lvl, max)
    && !a.right && a.link == q && High(a) == Fin(sep)
    && b.right == n.right && b.link == n.link && High(b) == High(n)
  }

  lemma SplitOk(t: Tree, pend: set<Recid>, pend': set<Recid>, max: nat,
                r: Recid, a: Node, b: Node, q: Recid, sep: Key)
    requires TreeOk(t, pend, max)
    requires r in t.low && q !in t.low && q != 0 && q in t.nodes && t.nodes[q] == b
    requires pend' <= pend + {q}
    requires Halves(t.nodes[r], t.low[r], t.level[r], max, a, b, q, sep)
    requires ChildrenOk(t, pend', a, t.low[r], t.level[r])
    requires ChildrenOk(t, pend', b, Fin(sep), t.level[r])
    ensures TreeOk(PublishSplit(t, r, a, q, sep), pend', max)
    ensures Extends(t, PublishSplit(t, r, a, q, sep))
  {
    var t' := PublishSplit(t, r, a, q, sep);
    assert NodeOk(t, pend, max, r);
    forall p | p in t'.low ensures NodeOk(t', pend', max, p) {
      SplitNodeOk(t, pend, pend', max, r, a, b, q, sep, p);
    }
    SplitApart(t, pend, max, r, a, b, q, sep);
  }

  lemma SplitNodeOk(t: Tree, pend: set<Recid>, pend': set<Recid>, max: nat,
                    r: Recid, a: Node, b: Node, q: Recid, sep: Key, p: Recid)
    requires NodeOk(t, pend, max, r) && (p == q || NodeOk(t, pend, max, p))
    requires q !in t.low && q != 0 && q in t.nodes && t.nodes[q] == b
    requires t.low.Keys == t.level.Keys && pend' <= pend + {q}
    requires Halves(t.nodes[r], t.low[r], t.level[r], max, a, b, q, sep)
    requires ChildrenOk(t, pend', a, t.low[r], t.level[r])
    requires ChildrenOk(t, pend', b, Fin(sep), t.level[r])
    ensures NodeOk(PublishSplit(t, r, a, q, sep), pend', max, p)
  {
    var t' := PublishSplit(t, r, a, q, sep);
    if p == q {
      RefsKept(t, t', pend', pend', b, Fin(sep), t.level[r]);
    } else if p == r {
      RefsKept(t, t', pend', pend', a, t.low[r], t.level[r]);
    } else {
      RefsKept(t, t', pend, pend', t.nodes[p], t.low[p], t.level[p]);
    }
  }

  lemma SplitApart(t: Tree, pend: set<Recid>, max: nat, r: Recid, a: Node, b: Node, q: Recid, sep: Key)
    requires TreeOk(t, pend, max)
    requires r in t.low && q !in t.low && q in t.nodes && t.nodes[q] == b
    requires Halves(t.nodes[r], t.low[r], t.level[r], max, a, b, q, sep)
    ensures var t' := PublishSplit(t, r, a, q, sep); t'.low.Keys == t'.level.Keys && t'.low.Keys <= t'.nodes.Keys
    ensures AllApart(PublishSplit(t, r, a, q, sep))
  {
    var t' := PublishSplit(t, r, a, q, sep);
    assert forall p :: p in t.low ==> NodeOk(t, pend, max, p);
    forall p, x | p in t'.low && x in t'.low && p != x && t'.level[p] == t'.level[x] ensures Apart(t', p, x) {
      var p0, x0 := if p == q then r else p, if x == q then r else x;
      assert p0 != x0 ==> Apart(t, p0, x0);
    }
  }

  function LeafLeft(n: Node, keys: seq<Key>, vals: seq<Value>, q: Recid): Node
    requires |keys| == |vals| >= 2
  {
    var h := |keys| / 2;
    Leaf(n.left, false, q, keys[..h], vals[..h], Some(keys[h - 1]))
  }

  function LeafRight(n: Node, keys: seq<Key>, vals: seq<Value>): Node
    requires n.Leaf? && |keys| == |vals| >= 2
  {
    var h := |keys| / 2;
    Leaf(false, n.right, n.link, keys[h..], vals[h..], n.fence)
  }

  /** The separator a split sends upward: the greatest key of the left half. */
  function SplitKey(keys: seq<Key>): Key
    requires |keys| >= 2
  {
    keys[|keys| / 2 - 1]
  }

  lemma LeafHalves(n: Node, lo: Bound, max: nat, keys: seq<Key>, vals: seq<Value>, q: Recid)
    requires n.Leaf? && ShapeOk(n, lo, 0, max) && max >= 4 && q != 0
    requires |keys| == |vals| == max + 1 && KeysWithin(keys, lo, High(n))
    ensures Halves(n, lo, 0, max, LeafLeft(n, keys, vals, q), LeafRight(n, keys, vals), q, SplitKey(keys))
  {
    var h := |keys| / 2;
    assert keys[h - 1] < keys[h] && Leq(Fin(keys[h]), High(n));
  }

  lemma SplitLeafOk(t: Tree, pend: set<Recid>, max: nat, r: Recid, keys: seq<Key>, vals: seq<Value>, q: Recid)
    requires TreeOk(t, pend, max) && max >= 4
    requires r in t.low && t.nodes[r].Leaf?
    requires |keys| == |vals| == max + 1 && KeysWithin(keys, t.low[r], High(t.nodes[r]))
    requires q !in t.low && q != 0 && q in t.nodes && t.nodes[q] == LeafRight(t.nodes[r], keys, vals)
    ensures var t' := PublishSplit(t, r, LeafLeft(t.nodes[r], keys, vals, q), q, SplitKey(keys));
            TreeOk(t', pend + {q}, max) && Extends(t, t')
  {
    assert NodeOk(t, pend, max, r);
    LeafHalves(t.nodes[r], t.low[r], max, keys, vals, q);
    SplitOk(t, pend, pend + {q}, max, r, LeafLeft(t.nodes[r], keys, vals, q),
            LeafRight(t.nodes[r], keys, vals), q, SplitKey(keys));
  }

  // ---------- inserting a separator into a directory ----------

  /** The directory `n` with separator `sep` and the child to its right added. */
  function WithChild(n: Node, sep: Key, c: Recid): Node
    requires n.Dir? && Rank(n.keys, sep) < |n.children|
  {
    var ip := Rank(n.keys, sep);
    n.(keys := InsertAt(n.keys, ip, sep), children := InsertAt(n.children, ip + 1, c))
  }

  function EditDir(t: Tree, r: Recid, n: Node): Tree {
    t.(nodes := t.nodes[r := n])
  }

  /** What a writer knows about the separator it carries to a directory covering it. */
  ghost predicate Insertable(t: Tree, r: Recid, sep: Key, c: Recid) {
    && Covers(t, r, sep) && r in t.level && t.nodes[r].Dir?
    && sep !in t.nodes[r].keys
    && ChildOk(t, {}, c, Fin(sep), t.level[r])
  }

  lemma SlotExists(n: Node, lo: Bound, lvl: nat, max: nat, sep: Key)
    requires n.Dir? && ShapeOk(n, lo, lvl, max) && Leq(Fin(sep), High(n)) && sep !in n.keys
    ensures Rank(n.keys, sep) < |n.children|
    ensures !n.right ==> Rank(n.keys, sep) < |n.keys|
  {
    if !n.right {
      assert n.keys[|n.keys| - 1] in n.keys;
    }
  }

  lemma WithKeySorted(keys: seq<Key>, sep: Key)
    requires Sorted(keys) && sep !in keys
    ensures Sorted(InsertAt(keys, Rank(keys, sep), sep))
  {
    var r := Rank(keys, sep);
    var s := InsertAt(keys, r, sep);
    assert r < |keys| ==> keys[r] in keys;
    forall i, j | 0 <= i < j < |s| ensures s[i] < s[j] {
      if i == r {
        assert s[j] == keys[j - 1] && keys[r] <= keys[j - 1];
      } else if j == r {
        assert s[i] == keys[i];
      }
    }
  }

  /** A key of the interval may be added to a group that lies within it. */
  lemma WithKeyWithin(keys: seq<Key>, sep: Key, lo: Bound, hi: Bound)
    requires KeysWithin(keys, lo, hi) && sep !in keys && Lt(lo, Fin(sep)) && Leq(Fin(sep), hi)
    ensures KeysWithin(InsertAt(keys, Rank(keys, sep), sep), lo, hi)
  {
    WithKeySorted(keys, sep);
    var r := Rank(keys, sep);
    var s := InsertAt(keys, r, sep);
    forall i | 0 <= i < |s| ensures Lt(lo, Fin(s[i])) && Leq(Fin(s[i]), hi) {
      if i < r {
        assert s[i] == keys[i];
      } else if i > r {
        assert s[i] == keys[i - 1];
      }
    }
  }

  lemma WithChildShape(n: Node, lo: Bound, lvl: nat, max: nat, sep: Key, c: Recid)
    requires n.Dir? && ShapeOk(n, lo, lvl, max) && Leq(Fin(sep), High(n)) && sep !in n.keys && Lt(lo, Fin(sep))
    ensures Rank(n.keys, sep) < |n.children|
    ensures ShapeOk(WithChild(n, sep, c), lo, lvl, max + 1) && High(WithChild(n, sep, c)) == High(n)
  {
    SlotExists(n, lo, lvl, max, sep);
    WithKeyWithin(n.keys, sep, lo, High(n));
  }

  lemma WithChildRefs(t: Tree, pend: set<Recid>, n: Node, lo: Bound, lvl: nat, sep: Key, c: Recid)
    requires n.Dir? && Rank(n.keys, sep) < |n.children|
    requires ChildrenOk(t, pend, n, lo, lvl) && ChildOk(t, {}, c, Fin(sep), lvl)
    ensures ChildrenOk(t, pend - {c}, WithChild(n, sep, c), lo, lvl)
  {
    var w, ip := WithChild(n, sep, c), Rank(n.keys, sep);
    forall i | 0 <= i < |w.children| ensures ChildOk(t, pend - {c}, w.children[i], ChildLow(w, lo, i), lvl) {
      if i <= ip {
        assert ChildOk(t, pend, n.children[i], ChildLow(n, lo, i), lvl);
      } else if i > ip + 1 {
        assert ChildOk(t, pend, n.children[i - 1], ChildLow(n, lo, i - 1), lvl);
      }
    }
  }

  lemma WithChildOk(t: Tree, pend: set<Recid>, max: nat, r: Recid, sep: Key, c: Recid)
    requires TreeOk(t, pend, max) && Insertable(t, r, sep, c)
    ensures Rank(t.nodes[r].keys, sep) < |t.nodes[r].children|
    ensures var n := WithChild(t.nodes[r], sep, c);
            && ShapeOk(n, t.low[r], t.level[r], max + 1)
            && High(n) == High(t.nodes[r])
            && ChildrenOk(t, pend - {c}, n, t.low[r], t.level[r])
  {
    assert NodeOk(t, pend, max, r);
    WithChildShape(t.nodes[r], t.low[r], t.level[r], max, sep, c);
    WithChildRefs(t, pend, t.nodes[r], t.low[r], t.level[r], sep, c);
  }

  lemma InsertChildOk(t: Tree, pend: set<Recid>, max: nat, r: Recid, sep: Key, c: Recid)
    requires TreeOk(t, pend, max) && Insertable(t, r, sep, c)
    requires |t.nodes[r].keys| < max
    ensures Rank(t.nodes[r].keys, sep) < |t.nodes[r].children|
    ensures TreeOk(EditDir(t, r, WithChild(t.nodes[r], sep, c)), pend - {c}, max)
  {
    WithChildOk(t, pend, max, r, sep, c);
    ReplaceOk(t, pend, pend - {c}, max, r, WithChild(t.nodes[r], sep, c));
  }

  // ---------- splitting a directory that overflows ----------

  /** Left half of an overfull directory `w`. */
  function DirLeft(w: Node, q: Recid): Node
    requires w.Dir? && 2 <= |w.keys| <= |w.children|
  {
    var h := |w.keys| / 2;
    Dir(w.left, false, q, w.keys[..h], w.children[..h])
  }

  function DirRight(w: Node): Node
    requires w.Dir? && 2 <= |w.keys| <= |w.children|
  {
    var h := |w.keys| / 2;
    Dir(false, w.right, w.link, w.keys[h..], w.children[h..])
  }

  lemma SplitDirOk(t: Tree, pend: set<Recid>, max: nat, r: Recid, sep: Key, c: Recid, q: Recid)
    requires TreeOk(t, pend, max) && max >= 4 && Insertable(t, r, sep, c)
    requires |t.nodes[r].keys| == max && Rank(t.nodes[r].keys, sep) < |t.nodes[r].children|
    requires q !in t.low && q != 0 && q in t.nodes && c != q
    requires var w := WithChild(t.nodes[r], sep, c); |w.children| >= |w.keys| && t.nodes[q] == DirRight(w)
    ensures var w := WithChild(t.nodes[r], sep, c);
            var t' := PublishSplit(t, r, DirLeft(w, q), q, SplitKey(w.keys));
            TreeOk(t', pend - {c} + {q}, max) && Extends(t, t')
  {
    WithChildOk(t, pend, max, r, sep, c);
    var w := WithChild(t.nodes[r], sep, c);
    DirHalves(t, pend - {c}, max, t.nodes[r], w, t.low[r], t.level[r], q);
    assert ChildrenOk(t, pend - {c} + {q}, DirLeft(w, q), t.low[r], t.level[r]);
    assert ChildrenOk(t, pend - {c} + {q}, DirRight(w), Fin(SplitKey(w.keys)), t.level[r]);
    SplitOk(t, pend, pend - {c} + {q}, max, r, DirLeft(w, q), DirRight(w), q, SplitKey(w.keys));
  }

  lemma DirHalves(t: Tree, pend: set<Recid>, max: nat, n: Node, w: Node, lo: Bound, lvl: nat, q: Recid)
    requires max >= 4 && w.Dir? && |w.keys| == max + 1 && q != 0
    requires ShapeOk(w, lo, lvl, max + 1) && High(w) == High(n) && w.right == n.right && w.link == n.link
    requires ChildrenOk(t, pend, w, lo, lvl)
    ensures Halves(n, lo, lvl, max, DirLeft(w, q), DirRight(w), q, SplitKey(w.keys))
    ensures ChildrenOk(t, pend, DirLeft(w, q), lo, lvl)
    ensures ChildrenOk(t, pend, DirRight(w), Fin(SplitKey(w.keys)), lvl)
  {
    LeftHalfShape(w, lo, lvl, max, q);
    RightHalfShape(w, lo, lvl, max);
    var h, a, b := |w.keys| / 2, DirLeft(w, q), DirRight(w);
    forall i | 0 <= i < |b.children|
      ensures ChildOk(t, pend, b.children[i], ChildLow(b, Fin(SplitKey(w.keys)), i), lvl)
    {
      assert ChildOk(t, pend, w.children[h + i], ChildLow(w, lo, h + i), lvl);
    }
    forall i | 0 <= i < |a.children| ensures ChildOk(t, pend, a.children[i], ChildLow(a, lo, i), lvl) {
      assert ChildOk(t, pend, w.children[i], ChildLow(w, lo, i), lvl);
    }
  }

  lemma LeftHalfShape(w: Node, lo: Bound, lvl: nat, max: nat, q: Recid)
    requires max >= 4 && w.Dir? && |w.keys| == max + 1 && q != 0 && ShapeOk(w, lo, lvl, max + 1)
    ensures ShapeOk(DirLeft(w, q), lo, lvl, max) && High(DirLeft(w, q)) == Fin(SplitKey(w.keys))
  {
    var h, a := |w.keys| / 2, DirLeft(w, q);
    assert forall i :: 0 <= i < h ==> a.keys[i] == w.keys[i] && w.keys[i] <= w.keys[h - 1];
  }

  lemma RightHalfShape(w: Node, lo: Bound, lvl: nat, max: nat)
    requires max >= 4 && w.Dir? && |w.keys| == max + 1 && ShapeOk(w, lo, lvl, max + 1)
    ensures ShapeOk(DirRight(w), Fin(SplitKey(w.keys)), lvl, max) && High(DirRight(w)) == High(w)
  {
    var h, b := |w.keys| / 2, DirRight(w);
    assert forall i :: 0 <= i < |b.keys| ==> b.keys[i] == w.keys[h + i];
    assert w.keys[h - 1] < w.keys[h] && Leq(Fin(w.keys[h]), High(w));
  }

  // ---------- growing a root ----------

  function RootNode(was: Recid, c: Recid, sep: Key): Node {
    Dir(true, true, 0, [sep], [was, c])
  }

  function PublishRoot(t: Tree, q: Recid, lvl: nat): Tree {
    t.(low := t.low[q := NegInf], level := t.level[q := lvl])
  }

  lemma PublishRootOk(t: Tree, pend: set<Recid>, max: nat, q: Recid, lvl: nat, was: Recid, c: Recid, sep: Key)
    requires TreeOk(t, pend, max) && max >= 4 && lvl > 0
    requires forall r :: r in t.level ==> t.level[r] < lvl
    requires q !in t.low && q != 0 && q in t.nodes && t.nodes[q] == RootNode(was, c, sep)
    requires ChildOk(t, pend, was, NegInf, lvl) && ChildOk(t, {}, c, Fin(sep), lvl)
    ensures TreeOk(PublishRoot(t, q, lvl), pend - {q, c}, max) && Extends(t, PublishRoot(t, q, lvl))
  {
    var t' := PublishRoot(t, q, lvl);
    forall p | p in t'.low ensures NodeOk(t', pend - {q, c}, max, p) {
      assert p != q ==> NodeOk(t, pend, max, p);
    }
    forall p, x | p in t'.low && x in t'.low && p != x && t'.level[p] == t'.level[x] ensures Apart(t', p, x) {
      assert Apart(t, p, x);
    }
  }

  // ---------- what each change does to the contents ----------

  /** A key covered by a leaf that a change leaves alone keeps its value. */
  lemma LookupKept(t: Tree, t': Tree, pend: set<Recid>, pend': set<Recid>, max: nat, first: Recid, key: Key)
    requires TreeOk(t, pend, max) && TreeOk(t', pend', max) && Extends(t, t')
    requires first in t.low && t.low[first] == NegInf && t.level[first] == 0
    requires forall r :: Covers(t, r, key) && t.level[r] == 0 ==> r in t'.nodes && t'.nodes[r] == t.nodes[r]
    ensures Lookup(t', key) == Lookup(t, key)
  {
    var c := CoverExists(t, pend, max, first, key);
    LookupAtCover(t, pend, max, c, key);
    LookupAtCover(t', pend', max, c, key);
  }

  lemma EditLeafLookup(t: Tree, pend: set<Recid>, max: nat, first: Recid,
                       r: Recid, keys: seq<Key>, vals: seq<Value>, key: Key)
    requires TreeOk(t, pend, max)
    requires first in t.low && t.low[first] == NegInf && t.level[first] == 0
    requires r in t.low && t.nodes[r].Leaf?
    requires |keys| == |vals| <= max && KeysWithin(keys, t.low[r], High(t.nodes[r]))
    ensures Lookup(EditLeaf(t, r, keys, vals), key)
         == if Covers(t, r, key) then LeafGet(t.nodes[r].(keys := keys, vals := vals), key) else Lookup(t, key)
  {
    EditLeafOk(t, pend, max, r, keys, vals);
    assert NodeOk(t, pend, max, r);
    var t' := EditLeaf(t, r, keys, vals);
    if Covers(t, r, key) {
      LookupAtCover(t', pend, max, r, key);
    } else {
      LookupKept(t, t', pend, pend, max, first, key);
    }
  }

  lemma SplitLeafLookup(t: Tree, pend: set<Recid>, max: nat, first: Recid,
                        r: Recid, keys: seq<Key>, vals: seq<Value>, q: Recid, key: Key)
    requires TreeOk(t, pend, max) && max >= 4
    requires first in t.low && t.low[first] == NegInf && t.level[first] == 0
    requires r in t.low && t.nodes[r].Leaf?
    requires |keys| == |vals| == max + 1 && KeysWithin(keys, t.low[r], High(t.nodes[r]))
    requires q !in t.low && q != 0 && q in t.nodes && t.nodes[q] == LeafRight(t.nodes[r], keys, vals)
    ensures Lookup(PublishSplit(t, r, LeafLeft(t.nodes[r], keys, vals, q), q, SplitKey(keys)), key)
         == if Covers(t, r, key) then LeafGet(t.nodes[r].(keys := keys, vals := vals), key) else Lookup(t, key)
  {
    SplitLeafOk(t, pend, max, r, keys, vals, q);
    assert NodeOk(t, pend, max, r);
    var n, h := t.nodes[r], |keys| / 2;
    var a, b := LeafLeft(n, keys, vals, q), LeafRight(n, keys, vals);
    var t' := PublishSplit(t, r, a, q, SplitKey(keys));
    if Covers(t, r, key) {
      HalvesGet(keys, vals, key);
      LookupAtCover(t', pend + {q}, max, if key <= SplitKey(keys) then r else q, key);
    } else {
      LookupKept(t, t', pend, pend + {q}, max, first, key);
    }
  }

  /** Either half of a sorted group answers for its own side of the separator. */
  lemma HalvesGet(keys: seq<Key>, vals: seq<Value>, key: Key)
    requires Sorted(keys) && |keys| == |vals| >= 2
    ensures var h := |keys| / 2;
            var g := if key <= keys[h - 1] then (keys[..h], vals[..h]) else (keys[h..], vals[h..]);
            && (Found(g.0, key) <==> Found(keys, key))
            && (Found(keys, key) ==> g.1[Rank(g.0, key)] == vals[Rank(keys, key)])
  {
    var h := |keys| / 2;
    var half := if key <= keys[h - 1] then keys[..h] else keys[h..];
    var off := if key <= keys[h - 1] then 0 else h;
    FoundIffMember(keys, key);
    FoundIffMember(half, key);
    if Found(keys, key) {
      var i := Rank(keys, key);
      assert FoundAt(half, key, i - off);
    }
    if Found(half, key) {
      assert FoundAt(keys, key, Rank(half, key) + off);
    }
  }
}

/**
 Freedom from deadlock, growth of the root and tiling of the levels, in every state
 that satisfies the invariant and hence in every state of every run.
 */
module BLinkProgress {
  import opened Basics
  import opened BLinkTree
  import opened BLinkMachine
  import opened BLinkInvariant
  import opened BLinkWrites
  import opened BLinkParents

  // ---------- no deadlock ----------

  /** Program counters at which a thread may have to wait. */
  predicate Waits(pc: Pc) {
    pc.LeafWait? || pc.DirWait? || pc.RootWait? || pc.Rising?
  }

  /** No thread holds two locks, and none waits while it holds one. */
  lemma OneLock(s: State, t: Tid, r: Recid, q: Recid)
    requires Inv(s) && t in s.pcs && Owns(s.v.locks, t, r)
    ensures !Waits(s.pcs[t]) && (Owns(s.v.locks, t, q) ==> q == r)
  {
    hide SharedOk, PcOk;
    assert Thread(s.v, t, s.pcs[t]);
  }

  /** The store can always hand out a recid that is not in use. */
  lemma FreshExists(v: Shared) returns (q: Recid)
    ensures FreshRecid(v, q)
  {
    q := UpperBound(v.tree.nodes.Keys + {0, v.rootPtr});
  }

  /** A thread that holds a lock can take its next step. */
  lemma HolderMoves(s: State, r: Recid) returns (u: Tid, x: Choice)
    requires Inv(s) && r in s.v.locks
    ensures Can(s, u, x) && !s.pcs[u].Idle?
  {
    hide SharedOk, PcOk;
    u := s.v.locks[r];
    assert u in s.v.locks.Values;
    assert Thread(s.v, u, s.pcs[u]);
    assert Owns(s.v.locks, u, r);
    var q := FreshExists(s.v);
    x := Choice(Get(0), q);
  }

  /** A separator that finds no level above its own was split off the root level, which somebody is growing. */
  lemma StuckMeansGrowing(v: Shared, t: Tid, c: Carry)
    requires SharedOk(v) && RisingOk(v.tree, v.pend, v.growing, v.root, t, c)
    requires !c.root && c.level >= |v.edges| && !v.appending
    ensures v.growing.Some?
  {
    assert NodeOk(v.tree, v.pend.Keys, v.max, c.right) && NodeOk(v.tree, v.pend.Keys, v.max, v.root);
    assert v.growing.None? ==> Apart(v.tree, v.root, c.right);
  }

  lemma GrowerMoves(s: State, t: Tid) returns (u: Tid, x: Choice)
    requires Inv(s) && s.v.growing == Some(t)
    ensures Can(s, u, x) && !s.pcs[u].Idle?
  {
    hide SharedOk, Accounts;
    assert Thread(s.v, t, s.pcs[t]);
    var pc := s.pcs[t];
    if pc.RootWait? && s.v.rootPtr in s.v.locks {
      u, x := HolderMoves(s, s.v.rootPtr);
    } else {
      u := t;
      var q := FreshExists(s.v);
      x := Choice(Get(0), q);
    }
  }

  lemma RisingMoves(s: State, t: Tid) returns (u: Tid, x: Choice)
    requires Inv(s) && t in s.pcs && s.pcs[t].Rising?
    ensures Can(s, u, x) && !s.pcs[u].Idle?
  {
    assert Thread(s.v, t, s.pcs[t]);
    var c := s.pcs[t].c;
    if c.root || c.stack != [] || c.level < |s.v.edges| {
      u, x := t, Choice(Get(0), 0);
    } else if s.v.appending {
      u, x := HolderMoves(s, s.v.rootPtr);
    } else {
      StuckMeansGrowing(s.v, t, c);
      u, x := GrowerMoves(s, s.v.growing.value);
    }
  }

  /** As long as some thread is busy, some busy thread can take its next step. */
  lemma NoDeadlock(s: State, t: Tid) returns (u: Tid, x: Choice)
    requires Inv(s) && t in s.pcs && !s.pcs[t].Idle?
    ensures Can(s, u, x) && !s.pcs[u].Idle?
  {
    var v, pc := s.v, s.pcs[t];
    assert Thread(v, t, pc);
    if pc.Rising? {
      u, x := RisingMoves(s, t);
    } else if (pc.LeafWait? || pc.DirWait?) && pc.cur in v.locks {
      u, x := HolderMoves(s, pc.cur);
    } else if pc.RootWait? && v.rootPtr in v.locks {
      u, x := HolderMoves(s, v.rootPtr);
    } else {
      var q := FreshExists(v);
      u, x := t, Choice(Get(0), if pc.Begin? then v.root else q);
    }
  }

  // ---------- writers of one key exclude each other ----------

  /** A writer that has locked the leaf covering its key and has not published yet. */
  predicate Owning(pc: Pc, k: Key) {
    (pc.LeafOwned? || pc.LeafStore? || pc.LeafPublish?) && pc.op.key == k
  }

  lemma OwningKnows(v: Shared, t: Tid, pc: Pc, k: Key)
    requires PcOk(v, t, pc) && Owning(pc, k)
    ensures Owns(v.locks, t, pc.cur) && Covers(v.tree, pc.cur, k) && pc.cur in v.tree.level && v.tree.level[pc.cur] == 0
  {
  }

  /**
   At most one writer at a time is between locking the leaf of a key and publishing, and
   none is while another has still to report a change of that key.
   */
  lemma KeyExclusion(s: State, t: Tid, u: Tid, k: Key)
    requires Inv(s) && t in s.pcs && u in s.pcs && Owning(s.pcs[t], k)
    ensures Owning(s.pcs[u], k) ==> u == t
    ensures k !in s.v.hot
  {
    hide PcOk, HiddenOk, RootPart, EventPart, Accounts;
    assert Thread(s.v, t, s.pcs[t]) && Thread(s.v, u, s.pcs[u]);
    OwningKnows(s.v, t, s.pcs[t], k);
    if Owning(s.pcs[u], k) {
      OwningKnows(s.v, u, s.pcs[u], k);
      CoverUnique(s.v.tree, s.v.pend.Keys, s.v.max, s.pcs[t].cur, s.pcs[u].cur, k);
    }
    NotHot(s.v, t, s.pcs[t], s.pcs[t].cur, k);
  }

  // ---------- growth of the root ----------

  /** The left-edge list names, level by level, the one published node that starts its level. */
  lemma EdgesAreLeftmost(v: Shared, i: nat, r: Recid)
    requires SharedOk(v) && i < |v.edges| && r in v.tree.low && v.tree.level[r] == i
    ensures v.tree.low[r] == NegInf <==> r == v.edges[i]
    ensures v.tree.nodes[r].left <==> r == v.edges[i]
  {
    assert EdgeOk(v, i);
    assert NodeOk(v.tree, v.pend.Keys, v.max, r);
    if v.tree.low[r] == NegInf {
      LowUnique(v.tree, v.pend.Keys, v.max, r, v.edges[i]);
    }
  }

  /**
   The root changes only when the thread that split it replaces it by a new node one
   level higher, whose two children are the halves; nobody else can have replaced it.
   */
  lemma RootGrowsByOne(s: State, t: Tid, x: Choice)
    requires Inv(s) && Can(s, t, x)
    ensures var v, v' := s.v, Next(s, t, x).v;
            v'.root != v.root ==>
              && s.pcs[t].RootPublish? && v.growing == Some(t) && v.root == s.pcs[t].c.left
              && v'.root in v'.tree.nodes && v'.tree.nodes[v'.root].Dir? && v'.tree.nodes[v'.root].children == [v.root, s.pcs[t].c.right]
              && v.root in v.tree.level && v'.root in v'.tree.level && v'.tree.level[v'.root] == v.tree.level[v.root] + 1
              && v'.edges == v.edges && |v.edges| == v'.tree.level[v'.root] && v'.appending
  {
    hide SharedOk, Accounts, PcOk;
    var v, pc := s.v, s.pcs[t];
    assert Thread(v, t, pc);
    if pc.RootPublish? {
      RootIsSplit(v, t, pc.c, pc.q);
    } else {
      OnlyPublishGrows(v, t, pc, x);
    }
  }

  lemma RootIsSplit(v: Shared, t: Tid, c: Carry, q: Recid)
    requires SharedOk(v) && PcOk(v, t, RootPublish(c, q))
    ensures Rooting(v, t, c, q) && c.level == |v.edges| && c.left in v.tree.level && v.tree.level[c.left] + 1 == c.level
  {
    hide TreePart, RootPart, HiddenPart, HotPart, LockPart, EventPart, PcOk;
    RootPublishKnows(v, t, c, q);
  }

  lemma OnlyPublishGrows(v: Shared, t: Tid, pc: Pc, x: Choice)
    requires CanMove(v, pc, x) && !pc.RootPublish?
    ensures Step(v, t, pc, x).v.root == v.root
  {
  }

  // ---------- the levels tile the key space ----------

  /** On every level the left edge starts a chain that visits exactly the level's nodes and tiles all keys. */
  lemma LevelTiles(v: Shared, i: nat) returns (path: seq<Recid>)
    requires SharedOk(v) && i < |v.edges|
    ensures v.edges[i] in v.tree.low && Tiles(v.tree, v.edges[i], path)
    ensures forall q :: q in v.tree.low && v.tree.level[q] == i <==> q in path
    ensures v.tree.low[path[0]] == NegInf && High(v.tree.nodes[path[|path| - 1]]) == PosInf
  {
    assert EdgeOk(v, i);
    path := ChainTiles(v.tree, v.pend.Keys, v.max, v.edges[i]);
  }
}

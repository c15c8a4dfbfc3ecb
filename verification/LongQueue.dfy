/**
 A persistent FIFO of (timestamp, value) pairs: a doubly linked list of store records
 with a preallocated sentinel slot at its head end and three pointer records.  Nodes
 are addressed by recid, so any of them can be removed or moved to the newest place.
 */
module LongQueue {
  import opened Basics

  const MAX_FIELD: nat := 0x7fff_ffff_ffff_ffff

  datatype Link = Link(prev: Recid, next: Recid, timestamp: nat, value: nat)

  /** What a user of the queue sees of a node. */
  datatype Item = Item(recid: Recid, timestamp: nat, value: nat)

  // ---------- the links as a value ----------

  ghost predicate Distinct(ids: seq<Recid>) {
    forall i, j :: 0 <= i < j < |ids| ==> ids[i] != ids[j]
  }

  /** Node `i` of the list has a record whose links lead to its neighbours. */
  ghost predicate Linked(recs: map<Recid, Link>, ids: seq<Recid>, head: Recid, i: nat)
    requires i < |ids|
  {
    && ids[i] != 0 && ids[i] != head && ids[i] in recs
    && recs[ids[i]].prev == (if i == 0 then 0 else ids[i - 1])
    && recs[ids[i]].next == (if i + 1 == |ids| then head else ids[i + 1])
  }

  /** `ids`, oldest first, are exactly what the three pointers and the links describe. */
  ghost predicate ListOk(recs: map<Recid, Link>, tail: Recid, head: Recid, headPrev: Recid, ids: seq<Recid>) {
    && Distinct(ids) && head != 0
    && tail == (if ids == [] then head else ids[0])
    && headPrev == (if ids == [] then 0 else ids[|ids| - 1])
    && (forall i {:trigger Linked(recs, ids, head, i)} :: 0 <= i < |ids| ==> Linked(recs, ids, head, i))
  }

  /** The record of an unlinked node points nowhere that points back at it. */
  ghost predicate Stale(recs: map<Recid, Link>, r: Recid)
    requires r in recs
  {
    recs[r].next in recs ==> recs[recs[r].next].prev != r
  }

  ghost predicate AllStale(recs: map<Recid, Link>, ids: seq<Recid>) {
    forall r {:trigger Stale(recs, r)} :: r in recs && r !in ids ==> r != 0 && Stale(recs, r)
  }

  function Items(recs: map<Recid, Link>, ids: seq<Recid>): (items: seq<Item>)
    requires forall i :: 0 <= i < |ids| ==> ids[i] in recs
    ensures |items| == |ids|
    ensures forall i :: 0 <= i < |ids| ==> items[i] == Item(ids[i], recs[ids[i]].timestamp, recs[ids[i]].value)
  {
    seq(|ids|, i requires 0 <= i < |ids| => Item(ids[i], recs[ids[i]].timestamp, recs[ids[i]].value))
  }

  lemma ListHasRecords(recs: map<Recid, Link>, tail: Recid, head: Recid, headPrev: Recid, ids: seq<Recid>)
    requires ListOk(recs, tail, head, headPrev, ids)
    ensures forall i :: 0 <= i < |ids| ==> ids[i] in recs && ids[i] != 0 && ids[i] != head
    ensures 0 !in ids && head !in ids
  {
    forall i | 0 <= i < |ids| ensures ids[i] in recs && ids[i] != 0 && ids[i] != head {
      assert Linked(recs, ids, head, i);
    }
  }

  // ---------- appending ----------

  /** Link `r` in as the newest node, given that its predecessor's record is already adjusted. */
  lemma AppendOk(recs: map<Recid, Link>, recs': map<Recid, Link>, tail: Recid, head: Recid, headPrev: Recid, ids: seq<Recid>,
                 r: Recid, head': Recid, ts: nat, value: nat)
    requires ListOk(recs, tail, head, headPrev, ids) && r != 0 && r !in ids && head' != 0 && head' != r && head' !in ids
    requires r in recs' && recs'[r] == Link(headPrev, head', ts, value)
    requires forall i :: 0 <= i < |ids| - 1 ==> ids[i] in recs' && ids[i] in recs && recs'[ids[i]] == recs[ids[i]]
    requires ids != [] ==> headPrev in recs && headPrev in recs' && recs'[headPrev] == recs[headPrev].(next := r)
    ensures ListOk(recs', if ids == [] then r else tail, head', r, ids + [r])
  {
    var ids' := ids + [r];
    forall i | 0 <= i < |ids'| ensures Linked(recs', ids', head', i) {
      assert i < |ids| ==> Linked(recs, ids, head, i);
    }
  }

  // ---------- removing ----------

  function Without(ids: seq<Recid>, k: nat): (r: seq<Recid>)
    requires k < |ids|
    ensures |r| == |ids| - 1 && forall i :: 0 <= i < |r| ==> r[i] == if i < k then ids[i] else ids[i + 1]
  {
    ids[..k] + ids[k + 1..]
  }

  /** The records after node `k` is unlinked from its neighbours. */
  ghost predicate Unlinked(recs: map<Recid, Link>, recs': map<Recid, Link>, ids: seq<Recid>, k: nat)
    requires k < |ids| && forall i :: 0 <= i < |ids| ==> ids[i] in recs
  {
    && (forall i :: 0 <= i < |ids| && i != k ==> ids[i] in recs')
    && (forall i :: 0 <= i < |ids| && i != k - 1 && i != k && i != k + 1 ==> recs'[ids[i]] == recs[ids[i]])
    && (k > 0 ==> recs'[ids[k - 1]] == recs[ids[k - 1]].(next := recs[ids[k]].next))
    && (k + 1 < |ids| ==> recs'[ids[k + 1]] == recs[ids[k + 1]].(prev := recs[ids[k]].prev))
  }

  lemma UnlinkOk(recs: map<Recid, Link>, recs': map<Recid, Link>, tail: Recid, head: Recid, headPrev: Recid, ids: seq<Recid>, k: nat)
    requires ListOk(recs, tail, head, headPrev, ids) && k < |ids|
    requires (forall i :: 0 <= i < |ids| ==> ids[i] in recs) && Unlinked(recs, recs', ids, k)
    ensures ListOk(recs', if k == 0 then recs[ids[k]].next else tail, head,
                   if k + 1 == |ids| then recs[ids[k]].prev else headPrev, Without(ids, k))
  {
    var ids' := Without(ids, k);
    assert Linked(recs, ids, head, k);
    forall i | 0 <= i < |ids'| ensures Linked(recs', ids', head, i) {
      assert Linked(recs, ids, head, if i < k then i else i + 1);
    }
  }

  // ---------- the queue ----------

  class QueueLong {
    var recs: map<Recid, Link>
    var taken: set<Recid>
    var tail: Recid
    var head: Recid
    var headPrev: Recid
    ghost var ids: seq<Recid>

    ghost predicate Valid()
      reads this
    {
      && ListOk(recs, tail, head, headPrev, ids) && AllStale(recs, ids)
      && head !in recs && head in taken && recs.Keys <= taken && 0 !in taken
    }

    /** The queue as a sequence, oldest first. */
    ghost function Contents(): seq<Item>
      reads this
      requires Valid()
    {
      ListHasRecords(recs, tail, head, headPrev, ids);
      Items(recs, ids)
    }

    constructor (sentinel: Recid)
      requires sentinel != 0
      ensures Valid() && Contents() == []
    {
      recs, taken, tail, head, headPrev := map[], {sentinel}, sentinel, sentinel, 0;
      ids := [];
    }

    /** A recid that is not in use. The store hands a deleted one out again. */
    method Preallocate() returns (r: Recid)
      modifies this`taken
      ensures r !in old(taken) && r != 0 && taken == old(taken) + {r}
    {
      ghost var m := UpperBound(taken + {0});
      assert m !in taken && m != 0;
      r :| r !in taken && r != 0;
      taken := taken + {r};
    }

    /** Append; the entry goes into the sentinel slot and a new sentinel is reserved. */
    method Put(timestamp: nat, value: nat) returns (r: Result<Recid>)
      requires Valid()
      modifies this
      ensures Valid()
      ensures timestamp > MAX_FIELD || value > MAX_FIELD ==> r == Err && unchanged(this)
      ensures timestamp <= MAX_FIELD && value <= MAX_FIELD ==>
                r == Ok(old(head)) && Contents() == old(Contents()) + [Item(old(head), timestamp, value)]
    {
      if timestamp > MAX_FIELD || value > MAX_FIELD {
        return Err;
      }
      ListHasRecords(recs, tail, head, headPrev, ids);
      var next := Preallocate();
      var oldHead, oldPrev := head, headPrev;
      ghost var was := recs;
      assert ids != [] ==> Linked(recs, ids, head, |ids| - 1);
      recs := recs[oldHead := Link(oldPrev, next, timestamp, value)];
      AppendOk(was, recs, tail, oldHead, oldPrev, ids, oldHead, next, timestamp, value);
      head := next;
      headPrev := oldHead;
      ids := ids + [oldHead];
      forall d | d in recs && d !in ids ensures d != 0 && Stale(recs, d) {
        assert Stale(was, d);
      }
      r := Ok(oldHead);
    }

    /** Remove and return the oldest entry. */
    method Take() returns (n: Option<Link>)
      requires Valid()
      modifies this
      ensures Valid() && head == old(head)
      ensures old(Contents()) == [] ==> n == None && Contents() == []
      ensures old(Contents()) != [] ==>
                && n.Some? && old(Contents())[0] == Item(old(tail), n.value.timestamp, n.value.value)
                && Contents() == old(Contents())[1..] && taken == old(taken) - {old(tail)}
    {
      ListHasRecords(recs, tail, head, headPrev, ids);
      if tail !in recs {
        headPrev := 0;
        return None;
      }
      var oldTail, node := tail, recs[tail];
      ghost var was, wasPrev := recs, headPrev;
      assert Linked(recs, ids, head, 0);
      assert |ids| > 1 ==> Linked(recs, ids, head, 1);
      recs, taken := recs - {oldTail}, taken - {oldTail};
      tail := node.next;
      if headPrev == oldTail {
        headPrev := 0;
      }
      if node.next in recs {
        recs := recs[node.next := recs[node.next].(prev := 0)];
      }
      UnlinkOk(was, recs, oldTail, head, wasPrev, ids, 0);
      ids := Without(ids, 0);
      forall d | d in recs && d !in ids ensures d != 0 && Stale(recs, d) {
        assert Stale(was, d);
      }
      n := Some(node);
    }

    /** The longest run of oldest entries the callback accepts; the `i`-th call may answer differently from the others. */
    method TakeUntil(callback: (nat, Item) -> bool) returns (k: nat)
      requires Valid()
      modifies this
      ensures Valid() && k <= |old(Contents())| && Contents() == old(Contents())[k..]
      ensures forall i :: 0 <= i < k ==> callback(i, old(Contents())[i])
      ensures k < |old(Contents())| ==> !callback(k, old(Contents())[k])
    {
      k := 0;
      while true
        invariant Valid() && k <= |old(Contents())| && Contents() == old(Contents())[k..]
        invariant forall i :: 0 <= i < k ==> callback(i, old(Contents())[i])
        decreases |Contents()|
      {
        ListHasRecords(recs, tail, head, headPrev, ids);
        if tail !in recs {
          return;
        }
        var node := recs[tail];
        if !callback(k, Item(tail, node.timestamp, node.value)) {
          return;
        }
        ghost var before := Contents();
        var taken := Take();
        assert before[0] == old(Contents())[k];
        k := k + 1;
      }
    }

    /** Unlink a node by recid. A recid that is not queued is refused and the queue is left alone. */
    method Remove(r: Recid, removeNode: bool) returns (n: Result<Link>, ghost k: nat)
      requires Valid()
      modifies this`recs, this`taken, this`tail, this`headPrev, this`ids
      ensures Valid() && taken == if removeNode && r in old(recs) then old(taken) - {r} else old(taken)
      ensures r !in old(ids) ==> n == Err && ids == old(ids) && Contents() == old(Contents())
      ensures r in old(ids) ==>
                && n.Ok? && k < |old(ids)| && old(Contents())[k] == Item(r, n.value.timestamp, n.value.value)
                && ids == Without(old(ids), k) && Contents() == old(Contents()[..k]) + old(Contents()[k + 1..])
                && r !in ids && (r in recs <==> !removeNode)
    {
      hide ListOk, AllStale, Items, Without, IndexOf;
      k := if r in ids then IndexOf(ids, r) else 0;
      ListHasRecords(recs, tail, head, headPrev, ids);
      if r !in recs {
        return Err, k;
      }
      var node := recs[r];
      ghost var was := recs;
      if r !in ids {
        CutList(was, if removeNode then recs - {r} else recs, tail, head, headPrev, ids, r);
      }
      if removeNode {
        recs, taken := recs - {r}, taken - {r};
      }
      var ok := Relink(r, node, was, k);
      if !ok {
        return Err, k;
      }
      ids := Without(ids, k);
      n := Ok(node);
    }

    /** Splice `r`, whose record may be gone, out of its neighbours' links; refused exactly if it is not queued. */
    method Relink(r: Recid, node: Link, ghost was: map<Recid, Link>, ghost k: nat) returns (ok: bool)
      requires ListOk(was, tail, head, headPrev, ids) && AllStale(was, ids) && head !in was && r in was && node == was[r]
      requires (recs == was || recs == was - {r}) && forall i :: 0 <= i < |ids| ==> ids[i] in was
      requires r in ids ==> k < |ids| && ids[k] == r
      modifies this`recs, this`tail, this`headPrev
      ensures ok <==> r in ids
      ensures !ok ==> recs == old(recs) && tail == old(tail) && headPrev == old(headPrev)
      ensures ok ==>
                && ListOk(recs, tail, head, headPrev, Without(ids, k)) && AllStale(recs, Without(ids, k))
                && recs.Keys <= old(recs).Keys && (r in recs <==> r in old(recs)) && r !in Without(ids, k)
                && (forall i :: 0 <= i < |Without(ids, k)| ==> Without(ids, k)[i] in recs)
                && Items(recs, Without(ids, k)) == Items(was, ids)[..k] + Items(was, ids)[k + 1..]
    {
      hide ListOk, AllStale, Items, Without;
      ghost var wasTail, wasPrev := tail, headPrev;
      if r in ids {
        Neighbours(was, tail, head, headPrev, ids, k);
      } else {
        NotBackLinked(was, tail, head, headPrev, ids, r);
      }
      if node.next in recs {
        if recs[node.next].prev != r {
          return false;
        }
        recs := recs[node.next := recs[node.next].(prev := node.prev)];
      } else {
        if headPrev != r {
          return false;
        }
        headPrev := node.prev;
      }
      if node.prev != 0 {
        if node.prev !in recs || recs[node.prev].next != r {
          return false;
        }
        recs := recs[node.prev := recs[node.prev].(next := node.next)];
      } else {
        if tail != r {
          return false;
        }
        tail := node.next;
      }
      RemoveOk(was, old(recs), recs, wasTail, head, wasPrev, ids, k);
      ok := true;
    }

    /** Link a caller's record in as the newest node; it must not be queued already. */
    method PutPreallocated(timestamp: nat, value: nat, r: Recid) returns (ok: bool)
      requires Valid() && r in taken && r !in ids && r != head
      modifies this`recs, this`tail, this`headPrev, this`ids
      ensures Valid()
      ensures ok && ids == old(ids) + [r] && Contents() == old(Contents()) + [Item(r, timestamp, value)]
    {
      ListHasRecords(recs, tail, head, headPrev, ids);
      var prev, sentinel := headPrev, head;
      ghost var was, wasTail := recs, tail;
      assert ids != [] ==> Linked(recs, ids, head, |ids| - 1);
      recs := recs[r := Link(prev, sentinel, timestamp, value)];
      headPrev := r;
      ok := prev == 0 || prev in recs;
      if prev in recs {
        recs := recs[prev := recs[prev].(next := r)];
      }
      if tail == sentinel {
        tail := r;
      }
      AppendOk(was, recs, wasTail, head, prev, ids, r, head, timestamp, value);
      ids := ids + [r];
      forall d | d in recs && d !in ids ensures d != 0 && Stale(recs, d) {
        assert Stale(was, d);
      }
    }

    /** Make a node the newest one and give it a new timestamp. */
    method Bump(r: Recid, timestamp: nat) returns (ok: bool, ghost k: nat)
      requires Valid()
      modifies this`recs, this`taken, this`tail, this`headPrev, this`ids
      ensures Valid() && taken == old(taken) && (ok <==> timestamp <= MAX_FIELD && r in old(ids))
      ensures !ok ==> ids == old(ids) && Contents() == old(Contents())
      ensures ok ==>
                && k < |old(ids)| && old(ids)[k] == r
                && Contents() == old(Contents()[..k]) + old(Contents()[k + 1..])
                               + [Item(r, timestamp, old(Contents())[k].value)]
    {
      hide ListOk, AllStale;
      k := 0;
      if timestamp > MAX_FIELD || r !in recs {
        ListHasRecords(recs, tail, head, headPrev, ids);
        return false, k;
      }
      var node := recs[r];
      if headPrev == r {
        k := BumpNewest(recs, tail, head, headPrev, ids, r, timestamp);
        recs := recs[r := node.(timestamp := timestamp)];
        return true, k;
      }
      var n;
      n, k := Remove(r, false);
      if n.Err? {
        return false, k;
      }
      ok := PutPreallocated(timestamp, node.value, r);
    }

    /** Values from oldest to newest. */
    method Values() returns (vs: seq<nat>)
      requires Valid()
      ensures |vs| == |Contents()| && forall i :: 0 <= i < |vs| ==> vs[i] == Contents()[i].value
    {
      vs := [];
      var recid := tail;
      ListHasRecords(recs, tail, head, headPrev, ids);
      while recid in recs
        invariant |vs| <= |ids| && recid == (if |vs| < |ids| then ids[|vs|] else head)
        invariant forall i :: 0 <= i < |vs| ==> vs[i] == Contents()[i].value
        decreases |ids| - |vs|
      {
        assert Linked(recs, ids, head, |vs|);
        vs := vs + [recs[recid].value];
        recid := recs[recid].next;
      }
    }

    /** Structural self-check of any state: it succeeds exactly on the states that describe a list. */
    method Verify() returns (ok: bool)
      ensures ok <==> Sound(recs, tail, head, headPrev)
    {
      if head == tail {
        return headPrev == 0;
      }
      var previous, recid := 0, tail;
      ghost var vis: seq<Recid> := [];
      while recid != head
        invariant Visited(recs, tail, head, vis, previous, recid)
        invariant forall ids {:trigger ListOk(recs, tail, head, headPrev, ids)} ::
                    ListOk(recs, tail, head, headPrev, ids) ==> Agrees(ids, head, vis, recid)
        decreases |recs| - |vis|
      {
        forall ids | ListOk(recs, tail, head, headPrev, ids)
          ensures recid != 0 && recid in recs && recs[recid].prev == previous
          ensures Agrees(ids, head, vis + [recid], if recid in recs then recs[recid].next else 0)
        {
          VisitNext(recs, tail, head, headPrev, ids, vis, previous, recid);
        }
        if recid == 0 || recid !in recs || recs[recid].prev != previous {
          return false;
        }
        VisitMore(recs, tail, head, vis, previous, recid);
        vis := vis + [recid];
        previous, recid := recid, recs[recid].next;
      }
      forall ids | ListOk(recs, tail, head, headPrev, ids) ensures ids == vis {
        VisitEnds(recs, tail, head, headPrev, ids, vis);
      }
      ok := head != 0 && head !in recs && previous == headPrev;
      if ok {
        VisitedAll(recs, tail, head, headPrev, vis, previous);
      }
    }
  }

  /** What the self-check accepts. An empty queue is not asked about a record in its sentinel slot. */
  ghost predicate Sound(recs: map<Recid, Link>, tail: Recid, head: Recid, headPrev: Recid) {
    if tail == head then headPrev == 0
    else head !in recs && exists ids :: ListOk(recs, tail, head, headPrev, ids)
  }

  /** Every state the operations produce passes the self-check. */
  lemma ValidIsSound(recs: map<Recid, Link>, tail: Recid, head: Recid, headPrev: Recid, ids: seq<Recid>)
    requires ListOk(recs, tail, head, headPrev, ids) && head !in recs
    ensures Sound(recs, tail, head, headPrev)
  {
    ListHasRecords(recs, tail, head, headPrev, ids);
  }

  ghost predicate Hop(recs: map<Recid, Link>, head: Recid, vis: seq<Recid>, recid: Recid, i: nat)
    requires i < |vis|
  {
    && vis[i] != 0 && vis[i] != head && vis[i] in recs
    && recs[vis[i]].prev == (if i == 0 then 0 else vis[i - 1])
    && recs[vis[i]].next == (if i + 1 == |vis| then recid else vis[i + 1])
  }

  /** The walk so far: `vis` are linked up to `previous`, whose next is `recid`. */
  ghost predicate Visited(recs: map<Recid, Link>, tail: Recid, head: Recid, vis: seq<Recid>, previous: Recid, recid: Recid) {
    && Distinct(vis) && |vis| <= |recs|
    && (forall i {:trigger Hop(recs, head, vis, recid, i)} :: 0 <= i < |vis| ==> Hop(recs, head, vis, recid, i))
    && previous == (if vis == [] then 0 else vis[|vis| - 1])
    && (if vis == [] then recid == tail else vis[0] == tail)
  }

  /** The walk has followed the list `ids` so far. */
  ghost predicate Agrees(ids: seq<Recid>, head: Recid, vis: seq<Recid>, recid: Recid) {
    && |vis| <= |ids| && vis == ids[..|vis|]
    && recid == if |vis| < |ids| then ids[|vis|] else head
  }

  lemma VisitNext(recs: map<Recid, Link>, tail: Recid, head: Recid, headPrev: Recid, ids: seq<Recid>,
                  vis: seq<Recid>, previous: Recid, recid: Recid)
    requires ListOk(recs, tail, head, headPrev, ids) && Visited(recs, tail, head, vis, previous, recid)
    requires Agrees(ids, head, vis, recid) && recid != head
    ensures recid != 0 && recid in recs && recs[recid].prev == previous
    ensures Agrees(ids, head, vis + [recid], recs[recid].next)
  {
    assert Linked(recs, ids, head, |vis|);
  }

  /** A node whose backlink fits has not been visited before. */
  lemma NotVisited(recs: map<Recid, Link>, tail: Recid, head: Recid, vis: seq<Recid>, previous: Recid, recid: Recid)
    requires Visited(recs, tail, head, vis, previous, recid)
    requires recid in recs && recs[recid].prev == previous
    ensures recid !in vis
  {
    forall j | 0 <= j < |vis| ensures vis[j] != recid {
      assert Hop(recs, head, vis, recid, j) && Hop(recs, head, vis, recid, |vis| - 1);
    }
  }

  lemma VisitMore(recs: map<Recid, Link>, tail: Recid, head: Recid, vis: seq<Recid>, previous: Recid, recid: Recid)
    requires Visited(recs, tail, head, vis, previous, recid)
    requires recid != 0 && recid != head && recid in recs && recs[recid].prev == previous
    ensures Visited(recs, tail, head, vis + [recid], recid, recs[recid].next)
  {
    NotVisited(recs, tail, head, vis, previous, recid);
    var vis' := vis + [recid];
    forall i | 0 <= i < |vis'| ensures Hop(recs, head, vis', recs[recid].next, i) {
      assert i < |vis| ==> Hop(recs, head, vis, recid, i);
    }
    forall i | 0 <= i < |vis'| ensures vis'[i] in recs.Keys {
      assert Hop(recs, head, vis', recs[recid].next, i);
    }
    DistinctFits(vis', recs.Keys);
    assert |recs.Keys| == |recs|;
  }

  lemma {:induction false} DistinctFits(ids: seq<Recid>, s: set<Recid>)
    requires Distinct(ids) && forall i :: 0 <= i < |ids| ==> ids[i] in s
    ensures |ids| <= |s|
  {
    if ids != [] {
      var last := ids[|ids| - 1];
      DistinctFits(ids[..|ids| - 1], s - {last});
    }
  }

  lemma VisitEnds(recs: map<Recid, Link>, tail: Recid, head: Recid, headPrev: Recid, ids: seq<Recid>, vis: seq<Recid>)
    requires ListOk(recs, tail, head, headPrev, ids) && Agrees(ids, head, vis, head)
    ensures ids == vis
  {
    assert |vis| < |ids| ==> Linked(recs, ids, head, |vis|);
  }

  lemma VisitedAll(recs: map<Recid, Link>, tail: Recid, head: Recid, headPrev: Recid, vis: seq<Recid>, previous: Recid)
    requires Visited(recs, tail, head, vis, previous, head) && previous == headPrev && head != 0
    ensures ListOk(recs, tail, head, headPrev, vis)
  {
    forall i | 0 <= i < |vis| ensures Linked(recs, vis, head, i) {
      assert Hop(recs, head, vis, head, i);
    }
  }

  lemma BumpNewest(recs: map<Recid, Link>, tail: Recid, head: Recid, headPrev: Recid, ids: seq<Recid>, r: Recid, ts: nat)
    returns (k: nat)
    requires ListOk(recs, tail, head, headPrev, ids) && AllStale(recs, ids) && headPrev == r && r in recs && r != 0
    ensures var recs' := recs[r := recs[r].(timestamp := ts)];
            && ListOk(recs', tail, head, headPrev, ids) && AllStale(recs', ids)
            && (forall i :: 0 <= i < |ids| ==> ids[i] in recs && ids[i] in recs')
            && k < |ids| && ids[k] == r
            && Items(recs', ids) == Items(recs, ids)[..k] + Items(recs, ids)[k + 1..] + [Item(r, ts, recs[r].value)]
  {
    k := |ids| - 1;
    var recs' := recs[r := recs[r].(timestamp := ts)];
    ListHasRecords(recs, tail, head, headPrev, ids);
    forall i | 0 <= i < |ids| ensures Linked(recs', ids, head, i) {
      assert Linked(recs, ids, head, i);
    }
    forall d | d in recs' && d !in ids ensures d != 0 && Stale(recs', d) {
      assert Stale(recs, d);
    }
  }

  ghost function IndexOf(ids: seq<Recid>, r: Recid): (k: nat)
    requires r in ids
    ensures k < |ids| && ids[k] == r
  {
    var k :| 0 <= k < |ids| && ids[k] == r; k
  }

  /** What the record of a queued node says about its neighbours. */
  lemma Neighbours(recs: map<Recid, Link>, tail: Recid, head: Recid, headPrev: Recid, ids: seq<Recid>, k: nat)
    requires ListOk(recs, tail, head, headPrev, ids) && k < |ids| && head !in recs
    ensures ids[k] in recs
    ensures var n := recs[ids[k]];
            && (if k + 1 < |ids| then n.next == ids[k + 1] && n.next in recs && recs[n.next].prev == ids[k] && n.next != ids[k]
                else n.next == head && n.next !in recs && headPrev == ids[k])
            && (if k > 0 then n.prev == ids[k - 1] && n.prev != 0 && n.prev in recs && recs[n.prev].next == ids[k] && n.prev != ids[k]
                else n.prev == 0 && tail == ids[k])
            && (0 < k < |ids| - 1 ==> n.prev != n.next)
  {
    assert Linked(recs, ids, head, k);
    assert k > 0 ==> Linked(recs, ids, head, k - 1);
    assert k + 1 < |ids| ==> Linked(recs, ids, head, k + 1);
  }

  /** A node that is not queued is not what its next node, or the newest pointer, refers back to. */
  lemma NotBackLinked(recs: map<Recid, Link>, tail: Recid, head: Recid, headPrev: Recid, ids: seq<Recid>, r: Recid)
    requires ListOk(recs, tail, head, headPrev, ids) && AllStale(recs, ids) && r in recs && r !in ids
    ensures headPrev != r && (recs[r].next in recs ==> recs[recs[r].next].prev != r)
  {
    assert Stale(recs, r);
  }

  /** Deleting the record of an unlinked node changes nothing for the list or the other unlinked nodes. */
  lemma CutList(recs: map<Recid, Link>, recs': map<Recid, Link>, tail: Recid, head: Recid, headPrev: Recid, ids: seq<Recid>, r: Recid)
    requires ListOk(recs, tail, head, headPrev, ids) && AllStale(recs, ids)
    requires r !in ids && (recs' == recs || recs' == recs - {r})
    ensures ListOk(recs', tail, head, headPrev, ids) && AllStale(recs', ids)
    ensures (forall i :: 0 <= i < |ids| ==> ids[i] in recs && ids[i] in recs') && Items(recs', ids) == Items(recs, ids)
  {
    forall i | 0 <= i < |ids| ensures Linked(recs', ids, head, i) && ids[i] in recs {
      assert Linked(recs, ids, head, i);
    }
    forall d | d in recs' && d !in ids ensures d != 0 && Stale(recs', d) {
      assert Stale(recs, d);
    }
  }

  lemma WithoutMember(ids: seq<Recid>, k: nat, d: Recid)
    requires k < |ids| && d in ids && d != ids[k]
    ensures d in Without(ids, k)
  {
    var i := IndexOf(ids, d);
    assert Without(ids, k)[if i < k then i else i - 1] == d;
  }

  lemma UnlinkStale(recs: map<Recid, Link>, recs': map<Recid, Link>, tail: Recid, head: Recid, headPrev: Recid, ids: seq<Recid>, k: nat)
    requires ListOk(recs, tail, head, headPrev, ids) && AllStale(recs, ids) && k < |ids| && head !in recs'
    requires (forall i :: 0 <= i < |ids| ==> ids[i] in recs) && Unlinked(recs, recs', ids, k)
    requires forall d :: d in recs' && d !in ids ==> d in recs && recs'[d] == recs[d]
    requires ids[k] in recs' ==> recs'[ids[k]] == recs[ids[k]]
    ensures AllStale(recs', Without(ids, k))
  {
    assert forall i :: 0 <= i < |ids| ==> Linked(recs, ids, head, i);
    forall d | d in recs' && d !in Without(ids, k) ensures d != 0 && Stale(recs', d) {
      if d in ids && d != ids[k] {
        WithoutMember(ids, k, d);
      }
      assert d !in ids ==> Stale(recs, d);
      assert Linked(recs, ids, head, k);
    }
  }

  lemma ItemsWithout(recs: map<Recid, Link>, recs': map<Recid, Link>, ids: seq<Recid>, k: nat)
    requires k < |ids| && (forall i :: 0 <= i < |ids| ==> ids[i] in recs) && Unlinked(recs, recs', ids, k)
    ensures forall i :: 0 <= i < |Without(ids, k)| ==> Without(ids, k)[i] in recs'
    ensures Items(recs', Without(ids, k)) == Items(recs, ids)[..k] + Items(recs, ids)[k + 1..]
  {
  }

  lemma KeptDistinct(recs: map<Recid, Link>, tail: Recid, head: Recid, headPrev: Recid, ids: seq<Recid>, k: nat)
    requires ListOk(recs, tail, head, headPrev, ids) && k < |ids|
    ensures forall i :: 0 <= i < |ids| && i != k ==> ids[i] != ids[k]
  {
  }

  lemma SplicedIsUnlinked(recs: map<Recid, Link>, cut: map<Recid, Link>, recs': map<Recid, Link>,
                          tail: Recid, head: Recid, headPrev: Recid, ids: seq<Recid>, k: nat)
    requires ListOk(recs, tail, head, headPrev, ids) && k < |ids| && head !in recs
    requires forall i :: 0 <= i < |ids| ==> ids[i] in recs
    requires cut == recs || cut == recs - {ids[k]}
    requires var n := recs[ids[k]];
             var mid := if k + 1 < |ids| && n.next in cut then cut[n.next := cut[n.next].(prev := n.prev)] else cut;
             recs' == if k > 0 && n.prev in mid then mid[n.prev := mid[n.prev].(next := n.next)] else mid
    ensures Unlinked(recs, recs', ids, k)
  {
    Neighbours(recs, tail, head, headPrev, ids, k);
    assert forall i, j :: 0 <= i < j < |ids| ==> ids[i] != ids[j];
  }

  /** Splicing a queued node out of its neighbours' links removes exactly that node from the list. */
  lemma RemoveOk(recs: map<Recid, Link>, cut: map<Recid, Link>, recs': map<Recid, Link>,
                 tail: Recid, head: Recid, headPrev: Recid, ids: seq<Recid>, k: nat)
    requires ListOk(recs, tail, head, headPrev, ids) && AllStale(recs, ids) && k < |ids| && head !in recs
    requires forall i :: 0 <= i < |ids| ==> ids[i] in recs
    requires cut == recs || cut == recs - {ids[k]}
    requires var n := recs[ids[k]];
             var mid := if k + 1 < |ids| && n.next in cut then cut[n.next := cut[n.next].(prev := n.prev)] else cut;
             recs' == if k > 0 && n.prev in mid then mid[n.prev := mid[n.prev].(next := n.next)] else mid
    ensures ListOk(recs', if k == 0 then recs[ids[k]].next else tail, head,
                   if k + 1 == |ids| then recs[ids[k]].prev else headPrev, Without(ids, k))
    ensures AllStale(recs', Without(ids, k)) && ids[k] !in Without(ids, k) && (ids[k] in recs' <==> ids[k] in cut)
    ensures forall i :: 0 <= i < |Without(ids, k)| ==> Without(ids, k)[i] in recs'
    ensures Items(recs', Without(ids, k)) == Items(recs, ids)[..k] + Items(recs, ids)[k + 1..]
    ensures recs'.Keys <= cut.Keys
  {
    hide ListOk, AllStale;
    Neighbours(recs, tail, head, headPrev, ids, k);
    SplicedIsUnlinked(recs, cut, recs', tail, head, headPrev, ids, k);
    assert ids[k] !in Without(ids, k) by {
      KeptDistinct(recs, tail, head, headPrev, ids, k);
    }
    UnlinkOk(recs, recs', tail, head, headPrev, ids, k);
    UnlinkStale(recs, recs', tail, head, headPrev, ids, k);
    ItemsWithout(recs, recs', ids, k);
  }
}

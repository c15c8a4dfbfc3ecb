/**
 A persistent queue kept as a singly linked list of store records behind one header
 record, in three modes: first in first out, last in first out, and circular, where a
 full queue drops its oldest element.  Waiting and waking are not part of this model.
 */
module BlockingQueue {
  import opened Basics

  datatype Mode = Fifo | Lifo | Circular

  datatype QNode<E> = QNode(next: Recid, value: E)

  datatype Header = Header(mode: Mode, head: Recid, tail: Recid, size: nat, capacity: nat)

  /** Capacity of a queue that is not circular. */
  const UNBOUNDED: nat := 0x7fff_ffff_ffff_ffff

  // ---------- the queue as a sequence ----------

  /** The elements, head first, after an insertion into a queue that has room or is circular. */
  function Inserted<E>(mode: Mode, capacity: nat, s: seq<E>, v: E): seq<E> {
    match mode
    case Fifo => s + [v]
    case Lifo => [v] + s
    case Circular => (if s != [] && |s| >= capacity then s[1..] else s) + [v]
  }

  function InsertedAll<E>(mode: Mode, capacity: nat, s: seq<E>, vs: seq<E>): seq<E> {
    if vs == [] then s else Inserted(mode, capacity, InsertedAll(mode, capacity, s, vs[..|vs| - 1]), vs[|vs| - 1])
  }

  function Backward<E>(vs: seq<E>): (r: seq<E>)
    ensures |r| == |vs| && forall i :: 0 <= i < |r| ==> r[i] == vs[|vs| - 1 - i]
  {
    seq(|vs|, i requires 0 <= i < |vs| => vs[|vs| - 1 - i])
  }

  /** A stack gives back what was inserted in reverse order. */
  lemma {:induction false} LifoReverses<E>(capacity: nat, vs: seq<E>)
    ensures InsertedAll(Lifo, capacity, [], vs) == Backward(vs)
  {
    if vs != [] {
      LifoReverses(capacity, vs[..|vs| - 1]);
    }
  }

  lemma {:induction false} FifoKeepsOrder<E>(capacity: nat, vs: seq<E>)
    ensures InsertedAll(Fifo, capacity, [], vs) == vs
  {
    if vs != [] {
      FifoKeepsOrder(capacity, vs[..|vs| - 1]);
    }
  }

  /** A circular queue holds the last `capacity` insertions. */
  lemma {:induction false} CircularKeepsLast<E>(capacity: nat, vs: seq<E>)
    requires capacity > 0
    ensures InsertedAll(Circular, capacity, [], vs) == vs[if |vs| <= capacity then 0 else |vs| - capacity..]
  {
    if vs != [] {
      CircularKeepsLast(capacity, vs[..|vs| - 1]);
      LastMoves(capacity, vs);
    }
  }

  lemma LastMoves<E>(capacity: nat, vs: seq<E>)
    requires capacity > 0 && vs != []
    ensures var n := |vs|;
            var s := vs[..n - 1][if n - 1 <= capacity then 0 else n - 1 - capacity..];
            Inserted(Circular, capacity, s, vs[n - 1]) == vs[if n <= capacity then 0 else n - capacity..]
  {
    var n := |vs|;
    if n > capacity {
      assert vs[..n - 1][n - 1 - capacity..][1..] + [vs[n - 1]] == vs[n - capacity..];
    } else {
      assert vs[..n - 1][0..] + [vs[n - 1]] == vs[0..];
    }
  }

  // ---------- the links as a value ----------

  ghost predicate NodeAt<E>(recs: map<Recid, QNode<E>>, ids: seq<Recid>, i: nat)
    requires i < |ids|
  {
    && ids[i] != 0 && ids[i] in recs
    && recs[ids[i]].next == if i + 1 == |ids| then 0 else ids[i + 1]
  }

  /** `ids`, head first, are what the header and the links describe. */
  ghost predicate ListOk<E>(recs: map<Recid, QNode<E>>, h: Header, ids: seq<Recid>) {
    && |ids| == h.size
    && h.head == (if ids == [] then 0 else ids[0])
    && h.tail == (if ids == [] then 0 else ids[|ids| - 1])
    && (forall i {:trigger NodeAt(recs, ids, i)} :: 0 <= i < |ids| ==> NodeAt(recs, ids, i))
  }

  ghost predicate Distinct(ids: seq<Recid>) {
    forall i, j :: 0 <= i < j < |ids| ==> ids[i] != ids[j]
  }

  /** The list is sound and the store holds exactly its nodes. */
  ghost predicate QueueOk<E>(recs: map<Recid, QNode<E>>, h: Header, ids: seq<Recid>) {
    && ListOk(recs, h, ids) && Distinct(ids) && h.size <= h.capacity && h.capacity > 0
    && (forall r :: r in recs <==> r in ids)
  }

  function Elements<E>(recs: map<Recid, QNode<E>>, ids: seq<Recid>): (s: seq<E>)
    requires forall i :: 0 <= i < |ids| ==> ids[i] in recs
    ensures |s| == |ids| && forall i :: 0 <= i < |s| ==> s[i] == recs[ids[i]].value
  {
    seq(|ids|, i requires 0 <= i < |ids| => recs[ids[i]].value)
  }

  lemma HasNodes<E>(recs: map<Recid, QNode<E>>, h: Header, ids: seq<Recid>)
    requires ListOk(recs, h, ids)
    ensures forall i :: 0 <= i < |ids| ==> ids[i] in recs && ids[i] != 0
  {
    forall i | 0 <= i < |ids| ensures ids[i] in recs && ids[i] != 0 {
      assert NodeAt(recs, ids, i);
    }
  }

  lemma PushFront<E>(recs: map<Recid, QNode<E>>, h: Header, ids: seq<Recid>, r: Recid, v: E)
    requires QueueOk(recs, h, ids) && r != 0 && r !in recs && h.size < h.capacity
    ensures QueueOk(recs[r := QNode(h.head, v)], h.(head := r, tail := if h.size == 0 then r else h.tail, size := h.size + 1), [r] + ids)
  {
    var recs', ids' := recs[r := QNode(h.head, v)], [r] + ids;
    forall i | 0 <= i < |ids'| ensures NodeAt(recs', ids', i) {
      assert i > 0 ==> NodeAt(recs, ids, i - 1);
    }
  }

  lemma PushBack<E>(recs: map<Recid, QNode<E>>, h: Header, ids: seq<Recid>, r: Recid, v: E)
    requires QueueOk(recs, h, ids) && r != 0 && r !in recs && h.size < h.capacity
    ensures h.tail != 0 ==> h.tail in recs
    ensures var recs' := if h.tail == 0 then recs[r := QNode(0, v)] else recs[r := QNode(0, v)][h.tail := recs[h.tail].(next := r)];
            QueueOk(recs', h.(head := if h.size == 0 then r else h.head, tail := r, size := h.size + 1), ids + [r])
  {
    HasNodes(recs, h, ids);
    var recs' := if h.tail == 0 then recs[r := QNode(0, v)] else recs[r := QNode(0, v)][h.tail := recs[h.tail].(next := r)];
    var ids' := ids + [r];
    forall i | 0 <= i < |ids'| ensures NodeAt(recs', ids', i) {
      assert i < |ids| ==> NodeAt(recs, ids, i);
    }
    forall q ensures q in recs' <==> q in ids' {
    }
  }

  lemma PopFront<E>(recs: map<Recid, QNode<E>>, h: Header, ids: seq<Recid>)
    requires QueueOk(recs, h, ids) && h.size > 0
    ensures h.head != 0 && h.head in recs
    ensures QueueOk(recs - {h.head}, h.(head := recs[h.head].next, tail := if h.size == 1 then 0 else h.tail, size := h.size - 1), ids[1..])
  {
    assert NodeAt(recs, ids, 0);
    var recs', ids' := recs - {h.head}, ids[1..];
    forall i | 0 <= i < |ids'| ensures NodeAt(recs', ids', i) {
      assert NodeAt(recs, ids, i + 1);
    }
    forall q ensures q in recs' <==> q in ids' {
      if q in ids && q != h.head {
        var j :| 0 <= j < |ids| && ids[j] == q;
        assert ids'[j - 1] == q;
      }
    }
  }

  lemma CutLinks<E>(recs: map<Recid, QNode<E>>, h: Header, ids: seq<Recid>, k: nat)
    requires ListOk(recs, h, ids) && Distinct(ids) && 0 < k < |ids|
    requires ids[k - 1] in recs && ids[k] in recs
    ensures var recs' := recs[ids[k - 1] := recs[ids[k - 1]].(next := recs[ids[k]].next)] - {ids[k]};
            var ids' := ids[..k] + ids[k + 1..];
            forall i :: 0 <= i < |ids'| ==> NodeAt(recs', ids', i)
  {
    var recs' := recs[ids[k - 1] := recs[ids[k - 1]].(next := recs[ids[k]].next)] - {ids[k]};
    var ids' := ids[..k] + ids[k + 1..];
    assert NodeAt(recs, ids, k);
    forall i | 0 <= i < |ids'| ensures NodeAt(recs', ids', i) {
      var j := if i < k then i else i + 1;
      assert ids'[i] == ids[j] && ids[j] != ids[k];
      assert NodeAt(recs, ids, j);
    }
  }

  /** Splicing out node `k > 0`. */
  lemma CutOut<E>(recs: map<Recid, QNode<E>>, h: Header, ids: seq<Recid>, k: nat)
    requires QueueOk(recs, h, ids) && 0 < k < |ids|
    ensures ids[k - 1] in recs && ids[k] in recs
    ensures var recs' := recs[ids[k - 1] := recs[ids[k - 1]].(next := recs[ids[k]].next)] - {ids[k]};
            QueueOk(recs', h.(tail := if h.tail == ids[k] then ids[k - 1] else h.tail, size := h.size - 1), ids[..k] + ids[k + 1..])
  {
    hide NodeAt;
    HasNodes(recs, h, ids);
    CutLinks(recs, h, ids, k);
    CutMembers(ids, k);
    assert h.tail == ids[k] <==> k == |ids| - 1;
  }

  lemma CutMembers(ids: seq<Recid>, k: nat)
    requires Distinct(ids) && k < |ids|
    ensures Distinct(ids[..k] + ids[k + 1..])
    ensures forall q :: q in ids[..k] + ids[k + 1..] <==> q in ids && q != ids[k]
  {
    var ids' := ids[..k] + ids[k + 1..];
    forall q | q in ids && q != ids[k] ensures q in ids' {
      var j :| 0 <= j < |ids| && ids[j] == q;
      assert ids'[if j < k then j else j - 1] == q;
    }
    forall q | q in ids' ensures q in ids && q != ids[k] {
      var j :| 0 <= j < |ids'| && ids'[j] == q;
      assert ids[if j < k then j else j + 1] == q;
    }
  }

  /** What the header says about the list behind it. */
  lemma HeaderSays<E>(recs: map<Recid, QNode<E>>, h: Header, ids: seq<Recid>)
    requires QueueOk(recs, h, ids)
    ensures |ids| == h.size <= h.capacity && h.capacity > 0 && (forall i :: 0 <= i < |ids| ==> ids[i] in recs && ids[i] != 0)
    ensures h.head == (if ids == [] then 0 else ids[0]) && h.tail == (if ids == [] then 0 else ids[|ids| - 1])
  {
    HasNodes(recs, h, ids);
  }

  // ---------- the queue ----------

  class PersistentQueue<E(==)> {
    var recs: map<Recid, QNode<E>>
    var header: Header
    ghost var ids: seq<Recid>

    ghost predicate Valid()
      reads this
    {
      QueueOk(recs, header, ids)
    }

    /** The elements, head first. */
    ghost function Contents(): seq<E>
      reads this
      requires Valid()
    {
      HasNodes(recs, header, ids);
      Elements(recs, ids)
    }

    constructor (mode: Mode, capacity: nat)
      requires mode == Circular ==> 0 < capacity <= UNBOUNDED
      ensures Valid() && Contents() == [] && header.mode == mode
      ensures header.capacity == if mode == Circular then capacity else UNBOUNDED
    {
      recs, header, ids := map[], Header(mode, 0, 0, 0, if mode == Circular then capacity else UNBOUNDED), [];
    }

    /** Store a node under a recid that is not in use. */
    method StorePut(n: QNode<E>) returns (r: Recid)
      modifies this`recs
      ensures r != 0 && r !in old(recs) && recs == old(recs)[r := n]
    {
      ghost var m := UpperBound(recs.Keys + {0});
      assert m !in recs && m != 0;
      r :| r !in recs && r != 0;
      recs := recs[r := n];
    }

    predicate Full()
      reads this
    {
      header.size >= header.capacity
    }

    /** Remove the head node, if there is one. */
    method Dequeue() returns (v: Option<E>)
      requires Valid()
      modifies this
      ensures Valid() && header.mode == old(header.mode) && header.capacity == old(header.capacity)
      ensures old(Contents()) == [] ==> v == None && Contents() == []
      ensures old(Contents()) != [] ==> v == Some(old(Contents())[0]) && Contents() == old(Contents())[1..]
    {
      hide QueueOk;
      HeaderSays(recs, header, ids);
      if header.size == 0 {
        return None;
      }
      PopFront(recs, header, ids);
      var h := header.head;
      var n := recs[h];
      header := header.(head := n.next, tail := if header.size == 1 then 0 else header.tail, size := header.size - 1);
      recs := recs - {h};
      ids := ids[1..];
      v := Some(n.value);
    }

    /** Insert in the order of the mode; a full circular queue first drops its head. */
    method Enqueue(v: E)
      requires Valid() && (Full() ==> header.mode == Circular)
      modifies this
      ensures Valid() && header.mode == old(header.mode) && header.capacity == old(header.capacity)
      ensures Contents() == Inserted(header.mode, header.capacity, old(Contents()), v)
    {
      hide QueueOk;
      HeaderSays(recs, header, ids);
      if header.mode == Circular && Full() {
        var dropped := Dequeue();
      }
      HeaderSays(recs, header, ids);
      if header.mode == Lifo {
        AddFront(v);
      } else {
        AddBack(v);
      }
    }

    method AddFront(v: E)
      requires Valid() && !Full()
      modifies this
      ensures Valid() && header.mode == old(header.mode) && header.capacity == old(header.capacity)
      ensures Contents() == [v] + old(Contents())
    {
      hide QueueOk;
      HeaderSays(recs, header, ids);
      ghost var was := recs;
      var r := StorePut(QNode(header.head, v));
      PushFront(was, header, ids, r, v);
      header := header.(head := r, tail := if header.size == 0 then r else header.tail, size := header.size + 1);
      ids := [r] + ids;
    }

    method AddBack(v: E)
      requires Valid() && !Full()
      modifies this
      ensures Valid() && header.mode == old(header.mode) && header.capacity == old(header.capacity)
      ensures Contents() == old(Contents()) + [v]
    {
      hide QueueOk;
      HeaderSays(recs, header, ids);
      ghost var was := recs;
      var r := StorePut(QNode(0, v));
      PushBack(was, header, ids, r, v);
      if header.tail != 0 {
        recs := recs[header.tail := recs[header.tail].(next := r)];
      }
      header := header.(head := if header.size == 0 then r else header.head, tail := r, size := header.size + 1);
      ids := ids + [r];
    }

    /** Insert unless a bounded queue is full. */
    method Offer(v: E) returns (ok: bool)
      requires Valid()
      modifies this
      ensures Valid() && header.mode == old(header.mode) && header.capacity == old(header.capacity)
      ensures ok <==> |old(Contents())| < header.capacity || header.mode == Circular
      ensures Contents() == if ok then Inserted(header.mode, header.capacity, old(Contents()), v) else old(Contents())
    {
      if Full() && header.mode != Circular {
        return false;
      }
      Enqueue(v);
      ok := true;
    }

    /** Unlink node `k`, whose predecessor is `previous`. */
    method Unlink(previous: Recid, recid: Recid, ghost k: nat)
      requires Valid() && k < |ids| && recid == ids[k] && previous == if k == 0 then 0 else ids[k - 1]
      modifies this
      ensures Valid() && header.mode == old(header.mode) && header.capacity == old(header.capacity)
      ensures k < |old(Contents())| && Contents() == old(Contents())[..k] + old(Contents())[k + 1..]
    {
      hide QueueOk, Elements;
      HeaderSays(recs, header, ids);
      var n := recs[recid];
      ghost var was, l := recs, ids;
      if previous == 0 {
        PopFront(recs, header, ids);
        header := header.(head := n.next, tail := if header.size == 1 then 0 else header.tail, size := header.size - 1);
        recs := recs - {recid};
        ids := ids[1..];
        assert ids == l[..k] + l[k + 1..];
      } else {
        CutOut(recs, header, ids, k);
        recs := recs[previous := recs[previous].(next := n.next)];
        header := header.(tail := if header.tail == recid then previous else header.tail, size := header.size - 1);
        recs := recs - {recid};
        ids := ids[..k] + ids[k + 1..];
      }
      HeaderSays(recs, header, ids);
      ElementsCut(was, recs, l, k);
    }

    /** Remove the first element equal to `v`. */
    method RemoveValue(v: E) returns (ok: bool, ghost k: nat)
      requires Valid()
      modifies this
      ensures Valid() && header.mode == old(header.mode) && header.capacity == old(header.capacity)
      ensures ok <==> v in old(Contents())
      ensures !ok ==> Contents() == old(Contents())
      ensures ok ==>
                && k < |old(Contents())| && old(Contents())[k] == v && v !in old(Contents())[..k]
                && Contents() == old(Contents())[..k] + old(Contents())[k + 1..]
    {
      hide QueueOk;
      HeaderSays(recs, header, ids);
      ghost var s := Contents();
      var previous, recid := 0, header.head;
      k := 0;
      while recid != 0
        invariant |s| == |ids| && k <= |ids| && recid == (if k < |ids| then ids[k] else 0) && previous == (if k == 0 then 0 else ids[k - 1])
        invariant v !in s[..k] && Valid() && s == Contents() && unchanged(this)
        decreases |ids| - k
      {
        var n := recs[recid];
        NextOf(recs, header, ids, k);
        if n.value == v {
          assert s[k] == v;
          Unlink(previous, recid, k);
          return true, k;
        }
        previous, recid := recid, n.next;
        k := k + 1;
      }
      ok := false;
    }

    /** Move up to `max` elements from the head. */
    method DrainTo(max: nat) returns (moved: seq<E>)
      requires Valid()
      modifies this
      ensures Valid() && header.mode == old(header.mode) && header.capacity == old(header.capacity)
      ensures |moved| == if max < |old(Contents())| then max else |old(Contents())|
      ensures moved == old(Contents())[..|moved|] && Contents() == old(Contents())[|moved|..]
    {
      hide QueueOk, Elements;
      HeaderSays(recs, header, ids);
      moved := [];
      while |moved| < max && header.size != 0
        invariant Valid() && header.mode == old(header.mode) && header.capacity == old(header.capacity)
        invariant |moved| <= |old(Contents())| && |moved| <= max && header.size == |Contents()|
        invariant moved == old(Contents())[..|moved|] && Contents() == old(Contents())[|moved|..]
        decreases header.size
      {
        var v := Dequeue();
        moved := moved + [v.value];
        HeaderSays(recs, header, ids);
      }
    }

    /** Remove everything; no node record is left behind. */
    method Clear()
      requires Valid()
      modifies this
      ensures Valid() && Contents() == [] && recs == map[]
      ensures header.mode == old(header.mode) && header.capacity == old(header.capacity)
    {
      while header.size != 0
        invariant Valid() && header.mode == old(header.mode) && header.capacity == old(header.capacity)
        decreases header.size
      {
        HasNodes(recs, header, ids);
        var v := Dequeue();
      }
      assert forall r :: r in recs <==> r in ids;
    }

    /** Structural self-check of any state: it succeeds exactly if some list fits the header and the links. */
    method Verify() returns (ok: bool)
      ensures ok <==> exists l :: ListOk(recs, header, l)
    {
      var count, recid, last := 0, header.head, 0;
      ghost var vis: seq<Recid> := [];
      while recid != 0
        invariant Walked(recs, header, vis, recid) && |vis| == count <= header.size
        invariant last == if vis == [] then 0 else vis[|vis| - 1]
        invariant forall l {:trigger ListOk(recs, header, l)} :: ListOk(recs, header, l) ==> Follows(l, vis, recid)
        decreases header.size - count
      {
        forall l | ListOk(recs, header, l) ensures count < header.size && recid in recs && Follows(l, vis + [recid], recs[recid].next) {
          assert NodeAt(recs, l, count);
        }
        count := count + 1;
        if count > header.size {
          return false;
        }
        last := recid;
        if recid !in recs {
          return false;
        }
        WalkOn(recs, header, vis, recid);
        vis := vis + [recid];
        recid := recs[recid].next;
      }
      forall l | ListOk(recs, header, l) ensures l == vis {
        FollowsAll(recs, header, l, vis);
      }
      ok := count == header.size && (if count == 0 then header.tail == 0 else header.tail == last);
      if ok {
        WalkedAll(recs, header, vis);
      }
    }
  }

  /** A circular queue needs a capacity that fits a signed 64-bit integer; the other modes ignore it. */
  method Create<E(==)>(mode: Mode, capacity: nat) returns (q: Option<PersistentQueue<E>>)
    ensures q.None? <==> mode == Circular && (capacity == 0 || capacity > UNBOUNDED)
    ensures q.Some? ==> fresh(q.value) && q.value.Valid() && q.value.Contents() == [] && q.value.header.mode == mode
    ensures q.Some? ==> q.value.header.capacity == if mode == Circular then capacity else UNBOUNDED
  {
    if mode == Circular && (capacity == 0 || capacity > UNBOUNDED) {
      return None;
    }
    var queue := new PersistentQueue<E>(mode, capacity);
    q := Some(queue);
  }

  /**
   What a new queue holds once `vs` has been offered to it: all of it, in order or, as a
   stack, in reverse order; the last `capacity` elements if it is circular.  Offers beyond
   the capacity of a queue that is not circular are refused.
   */
  method Fill<E(==)>(mode: Mode, capacity: nat, vs: seq<E>) returns (q: Option<PersistentQueue<E>>)
    ensures q.None? <==> mode == Circular && (capacity == 0 || capacity > UNBOUNDED)
    ensures q.Some? ==>
              && fresh(q.value) && q.value.Valid() && q.value.header.mode == mode
              && q.value.header.capacity == (if mode == Circular then capacity else UNBOUNDED)
    ensures q.Some? ==>
              var s, n := q.value.Contents(), if |vs| <= UNBOUNDED then |vs| else UNBOUNDED;
              match mode
              case Fifo => s == vs[..n]
              case Lifo => |s| == n && forall i :: 0 <= i < n ==> s[i] == vs[n - 1 - i]
              case Circular => s == vs[if |vs| <= capacity then 0 else |vs| - capacity..]
  {
    hide QueueOk, Elements, InsertedAll, Accepted;
    q := Create(mode, capacity);
    if q.None? {
      return;
    }
    OfferAll(q.value, vs);
    AllOffered(mode, q.value.header.capacity, vs);
  }

  /** Offer `vs` to an empty queue. */
  method OfferAll<E(==)>(queue: PersistentQueue<E>, vs: seq<E>)
    requires queue.Valid() && queue.Contents() == []
    modifies queue
    ensures queue.Valid() && queue.header.mode == old(queue.header.mode) && queue.header.capacity == old(queue.header.capacity)
    ensures queue.Contents() == InsertedAll(queue.header.mode, queue.header.capacity, [], Accepted(queue.header.mode, queue.header.capacity, vs, |vs|))
  {
    hide QueueOk, Elements, InsertedAll, Inserted, Accepted;
    var i := 0;
    ghost var mode, room := queue.header.mode, queue.header.capacity;
    NothingYet(mode, room, vs);
    while i < |vs|
      invariant i <= |vs| && queue.Valid() && queue.header.mode == mode && queue.header.capacity == room
      invariant queue.Contents() == InsertedAll(mode, room, [], Accepted(mode, room, vs, i))
    {
      OneMore(mode, room, vs, i);
      var ok := queue.Offer(vs[i]);
      i := i + 1;
    }
  }

  /** Of the first `i` elements offered, those that are taken. */
  ghost function Accepted<E>(mode: Mode, room: nat, vs: seq<E>, i: nat): seq<E>
    requires i <= |vs|
  {
    vs[..if mode != Circular && i > room then room else i]
  }

  lemma NothingYet<E>(mode: Mode, room: nat, vs: seq<E>)
    ensures InsertedAll(mode, room, [], Accepted(mode, room, vs, 0)) == []
  {
    assert Accepted(mode, room, vs, 0) == [];
  }

  lemma OneMore<E>(mode: Mode, room: nat, vs: seq<E>, i: nat)
    requires i < |vs|
    ensures var s := InsertedAll(mode, room, [], Accepted(mode, room, vs, i));
            InsertedAll(mode, room, [], Accepted(mode, room, vs, i + 1))
            == if |s| < room || mode == Circular then Inserted(mode, room, s, vs[i]) else s
  {
    var kept := Accepted(mode, room, vs, i);
    match mode {
      case Fifo => FifoKeepsOrder(room, kept);
      case Lifo => LifoReverses(room, kept);
      case Circular =>
    }
    assert mode == Circular || i < room ==> vs[..i + 1][..i] == kept && vs[..i + 1][i] == vs[i];
  }

  lemma AllOffered<E>(mode: Mode, room: nat, vs: seq<E>)
    requires room > 0
    ensures var s, n := InsertedAll(mode, room, [], Accepted(mode, room, vs, |vs|)), if |vs| <= room then |vs| else room;
            match mode
            case Fifo => s == vs[..n]
            case Lifo => |s| == n && forall i :: 0 <= i < n ==> s[i] == vs[n - 1 - i]
            case Circular => s == vs[|vs| - n..]
  {
    var kept := Accepted(mode, room, vs, |vs|);
    match mode {
      case Fifo => FifoKeepsOrder(room, kept);
      case Lifo => LifoReverses(room, kept);
      case Circular =>
        CircularKeepsLast(room, kept);
        assert kept == vs;
    }
  }

  lemma ElementsCut<E>(recs: map<Recid, QNode<E>>, recs': map<Recid, QNode<E>>, ids: seq<Recid>, k: nat)
    requires k < |ids| && forall i :: 0 <= i < |ids| ==> ids[i] in recs
    requires var ids' := ids[..k] + ids[k + 1..];
             forall i :: 0 <= i < |ids'| ==> ids'[i] in recs' && ids'[i] in recs && recs'[ids'[i]].value == recs[ids'[i]].value
    ensures Elements(recs', ids[..k] + ids[k + 1..]) == Elements(recs, ids)[..k] + Elements(recs, ids)[k + 1..]
  {
  }

  lemma NextOf<E>(recs: map<Recid, QNode<E>>, h: Header, ids: seq<Recid>, k: nat)
    requires QueueOk(recs, h, ids) && k < |ids|
    ensures ids[k] in recs && recs[ids[k]].next == if k + 1 == |ids| then 0 else ids[k + 1]
  {
    assert NodeAt(recs, ids, k);
  }

  ghost predicate Hop<E>(recs: map<Recid, QNode<E>>, vis: seq<Recid>, recid: Recid, i: nat)
    requires i < |vis|
  {
    vis[i] != 0 && vis[i] in recs && recs[vis[i]].next == if i + 1 == |vis| then recid else vis[i + 1]
  }

  /** The walk so far has followed the links from the head; the next node is `recid`. */
  ghost predicate Walked<E>(recs: map<Recid, QNode<E>>, h: Header, vis: seq<Recid>, recid: Recid) {
    && (forall i {:trigger Hop(recs, vis, recid, i)} :: 0 <= i < |vis| ==> Hop(recs, vis, recid, i))
    && h.head == if vis == [] then recid else vis[0]
  }

  ghost predicate Follows(l: seq<Recid>, vis: seq<Recid>, recid: Recid) {
    |vis| <= |l| && vis == l[..|vis|] && recid == if |vis| < |l| then l[|vis|] else 0
  }

  lemma WalkOn<E>(recs: map<Recid, QNode<E>>, h: Header, vis: seq<Recid>, recid: Recid)
    requires Walked(recs, h, vis, recid) && recid != 0 && recid in recs
    ensures Walked(recs, h, vis + [recid], recs[recid].next)
  {
    forall i | 0 <= i < |vis + [recid]| ensures Hop(recs, vis + [recid], recs[recid].next, i) {
      assert i < |vis| ==> Hop(recs, vis, recid, i);
    }
  }

  lemma FollowsAll<E>(recs: map<Recid, QNode<E>>, h: Header, l: seq<Recid>, vis: seq<Recid>)
    requires ListOk(recs, h, l) && Follows(l, vis, 0)
    ensures l == vis
  {
    assert |vis| < |l| ==> NodeAt(recs, l, |vis|);
  }

  lemma WalkedAll<E>(recs: map<Recid, QNode<E>>, h: Header, vis: seq<Recid>)
    requires Walked(recs, h, vis, 0) && |vis| == h.size && h.tail == if vis == [] then 0 else vis[|vis| - 1]
    ensures ListOk(recs, h, vis)
  {
    forall i | 0 <= i < |vis| ensures NodeAt(recs, vis, i) {
      assert Hop(recs, vis, 0, i);
    }
  }
}

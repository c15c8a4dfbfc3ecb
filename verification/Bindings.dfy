/**
 Secondary indexes kept by synchronous listeners.  What an index holds is a function of
 the changes its listener has heard; in every run of the map each change it hears starts
 from the value the last one left, and only a change whose writer still holds its leaf is
 missing.  So an index agrees with the map on every key that is not being changed.
 */
module Bindings {
  import opened Basics
  import opened BLinkTree
  import opened BLinkMachine
  import opened BLinkInvariant
  import opened BLinkTheorems
  import Scan = BLinkScan

  // ---------- what a listener knows of the map ----------

  /** The map when the index was installed. */
  type Base = Key -> Option<Value>

  /** Value of `k` according to the changes heard. */
  function Known(base: Base, es: seq<Event>, k: Key): Option<Value> {
    if es == [] then base(k)
    else if es[|es| - 1].key == k then es[|es| - 1].now
    else Known(base, es[..|es| - 1], k)
  }

  /** Every change starts from what was known of its key. */
  ghost predicate Coherent(base: Base, es: seq<Event>) {
    forall i :: 0 <= i < |es| ==> es[i].was == Known(base, es[..i], es[i].key)
  }

  lemma KnownAppend(base: Base, es: seq<Event>, e: Event, k: Key)
    ensures Known(base, es + [e], k) == if e.key == k then e.now else Known(base, es, k)
  {
    assert (es + [e])[..|es + [e]| - 1] == es;
  }

  lemma CoherentAppend(base: Base, es: seq<Event>, e: Event)
    requires Coherent(base, es) && e.was == Known(base, es, e.key)
    ensures Coherent(base, es + [e])
  {
    var es' := es + [e];
    forall i | 0 <= i < |es'| ensures es'[i].was == Known(base, es'[..i], es'[i].key) {
      assert es'[..i] == es[..i];
      assert es[..|es|] == es;
    }
  }

  // ---------- what listeners hear in a run ----------

  lemma {:induction false} ChainPrefix(was: Option<Value>, es: seq<Event>, now: Option<Value>, j: nat)
    requires Chained(was, es, now) && j < |es|
    ensures Chained(was, es[..j], es[j].was)
  {
    var init := es[..|es| - 1];
    if j < |es| - 1 {
      ChainPrefix(was, init, es[|es| - 1].was, j);
      assert init[..j] == es[..j];
    } else {
      assert es[..j] == init;
    }
  }

  /** The changes of one key lead to its known value. */
  lemma {:induction false} ChainEnds(base: Base, es: seq<Event>, k: Key, now: Option<Value>)
    requires Chained(base(k), ForKey(es, k), now)
    ensures now == Known(base, es, k)
  {
    if es != [] {
      var init, e := es[..|es| - 1], es[|es| - 1];
      if e.key != k {
        assert ForKey(es, k) == ForKey(init, k);
        ChainEnds(base, init, k, now);
      }
    }
  }

  /** The changes of a key among the first `i` are a prefix of its changes, next to change `i` if that is one. */
  lemma {:induction false} ForKeyPrefix(es: seq<Event>, k: Key, i: nat)
    requires i < |es|
    ensures ForKey(es[..i], k) <= ForKey(es, k)
    ensures es[i].key == k ==> ForKey(es[..i], k) + [es[i]] <= ForKey(es, k)
  {
    var init := es[..|es| - 1];
    if i < |es| - 1 {
      ForKeyPrefix(init, k, i);
      assert init[..i] == es[..i];
    }
  }

  lemma ChainCoherent(base: Base, es: seq<Event>, i: nat, now: Option<Value>, more: seq<Event>)
    requires i < |es| && Chained(base(es[i].key), ForKey(es, es[i].key) + more, now)
    ensures es[i].was == Known(base, es[..i], es[i].key)
  {
    var k := es[i].key;
    var all, pre := ForKey(es, k) + more, ForKey(es[..i], k);
    ForKeyPrefix(es, k, i);
    assert pre + [es[i]] <= all;
    assert all[..|pre|] == pre && all[|pre|] == es[i];
    ChainPrefix(base(k), all, now, |pre|);
    ChainEnds(base, es[..i], k, es[i].was);
  }

  ghost function BaseOf(t: Tree): Base {
    k => Lookup(t, k)
  }

  /**
   In every run, each change that listeners hear starts from the value the changes heard
   before it leave, and what they know of a key that is not being changed is its value.
   */
  lemma HeardInRun(ss: seq<State>, acts: seq<Act>, n: nat)
    requires IsRun(ss, acts) && n < |ss|
    ensures Coherent(BaseOf(ss[0].v.tree), ss[n].v.events)
    ensures forall k :: k !in ss[n].v.hot ==> Known(BaseOf(ss[0].v.tree), ss[n].v.events, k) == Lookup(ss[n].v.tree, k)
  {
    hide IsRun, Lookup, Known, Chained, ForKey;
    var base, v := BaseOf(ss[0].v.tree), ss[n].v;
    forall i | 0 <= i < |v.events| ensures v.events[i].was == Known(base, v.events[..i], v.events[i].key) {
      var k := v.events[i].key;
      ListenersInOrder(ss, acts, n, k);
      ChangesChain(ss, acts, n, k);
      var more := if k in v.hot then [v.hot[k].event] else [];
      assert ForKey(v.pubs, k) == ForKey(v.events, k) + more;
      ChainCoherent(base, v.events, i, Lookup(v.tree, k), more);
    }
    forall k | k !in v.hot ensures Known(base, v.events, k) == Lookup(v.tree, k) {
      ListenersInOrder(ss, acts, n, k);
      ChainEnds(base, v.events, k, Lookup(v.tree, k));
    }
  }

  // ---------- one derived value per key ----------

  /** `secondary[key]` is the value derived from the key's entry. */
  class SecondaryValue<D> {
    var secondary: map<Key, D>
    const derive: (Key, Value) -> D
    ghost const base: Base
    ghost var heard: seq<Event>

    ghost predicate Valid()
      reads this
    {
      Coherent(base, heard) && forall k :: Agrees(k, Known(base, heard, k))
    }

    ghost predicate Agrees(k: Key, x: Option<Value>)
      reads this
    {
      if x.Some? then k in secondary && secondary[k] == derive(k, x.value) else k !in secondary
    }

    /** Install on a map that lists `entries`. */
    constructor (entries: seq<Scan.Entry>, f: (Key, Value) -> D, ghost b: Base)
      requires Scan.Ascending(entries)
      requires forall k, x :: Scan.Entry(k, x) in entries <==> b(k) == Some(x)
      ensures Valid() && derive == f && base == b && heard == []
    {
      derive, base, heard := f, b, [];
      new;
      secondary := map[];
      for i := 0 to |entries|
        invariant derive == f && base == b && heard == []
        invariant forall k :: k in secondary <==> exists j :: 0 <= j < i && entries[j].key == k
        invariant forall j :: 0 <= j < i ==> entries[j].key in secondary && secondary[entries[j].key] == f(entries[j].key, entries[j].value)
      {
        secondary := secondary[entries[i].key := f(entries[i].key, entries[i].value)];
      }
      forall k | k in secondary ensures b(k).Some? {
        var j :| 0 <= j < |entries| && entries[j].key == k;
        assert Scan.Entry(k, entries[j].value) in entries;
      }
      forall k | b(k).Some? ensures k in secondary && secondary[k] == f(k, b(k).value) {
        var j :| 0 <= j < |entries| && entries[j] == Scan.Entry(k, b(k).value);
      }
    }

    /** The listener. */
    method Modify(e: Event)
      requires Valid() && e.was == Known(base, heard, e.key)
      modifies this
      ensures Valid() && heard == old(heard) + [e]
    {
      hide Known, Coherent;
      CoherentAppend(base, heard, e);
      match e.now {
        case Some(x) => secondary := secondary[e.key := derive(e.key, x)];
        case None => secondary := secondary - {e.key};
      }
      heard := heard + [e];
      forall k ensures Agrees(k, Known(base, heard, k)) {
        KnownAppend(base, old(heard), e, k);
        assert old(Agrees(k, Known(base, heard, k)));
      }
    }
  }

  /** In every run the index gives each key that is not being changed the value derived from the map. */
  lemma ValueIndexInRun<D>(ss: seq<State>, acts: seq<Act>, n: nat, index: SecondaryValue<D>, k: Key)
    requires IsRun(ss, acts) && n < |ss| && index.Valid()
    requires index.base == BaseOf(ss[0].v.tree) && index.heard == ss[n].v.events && k !in ss[n].v.hot
    ensures k in index.secondary <==> Lookup(ss[n].v.tree, k).Some?
    ensures k in index.secondary ==> index.secondary[k] == index.derive(k, Lookup(ss[n].v.tree, k).value)
  {
    hide IsRun, Lookup, Known;
    HeardInRun(ss, acts, n);
    assert index.Agrees(k, Known(index.base, index.heard, k));
  }

  // ---------- many derived keys per entry ----------

  /** `secondary` pairs every key derived from an entry with the entry's key. */
  class SecondaryKeys<D(==, !new)> {
    var secondary: set<(D, Key)>
    const derive: (Key, Value) -> seq<D>
    ghost const base: Base
    ghost var heard: seq<Event>

    ghost predicate Valid()
      reads this
    {
      Coherent(base, heard) && forall k :: Agrees(k, Known(base, heard, k))
    }

    ghost predicate Agrees(k: Key, x: Option<Value>)
      reads this
    {
      forall d :: (d, k) in secondary <==> x.Some? && d in derive(k, x.value)
    }

    constructor (entries: seq<Scan.Entry>, f: (Key, Value) -> seq<D>, ghost b: Base)
      requires Scan.Ascending(entries)
      requires forall k, x :: Scan.Entry(k, x) in entries <==> b(k) == Some(x)
      ensures Valid() && derive == f && base == b && heard == []
    {
      derive, base, heard := f, b, [];
      secondary := {};
      new;
      for i := 0 to |entries|
        invariant derive == f && base == b && heard == []
        invariant forall d, k :: (d, k) in secondary <==> exists j :: 0 <= j < i && entries[j].key == k && d in f(k, entries[j].value)
      {
        Add(f(entries[i].key, entries[i].value), entries[i].key);
      }
      forall k ensures Agrees(k, b(k)) {
        Scanned(entries, k);
      }
    }

    /** A scanned key occurs once in the listing. */
    lemma Scanned(entries: seq<Scan.Entry>, k: Key)
      requires Scan.Ascending(entries)
      requires forall k, x :: Scan.Entry(k, x) in entries <==> base(k) == Some(x)
      requires forall d, k :: (d, k) in secondary <==> exists j :: 0 <= j < |entries| && entries[j].key == k && d in derive(k, entries[j].value)
      ensures Agrees(k, base(k))
    {
      forall j | 0 <= j < |entries| && entries[j].key == k ensures base(k) == Some(entries[j].value) {
        assert Scan.Entry(k, entries[j].value) in entries;
      }
      if base(k).Some? {
        assert Scan.Entry(k, base(k).value) in entries;
      }
    }

    method Remove(ds: seq<D>, k: Key)
      modifies this`secondary
      ensures forall d, q :: (d, q) in secondary <==> (d, q) in old(secondary) && !(q == k && d in ds)
    {
      for i := 0 to |ds|
        invariant forall d, q :: (d, q) in secondary <==> (d, q) in old(secondary) && !(q == k && d in ds[..i])
      {
        secondary := secondary - {(ds[i], k)};
        assert ds[..i + 1] == ds[..i] + [ds[i]];
      }
      assert ds[..|ds|] == ds;
    }

    method Add(ds: seq<D>, k: Key)
      modifies this`secondary
      ensures forall d, q :: (d, q) in secondary <==> (d, q) in old(secondary) || (q == k && d in ds)
    {
      for i := 0 to |ds|
        invariant forall d, q :: (d, q) in secondary <==> (d, q) in old(secondary) || (q == k && d in ds[..i])
      {
        secondary := secondary + {(ds[i], k)};
        assert ds[..i + 1] == ds[..i] + [ds[i]];
      }
      assert ds[..|ds|] == ds;
    }

    /** The listener. */
    method Modify(e: Event)
      requires Valid() && e.was == Known(base, heard, e.key)
      modifies this
      ensures Valid() && heard == old(heard) + [e]
    {
      hide Known, Coherent;
      CoherentAppend(base, heard, e);
      if e.was.Some? {
        Remove(derive(e.key, e.was.value), e.key);
      }
      if e.now.Some? {
        Add(derive(e.key, e.now.value), e.key);
      }
      heard := heard + [e];
      forall k ensures Agrees(k, Known(base, heard, k)) {
        KnownAppend(base, old(heard), e, k);
        assert old(Agrees(k, Known(base, heard, k)));
      }
    }
  }

  /** In every run the index pairs each key that is not being changed with exactly what its entry derives. */
  lemma KeysIndexInRun<D(!new)>(ss: seq<State>, acts: seq<Act>, n: nat, index: SecondaryKeys<D>, k: Key, d: D)
    requires IsRun(ss, acts) && n < |ss| && index.Valid()
    requires index.base == BaseOf(ss[0].v.tree) && index.heard == ss[n].v.events && k !in ss[n].v.hot
    ensures var x := Lookup(ss[n].v.tree, k); (d, k) in index.secondary <==> x.Some? && d in index.derive(k, x.value)
  {
    hide IsRun, Lookup, Known;
    HeardInRun(ss, acts, n);
    assert index.Agrees(k, Known(index.base, index.heard, k));
  }

  // ---------- a unique derived key per entry ----------

  /** Key `k` holds the derived key `d`, so far as the changes heard tell. */
  ghost predicate Claims<D>(f: (Key, Value) -> D, base: Base, heard: seq<Event>, lost: set<Key>, k: Key, d: D) {
    var x := Known(base, heard, k);
    x.Some? && f(k, x.value) == d && k !in lost
  }

  /** No other key holds the derived key that the new value of `e.key` needs. */
  ghost predicate Claimable<D>(f: (Key, Value) -> D, base: Base, heard: seq<Event>, lost: set<Key>, e: Event) {
    e.now.Some? ==> forall q {:trigger Claims(f, base, heard, lost, q, f(e.key, e.now.value))} ::
                      Claims(f, base, heard, lost, q, f(e.key, e.now.value)) ==> q == e.key
  }

  /** The keys whose last change was rejected, as the history tells. */
  ghost function Lost<D>(f: (Key, Value) -> D, base: Base, es: seq<Event>): set<Key> {
    if es == [] then {}
    else
      var init, e := es[..|es| - 1], es[|es| - 1];
      var lost := Lost(f, base, init);
      if Claimable(f, base, init, lost, e) then lost - {e.key} else lost + {e.key}
  }

  /** Change `i` of a history is accepted. */
  ghost predicate Accepted<D>(f: (Key, Value) -> D, base: Base, es: seq<Event>, i: nat)
    requires i < |es|
  {
    Claimable(f, base, es[..i], Lost(f, base, es[..i]), es[i])
  }

  /** No two keys that are known to be there derive the same key. */
  ghost predicate Unique<D>(f: (Key, Value) -> D, base: Base, es: seq<Event>) {
    forall j, k {:trigger Known(base, es, j), Known(base, es, k)} ::
      var x, y := Known(base, es, j), Known(base, es, k);
      x.Some? && y.Some? && f(j, x.value) == f(k, y.value) ==> j == k
  }

  lemma LostAppend<D>(f: (Key, Value) -> D, base: Base, es: seq<Event>, e: Event)
    ensures var lost := Lost(f, base, es);
            Lost(f, base, es + [e]) == if Claimable(f, base, es, lost, e) then lost - {e.key} else lost + {e.key}
  {
    assert (es + [e])[..|es + [e]| - 1] == es;
  }

  /** If nothing was lost before, a change is accepted exactly if it leaves the derived keys unique. */
  lemma AcceptedIfUnique<D>(f: (Key, Value) -> D, base: Base, es: seq<Event>, e: Event)
    requires Unique(f, base, es)
    ensures Claimable(f, base, es, {}, e) <==> Unique(f, base, es + [e])
  {
    hide Known;
    forall k ensures Known(base, es + [e], k) == if e.key == k then e.now else Known(base, es, k) {
      KnownAppend(base, es, e, k);
    }
    if e.now.Some? && Unique(f, base, es + [e]) {
      var d := f(e.key, e.now.value);
      forall q | Claims(f, base, es, {}, q, d) ensures q == e.key {
        assert q != e.key ==> Known(base, es + [e], q) == Known(base, es, q) && Known(base, es + [e], e.key) == e.now;
      }
    }
    if Claimable(f, base, es, {}, e) {
      forall j, k
        ensures var x, y := Known(base, es + [e], j), Known(base, es + [e], k);
                x.Some? && y.Some? && f(j, x.value) == f(k, y.value) ==> j == k
      {
        assert e.now.Some? ==>
            && (Claims(f, base, es, {}, j, f(e.key, e.now.value)) ==> j == e.key)
            && (Claims(f, base, es, {}, k, f(e.key, e.now.value)) ==> k == e.key);
        assert j != e.key && k != e.key ==> Known(base, es, j) == Known(base, es + [e], j) && Known(base, es, k) == Known(base, es + [e], k);
      }
    }
  }

  /**
   From a map with unique derived keys, no change of a history is rejected if and only if the derived
   keys are unique after every prefix of it; and then no key is lost.
   */
  lemma {:induction false} NoneRejected<D>(f: (Key, Value) -> D, base: Base, es: seq<Event>)
    requires Unique(f, base, [])
    ensures (forall i :: 0 <= i < |es| ==> Accepted(f, base, es, i)) <==> (forall i :: 0 <= i <= |es| ==> Unique(f, base, es[..i]))
    ensures (forall i :: 0 <= i < |es| ==> Accepted(f, base, es, i)) ==> Lost(f, base, es) == {}
  {
    hide Unique, Claimable;
    if es == [] {
      assert es[..0] == [];
    } else {
      var init, e := es[..|es| - 1], es[|es| - 1];
      NoneRejected(f, base, init);
      assert init + [e] == es && es[..|es|] == es;
      assert forall i :: 0 <= i <= |init| ==> init[..i] == es[..i];
      assert forall i :: 0 <= i < |init| ==> (Accepted(f, base, init, i) <==> Accepted(f, base, es, i));
      assert init[..|init|] == init && es[..|init|] == init;
      if forall i :: 0 <= i < |init| ==> Accepted(f, base, init, i) {
        assert Unique(f, base, init[..|init|]);
        AcceptedIfUnique(f, base, init, e);
        LostAppend(f, base, init, e);
        assert Accepted(f, base, es, |init|) <==> Unique(f, base, es);
      } else {
        assert !(forall i :: 0 <= i <= |init| ==> Unique(f, base, init[..i]));
        var i :| 0 <= i <= |init| && !Unique(f, base, init[..i]);
        assert !Unique(f, base, es[..i]);
      }
    }
  }

  predicate At<D(==)>(m: map<D, Key>, d: D, k: Key) {
    d in m && m[d] == k
  }

  /** `m` holds the first `n` entries; `from` says which entry a derived key comes from. */
  ghost predicate Filled<D(!new)>(m: map<D, Key>, derive: (Key, Value) -> D, entries: seq<Scan.Entry>, n: nat, from: map<D, nat>) {
    && n <= |entries| && m.Keys == from.Keys
    && (forall d :: d in from ==>
          from[d] < n && entries[from[d]].key == m[d] && derive(entries[from[d]].key, entries[from[d]].value) == d)
    && (forall j :: 0 <= j < n ==> derive(entries[j].key, entries[j].value) in from)
    && (forall j :: 0 <= j < n ==> from[derive(entries[j].key, entries[j].value)] == j)
  }

  lemma FilledStart<D(!new)>(derive: (Key, Value) -> D, entries: seq<Scan.Entry>)
    ensures Filled(map[], derive, entries, 0, map[])
  {
  }

  /** The next entry's derived key is new, or an earlier entry of another key derives it too. */
  lemma FilledMore<D(!new)>(m: map<D, Key>, derive: (Key, Value) -> D, entries: seq<Scan.Entry>, n: nat, from: map<D, nat>)
    requires Filled(m, derive, entries, n, from) && n < |entries| && Scan.Ascending(entries)
    ensures var d := derive(entries[n].key, entries[n].value);
            if d in m
            then m[d] != entries[n].key && exists i :: 0 <= i < n && derive(entries[i].key, entries[i].value) == d
            else Filled(m[d := entries[n].key], derive, entries, n + 1, from[d := n])
  {
  }

  lemma FilledApart<D(!new)>(m: map<D, Key>, derive: (Key, Value) -> D, entries: seq<Scan.Entry>, from: map<D, nat>)
    requires Filled(m, derive, entries, |entries|, from)
    ensures forall i, j :: 0 <= i < j < |entries| ==>
              derive(entries[i].key, entries[i].value) != derive(entries[j].key, entries[j].value)
  {
  }

  /**
   `secondary` maps the key derived from an entry to the entry's key.  The listener makes two
   accesses to it: it withdraws what the old value derived, then claims what the new one derives.
   Between the two, listeners of other keys may run.  So what is heard is a history of withdrawals,
   changes to no value, and claims, changes from no value.  A claim of a derived key that another
   key holds is rejected after the map has changed, and the index lacks the entry until its key is
   changed again.
   */
  class SecondaryKey<D(==, !new)> {
    var secondary: map<D, Key>
    const derive: (Key, Value) -> D
    ghost const base: Base
    ghost var heard: seq<Event>

    ghost predicate Valid()
      reads this
    {
      Coherent(base, heard) && forall k :: Agrees(k, Known(base, heard, k), Lost(derive, base, heard))
    }

    /** Exactly the entries not lost are held, each under its derived key. */
    ghost predicate Agrees(k: Key, x: Option<Value>, lost: set<Key>)
      reads this
    {
      && (forall d :: At(secondary, d, k) <==> x.Some? && derive(k, x.value) == d && k !in lost)
      && (k in lost ==> x.Some?)
    }

    constructor (f: (Key, Value) -> D, ghost b: Base)
      ensures derive == f && base == b && heard == [] && secondary == map[]
    {
      derive, base, heard, secondary := f, b, [], map[];
    }

    method PutUnique(d: D, k: Key) returns (ok: bool)
      modifies this`secondary
      ensures ok <==> (d in old(secondary) ==> old(secondary)[d] == k)
      ensures secondary == if ok then old(secondary)[d := k] else old(secondary)
    {
      if d !in secondary {
        secondary := secondary[d := k];
        return true;
      }
      ok := secondary[d] == k;
    }

    /** Fill an empty index from a listing: fails exactly if two entries derive the same key. */
    method Populate(entries: seq<Scan.Entry>) returns (ok: bool)
      requires heard == [] && secondary == map[] && Scan.Ascending(entries)
      requires forall k, x :: Scan.Entry(k, x) in entries <==> base(k) == Some(x)
      modifies this`secondary
      ensures ok <==> forall i, j :: 0 <= i < j < |entries| ==>
                        derive(entries[i].key, entries[i].value) != derive(entries[j].key, entries[j].value)
      ensures ok ==> Valid()
    {
      hide Filled, Scan.Ascending;
      ok := true;
      var i := 0;
      ghost var from: map<D, nat> := map[];
      FilledStart(derive, entries);
      while i < |entries|
        invariant 0 <= i <= |entries| && Filled(secondary, derive, entries, i, from)
      {
        var d := derive(entries[i].key, entries[i].value);
        FilledMore(secondary, derive, entries, i, from);
        ok := PutUnique(d, entries[i].key);
        if !ok {
          return;
        }
        from := from[d := i];
        i := i + 1;
      }
      FilledApart(secondary, derive, entries, from);
      forall k ensures Agrees(k, base(k), {}) {
        Scanned(entries, from, k);
      }
    }

    lemma Scanned(entries: seq<Scan.Entry>, from: map<D, nat>, k: Key)
      requires Filled(secondary, derive, entries, |entries|, from)
      requires forall k, x :: Scan.Entry(k, x) in entries <==> base(k) == Some(x)
      ensures Agrees(k, base(k), {})
    {
      forall d | At(secondary, d, k) ensures base(k).Some? && derive(k, base(k).value) == d {
        assert entries[from[d]] in entries && Scan.Entry(k, entries[from[d]].value) == entries[from[d]];
      }
      if base(k).Some? {
        assert Scan.Entry(k, base(k).value) in entries;
      }
    }

    /** Withdraw what the old value of `k` derived; what another key holds is left alone. */
    method Withdraw(k: Key, was: Option<Value>)
      requires Valid() && was == Known(base, heard, k)
      modifies this
      ensures Valid() && heard == old(heard) + [Event(k, was, None)]
      ensures Lost(derive, base, heard) == Lost(derive, base, old(heard)) - {k}
    {
      hide Known, Coherent, Lost;
      ghost var e, lost := Event(k, was, None), Lost(derive, base, heard);
      CoherentAppend(base, heard, e);
      LostAppend(derive, base, heard, e);
      assert Agrees(k, was, lost);
      if was.Some? {
        var d := derive(k, was.value);
        if At(secondary, d, k) {
          secondary := secondary - {d};
        }
      }
      forall d, q ensures At(secondary, d, q) <==> At(old(secondary), d, q) && q != k {
        assert At(old(secondary), d, k) <==> was.Some? && derive(k, was.value) == d && k !in lost;
      }
      heard := heard + [e];
      forall q ensures Agrees(q, Known(base, heard, q), lost - {k}) {
        KnownAppend(base, old(heard), e, q);
        assert old(Agrees(q, Known(base, heard, q), Lost(derive, base, heard)));
      }
    }

    /** Claim what the new value of `k` derives: rejected exactly if another key holds it. */
    method Claim(k: Key, now: Option<Value>) returns (ok: bool)
      requires Valid() && Known(base, heard, k) == None
      modifies this
      ensures Valid() && heard == old(heard) + [Event(k, None, now)]
      ensures ok <==> Claimable(derive, base, old(heard), Lost(derive, base, old(heard)), Event(k, None, now))
    {
      hide Known, Coherent, Lost;
      ghost var e, lost := Event(k, None, now), Lost(derive, base, heard);
      CoherentAppend(base, heard, e);
      LostAppend(derive, base, heard, e);
      assert Agrees(k, None, lost);
      ok := true;
      if now.Some? {
        var d := derive(k, now.value);
        assert d in secondary ==> At(secondary, d, secondary[d]);
        forall q ensures Claims(derive, base, heard, lost, q, d) <==> At(secondary, d, q) {
          assert Agrees(q, Known(base, heard, q), lost);
        }
        ok := PutUnique(d, k);
      }
      forall d, q ensures At(secondary, d, q) <==> (if q == k then ok && now.Some? && d == derive(k, now.value) else At(old(secondary), d, q)) {
        assert !At(old(secondary), d, k);
      }
      heard := heard + [e];
      forall q ensures Agrees(q, Known(base, heard, q), if ok then lost - {k} else lost + {k}) {
        KnownAppend(base, old(heard), e, q);
        assert old(Agrees(q, Known(base, heard, q), Lost(derive, base, heard)));
      }
    }
  }

  // ---------- the two accesses of a listener, in a run ----------

  /** What has been heard by the `n`-th state of a run; `drawn` are the keys withdrawn and not claimed yet. */
  datatype Ear = Ear(n: nat, log: seq<Event>, drawn: set<Key>)

  /** The listener that thread `t` is calling withdraws, or the run takes its next step; a listener claims as its call returns. */
  datatype Half = Draw(t: Tid) | Pass

  ghost predicate Firing(ss: seq<State>, n: nat, t: Tid) {
    n < |ss| && t in ss[n].pcs && ss[n].pcs[t].Firing?
  }

  ghost predicate CanHear(ss: seq<State>, acts: seq<Act>, a: Ear, h: Half) {
    match h
    case Draw(t) => Firing(ss, a.n, t) && ss[a.n].pcs[t].event.key !in a.drawn
    case Pass => a.n < |acts| && (Firing(ss, a.n, acts[a.n].t) ==> ss[a.n].pcs[acts[a.n].t].event.key in a.drawn)
  }

  ghost function Hear(ss: seq<State>, acts: seq<Act>, a: Ear, h: Half): Ear
    requires CanHear(ss, acts, a, h)
  {
    match h
    case Draw(t) =>
      var e := ss[a.n].pcs[t].event;
      Ear(a.n, a.log + [Event(e.key, e.was, None)], a.drawn + {e.key})
    case Pass =>
      if Firing(ss, a.n, acts[a.n].t) then
        var e := ss[a.n].pcs[acts[a.n].t].event;
        Ear(a.n + 1, a.log + [Event(e.key, None, e.now)], a.drawn - {e.key})
      else Ear(a.n + 1, a.log, a.drawn)
  }

  /** A run together with the accesses its listeners make. */
  ghost predicate IsListening(ss: seq<State>, acts: seq<Act>, ears: seq<Ear>, hs: seq<Half>) {
    && IsRun(ss, acts) && |ears| == |hs| + 1 && ears[0] == Ear(0, [], {})
    && forall i :: 0 <= i < |hs| ==> CanHear(ss, acts, ears[i], hs[i]) && ears[i + 1] == Hear(ss, acts, ears[i], hs[i])
  }

  /** What the run has reported and what the listeners have withdrawn give what is known. */
  ghost predicate Attentive(ss: seq<State>, a: Ear, base: Base) {
    && a.n < |ss| && Coherent(base, a.log) && a.drawn <= ss[a.n].v.hot.Keys
    && forall k :: Known(base, a.log, k) == if k in a.drawn then None else Known(base, ss[a.n].v.events, k)
  }

  /** The change a thread is reporting starts from what the changes reported before leave. */
  lemma FiringStarts(ss: seq<State>, acts: seq<Act>, n: nat, t: Tid)
    requires IsRun(ss, acts) && Firing(ss, n, t)
    ensures var e := ss[n].pcs[t].event;
            e.key in ss[n].v.hot && ss[n].v.hot[e.key] == Hot(t, e) && e.was == Known(BaseOf(ss[0].v.tree), ss[n].v.events, e.key)
  {
    hide IsRun, Known, Chained, ForKey, SharedOk, Accounts, Lookup;
    RunInv(ss, acts, n);
    var v, e, base := ss[n].v, ss[n].pcs[t].event, BaseOf(ss[0].v.tree);
    assert Thread(v, t, ss[n].pcs[t]);
    ListenersInOrder(ss, acts, n, e.key);
    ChangesChain(ss, acts, n, e.key);
    var es := ForKey(v.events, e.key);
    ChainPrefix(base(e.key), es + [e], Lookup(v.tree, e.key), |es|);
    assert (es + [e])[..|es|] == es;
    ChainEnds(base, v.events, e.key, e.was);
  }

  /** Only the listener call reports, and only it ends a key's being hot. */
  lemma StepReports(v: Shared, t: Tid, pc: Pc, x: Choice)
    requires CanMove(v, pc, x)
    ensures var v' := Step(v, t, pc, x).v;
            && v'.events == v.events + (if pc.Firing? then [pc.event] else [])
            && (if pc.Firing? then v'.hot == v.hot - {pc.event.key} else v.hot.Keys <= v'.hot.Keys)
  {
    assert v.events + [] == v.events;
  }

  lemma DrawStays(ss: seq<State>, acts: seq<Act>, a: Ear, t: Tid)
    requires IsRun(ss, acts) && Attentive(ss, a, BaseOf(ss[0].v.tree)) && CanHear(ss, acts, a, Draw(t))
    ensures Attentive(ss, Hear(ss, acts, a, Draw(t)), BaseOf(ss[0].v.tree))
  {
    hide IsRun, Known, Coherent, BaseOf;
    FiringStarts(ss, acts, a.n, t);
    var base, e := BaseOf(ss[0].v.tree), ss[a.n].pcs[t].event;
    CoherentAppend(base, a.log, Event(e.key, e.was, None));
    forall k ensures Known(base, a.log + [Event(e.key, e.was, None)], k)
                  == if k in a.drawn + {e.key} then None else Known(base, ss[a.n].v.events, k)
    {
      KnownAppend(base, a.log, Event(e.key, e.was, None), k);
    }
  }

  lemma PassStays(ss: seq<State>, acts: seq<Act>, a: Ear)
    requires IsRun(ss, acts) && Attentive(ss, a, BaseOf(ss[0].v.tree)) && CanHear(ss, acts, a, Pass)
    ensures Attentive(ss, Hear(ss, acts, a, Pass), BaseOf(ss[0].v.tree))
  {
    hide Known, Coherent, BaseOf, Step, CanMove, Initial;
    var base, t, s, s' := BaseOf(ss[0].v.tree), acts[a.n].t, ss[a.n], ss[a.n + 1];
    StepReports(s.v, t, s.pcs[t], acts[a.n].x);
    if Firing(ss, a.n, t) {
      var e := s.pcs[t].event;
      CoherentAppend(base, a.log, Event(e.key, None, e.now));
      forall k ensures Known(base, a.log + [Event(e.key, None, e.now)], k)
                    == if k in a.drawn - {e.key} then None else Known(base, s'.v.events, k)
      {
        KnownAppend(base, a.log, Event(e.key, None, e.now), k);
        KnownAppend(base, s.v.events, e, k);
      }
    } else {
      assert s'.v.events == s.v.events;
    }
  }

  /** In every run, however its listeners interleave, what is heard is coherent and knows every key that is not being changed. */
  lemma {:induction false} ListeningOk(ss: seq<State>, acts: seq<Act>, ears: seq<Ear>, hs: seq<Half>, i: nat)
    requires IsListening(ss, acts, ears, hs) && i < |ears|
    ensures Attentive(ss, ears[i], BaseOf(ss[0].v.tree))
    ensures forall k :: k !in ss[ears[i].n].v.hot ==> Known(BaseOf(ss[0].v.tree), ears[i].log, k) == Lookup(ss[ears[i].n].v.tree, k)
  {
    hide IsRun, Known, Lookup, BaseOf, Hear, CanHear;
    if i == 0 {
      NothingHeard(ss, acts);
    } else {
      ListeningOk(ss, acts, ears, hs, i - 1);
      match hs[i - 1] {
        case Draw(t) => DrawStays(ss, acts, ears[i - 1], t);
        case Pass => PassStays(ss, acts, ears[i - 1]);
      }
    }
    HeardInRun(ss, acts, ears[i].n);
  }

  lemma NothingHeard(ss: seq<State>, acts: seq<Act>)
    requires IsRun(ss, acts)
    ensures Attentive(ss, Ear(0, [], {}), BaseOf(ss[0].v.tree))
  {
    hide TreePart, RootPart, Lookup;
  }

  /**
   In every run, the index finds a key that is not being changed by what its entry derives if
   and only if the history of withdrawals and claims does not lose it, and finds it by nothing else.
   */
  lemma UniqueIndexInRun<D(!new)>(ss: seq<State>, acts: seq<Act>, ears: seq<Ear>, hs: seq<Half>, i: nat,
                                  index: SecondaryKey<D>, k: Key, d: D)
    requires IsListening(ss, acts, ears, hs) && i < |ears| && index.Valid()
    requires index.base == BaseOf(ss[0].v.tree) && index.heard == ears[i].log
    ensures ears[i].n < |ss|
    ensures k !in ss[ears[i].n].v.hot ==>
              var x := Lookup(ss[ears[i].n].v.tree, k);
              At(index.secondary, d, k) <==> x.Some? && index.derive(k, x.value) == d && k !in Lost(index.derive, index.base, index.heard)
  {
    hide IsListening, Lookup, Known, Lost;
    ListeningOk(ss, acts, ears, hs, i);
    assert index.Agrees(k, Known(index.base, index.heard, k), Lost(index.derive, index.base, index.heard));
  }

  /**
   If the derived keys are unique at the start, the index is complete for every key that is not
   being changed, in every run in which, after each access of the listeners, no two keys known to
   be there derive the same key; and that is exactly when no claim is rejected.
   */
  lemma UniqueIndexComplete<D(!new)>(ss: seq<State>, acts: seq<Act>, ears: seq<Ear>, hs: seq<Half>, i: nat,
                                     index: SecondaryKey<D>)
    requires IsListening(ss, acts, ears, hs) && i < |ears| && index.Valid()
    requires index.base == BaseOf(ss[0].v.tree) && index.heard == ears[i].log && Unique(index.derive, index.base, [])
    ensures ears[i].n < |ss|
    ensures (forall j :: 0 <= j < |index.heard| ==> Accepted(index.derive, index.base, index.heard, j))
       <==> (forall j :: 0 <= j <= |index.heard| ==> Unique(index.derive, index.base, index.heard[..j]))
    ensures (forall j :: 0 <= j <= |index.heard| ==> Unique(index.derive, index.base, index.heard[..j])) ==>
              forall k, d :: k !in ss[ears[i].n].v.hot ==>
                var x := Lookup(ss[ears[i].n].v.tree, k);
                At(index.secondary, d, k) <==> x.Some? && index.derive(k, x.value) == d
  {
    hide IsListening, Lookup, Known, Lost, Unique, Accepted;
    ListeningOk(ss, acts, ears, hs, i);
    NoneRejected(index.derive, index.base, index.heard);
    forall k, d ensures k !in ss[ears[i].n].v.hot ==>
      var x := Lookup(ss[ears[i].n].v.tree, k);
      At(index.secondary, d, k) <==> x.Some? && index.derive(k, x.value) == d && k !in Lost(index.derive, index.base, index.heard)
    {
      UniqueIndexInRun(ss, acts, ears, hs, i, index, k, d);
    }
  }
}

/**
 The name catalog: a map of strings stored as one record, with a fixed head, a packed
 count and length-framed UTF-8 strings.  The decoder accepts exactly the records that
 some list of entries with distinct keys is written as.
 */
module NameCatalog {
  import opened Basics
  import opened ByteStrings
  import opened PackedLong
  import opened Utf8Order

  const MAGIC: nat := 0x4D44_4243
  const VERSION: nat := 1
  const REPR_INLINE: Byte := 0
  const MAX_ENTRIES: nat := 10_000_000
  const MIN_LEN: nat := 10
  const U32: int := 0x1_0000_0000

  datatype Entry = Entry(key: Bytes, value: Bytes)

  // ---------- what a record looks like ----------

  function Framed(b: Bytes): Bytes {
    Packed(|b|) + b
  }

  function Entries(es: seq<Entry>): Bytes {
    if es == [] then [] else Framed(es[0].key) + (Framed(es[0].value) + Entries(es[1..]))
  }

  function Head(): (h: Bytes)
    ensures |h| == 9
  {
    BigEndian(4, MAGIC) + BigEndian(4, VERSION) + [REPR_INLINE]
  }

  /** No key occurs twice, everything is UTF-8, and lengths fit 64 bits. */
  ghost predicate Listable(es: seq<Entry>) {
    && |es| <= MAX_ENTRIES
    && (forall i, j :: 0 <= i < j < |es| ==> es[i].key != es[j].key)
    && (forall i :: 0 <= i < |es| ==> IsUtf8(es[i].key) && IsUtf8(es[i].value) && |es[i].key| < U64 && |es[i].value| < U64)
  }

  ghost predicate Encodes(es: seq<Entry>, rec: Bytes) {
    Listable(es) && rec == Head() + (Packed(|es|) + Entries(es))
  }

  function MapOf(es: seq<Entry>): map<Bytes, Bytes> {
    if es == [] then map[] else MapOf(es[..|es| - 1])[es[|es| - 1].key := es[|es| - 1].value]
  }

  lemma {:induction false} MapOfKeys(es: seq<Entry>)
    ensures forall k :: k in MapOf(es) <==> exists i :: 0 <= i < |es| && es[i].key == k
  {
    if es != [] {
      var n := |es| - 1;
      var init := es[..n];
      MapOfKeys(init);
      forall k ensures k in MapOf(es) <==> exists i :: 0 <= i < |es| && es[i].key == k {
        if k in MapOf(init) {
          var i :| 0 <= i < |init| && init[i].key == k;
          assert es[i].key == k;
        }
        if i :| 0 <= i < |es| && es[i].key == k && i != n {
          assert init[i].key == k;
        }
        assert es[n].key in MapOf(es);
      }
    }
  }

  // ---------- framed strings ----------

  /** The string framed at the front of `s`, if it is UTF-8. */
  lemma FramedFound(s: Bytes, b: Bytes, max: nat)
    requires Framed(b) <= s && |b| < U64 && max >= MAX_BYTES
    ensures Bounded(true, 0, s, max) == Ok(Read(|b|, |Packed(|b|)|))
    ensures |Packed(|b|)| + |b| <= |s| && s[|Packed(|b|)|..|Packed(|b|)| + |b|] == b
  {
    hide Bounded, Packed;
    var p := Packed(|b|);
    assert s == Framed(b) + s[|Framed(b)|..];
    Assoc(p, b, s[|Framed(b)|..]);
    BoundedInverts(|b|, b + s[|Framed(b)|..], max);
  }

  /** What the length read at `start` must be if `b` is framed there. */
  lemma FrameAt(rec: Bytes, start: nat, b: Bytes, max: nat)
    requires start <= |rec| && Framed(b) <= rec[start..] && |b| < U64 && max >= MAX_BYTES
    ensures Bounded(true, 0, rec[start..], max).Ok?
    ensures var x := Bounded(true, 0, rec[start..], max).value;
            x.value == |b| && start + x.used + |b| <= |rec| && rec[start + x.used..start + x.used + |b|] == b
  {
    hide Bounded, Packed;
    FramedFound(rec[start..], b, max);
    var k := |Packed(|b|)|;
    assert rec[start..][k..k + |b|] == rec[start + k..start + k + |b|];
  }

  /** The length and the bytes after it make a frame. */
  lemma FrameMade(rec: Bytes, start: nat, x: Read, max: nat)
    requires start <= |rec| && Bounded(true, 0, rec[start..], max) == Ok(x) && start + x.used + x.value <= |rec|
    ensures x.value < U64
    ensures rec[start..start + x.used + x.value] == Framed(rec[start + x.used..start + x.used + x.value])
  {
    hide Bounded, Packed;
    BoundedSound(rec[start..], max);
    var p := start + x.used;
    assert rec[start..][..x.used] == rec[start..p];
    assert rec[start..p + x.value] == rec[start..p] + rec[p..p + x.value];
  }

  /** Whichever string is framed at `start`, reading gave it and ended after it. */
  ghost predicate Reads(rec: Bytes, start: nat, r: Result<Bytes>, pos: nat)
    requires start <= |rec|
  {
    forall b: Bytes {:trigger Framed(b)} ::
      |b| < U64 && IsUtf8(b) && Framed(b) <= rec[start..] ==> r == Ok(b) && pos == start + |Framed(b)|
  }

  /** Read a framed string from `rec[start..]`. */
  method ReadString(rec: Bytes, start: nat, max: nat) returns (r: Result<Bytes>, pos: nat)
    requires start <= |rec| && max >= MAX_BYTES
    ensures start <= pos <= |rec|
    ensures r.Ok? ==> rec[start..pos] == Framed(r.value) && IsUtf8(r.value) && |r.value| < U64
    ensures Reads(rec, start, r, pos)
  {
    hide Bounded, Packed, IsUtf8, Framed;
    var n;
    assert rec[start..|rec|] == rec[start..];
    n, pos := ReadBounded(rec, start, |rec|, max);
    var ok := n.Ok? && pos + n.value <= |rec| && IsUtf8(rec[pos..pos + n.value]);
    if ok {
      FrameMade(rec, start, Read(n.value, pos - start), max);
      r, pos := Ok(rec[pos..pos + n.value]), pos + n.value;
    } else {
      r := Err;
    }
    forall b: Bytes | |b| < U64 && IsUtf8(b) && Framed(b) <= rec[start..] ensures r == Ok(b) && pos == start + |Framed(b)| {
      FrameAt(rec, start, b, max);
    }
  }

  // ---------- whole records ----------

  lemma {:induction false} EntriesAppend(es: seq<Entry>, e: Entry)
    ensures Entries(es + [e]) == Entries(es) + (Framed(e.key) + Framed(e.value))
  {
    if es == [] {
      assert [e][1..] == [] && Framed(e.value) + [] == Framed(e.value);
    } else {
      assert (es + [e])[1..] == es[1..] + [e];
      EntriesAppend(es[1..], e);
      var a, b, c, d := Framed(es[0].key), Framed(es[0].value), Entries(es[1..]), Framed(e.key) + Framed(e.value);
      Assoc(b, c, d);
      Assoc(a, b + c, d);
    }
  }

  /** The list `es` is what the loop has read, `done`, followed by what lies at `pos`. */
  ghost predicate Reading(es: seq<Entry>, done: seq<Entry>, count: nat, tail: Bytes) {
    |es| == count && |done| <= |es| && done == es[..|done|] && tail == Entries(es[|done|..])
  }

  lemma ReadingStep(es: seq<Entry>, done: seq<Entry>, count: nat, tail: Bytes)
    requires Reading(es, done, count, tail) && |done| < count && Listable(es)
    ensures var e := es[|done|];
            && Framed(e.key) <= tail && Framed(e.value) <= tail[|Framed(e.key)|..]
            && Reading(es, done + [e], count, tail[|Framed(e.key)|..][|Framed(e.value)|..])
            && IsUtf8(e.key) && IsUtf8(e.value) && |e.key| < U64 && |e.value| < U64
            && forall i :: 0 <= i < |done| ==> done[i].key != e.key
  {
    var i := |done|;
    var e := es[i];
    assert es[i..][1..] == es[i + 1..];
    var k, v, rest := Framed(e.key), Framed(e.value), Entries(es[i + 1..]);
    assert tail == k + (v + rest);
    assert tail[|k|..] == v + rest && tail[|k|..][|v|..] == rest;
  }

  lemma EncodesHead(es: seq<Entry>, rec: Bytes, max: nat)
    requires Encodes(es, rec) && max >= MAX_BYTES
    ensures |rec| >= MIN_LEN && rec[..9] == Head()
    ensures Bounded(true, 0, rec[9..], max) == Ok(Read(|es|, |Packed(|es|)|))
    ensures Reading(es, [], |es|, rec[9..][|Packed(|es|)|..])
  {
    hide Bounded, Packed;
    assert rec[9..] == Packed(|es|) + Entries(es);
    BoundedInverts(|es|, Entries(es), max);
    assert es[0..] == es;
  }

  method ReadRecord(rec: Bytes, max: nat) returns (r: Result<map<Bytes, Bytes>>, ghost done: seq<Entry>)
    requires max >= MAX_BYTES
    ensures r.Ok? ==> Encodes(done, rec) && r.value == MapOf(done)
    ensures forall es :: Encodes(es, rec) ==> r == Ok(MapOf(es))
  {
    hide Bounded, Packed, Framed, IsUtf8, Entries, MapOf, Listable;
    done := [];
    forall es | Encodes(es, rec)
      ensures |rec| >= MIN_LEN && rec[..9] == Head() && Bounded(true, 0, rec[9..], max) == Ok(Read(|es|, |Packed(|es|)|))
    {
      EncodesHead(es, rec, max);
    }
    if |rec| < MIN_LEN || rec[..9] != Head() {
      return Err, done;
    }
    assert rec[9..|rec|] == rec[9..];
    var n, pos := ReadBounded(rec, 9, |rec|, max);
    if n.Err? {
      return Err, done;
    }
    if n.value > MAX_ENTRIES {
      ListableFits();
      return Err, done;
    }
    HeadRead(rec, pos, n.value, max);
    forall es | Encodes(es, rec) ensures Reading(es, [], n.value, rec[pos..]) {
      EncodesHead(es, rec, max);
      assert rec[9..][pos - 9..] == rec[pos..];
    }
    r, done := ReadEntries(rec, pos, n.value, max);
  }

  lemma HeadRead(rec: Bytes, pos: nat, count: nat, max: nat)
    requires 9 <= pos <= |rec| && rec[..9] == Head() && Bounded(true, 0, rec[9..], max) == Ok(Read(count, pos - 9))
    ensures rec[..pos] == Head() + (Packed(count) + Entries([]))
  {
    hide Bounded, Packed;
    BoundedSound(rec[9..], max);
    assert rec[9..][..pos - 9] == rec[9..pos];
    assert rec[..pos] == rec[..9] + rec[9..pos];
    assert Packed(count) + Entries([]) == Packed(count);
  }

  /** The entries of a record whose head and count have been read. */
  method ReadEntries(rec: Bytes, start: nat, count: nat, max: nat) returns (r: Result<map<Bytes, Bytes>>, ghost done: seq<Entry>)
    requires start <= |rec| && count <= MAX_ENTRIES && max >= MAX_BYTES
    requires rec[..start] == Head() + (Packed(count) + Entries([]))
    requires forall es :: Encodes(es, rec) ==> Reading(es, [], count, rec[start..])
    ensures r.Ok? ==> Encodes(done, rec) && r.value == MapOf(done)
    ensures forall es :: Encodes(es, rec) ==> r == Ok(MapOf(es))
  {
    hide Packed, Framed, IsUtf8, Entries;
    var cat: map<Bytes, Bytes>, pos, i := map[], start, 0;
    done := [];
    while i < count
      invariant 0 <= i <= count && start <= pos <= |rec| && |done| == i && cat == MapOf(done) && Listable(done)
      invariant rec[..pos] == Head() + (Packed(count) + Entries(done))
      invariant forall es :: Encodes(es, rec) ==> Reading(es, done, count, rec[pos..])
    {
      var key, value, p, q;
      key, p := ReadString(rec, pos, max);
      value, q := Err, p;
      if key.Ok? {
        value, q := ReadString(rec, p, max);
      }
      forall es | Encodes(es, rec)
        ensures key.Ok? && value.Ok? && Reading(es, done + [Entry(key.value, value.value)], count, rec[q..]) && key.value !in cat
      {
        NextRead(rec, es, done, count, pos, key, p, value, q);
      }
      if key.Err? || value.Err? || key.value in cat {
        return Err, done;
      }
      EntryRead(rec, done, count, pos, p, q, Entry(key.value, value.value));
      cat := cat[key.value := value.value];
      done := done + [Entry(key.value, value.value)];
      pos, i := q, i + 1;
    }
    forall es | Encodes(es, rec) ensures pos == |rec| && es == done {
      AllRead(rec, es, done, count, pos);
    }
    if pos != |rec| {
      return Err, done;
    }
    assert rec[..pos] == rec;
    r := Ok(cat);
  }

  lemma ListableFits()
    ensures forall es :: Listable(es) ==> |es| <= MAX_ENTRIES
  {
  }

  lemma NextRead(rec: Bytes, es: seq<Entry>, done: seq<Entry>, count: nat, pos: nat,
                 key: Result<Bytes>, p: nat, value: Result<Bytes>, q: nat)
    requires Encodes(es, rec) && pos <= |rec| && Reading(es, done, count, rec[pos..]) && |done| < count && pos <= p <= |rec| && p <= q <= |rec|
    requires Reads(rec, pos, key, p) && (key.Ok? ==> Reads(rec, p, value, q))
    ensures key.Ok? && value.Ok? && Reading(es, done + [Entry(key.value, value.value)], count, rec[q..]) && key.value !in MapOf(done)
  {
    hide Framed, IsUtf8, Entries, Listable, Head, Packed, MapOf, Reads, Reading;
    ReadingStep(es, done, count, rec[pos..]);
    ReadingMore(es, done, count, rec[pos..]);
    var e := es[|done|];
    ReadsIt(rec, pos, key, p, e.key);
    Dropped(rec, pos, |Framed(e.key)|);
    ReadsIt(rec, p, value, q, e.value);
    Dropped(rec, p, |Framed(e.value)|);
    MapOfKeys(done);
  }

  lemma ReadingMore(es: seq<Entry>, done: seq<Entry>, count: nat, tail: Bytes)
    requires Reading(es, done, count, tail)
    ensures |es| == count && |done| <= |es|
  {
  }

  lemma ReadsIt(rec: Bytes, start: nat, r: Result<Bytes>, pos: nat, b: Bytes)
    requires start <= |rec| && Reads(rec, start, r, pos) && |b| < U64 && IsUtf8(b) && Framed(b) <= rec[start..]
    ensures r == Ok(b) && pos == start + |Framed(b)|
  {
  }

  lemma Dropped(rec: Bytes, pos: nat, n: nat)
    requires pos + n <= |rec|
    ensures rec[pos..][n..] == rec[pos + n..]
  {
  }

  lemma MapOfAppend(done: seq<Entry>, e: Entry)
    ensures MapOf(done + [e]) == MapOf(done)[e.key := e.value]
  {
    assert (done + [e])[..|done|] == done;
  }

  lemma ListableMore(done: seq<Entry>, e: Entry)
    requires Listable(done) && |done| < MAX_ENTRIES && e.key !in MapOf(done)
    requires IsUtf8(e.key) && IsUtf8(e.value) && |e.key| < U64 && |e.value| < U64
    ensures Listable(done + [e]) && MapOf(done + [e]) == MapOf(done)[e.key := e.value]
  {
    hide IsUtf8, MapOf;
    MapOfAppend(done, e);
    MapOfKeys(done);
    forall i | 0 <= i < |done| ensures done[i].key != e.key {
      assert done[i].key in MapOf(done);
    }
  }

  lemma Regroup4(a: Bytes, b: Bytes, c: Bytes, d: Bytes)
    ensures (a + (b + c)) + d == a + (b + (c + d))
  {
    Assoc(a, b + c, d);
    Assoc(b, c, d);
  }

  lemma EntryRead(rec: Bytes, done: seq<Entry>, count: nat, pos: nat, p: nat, q: nat, e: Entry)
    requires pos <= p <= q <= |rec| && rec[..pos] == Head() + (Packed(count) + Entries(done)) && |done| < MAX_ENTRIES
    requires rec[pos..p] == Framed(e.key) && rec[p..q] == Framed(e.value) && Listable(done) && e.key !in MapOf(done)
    requires IsUtf8(e.key) && IsUtf8(e.value) && |e.key| < U64 && |e.value| < U64
    ensures rec[..q] == Head() + (Packed(count) + Entries(done + [e])) && Listable(done + [e])
    ensures MapOf(done + [e]) == MapOf(done)[e.key := e.value]
  {
    hide Framed, IsUtf8, Packed, Head, Entries, Listable, MapOf;
    EntriesAppend(done, e);
    Slices(rec, pos, p, q);
    Regroup4(Head(), Packed(count), Entries(done), Framed(e.key) + Framed(e.value));
    ListableMore(done, e);
  }

  lemma Slices(rec: Bytes, pos: nat, p: nat, q: nat)
    requires pos <= p <= q <= |rec|
    ensures rec[..q] == rec[..pos] + (rec[pos..p] + rec[p..q])
  {
  }

  lemma AllRead(rec: Bytes, es: seq<Entry>, done: seq<Entry>, count: nat, pos: nat)
    requires pos <= |rec| && Reading(es, done, count, rec[pos..]) && |done| == count
    ensures pos == |rec| && es == done
  {
  }

  // ---------- writing ----------

  /** Lengths are cut to 32 bits. */
  function Written(b: Bytes): Bytes {
    Packed(|b| % U32) + b
  }

  /** No length is cut. */
  ghost predicate Short(es: seq<Entry>) {
    |es| < U32 && forall i :: 0 <= i < |es| ==> |es[i].key| < U32 && |es[i].value| < U32
  }

  method Serialize(es: seq<Entry>) returns (out: Bytes)
    ensures Short(es) ==> out == Head() + (Packed(|es|) + Entries(es))
  {
    hide Packed, Entries, Framed, Short;
    out := BigEndian(4, MAGIC) + BigEndian(4, VERSION) + [REPR_INLINE] + Packed(|es| % U32);
    StartsWith(es);
    hide Head, BigEndian, Written;
    var i := 0;
    while i < |es|
      invariant 0 <= i <= |es| && (Short(es) ==> out == Head() + (Packed(|es|) + Entries(es[..i])))
    {
      EntriesAppend(es[..i], es[i]);
      assert es[..i] + [es[i]] == es[..i + 1];
      Joined(es, i);
      Regroup4(Head(), Packed(|es|), Entries(es[..i]), Written(es[i].key) + Written(es[i].value));
      Assoc(out, Written(es[i].key), Written(es[i].value));
      out := out + Written(es[i].key) + Written(es[i].value);
      i := i + 1;
    }
    assert es[..i] == es;
  }

  lemma StartsWith(es: seq<Entry>)
    ensures Short(es) ==> Packed(|es| % U32) == Packed(|es|) + Entries(es[..0])
  {
    assert Packed(|es|) + [] == Packed(|es|);
  }

  lemma Joined(es: seq<Entry>, i: nat)
    requires i < |es|
    ensures Short(es) ==> Written(es[i].key) == Framed(es[i].key) && Written(es[i].value) == Framed(es[i].value)
  {
    hide Packed;
  }

  /**
   Total on arbitrary bytes: accepts exactly the encodings of listable entries, and
   answers with the map they list.
   */
  method Deserialize(rec: Bytes) returns (r: Result<map<Bytes, Bytes>>, ghost done: seq<Entry>)
    ensures r.Ok? ==> Encodes(done, rec) && r.value == MapOf(done)
    ensures forall es :: Encodes(es, rec) ==> r == Ok(MapOf(es))
  {
    r, done := ReadRecord(rec, MAX_BYTES);
  }

  /** Decoding inverts encoding for every catalog within the size limits. */
  method RoundTrip(es: seq<Entry>) returns (r: Result<map<Bytes, Bytes>>)
    requires Listable(es) && Short(es)
    ensures r == Ok(MapOf(es))
  {
    var rec := Serialize(es);
    ghost var done;
    r, done := Deserialize(rec);
    assert Encodes(es, rec);
  }
}

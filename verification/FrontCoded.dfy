/**
 Front-coded groups of byte strings.  An entry stores how many leading bytes it shares
 with its predecessor and the rest; every sixteenth entry is a restart that shares
 nothing, and a table holds the restarts' offsets.  Groups are searched and read on the
 bytes, without decoding the whole group.
 */
module FrontCoded {
  import opened Basics
  import opened ByteStrings
  import opened PackedLong

  const K: nat := 16            // a restart every K entries
  const U32: int := 0x1_0000_0000
  const I32: int := 0x8000_0000
  const INT_BYTES: nat := 5

  // ---------- what is written ----------

  function CommonPrefix(a: Bytes, b: Bytes): (n: nat)
    ensures n <= |a| && n <= |b| && a[..n] == b[..n] && (n < |a| && n < |b| ==> a[n] != b[n])
  {
    if a == [] || b == [] || a[0] != b[0] then 0
    else
      var n := CommonPrefix(a[1..], b[1..]);
      assert a[..n + 1] == [a[0]] + a[1..][..n] && b[..n + 1] == [b[0]] + b[1..][..n];
      n + 1
  }

  function Shared(g: seq<Bytes>, i: nat): (n: nat)
    requires i < |g|
    ensures n <= |g[i]| && (n > 0 ==> i > 0 && n <= |g[i - 1]| && g[i - 1][..n] == g[i][..n])
  {
    if i % K == 0 then 0 else CommonPrefix(g[i - 1], g[i])
  }

  /** Entry `i`: shared length, length of the rest, the rest. */
  function Coded(g: seq<Bytes>, i: nat): Bytes
    requires i < |g|
  {
    var n := Shared(g, i);
    Packed(n) + (Packed(|g[i]| - n) + g[i][n..])
  }

  /** The first `n` entries. */
  function Blob(g: seq<Bytes>, n: nat): Bytes
    requires n <= |g|
  {
    if n == 0 then [] else Blob(g, n - 1) + Coded(g, n - 1)
  }

  function Restarts(count: nat): nat {
    count / K + (if count % K == 0 then 0 else 1)
  }

  /** Offsets of the first `n` restarts. */
  function Table(g: seq<Bytes>, n: nat): (t: Bytes)
    requires n <= Restarts(|g|)
    ensures |t| == 4 * n
  {
    if n == 0 then [] else Table(g, n - 1) + BigEndian(4, |Blob(g, (n - 1) * K)|)
  }

  function Serialized(g: seq<Bytes>): Bytes {
    BigEndian(4, |Blob(g, |g|)|) + (Table(g, Restarts(|g|)) + Blob(g, |g|))
  }

  /** The group's bytes fit the format's signed 32-bit lengths. */
  ghost predicate Small(g: seq<Bytes>) {
    |Blob(g, |g|)| < I32
  }

  // ---------- where things are ----------

  lemma {:induction false} BlobPrefix(g: seq<Bytes>, i: nat, n: nat)
    requires i <= n <= |g|
    ensures Blob(g, i) <= Blob(g, n)
    decreases n - i
  {
    hide Coded;
    if i < n {
      BlobPrefix(g, i, n - 1);
    }
  }

  lemma {:induction false} TablePrefix(g: seq<Bytes>, i: nat, n: nat)
    requires i <= n <= Restarts(|g|)
    ensures Table(g, i) <= Table(g, n)
    decreases n - i
  {
    hide Blob, BigEndian;
    if i < n {
      TablePrefix(g, i, n - 1);
    }
  }

  lemma EntryInBlob(g: seq<Bytes>, i: nat)
    requires i < |g|
    ensures |Blob(g, i)| + |Coded(g, i)| == |Blob(g, i + 1)| <= |Blob(g, |g|)|
    ensures Blob(g, |g|)[|Blob(g, i)|..|Blob(g, i + 1)|] == Coded(g, i)
  {
    hide Coded;
    BlobPrefix(g, i + 1, |g|);
    assert Blob(g, i + 1) == Blob(g, i) + Coded(g, i);
    assert Blob(g, |g|)[..|Blob(g, i + 1)|] == Blob(g, i + 1);
  }

  lemma OffsetInTable(g: seq<Bytes>, r: nat)
    requires r < Restarts(|g|)
    ensures r * K < |g|
    ensures Table(g, Restarts(|g|))[4 * r..4 * r + 4] == BigEndian(4, |Blob(g, r * K)|)
  {
    hide Blob, BigEndian;
    TablePrefix(g, r + 1, Restarts(|g|));
    assert Table(g, r + 1) == Table(g, r) + BigEndian(4, |Blob(g, r * K)|);
    assert Table(g, Restarts(|g|))[..4 * r + 4] == Table(g, r + 1);
  }

  lemma CodedLength(g: seq<Bytes>, i: nat)
    requires i < |g|
    ensures |Coded(g, i)| >= |g[i]| - Shared(g, i)
  {
  }

  /** Front-coding never stores less than an element is long. */
  lemma {:induction false} ElementFits(g: seq<Bytes>, i: nat)
    requires i < |g|
    ensures Shared(g, i) <= |g[i]| <= |Blob(g, i + 1)|
    decreases i
  {
    hide Coded;
    CodedLength(g, i);
    assert |Blob(g, i + 1)| == |Blob(g, i)| + |Coded(g, i)|;
    if i % K != 0 {
      ElementFits(g, i - 1);
    }
  }

  lemma LengthsFit(g: seq<Bytes>, i: nat)
    requires Small(g) && i < |g|
    ensures |Blob(g, i)| < I32 && |g[i]| < I32 && Shared(g, i) <= |g[i]|
  {
    hide Coded;
    EntryInBlob(g, i);
    ElementFits(g, i);
  }

  // ---------- reading one entry ----------

  /** A packed int is the low 32 bits, taken as signed. */
  function AsI32(x: nat): int {
    if x % U32 >= I32 then x % U32 - U32 else x % U32
  }

  /** A number read, and where it ends. */
  datatype Num = Num(value: int, pos: nat)

  function IntAt(input: Bytes, pos: nat): (r: Result<Num>)
    requires pos <= |input|
    ensures r.Ok? ==> pos < r.value.pos <= |input|
  {
    match Unpacked(0, input[pos..], INT_BYTES)
    case Ok(x) => Ok(Num(AsI32(x.value), pos + x.used))
    case Err => Err
  }

  method UnpackInt(input: Bytes, start: nat) returns (r: Result<int>, pos: nat)
    requires start <= |input|
    ensures start <= pos <= |input|
    ensures if r.Ok? then IntAt(input, start) == Ok(Num(r.value, pos)) else IntAt(input, start) == Err
  {
    hide Unpacked;
    var x;
    x, pos := UnpackCapped(input, start, INT_BYTES);
    r := if x.Ok? then Ok(AsI32(x.value)) else Err;
  }

  /** A packed value that fits is read back. */
  lemma IntPacked(input: Bytes, pos: nat, v: nat)
    requires pos <= |input| && v < I32 && Packed(v) <= input[pos..]
    ensures IntAt(input, pos) == Ok(Num(v, pos + |Packed(v)|))
  {
    hide Packed, Unpacked;
    UnpackIntInverts(input[pos..], v);
  }

  lemma UnpackIntInverts(s: Bytes, v: nat)
    requires v < I32 && Packed(v) <= s
    ensures Unpacked(0, s, INT_BYTES) == Ok(Read(v, |Packed(v)|)) && AsI32(v) == v
  {
    hide Packed, Unpacked;
    assert s == Packed(v) + s[|Packed(v)|..];
    FiveBytes(v);
    UnpackInvertsWithin(v, s[|Packed(v)|..], INT_BYTES);
  }

  function Least(a: nat, b: nat): nat {
    if a < b then a else b
  }

  /** `s` begins with an entry that turns `prev` into `e`. */
  ghost predicate EntryFor(s: Bytes, prev: Bytes, e: Bytes, n: nat) {
    && n <= |e| < I32 && n <= |prev| && prev[..n] == e[..n]
    && Packed(n) + (Packed(|e| - n) + e[n..]) <= s
  }

  /** An entry read, and where it ends. */
  datatype Item = Item(bytes: Bytes, pos: nat)

  /** The entry at `pos` after entry `prev`, as far as the bytes say. */
  function EntryRead(input: Bytes, prev: Bytes, pos: nat, end: nat, restart: bool): (r: Result<Item>)
    requires pos <= |input|
    ensures r.Ok? ==> pos <= r.value.pos <= |input| && r.value.pos <= end
  {
    match IntAt(input, pos)
    case Err => Err
    case Ok(shared) =>
      if shared.value < 0 || (if restart then shared.value != 0 else shared.value > |prev|) then Err
      else
        match IntAt(input, shared.pos)
        case Err => Err
        case Ok(len) =>
          if len.value < 0 || len.pos + len.value > end || len.pos + len.value > |input| then Err
          else Ok(Item((if restart then [] else prev[..shared.value]) + input[len.pos..len.pos + len.value], len.pos + len.value))
  }

  /** Decode one entry onto `scratch`, which holds the previous one; `e` is the entry that may have been coded there. */
  method ReadEntry(input: Bytes, scratch: Bytes, start: nat, end: nat, restart: bool, ghost e: Bytes, ghost n: nat)
    returns (r: Result<Bytes>, pos: nat)
    requires start <= |input|
    ensures start <= pos <= |input| && (r.Ok? ==> pos <= end)
    ensures start <= Least(end, |input|) && EntryFor(input[start..Least(end, |input|)], scratch, e, n) && (restart ==> n == 0) ==>
              r == Ok(e) && pos == start + |Packed(n)| + |Packed(|e| - n)| + (|e| - n)
    ensures if r.Ok? then EntryRead(input, scratch, start, end, restart) == Ok(Item(r.value, pos))
            else EntryRead(input, scratch, start, end, restart) == Err
  {
    hide Packed, IntAt, EntryFor;
    if start <= Least(end, |input|) && EntryFor(input[start..Least(end, |input|)], scratch, e, n) && (restart ==> n == 0) {
      EntryCoded(input, scratch, start, end, restart, e, n);
    }
    var shared, len, p;
    shared, p := UnpackInt(input, start);
    if shared.Err? || shared.value < 0 || (if restart then shared.value != 0 else shared.value > |scratch|) {
      return Err, p;
    }
    len, pos := UnpackInt(input, p);
    if len.Err? || len.value < 0 || pos + len.value > end || pos + len.value > |input| {
      return Err, pos;
    }
    r := Ok((if restart then [] else scratch[..shared.value]) + input[pos..pos + len.value]);
    pos := pos + len.value;
  }

  /** A coded entry is read back. */
  lemma EntryCoded(input: Bytes, prev: Bytes, pos: nat, end: nat, restart: bool, e: Bytes, n: nat)
    requires pos <= Least(end, |input|) && EntryFor(input[pos..Least(end, |input|)], prev, e, n) && (restart ==> n == 0)
    ensures EntryRead(input, prev, pos, end, restart) == Ok(Item(e, pos + |Packed(n)| + |Packed(|e| - n)| + (|e| - n)))
  {
    hide Packed, IntAt, EntryFor;
    EntryParts(input, pos, Least(end, |input|), prev, e, n);
    IntPacked(input, pos, n);
    IntPacked(input, pos + |Packed(n)|, |e| - n);
    assert restart ==> [] + e[n..] == e;
  }

  lemma SliceOf(input: Bytes, start: nat, end: nat, i: nat, j: nat)
    requires start <= end <= |input| && i <= j <= end - start
    ensures input[start..end][i..j] == input[start + i..start + j]
    ensures input[start + i..start + j] <= input[start + i..]
  {
    var s, a, b := input[start..end], input[start + i..start + j], input[start + i..];
    assert |a| == j - i <= |b| && b[..|a|] == a;
    assert forall k :: 0 <= k < j - i ==> s[i..j][k] == s[i + k] == a[k];
    assert s[i..j] == a;
  }

  lemma EntryParts(input: Bytes, start: nat, end: nat, prev: Bytes, e: Bytes, n: nat)
    requires start <= end <= |input| && EntryFor(input[start..end], prev, e, n)
    ensures n <= |e| < I32 && n <= |prev| && prev[..n] + e[n..] == e
    ensures Packed(n) <= input[start..]
    ensures start + |Packed(n)| <= |input| && Packed(|e| - n) <= input[start + |Packed(n)|..]
    ensures var pos := start + |Packed(n)| + |Packed(|e| - n)|;
            pos + (|e| - n) <= end && input[pos..pos + (|e| - n)] == e[n..]
  {
    hide Packed;
    var a, b, c, s := Packed(n), Packed(|e| - n), e[n..], input[start..end];
    var i, j, k := |a|, |a| + |b|, |a| + |b| + |c|;
    assert s == (a + (b + c)) + s[k..];
    assert s[0..i] == a && s[i..j] == b && s[j..k] == c;
    SliceOf(input, start, end, 0, i);
    SliceOf(input, start, end, i, j);
    SliceOf(input, start, end, j, k);
    assert e[..n] + e[n..] == e;
  }

  // ---------- a serialized group inside some input ----------

  ghost predicate Holds(input: Bytes, start: nat, g: seq<Bytes>) {
    start + |Serialized(g)| <= |input| && input[start..start + |Serialized(g)|] == Serialized(g) && Small(g)
  }

  /** First byte of the entries. */
  function BlobBase(start: nat, count: nat): (b: nat)
    ensures b >= start + 4
  {
    start + 4 + 4 * Restarts(count)
  }

  lemma Layout(input: Bytes, start: nat, g: seq<Bytes>)
    requires Holds(input, start, g)
    ensures var base, n := BlobBase(start, |g|), |Blob(g, |g|)|;
            && base + n == start + |Serialized(g)| <= |input| && n < I32
            && input[start..start + 4] == BigEndian(4, n)
            && input[start + 4..base] == Table(g, Restarts(|g|))
            && input[base..base + n] == Blob(g, |g|)
  {
    hide Blob, Table, BigEndian;
    var s, n, m := Serialized(g), |Blob(g, |g|)|, 4 * Restarts(|g|);
    var end := start + |s|;
    assert s[0..4] == BigEndian(4, n) && s[4..4 + m] == Table(g, Restarts(|g|)) && s[4 + m..4 + m + n] == Blob(g, |g|);
    SliceOf(input, start, end, 0, 4);
    SliceOf(input, start, end, 4, 4 + m);
    SliceOf(input, start, end, 4 + m, 4 + m + n);
  }

  lemma OffsetAt(input: Bytes, start: nat, g: seq<Bytes>, r: nat)
    requires Holds(input, start, g) && r < Restarts(|g|)
    ensures r * K < |g| && start + 4 + 4 * r + 4 <= |input|
    ensures input[start + 4 + 4 * r..start + 4 + 4 * r + 4] == BigEndian(4, |Blob(g, r * K)|)
    ensures |Blob(g, r * K)| <= |Blob(g, |g|)| && |Blob(g, r * K)| < I32
  {
    hide Blob, Table, BigEndian;
    Layout(input, start, g);
    OffsetInTable(g, r);
    BlobPrefix(g, r * K, |g|);
    SliceOf(input, start + 4, BlobBase(start, |g|), 4 * r, 4 * r + 4);
  }

  lemma EntryAt(input: Bytes, start: nat, g: seq<Bytes>, i: nat, prev: Bytes)
    requires Holds(input, start, g) && i < |g| && (Shared(g, i) > 0 ==> i > 0 && prev == g[i - 1])
    ensures var base, n := BlobBase(start, |g|), |Blob(g, |g|)|;
            && base + |Blob(g, i)| <= base + n <= |input|
            && EntryFor(input[base + |Blob(g, i)|..base + n], prev, g[i], Shared(g, i))
            && |Blob(g, i + 1)| == |Blob(g, i)| + |Packed(Shared(g, i))| + |Packed(|g[i]| - Shared(g, i))| + (|g[i]| - Shared(g, i))
            && |Blob(g, i + 1)| <= n
  {
    hide Blob, Table, BigEndian, Packed, Shared;
    Layout(input, start, g);
    EntryInBlob(g, i);
    LengthsFit(g, i);
    var base, n := BlobBase(start, |g|), |Blob(g, |g|)|;
    var a, b := |Blob(g, i)|, |Blob(g, i + 1)|;
    SliceOf(input, base, base + n, a, b);
    var s := input[base + a..base + n];
    assert input[base + a..base + b] == s[..b - a];
    assert Coded(g, i) <= s;
  }

  /** The bytes of a number that fits a signed 32-bit integer read back. */
  lemma OffsetReads(x: nat)
    requires x < I32
    ensures FromBigEndian(BigEndian(4, x)) == x
  {
    assert Pow256(1) == 256 && Pow256(2) == 65536 && Pow256(3) == 0x100_0000 && Pow256(4) == 0x1_0000_0000;
    BigEndianInverse(4, x);
  }

  // ---------- searching a decoded group ----------

  datatype Found = At(i: nat) | Missing(i: nat)

  ghost predicate Ascending(g: seq<Bytes>) {
    forall i, j :: 0 <= i < j < |g| ==> Compare(g[i], g[j]) == Less
  }

  /** Where `key` is in a group, or where it would have to be inserted. */
  ghost predicate SearchOk(g: seq<Bytes>, key: Bytes, f: Found) {
    match f
    case At(i) => i < |g| && g[i] == key
    case Missing(i) =>
      && i <= |g| && (forall j :: 0 <= j < i ==> Compare(g[j], key) == Less)
      && (forall j :: i <= j < |g| ==> Compare(g[j], key) == Greater)
  }

  lemma {:induction false} CompareFlips(a: seq<int>, b: seq<int>)
    ensures Compare(b, a) == Flip(Compare(a, b))
  {
    if a != [] && b != [] && a[0] == b[0] {
      CompareFlips(a[1..], b[1..]);
    }
  }

  lemma {:induction false} CompareTrans(a: seq<int>, b: seq<int>, c: seq<int>)
    requires Compare(a, b) == Less && Compare(b, c) != Greater
    ensures Compare(a, c) == Less
  {
    if a != [] && b != [] && c != [] && a[0] == b[0] == c[0] {
      CompareTrans(a[1..], b[1..], c[1..]);
    }
  }

  /** Everything before an element not above `key` is below it; everything after one not below is above. */
  lemma OrderAround(g: seq<Bytes>, key: Bytes, m: nat)
    requires Ascending(g) && m < |g|
    ensures Compare(g[m], key) != Greater ==> forall j :: 0 <= j < m ==> Compare(g[j], key) == Less
    ensures Compare(g[m], key) != Less ==> forall j :: m < j < |g| ==> Compare(g[j], key) == Greater
  {
    forall j | 0 <= j < m && Compare(g[m], key) != Greater ensures Compare(g[j], key) == Less {
      CompareTrans(g[j], g[m], key);
    }
    forall j | m < j < |g| && Compare(g[m], key) != Less ensures Compare(g[j], key) == Greater {
      CompareFlips(g[m], key);
      CompareFlips(g[j], key);
      CompareFlips(g[m], g[j]);
      if Compare(g[m], key) == Equal {
        CompareEqual(g[m], key);
      } else {
        CompareTrans(key, g[m], g[j]);
      }
    }
  }

  /** In an ascending group the answer is unique. */
  lemma SearchUnique(g: seq<Bytes>, key: Bytes, f: Found, h: Found)
    requires Ascending(g) && SearchOk(g, key, f) && SearchOk(g, key, h)
    ensures f == h
  {
    CompareEqual(key, key);
    assert f.At? ==> Compare(g[f.i], key) == Equal;
    assert h.At? ==> Compare(g[h.i], key) == Equal;
    assert f.Missing? && f.i < |g| ==> Compare(g[f.i], key) == Greater;
    assert h.Missing? && h.i < |g| ==> Compare(g[h.i], key) == Greater;
    forall i, j | 0 <= i < j < |g| ensures g[i] != g[j] {
      CompareEqual(g[i], g[j]);
    }
  }

  /** Plain binary search over the decoded group. */
  method Search(g: seq<Bytes>, key: Bytes) returns (f: Found)
    ensures Ascending(g) ==> SearchOk(g, key, f)
  {
    hide Compare;
    var lo, hi := 0, |g| - 1;
    while lo <= hi
      invariant 0 <= lo <= hi + 1 <= |g|
      invariant Ascending(g) ==> (forall j :: 0 <= j < lo ==> Compare(g[j], key) == Less)
      invariant Ascending(g) ==> (forall j :: hi < j < |g| ==> Compare(g[j], key) == Greater)
    {
      var mid := (lo + hi) / 2;
      if Ascending(g) {
        OrderAround(g, key, mid);
      }
      match Compare(g[mid], key) {
        case Equal =>
          CompareEqual(g[mid], key);
          return At(mid);
        case Less => lo := mid + 1;
        case Greater => hi := mid - 1;
      }
    }
    f := Missing(lo);
  }

  // ---------- reading on the bytes ----------

  function I32At(input: Bytes, pos: nat): Result<int> {
    if pos + 4 > |input| then Err else Ok(AsI32(FromBigEndian(input[pos..pos + 4])))
  }

  method ReadI32(input: Bytes, pos: nat) returns (r: Result<int>)
    ensures r.Ok? <==> pos + 4 <= |input|
    ensures forall x: nat :: x < I32 && pos + 4 <= |input| && input[pos..pos + 4] == BigEndian(4, x) ==> r == Ok(x)
    ensures r == I32At(input, pos)
  {
    hide BigEndian, FromBigEndian;
    if pos + 4 > |input| {
      return Err;
    }
    var x := FromBigEndian(input[pos..pos + 4]);
    r := Ok(AsI32(x));
    forall y: nat | y < I32 && input[pos..pos + 4] == BigEndian(4, y) ensures r == Ok(y) {
      OffsetReads(y);
    }
  }

  /** The group `g` that may be stored at `start`. */
  ghost predicate Stored(input: Bytes, start: nat, count: nat, g: seq<Bytes>) {
    Holds(input, start, g) && |g| == count
  }

  /** A group of `count` elements at `start` that declares `len` bytes of entries. */
  datatype View = View(input: Bytes, start: nat, count: nat, len: nat)

  function Base(v: View): nat {
    BlobBase(v.start, v.count)
  }

  function End(v: View): nat {
    Base(v) + v.len
  }

  /** Where the table says restart `r` is. */
  function OffsetOf(v: View, r: nat): (p: Result<nat>)
    ensures p.Ok? ==> p.value <= |v.input| && p.value <= End(v)
  {
    match I32At(v.input, v.start + 4 + 4 * r)
    case Err => Err
    case Ok(off) => if off < 0 || off > v.len || Base(v) + off > |v.input| then Err else Ok(Base(v) + off)
  }

  /** Entry `j` counted from restart `r`. */
  function Rolled(v: View, r: nat, j: nat): (i: Result<Item>)
    ensures i.Ok? ==> i.value.pos <= |v.input| && i.value.pos <= End(v)
    decreases j
  {
    if j == 0 then
      match OffsetOf(v, r)
      case Ok(p) => EntryRead(v.input, [], p, End(v), true)
      case Err => Err
    else
      match Rolled(v, r, j - 1)
      case Ok(i) => EntryRead(v.input, i.bytes, i.pos, End(v), false)
      case Err => Err
  }

  lemma RolledUnfolds(v: View, r: nat, j: nat)
    ensures Rolled(v, r, j) ==
              if j == 0 then (if OffsetOf(v, r).Ok? then EntryRead(v.input, [], OffsetOf(v, r).value, End(v), true) else Err)
              else if Rolled(v, r, j - 1).Ok?
              then EntryRead(v.input, Rolled(v, r, j - 1).value.bytes, Rolled(v, r, j - 1).value.pos, End(v), false)
              else Err
  {
  }

  /** Once an entry cannot be read, none after it can. */
  lemma {:induction false} RolledStuck(v: View, r: nat, i: nat, j: nat)
    requires i <= j && Rolled(v, r, i).Err?
    ensures Rolled(v, r, j).Err?
    decreases j
  {
    hide EntryRead, OffsetOf;
    if i < j {
      RolledStuck(v, r, i, j - 1);
    }
  }

  /** Only the first entry of an interval shares nothing by position. */
  lemma Restarted(g: seq<Bytes>, i: nat, from: nat)
    requires from % K == 0 && from <= i < from + K && i < |g|
    ensures i == from ==> Shared(g, i) == 0
  {
  }

  /** What a read of element `pos` answers. */
  function Gotten(input: Bytes, start: nat, count: nat, pos: nat): Result<Bytes> {
    match I32At(input, start)
    case Err => Err
    case Ok(len) =>
      if len < 0 || pos >= count then Err
      else
        var v := View(input, start, count, len);
        match Rolled(v, pos / K, pos % K)
        case Ok(i) => if End(v) > |input| then Err else Ok(i.bytes)
        case Err => Err
  }

  /** Comparing `len` bytes in place, of which only those looked at must be there. */
  function InPlace(input: Bytes, pos: nat, len: nat, key: Bytes): Result<Order>
    decreases len
  {
    if len == 0 || key == [] then Ok(CompareInts(len, |key|))
    else if pos >= |input| then Err
    else if input[pos] != key[0] then Ok(CompareInts(input[pos], key[0]))
    else InPlace(input, pos + 1, len - 1, key[1..])
  }

  function RestartOrder(v: View, r: nat, key: Bytes): Result<Order> {
    match OffsetOf(v, r)
    case Err => Err
    case Ok(p) =>
      match IntAt(v.input, p)
      case Err => Err
      case Ok(shared) =>
        if shared.value != 0 then Err
        else
          match IntAt(v.input, shared.pos)
          case Err => Err
          case Ok(len) => if len.value < 0 || len.pos + len.value > End(v) then Err else InPlace(v.input, len.pos, len.value, key)
  }

  ghost predicate AllLess(g: seq<Bytes>, key: Bytes, n: int) {
    forall j :: 0 <= j < n && j < |g| ==> Compare(g[j], key) == Less
  }

  ghost predicate AllGreater(g: seq<Bytes>, key: Bytes, n: int) {
    forall j :: 0 <= n <= j < |g| ==> Compare(g[j], key) == Greater
  }

  /** The bisection of the restarts, all below `lo` being not above the key and all above `hi` being above it. */
  function Bisected(v: View, key: Bytes, lo: nat, hi: int): (r: Result<int>)
    requires lo <= hi + 1
    ensures r.Ok? ==> lo - 1 <= r.value <= hi
    decreases hi + 1 - lo
  {
    if lo > hi then Ok(lo - 1)
    else
      var mid := (lo + hi) / 2;
      match RestartOrder(v, mid, key)
      case Err => Err
      case Ok(c) => if c != Greater then Bisected(v, key, mid + 1, hi) else Bisected(v, key, lo, mid - 1)
  }

  /** The scan of an interval from entry `i` on. */
  function Scanned(v: View, key: Bytes, from: nat, i: nat, limit: nat): (f: Result<Found>)
    requires from <= i <= limit
    ensures f.Ok? ==> i <= f.value.i <= limit
    decreases limit - i
  {
    if i == limit then Ok(Missing(limit))
    else
      match Rolled(v, from / K, i - from)
      case Err => Err
      case Ok(e) =>
        match Compare(e.bytes, key)
        case Equal => Ok(At(i))
        case Greater => Ok(Missing(i))
        case Less => Scanned(v, key, from, i + 1, limit)
  }

  /** What a search answers. */
  function Searched(input: Bytes, start: nat, count: nat, key: Bytes): (f: Result<Found>)
    ensures f.Ok? ==> f.value.i <= count
    ensures f.Ok? ==> I32At(input, start).Ok? && 0 <= I32At(input, start).value <= |input| - BlobBase(start, count)
  {
    match I32At(input, start)
    case Err => Err
    case Ok(len) =>
      if len < 0 then Err
      else
        var v := View(input, start, count, len);
        match Bisected(v, key, 0, Restarts(count) - 1)
        case Err => Err
        case Ok(r) => if End(v) > |input| then Err else if r < 0 then Ok(Missing(0)) else Scanned(v, key, r * K, r * K, Least(r * K + K, count))
  }

  // ---------- groups that can be searched ----------

  /** Element `i`, counted from its restart, is read as `g[i]`. */
  ghost predicate Reads(v: View, g: seq<Bytes>, i: nat)
    requires i < |g|
  {
    var e := Rolled(v, i / K, i % K);
    e.Ok? && e.value.bytes == g[i]
  }

  /** The declared end lies within the input, and the entries read from every restart are those of `g`. */
  ghost predicate Indexed(v: View, g: seq<Bytes>) {
    && |g| == v.count && End(v) <= |v.input|
    && forall i {:trigger Reads(v, g, i)} :: 0 <= i < |g| ==> Reads(v, g, i)
  }

  ghost predicate IndexedAt(input: Bytes, start: nat, g: seq<Bytes>) {
    match I32At(input, start)
    case Err => false
    case Ok(len) => len >= 0 && Indexed(View(input, start, |g|, len), g)
  }

  lemma OffsetStored(v: View, g: seq<Bytes>, r: nat)
    requires Stored(v.input, v.start, v.count, g) && v.len == |Blob(g, |g|)| && r < Restarts(v.count)
    ensures r * K < |g| && OffsetOf(v, r) == Ok(Base(v) + |Blob(g, r * K)|)
  {
    hide Blob, Table, BigEndian, Serialized, FromBigEndian;
    OffsetAt(v.input, v.start, g, r);
    Layout(v.input, v.start, g);
    OffsetReads(|Blob(g, r * K)|);
  }

  /** The entries of a stored group are read back from each restart. */
  lemma {:induction false} StoredRolls(v: View, g: seq<Bytes>, r: nat, j: nat)
    requires Stored(v.input, v.start, v.count, g) && v.len == |Blob(g, |g|)| && r * K + j < |g| && j < K
    ensures Rolled(v, r, j) == Ok(Item(g[r * K + j], Base(v) + |Blob(g, r * K + j + 1)|))
    decreases j
  {
    hide Blob, Table, BigEndian, Serialized, Shared, Packed, EntryFor, EntryRead, OffsetOf, Rolled;
    var i := r * K + j;
    RolledUnfolds(v, r, j);
    Layout(v.input, v.start, g);
    Restarted(g, i, r * K);
    if j == 0 {
      OffsetStored(v, g, r);
      EntryAt(v.input, v.start, g, i, []);
      EntryCoded(v.input, [], Base(v) + |Blob(g, i)|, End(v), true, g[i], 0);
    } else {
      StoredRolls(v, g, r, j - 1);
      EntryAt(v.input, v.start, g, i, g[i - 1]);
      EntryCoded(v.input, g[i - 1], Base(v) + |Blob(g, i)|, End(v), false, g[i], Shared(g, i));
    }
  }

  /** A group as it is written can be searched, and declares its length. */
  lemma StoredIsIndexed(input: Bytes, start: nat, count: nat, g: seq<Bytes>)
    requires Stored(input, start, count, g)
    ensures I32At(input, start) == Ok(|Blob(g, |g|)|) && IndexedAt(input, start, g)
    ensures Indexed(View(input, start, count, |Blob(g, |g|)|), g)
    ensures End(View(input, start, count, |Blob(g, |g|)|)) == start + |Serialized(g)|
  {
    hide Blob, Table, BigEndian, Serialized, FromBigEndian, Rolled;
    Layout(input, start, g);
    OffsetReads(|Blob(g, |g|)|);
    var v := View(input, start, count, |Blob(g, |g|)|);
    forall i | 0 <= i < |g| ensures Reads(v, g, i) {
      StoredRolls(v, g, i / K, i % K);
    }
  }

  // ---------- what searching them gives ----------

  lemma {:induction false} InPlaceCompares(input: Bytes, pos: nat, len: nat, key: Bytes)
    requires pos + len <= |input|
    ensures InPlace(input, pos, len, key) == Ok(Compare(input[pos..pos + len], key))
    decreases len
  {
    var s := input[pos..pos + len];
    if len > 0 && key != [] && input[pos] == key[0] {
      assert s[1..] == input[pos + 1..pos + 1 + (len - 1)];
      InPlaceCompares(input, pos + 1, len - 1, key[1..]);
    }
  }

  /** A restart whose entry can be read is compared as that entry. */
  lemma RestartRead(v: View, r: nat, key: Bytes)
    requires Rolled(v, r, 0).Ok?
    ensures RestartOrder(v, r, key) == Ok(Compare(Rolled(v, r, 0).value.bytes, key))
  {
    hide IntAt, OffsetOf, Compare, InPlace;
    RolledUnfolds(v, r, 0);
    var shared := IntAt(v.input, OffsetOf(v, r).value).value;
    var len := IntAt(v.input, shared.pos).value;
    var s := v.input[len.pos..len.pos + len.value];
    assert [] + s == s;
    InPlaceCompares(v.input, len.pos, len.value, key);
  }

  lemma RestartFirst(v: View, g: seq<Bytes>, r: nat, key: Bytes)
    requires Indexed(v, g) && r < Restarts(v.count)
    ensures r * K < |g| && RestartOrder(v, r, key) == Ok(Compare(g[r * K], key))
  {
    hide Rolled, RestartOrder, Compare;
    assert Reads(v, g, r * K);
    RestartRead(v, r, key);
  }

  /** What the bisection finds. */
  ghost predicate Bracketed(g: seq<Bytes>, key: Bytes, r: int) {
    && r >= -1 && AllGreater(g, key, (r + 1) * K)
    && (r >= 0 ==> r * K < |g| && AllLess(g, key, r * K) && Compare(g[r * K], key) != Greater)
  }

  lemma {:induction false} IndexedBisects(v: View, g: seq<Bytes>, key: Bytes, lo: nat, hi: int)
    requires Indexed(v, g) && Ascending(g) && lo <= hi + 1 <= Restarts(v.count)
    requires AllGreater(g, key, (hi + 1) * K)
    requires lo > 0 ==> (lo - 1) * K < |g| && AllLess(g, key, (lo - 1) * K) && Compare(g[(lo - 1) * K], key) != Greater
    ensures var r := Bisected(v, key, lo, hi); r.Ok? && Bracketed(g, key, r.value)
    decreases hi + 1 - lo
  {
    hide RestartOrder, Compare, Ascending, Indexed;
    if lo <= hi {
      var mid := (lo + hi) / 2;
      RestartFirst(v, g, mid, key);
      OrderAround(g, key, mid * K);
      if Compare(g[mid * K], key) != Greater {
        IndexedBisects(v, g, key, mid + 1, hi);
      } else {
        IndexedBisects(v, g, key, lo, mid - 1);
      }
    }
  }

  lemma {:induction false} IndexedScans(v: View, g: seq<Bytes>, key: Bytes, from: nat, i: nat, limit: nat)
    requires Indexed(v, g) && Ascending(g) && from % K == 0 && from <= i <= limit <= from + K && limit <= |g|
    requires AllLess(g, key, i) && AllGreater(g, key, limit)
    ensures var f := Scanned(v, key, from, i, limit); f.Ok? && SearchOk(g, key, f.value)
    decreases limit - i
  {
    hide Rolled, Compare, Ascending;
    if i < limit {
      assert Reads(v, g, i) && i / K == from / K && i % K == i - from;
      OrderAround(g, key, i);
      CompareEqual(g[i], key);
      if Compare(g[i], key) == Less {
        IndexedScans(v, g, key, from, i + 1, limit);
      }
    }
  }

  lemma IndexedSearches(input: Bytes, start: nat, g: seq<Bytes>, key: Bytes)
    requires IndexedAt(input, start, g) && Ascending(g)
    ensures var f := Searched(input, start, |g|, key); f.Ok? && SearchOk(g, key, f.value)
  {
    hide Bisected, Scanned, Indexed, Compare, Ascending, I32At;
    var v := View(input, start, |g|, I32At(input, start).value);
    WholeIsIndexed(v, g);
    IndexedBisects(v, g, key, 0, Restarts(|g|) - 1);
    var r := Bisected(v, key, 0, Restarts(|g|) - 1).value;
    if r >= 0 {
      ScanStarts(g, key, r);
      IndexedScans(v, g, key, r * K, r * K, Least(r * K + K, |g|));
    }
  }

  lemma WholeIsIndexed(v: View, g: seq<Bytes>)
    requires Indexed(v, g)
    ensures |g| == v.count && End(v) <= |v.input|
  {
  }

  lemma ScanStarts(g: seq<Bytes>, key: Bytes, r: nat)
    requires Bracketed(g, key, r)
    ensures r * K < |g| && AllLess(g, key, r * K) && AllGreater(g, key, Least(r * K + K, |g|))
  {
    hide Compare;
  }

  // ---------- the loops ----------

  /** Position of restart `r`. */
  method SeekRestart(input: Bytes, start: nat, count: nat, blobLen: nat, r: nat, ghost g: seq<Bytes>) returns (p: Result<nat>)
    ensures p.Ok? ==> p.value <= |input| && p.value <= BlobBase(start, count) + blobLen
    ensures Stored(input, start, count, g) && r < Restarts(count) && blobLen == |Blob(g, |g|)| ==>
              r * K < |g| && p == Ok(BlobBase(start, count) + |Blob(g, r * K)|)
    ensures p == OffsetOf(View(input, start, count, blobLen), r)
  {
    hide Blob, Stored, I32At;
    if Stored(input, start, count, g) && r < Restarts(count) && blobLen == |Blob(g, |g|)| {
      OffsetStored(View(input, start, count, blobLen), g, r);
    }
    var off := ReadI32(input, start + 4 + 4 * r);
    if off.Err? || off.value < 0 || off.value > blobLen || BlobBase(start, count) + off.value > |input| {
      return Err;
    }
    p := Ok(BlobBase(start, count) + off.value);
  }

  /** Decode entries `from..to` of a restart interval, starting at its restart. */
  method RollTo(input: Bytes, start: nat, count: nat, blobLen: nat, from: nat, to: nat) returns (r: Result<Bytes>)
    requires from % K == 0 && from <= to < from + K
    ensures var i := Rolled(View(input, start, count, blobLen), from / K, to - from);
            if r.Ok? then i.Ok? && i.value.bytes == r.value else i == Err
  {
    hide Blob, Stored, EntryFor, EntryRead, OffsetOf, Rolled;
    ghost var v := View(input, start, count, blobLen);
    RolledUnfolds(v, from / K, 0);
    var p := SeekRestart(input, start, count, blobLen, from / K, []);
    if p.Err? {
      RolledStuck(v, from / K, 0, to - from);
      return Err;
    }
    var pos: nat, i: nat, scratch: Bytes, end: nat := p.value, from, [], BlobBase(start, count) + blobLen;
    while i <= to
      invariant from <= i <= to + 1 && pos <= |input|
      invariant if i == from then scratch == [] && pos == p.value else Rolled(v, from / K, i - 1 - from) == Ok(Item(scratch, pos))
    {
      RolledUnfolds(v, from / K, i - from);
      var e;
      e, pos := ReadEntry(input, scratch, pos, end, i == from, [], 0);
      if e.Err? {
        RolledStuck(v, from / K, i - from, to - from);
        return Err;
      }
      scratch := e.value;
      i := i + 1;
    }
    r := Ok(scratch);
  }

  /** Element `pos` without decoding the group; the cursor ends after the group. */
  method BinaryGet(input: Bytes, start: nat, count: nat, pos: nat, ghost g: seq<Bytes>) returns (r: Result<Bytes>, cursor: nat)
    ensures Stored(input, start, count, g) && pos < count ==> r == Ok(g[pos]) && cursor == start + |Serialized(g)|
    ensures pos >= count ==> r == Err
    ensures r == Gotten(input, start, count, pos)
  {
    hide Blob, Serialized, I32At, Rolled, Stored;
    if Stored(input, start, count, g) && pos < count {
      StoredIsIndexed(input, start, count, g);
      assert Reads(View(input, start, count, |Blob(g, |g|)|), g, pos);
    }
    cursor := start;
    var blobLen := ReadI32(input, start);
    if blobLen.Err? || blobLen.value < 0 || pos >= count {
      return Err, cursor;
    }
    r := RollTo(input, start, count, blobLen.value, pos / K * K, pos);
    var end := BlobBase(start, count) + blobLen.value;
    if r.Ok? && end > |input| {
      return Err, cursor;
    }
    cursor := end;
  }

  /** Compare the stored bytes of restart `r`, in place, with `key`. */
  method CompareRestart(input: Bytes, start: nat, count: nat, blobLen: nat, r: nat, key: Bytes, ghost g: seq<Bytes>)
    returns (o: Result<Order>)
    ensures Stored(input, start, count, g) && r < Restarts(count) && blobLen == |Blob(g, |g|)| ==>
              r * K < |g| && o == Ok(Compare(g[r * K], key))
    ensures o == RestartOrder(View(input, start, count, blobLen), r, key)
  {
    hide Blob, Stored, Compare, IntAt, OffsetOf, InPlace, Indexed;
    if Stored(input, start, count, g) && r < Restarts(count) && blobLen == |Blob(g, |g|)| {
      StoredIsIndexed(input, start, count, g);
      RestartFirst(View(input, start, count, blobLen), g, r, key);
    }
    var p := SeekRestart(input, start, count, blobLen, r, g);
    if p.Err? {
      return Err;
    }
    var shared, pos := UnpackInt(input, p.value);
    if shared != Ok(0) {
      return Err;
    }
    var len;
    len, pos := UnpackInt(input, pos);
    if len.Err? || len.value < 0 || pos + len.value > BlobBase(start, count) + blobLen {
      return Err;
    }
    o := CompareInPlace(input, pos, len.value, key);
  }

  /** Byte by byte over the common length, then by length. Only bytes that are looked at must be there. */
  method CompareInPlace(input: Bytes, pos: nat, len: nat, key: Bytes) returns (o: Result<Order>)
    ensures o == InPlace(input, pos, len, key)
    ensures pos + len <= |input| ==> o == Ok(Compare(input[pos..pos + len], key))
  {
    if pos + len <= |input| {
      InPlaceCompares(input, pos, len, key);
    }
    var n := if len < |key| then len else |key|;
    var i := 0;
    assert key[0..] == key;
    while i < n
      invariant 0 <= i <= n && InPlace(input, pos, len, key) == InPlace(input, pos + i, len - i, key[i..])
    {
      if pos + i >= |input| {
        return Err;
      }
      var a: int, b: int := input[pos + i], key[i];
      if a != b {
        return Ok(if a - b < 0 then Less else Greater);
      }
      assert key[i..][1..] == key[i + 1..];
      i := i + 1;
    }
    o := Ok(CompareInts(len, |key|));
  }

  /** The last restart not above the key, or -1. */
  method FindRestart(input: Bytes, start: nat, count: nat, blobLen: nat, key: Bytes, ghost g: seq<Bytes>) returns (r: Result<int>)
    ensures r.Ok? ==> -1 <= r.value < Restarts(count)
    ensures Indexed(View(input, start, count, blobLen), g) && Ascending(g) ==> r.Ok? && Bracketed(g, key, r.value)
    ensures r == Bisected(View(input, start, count, blobLen), key, 0, Restarts(count) - 1)
  {
    hide Blob, Stored, Compare, Ascending, RestartOrder, Indexed;
    ghost var v := View(input, start, count, blobLen);
    if Indexed(v, g) && Ascending(g) {
      WholeIsIndexed(v, g);
      IndexedBisects(v, g, key, 0, Restarts(count) - 1);
    }
    var lo, hi := 0, Restarts(count) - 1;
    while lo <= hi
      invariant 0 <= lo <= hi + 1 <= Restarts(count)
      invariant Bisected(v, key, 0, Restarts(count) - 1) == Bisected(v, key, lo, hi)
    {
      var mid := (lo + hi) / 2;
      var c := CompareRestart(input, start, count, blobLen, mid, key, []);
      if c.Err? {
        return Err;
      }
      if c.value != Greater {
        lo := mid + 1;
      } else {
        hi := mid - 1;
      }
    }
    r := Ok(lo - 1);
  }

  /** Decode the entries of one interval until one is not below the key. */
  method ScanInterval(input: Bytes, start: nat, count: nat, blobLen: nat, from: nat, limit: nat, key: Bytes, ghost g: seq<Bytes>)
    returns (f: Result<Found>)
    requires from % K == 0 && from < limit <= from + K && limit <= count
    ensures Indexed(View(input, start, count, blobLen), g) && Ascending(g) && AllLess(g, key, from) && AllGreater(g, key, limit) ==>
              f.Ok? && SearchOk(g, key, f.value)
    ensures f == Scanned(View(input, start, count, blobLen), key, from, from, limit)
  {
    hide Blob, Stored, EntryFor, Compare, Ascending, EntryRead, OffsetOf, Rolled, Indexed, SearchOk;
    ghost var v := View(input, start, count, blobLen);
    if Indexed(v, g) && Ascending(g) && AllLess(g, key, from) && AllGreater(g, key, limit) {
      WholeIsIndexed(v, g);
      IndexedScans(v, g, key, from, from, limit);
    }
    RolledUnfolds(v, from / K, 0);
    var p := SeekRestart(input, start, count, blobLen, from / K, []);
    if p.Err? {
      return Err;
    }
    var pos: nat, i: nat, scratch: Bytes, end: nat := p.value, from, [], BlobBase(start, count) + blobLen;
    while i < limit
      invariant from <= i <= limit && pos <= |input|
      invariant Scanned(v, key, from, from, limit) == Scanned(v, key, from, i, limit)
      invariant if i == from then scratch == [] && pos == p.value else Rolled(v, from / K, i - 1 - from) == Ok(Item(scratch, pos))
    {
      RolledUnfolds(v, from / K, i - from);
      var e;
      e, pos := ReadEntry(input, scratch, pos, end, i == from, [], 0);
      if e.Err? {
        return Err;
      }
      scratch := e.value;
      match Compare(scratch, key) {
        case Equal => return Ok(At(i));
        case Greater => return Ok(Missing(i));
        case Less =>
      }
      i := i + 1;
    }
    f := Ok(Missing(limit));
  }

  /** Search the bytes of a group; the cursor ends where the group says it ends. */
  method BinarySearch(input: Bytes, start: nat, count: nat, key: Bytes, ghost g: seq<Bytes>) returns (f: Result<Found>, cursor: nat)
    ensures Stored(input, start, count, g) && Ascending(g) ==>
              f.Ok? && SearchOk(g, key, f.value) && cursor == start + |Serialized(g)|
    ensures f == Searched(input, start, count, key)
    ensures f.Ok? ==> start <= cursor <= |input|
    ensures f.Ok? ==> I32At(input, start).Ok? && cursor == BlobBase(start, count) + I32At(input, start).value
  {
    hide Blob, Stored, Serialized, Compare, Ascending, I32At, Bisected, Scanned, IndexedAt, SearchOk, Indexed, Restarts, BlobBase;
    if Stored(input, start, count, g) && Ascending(g) {
      StoredIsIndexed(input, start, count, g);
      StoredCount(input, start, count, g);
      IndexedSearches(input, start, g, key);
    }
    cursor := start;
    var blobLen := ReadI32(input, start);
    if blobLen.Err? || blobLen.value < 0 {
      return Err, cursor;
    }
    var r := FindRestart(input, start, count, blobLen.value, key, g);
    if r.Err? {
      return Err, cursor;
    }
    var end := BlobBase(start, count) + blobLen.value;
    if r.value < 0 {
      f := Ok(Missing(0));
    } else {
      FirstOf(r.value, count);
      var first := r.value * K;
      var limit := Least(first + K, count);
      f := ScanInterval(input, start, count, blobLen.value, first, limit, key, g);
      if f.Err? {
        return Err, cursor;
      }
    }
    if end > |input| {
      return Err, cursor;
    }
    cursor := end;
  }

  /** A restart's first entry is one of the group's. */
  lemma FirstOf(r: nat, count: nat)
    requires r < Restarts(count)
    ensures r * K < count && (r * K) % K == 0
  {
  }

  lemma StoredCount(input: Bytes, start: nat, count: nat, g: seq<Bytes>)
    requires Stored(input, start, count, g)
    ensures |g| == count
  {
  }

  /** Searching the bytes gives what searching the decoded group gives. */
  method SearchBothWays(input: Bytes, start: nat, g: seq<Bytes>, key: Bytes) returns (a: Result<Found>, b: Found)
    requires Holds(input, start, g) && Ascending(g)
    ensures a == Ok(b) && SearchOk(g, key, b)
  {
    var cursor;
    a, cursor := BinarySearch(input, start, |g|, key, g);
    b := Search(g, key);
    SearchUnique(g, key, a.value, b);
  }

  // ---------- whole groups ----------

  /**
   What sequential decoding depends on: the entries of `g` at their place, and a declared
   blob length that is not too small. It may reach past the input, and the restart table
   may say anything.
   */
  ghost predicate Loose(input: Bytes, start: nat, count: nat, g: seq<Bytes>) {
    && |g| == count && Small(g)
    && var base, n := BlobBase(start, count), |Blob(g, |g|)|;
       && base + n <= |input| && input[base..base + n] == Blob(g, |g|)
       && exists len: nat :: Declares(input, start, len) && n <= len
  }

  /** The blob length at `start` is `len`. */
  ghost predicate Declares(input: Bytes, start: nat, len: nat) {
    start + 4 <= |input| && len < I32 && input[start..start + 4] == BigEndian(4, len)
  }

  lemma StoredIsLoose(input: Bytes, start: nat, count: nat, g: seq<Bytes>)
    requires Stored(input, start, count, g)
    ensures Loose(input, start, count, g)
    ensures BlobBase(start, count) + |Blob(g, |g|)| == start + |Serialized(g)|
  {
    hide Blob, Table, BigEndian, Serialized;
    Layout(input, start, g);
    assert Declares(input, start, |Blob(g, |g|)|);
  }

  lemma LooseEntry(input: Bytes, start: nat, count: nat, g: seq<Bytes>, i: nat, prev: Bytes, end: nat)
    requires Loose(input, start, count, g) && i < |g| && (Shared(g, i) > 0 ==> i > 0 && prev == g[i - 1])
    requires BlobBase(start, count) + |Blob(g, |g|)| <= end
    ensures var at, m := BlobBase(start, count) + |Blob(g, i)|, Least(end, |input|);
            && at <= m && EntryFor(input[at..m], prev, g[i], Shared(g, i))
            && |Blob(g, i + 1)| == |Blob(g, i)| + |Packed(Shared(g, i))| + |Packed(|g[i]| - Shared(g, i))| + (|g[i]| - Shared(g, i))
            && |Blob(g, i + 1)| <= |Blob(g, |g|)|
  {
    hide Blob, Packed, Shared, Declares;
    EntryInBlob(g, i);
    LengthsFit(g, i);
    var base, n, m := BlobBase(start, count), |Blob(g, |g|)|, Least(end, |input|);
    var a, b := |Blob(g, i)|, |Blob(g, i + 1)|;
    SliceOf(input, base, base + n, a, b);
    var s := input[base + a..m];
    assert input[base + a..base + b] == s[..b - a];
    assert Coded(g, i) <= s;
  }

  /** Decode the entries one after another; the restart table is not needed. */
  method Deserialize(input: Bytes, start: nat, count: nat, ghost g: seq<Bytes>) returns (r: Result<seq<Bytes>>, cursor: nat)
    ensures Loose(input, start, count, g) ==> r == Ok(g) && cursor == BlobBase(start, count) + |Blob(g, |g|)|
    ensures r.Ok? ==> |r.value| == count && start <= cursor <= |input|
  {
    hide Blob, Table, BigEndian, Shared, Packed, EntryFor, Restarts, Small, EntryRead, I32At;
    ghost var ok := Loose(input, start, count, g);
    cursor := start;
    var blobLen := ReadI32(input, start);
    ghost var len: nat := 0;
    if ok {
      len :| Declares(input, start, len) && |Blob(g, |g|)| <= len;
      BlobEmpty(g);
    }
    if blobLen.Err? || blobLen.value < 0 || BlobBase(start, count) > |input| {
      return Err, cursor;
    }
    var end: nat := BlobBase(start, count) + blobLen.value;
    cursor := BlobBase(start, count);
    var out: seq<Bytes>, cur: Bytes, i: nat := [], [], 0;
    while i < count
      invariant 0 <= i <= count && start <= cursor <= |input| && |out| == i
      invariant ok ==> out == g[..i] && cursor == BlobBase(start, count) + |Blob(g, i)| && (i > 0 ==> cur == g[i - 1])
    {
      if ok {
        Restarted(g, i, i / K * K);
        SharedFirst(g, i);
        LooseEntry(input, start, count, g, i, cur, end);
      }
      var e;
      e, cursor := ReadEntry(input, cur, cursor, end, i % K == 0, if ok then g[i] else [], if ok then Shared(g, i) else 0);
      if e.Err? {
        return Err, cursor;
      }
      cur := e.value;
      out := out + [cur];
      i := i + 1;
    }
    assert ok ==> g[..i] == g;
    r := Ok(out);
  }

  lemma BlobEmpty(g: seq<Bytes>)
    ensures Blob(g, 0) == []
  {
  }

  lemma SharedFirst(g: seq<Bytes>, i: nat)
    requires i < |g|
    ensures i % K == 0 ==> Shared(g, i) == 0
  {
  }

  /** The length of the common prefix, byte by byte. */
  method CommonPrefixLen(a: Bytes, b: Bytes) returns (i: nat)
    ensures i == CommonPrefix(a, b)
    ensures i <= |a| && i <= |b| && a[..i] == b[..i] && (i < |a| && i < |b| ==> a[i] != b[i])
  {
    var n := if |a| < |b| then |a| else |b|;
    i := 0;
    assert a[0..] == a && b[0..] == b;
    while i < n && a[i] == b[i]
      invariant 0 <= i <= n && CommonPrefix(a, b) == i + CommonPrefix(a[i..], b[i..])
    {
      assert a[i..][1..] == a[i + 1..] && b[i..][1..] == b[i + 1..];
      i := i + 1;
    }
  }

  /** Lengths are cut to 32 bits, which loses nothing in a small group. */
  method Serialize(g: seq<Bytes>) returns (out: Bytes)
    ensures Small(g) ==> out == Serialized(g)
  {
    hide Packed, BigEndian, Blob, Table, Coded, Small;
    var blob: Bytes, table: Bytes, prev: Bytes, i: nat := [], [], [], 0;
    StartEmpty(g);
    while i < |g|
      invariant 0 <= i <= |g| && (i > 0 ==> prev == g[i - 1])
      invariant Small(g) ==> blob == Blob(g, i)
      invariant Restarts(i) <= Restarts(|g|) && (Small(g) ==> table == Table(g, Restarts(i)))
    {
      var shared := 0;
      if i % K == 0 {
        table := table + BigEndian(4, |blob|);
      } else {
        shared := CommonPrefixLen(prev, g[i]);
      }
      assert shared == Shared(g, i);
      SerializeStep(g, i);
      var entry := Packed(shared % U32) + (Packed((|g[i]| - shared) % U32) + g[i][shared..]);
      blob := blob + entry;
      prev := g[i];
      i := i + 1;
    }
    out := BigEndian(4, |blob|) + (table + blob);
  }

  lemma StartEmpty(g: seq<Bytes>)
    ensures Blob(g, 0) == [] && Table(g, Restarts(0)) == []
  {
  }

  lemma SerializeStep(g: seq<Bytes>, i: nat)
    requires i < |g|
    ensures Restarts(i + 1) <= Restarts(|g|)
    ensures Blob(g, i + 1) == Blob(g, i) + Coded(g, i)
    ensures i % K == 0 ==> Restarts(i + 1) == Restarts(i) + 1 && Table(g, Restarts(i + 1)) == Table(g, Restarts(i)) + BigEndian(4, |Blob(g, i)|)
    ensures i % K != 0 ==> Restarts(i + 1) == Restarts(i)
    ensures Small(g) ==>
              Coded(g, i) == Packed(Shared(g, i) % U32) + (Packed((|g[i]| - Shared(g, i)) % U32) + g[i][Shared(g, i)..])
  {
    hide Packed, BigEndian, Shared, Coded;
    if Small(g) {
      CodedSmall(g, i);
    }
    RestartsStep(i);
    RestartsGrow(i + 1, |g|);
    hide Small, Restarts;
  }

  lemma CodedSmall(g: seq<Bytes>, i: nat)
    requires Small(g) && i < |g|
    ensures Coded(g, i) == Packed(Shared(g, i) % U32) + (Packed((|g[i]| - Shared(g, i)) % U32) + g[i][Shared(g, i)..])
  {
    hide Packed, Shared, Blob;
    LengthsFit(g, i);
  }

  lemma RestartsStep(i: nat)
    ensures i % K == 0 ==> Restarts(i + 1) == Restarts(i) + 1 && Restarts(i) * K == i
    ensures i % K != 0 ==> Restarts(i + 1) == Restarts(i)
  {
  }

  lemma RestartsGrow(i: nat, n: nat)
    requires i <= n
    ensures Restarts(i) <= Restarts(n)
  {
  }

  /** Decoding inverts encoding and ends exactly after the group, wherever the group lies. */
  method RoundTrip(before: Bytes, g: seq<Bytes>, after: Bytes) returns (r: Result<seq<Bytes>>, cursor: nat)
    requires Small(g)
    ensures r == Ok(g) && cursor == |before| + |Serialized(g)|
  {
    hide Serialized, Blob, Loose, Small;
    var s := Serialize(g);
    var input := before + s + after;
    assert input[|before|..|before| + |s|] == s;
    StoredIsLoose(input, |before|, |g|, g);
    r, cursor := Deserialize(input, |before|, |g|, g);
  }
}

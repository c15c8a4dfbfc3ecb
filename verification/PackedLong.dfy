/**
 Packed longs: seven bits a byte, most significant group first, the last byte marked with
 its high bit.  One writer, three readers: the decoder, the skipper, and the reader of the
 catalog, which accepts only what the writer writes.
 */
module PackedLong {
  import opened Basics
  import opened ByteStrings

  const U64: int := 0x1_0000_0000_0000_0000
  const MAX_BYTES: nat := 10

  // ---------- what is written ----------

  /** The seven-bit groups of `v`, most significant first, none for zero. */
  function Groups(v: nat): (g: Bytes)
    ensures forall i :: 0 <= i < |g| ==> g[i] < 128
    ensures g == [] <==> v == 0
    ensures g != [] ==> g[0] != 0
  {
    if v == 0 then [] else Groups(v / 128) + [v % 128]
  }

  function Packed(v: nat): (b: Bytes)
    ensures b != []
  {
    Groups(v / 128) + [v % 128 + 128]
  }

  /** `v` shifted right by `g` groups. */
  function Shifted(v: nat, g: nat): nat {
    if g == 0 then v else Shifted(v, g - 1) / 128
  }

  /** Index of the highest bit, as 63 minus the leading zeros of a 64-bit word; -1 for zero. */
  function HighBit(v: nat): (h: int)
    ensures h >= -1 && (h == -1 <==> v == 0)
  {
    if v == 0 then -1 else 1 + HighBit(v / 2)
  }

  lemma HighBitShift(v: nat)
    ensures v >= 128 ==> HighBit(v / 128) == HighBit(v) - 7
    ensures v < 128 <==> HighBit(v) < 7
  {
    var a := v / 2;
    var b := a / 2;
    var c := b / 2;
    var d := c / 2;
    var e := d / 2;
    var f := e / 2;
    assert f / 2 == v / 128;
    assert HighBit(f) == if f == 0 then -1 else 1 + HighBit(v / 128);
    assert HighBit(e) == if e == 0 then -1 else 1 + HighBit(f);
    assert HighBit(d) == if d == 0 then -1 else 1 + HighBit(e);
    assert HighBit(c) == if c == 0 then -1 else 1 + HighBit(d);
    assert HighBit(b) == if b == 0 then -1 else 1 + HighBit(c);
    assert HighBit(a) == if a == 0 then -1 else 1 + HighBit(b);
  }

  lemma {:induction false} ShiftedAgain(v: nat, g: nat)
    ensures Shifted(v, g + 1) == Shifted(v / 128, g)
  {
    if g > 0 {
      ShiftedAgain(v, g - 1);
    }
  }

  /** The group that holds the highest bit is the first one that is written. */
  lemma {:induction false} TopGroup(v: nat, g: nat)
    requires HighBit(v) / 7 == g && v > 0
    ensures Shifted(v, g) > 0 && Shifted(v, g + 1) == 0
    decreases v
  {
    HighBitShift(v);
    if v >= 128 {
      TopGroup(v / 128, g - 1);
      ShiftedAgain(v, g);
      ShiftedAgain(v, g - 1);
    }
  }

  /** Walk the groups from the highest one down. */
  method PackLong(v: nat) returns (out: Bytes)
    requires v < U64
    ensures out == Packed(v)
  {
    var h := HighBit(v);
    var g := if h < 0 then 0 else h / 7;
    if v > 0 {
      TopGroup(v, g);
    }
    out := [];
    while g != 0
      invariant g >= 0 && out == Groups(Shifted(v, g + 1))
      invariant g > 0 ==> Shifted(v, g) > 0
      decreases g
    {
      out := out + [Shifted(v, g) % 128];
      assert out == Groups(Shifted(v, g));
      g := g - 1;
    }
    out := out + [v % 128 + 128];
  }

  // ---------- the decoder ----------

  datatype Read = Read(value: nat, used: nat)

  /** Fold groups onto `acc` in 64 bits; high bits that do not fit are lost. */
  function Unpacked(acc: nat, s: Bytes, max: nat): (r: Result<Read>)
    ensures r.Ok? ==> 0 < r.value.used <= |s| && r.value.used <= max
    decreases max
  {
    if max == 0 || s == [] then Err
    else
      var acc' := (acc * 128 + s[0] % 128) % U64;
      if s[0] >= 128 then Ok(Read(acc', 1))
      else
        match Unpacked(acc', s[1..], max - 1)
        case Ok(r) => Ok(Read(r.value, r.used + 1))
        case Err => Err
  }

  /** Bytes that the skipper passes for one value. */
  function Skipped(s: Bytes, max: nat): (r: Result<nat>)
    ensures r.Ok? ==> 0 < r.value <= |s| && r.value <= max
    decreases max
  {
    if max == 0 || s == [] then Err
    else if s[0] >= 128 then Ok(1)
    else
      match Skipped(s[1..], max - 1)
      case Ok(n) => Ok(n + 1)
      case Err => Err
  }

  /** Skipping consumes what decoding consumes and refuses what decoding refuses. */
  lemma {:induction false} SkipAsUnpack(acc: nat, s: Bytes, max: nat)
    ensures Skipped(s, max).Ok? <==> Unpacked(acc, s, max).Ok?
    ensures Skipped(s, max).Ok? ==> Skipped(s, max).value == Unpacked(acc, s, max).value.used
    decreases max
  {
    if max > 0 && s != [] && s[0] < 128 {
      SkipAsUnpack((acc * 128 + s[0] % 128) % U64, s[1..], max - 1);
    }
  }

  // ---------- unpacking inverts packing ----------

  /** Value of big-endian base-128 groups after `acc`. */
  function Folded(acc: nat, g: Bytes): nat
    decreases |g|
  {
    if g == [] then acc else Folded(acc * 128 + g[0], g[1..])
  }

  lemma {:induction false} FoldedAppend(acc: nat, g: Bytes, x: Byte)
    ensures Folded(acc, g + [x]) == Folded(acc, g) * 128 + x
    decreases |g|
  {
    if g != [] {
      assert (g + [x])[1..] == g[1..] + [x];
      FoldedAppend(acc * 128 + g[0], g[1..], x);
    }
  }

  lemma {:induction false} GroupsFold(v: nat)
    ensures Folded(0, Groups(v)) == v
  {
    if v > 0 {
      GroupsFold(v / 128);
      FoldedAppend(0, Groups(v / 128), v % 128);
    }
  }

  lemma {:induction false} FoldedGrows(acc: nat, g: Bytes)
    ensures Folded(acc, g) >= acc
    decreases |g|
  {
    if g != [] {
      FoldedGrows(acc * 128 + g[0], g[1..]);
    }
  }

  lemma UnpackedStep(acc: nat, s: Bytes, max: nat)
    requires max > 0 && s != [] && acc * 128 + s[0] % 128 < U64
    ensures Unpacked(acc, s, max) ==
              if s[0] >= 128 then Ok(Read(acc * 128 + (s[0] - 128), 1))
              else match Unpacked(acc * 128 + s[0], s[1..], max - 1)
                   case Ok(r) => Ok(Read(r.value, r.used + 1))
                   case Err => Err
  {
    assert (acc * 128 + s[0] % 128) % U64 == acc * 128 + s[0] % 128;
  }

  /** Nothing is lost while the value fits. */
  lemma {:induction false} UnpackFolds(acc: nat, g: Bytes, last: Byte, rest: Bytes, max: nat)
    requires (forall i :: 0 <= i < |g| ==> g[i] < 128) && 128 <= last && |g| < max
    requires Folded(acc, g) * 128 + (last - 128) < U64
    ensures Unpacked(acc, g + [last] + rest, max) == Ok(Read(Folded(acc, g) * 128 + (last - 128), |g| + 1))
    decreases |g|
  {
    hide Unpacked;
    var s := g + [last] + rest;
    if g != [] {
      assert s[1..] == g[1..] + [last] + rest && s[0] == g[0];
      FoldedGrows(acc * 128 + g[0], g[1..]);
      UnpackFolds(acc * 128 + g[0], g[1..], last, rest, max - 1);
    }
    UnpackedStep(acc, s, max);
  }

  lemma {:induction false} GroupsShort(v: nat, n: nat)
    requires v < Pow128(n)
    ensures |Groups(v)| <= n
    decreases n
  {
    if v > 0 && n > 0 {
      GroupsShort(v / 128, n - 1);
    }
  }

  function Pow128(n: nat): nat {
    if n == 0 then 1 else 128 * Pow128(n - 1)
  }

  lemma NineGroups()
    ensures Pow128(9) == 0x8000_0000_0000_0000
  {
    assert Pow128(3) == 128 * Pow128(2) && Pow128(2) == 128 * Pow128(1);
    assert Pow128(6) == 128 * Pow128(5) && Pow128(5) == 128 * Pow128(4) && Pow128(4) == 128 * Pow128(3);
    assert Pow128(9) == 128 * Pow128(8) && Pow128(8) == 128 * Pow128(7) && Pow128(7) == 128 * Pow128(6);
  }

  /** The decoder with a smaller cap still reads every value that is packed in so few bytes. */
  lemma UnpackInvertsWithin(v: nat, rest: Bytes, max: nat)
    requires v < U64 && |Packed(v)| <= max
    ensures Unpacked(0, Packed(v) + rest, max) == Ok(Read(v, |Packed(v)|))
  {
    GroupsFold(v / 128);
    UnpackFolds(0, Groups(v / 128), v % 128 + 128, rest, max);
  }

  lemma FiveBytes(v: nat)
    requires v < 0x8_0000_0000
    ensures |Packed(v)| <= 5
  {
    assert Pow128(2) == 128 * Pow128(1) && Pow128(3) == 128 * Pow128(2) && Pow128(4) == 128 * Pow128(3);
    GroupsShort(v / 128, 4);
  }

  /** For all 64-bit values, whatever follows. */
  lemma UnpackInverts(v: nat, rest: Bytes)
    requires v < U64
    ensures |Packed(v)| <= MAX_BYTES
    ensures Unpacked(0, Packed(v) + rest, MAX_BYTES) == Ok(Read(v, |Packed(v)|))
  {
    NineGroups();
    GroupsShort(v / 128, 9);
    GroupsFold(v / 128);
    UnpackFolds(0, Groups(v / 128), v % 128 + 128, rest, MAX_BYTES);
  }

  // ---------- the catalog's reader ----------

  /** As the decoder, but refusing a leading zero group and any value beyond 64 bits. */
  function Bounded(first: bool, acc: nat, s: Bytes, max: nat): (r: Result<Read>)
    ensures r.Ok? ==> 0 < r.value.used <= |s|
    decreases max
  {
    if max == 0 || s == [] then Err
    else
      var g, terminal := s[0] % 128, s[0] >= 128;
      if first && g == 0 && !terminal then Err
      else if acc * 128 + g >= U64 then Err
      else if terminal then Ok(Read(acc * 128 + g, 1))
      else
        match Bounded(false, acc * 128 + g, s[1..], max - 1)
        case Ok(r) => Ok(Read(r.value, r.used + 1))
        case Err => Err
  }

  /** One byte more of a value. */
  lemma BoundedStep(first: bool, acc: nat, s: Bytes, max: nat)
    requires max > 0 && s != []
    ensures Bounded(first, acc, s, max) ==
              if (first && s[0] == 0) || acc * 128 + s[0] % 128 >= U64 then Err
              else if s[0] >= 128 then Ok(Read(acc * 128 + (s[0] - 128), 1))
              else After(1, Bounded(false, acc * 128 + s[0], s[1..], max - 1))
  {
  }

  lemma BoundedReads(first: bool, acc: nat, s: Bytes, max: nat)
    requires Bounded(first, acc, s, max).Ok?
    ensures max > 0 && s != []
  {
  }

  lemma GroupsStep(acc: nat, g: nat)
    requires g < 128 && (acc > 0 || g > 0)
    ensures Groups(acc * 128 + g) == Groups(acc) + [g] && Packed(acc * 128 + g) == Groups(acc) + [g + 128]
  {
  }

  lemma {:induction false} BoundedContinues(acc: nat, s: Bytes, max: nat)
    requires acc > 0 && Bounded(false, acc, s, max).Ok?
    ensures var r := Bounded(false, acc, s, max).value; Groups(acc) + s[..r.used] == Packed(r.value) && r.value < U64
    decreases max
  {
    hide Bounded, Groups, Packed;
    BoundedReads(false, acc, s, max);
    BoundedStep(false, acc, s, max);
    GroupsStep(acc, s[0] % 128);
    var r := Bounded(false, acc, s, max).value;
    if s[0] < 128 {
      BoundedContinues(acc * 128 + s[0], s[1..], max - 1);
      assert s[..r.used] == [s[0]] + s[1..][..r.used - 1];
      Assoc(Groups(acc), [s[0]], s[1..][..r.used - 1]);
    } else {
      assert s[..1] == [s[0]];
    }
  }

  /** It accepts nothing but what the writer writes. */
  lemma BoundedSound(s: Bytes, max: nat)
    requires Bounded(true, 0, s, max).Ok?
    ensures var r := Bounded(true, 0, s, max).value;
            r.value < U64 && r.used == |Packed(r.value)| && s[..r.used] == Packed(r.value)
  {
    assert max > 0 && s != [];
    BoundedStep(true, 0, s, max);
    assert Groups(0) == [];
    if s[0] % 128 != 0 {
      GroupsStep(0, s[0] % 128);
    }
    var r := Bounded(true, 0, s, max).value;
    if s[0] < 128 {
      hide Bounded, Groups;
      BoundedContinues(s[0], s[1..], max - 1);
      assert s[..r.used] == [s[0]] + s[1..][..r.used - 1];
    } else {
      assert s[..1] == [s[0]];
    }
  }

  lemma {:induction false} BoundedFolds(first: bool, acc: nat, g: Bytes, last: Byte, rest: Bytes, max: nat)
    requires (forall i :: 0 <= i < |g| ==> g[i] < 128) && 128 <= last && |g| < max
    requires Folded(acc, g) * 128 + (last - 128) < U64 && (first && g != [] ==> g[0] != 0)
    ensures Bounded(first, acc, g + [last] + rest, max) == Ok(Read(Folded(acc, g) * 128 + (last - 128), |g| + 1))
    decreases |g|
  {
    hide Bounded;
    var s := g + [last] + rest;
    BoundedStep(first, acc, s, max);
    if g != [] {
      assert s[1..] == g[1..] + [last] + rest && s[0] == g[0];
      FoldedGrows(acc * 128 + g[0], g[1..]);
      BoundedFolds(false, acc * 128 + g[0], g[1..], last, rest, max - 1);
    }
  }

  /** And it accepts everything the writer writes. */
  lemma BoundedInverts(v: nat, rest: Bytes, max: nat)
    requires v < U64 && max >= MAX_BYTES
    ensures Bounded(true, 0, Packed(v) + rest, max) == Ok(Read(v, |Packed(v)|))
  {
    NineGroups();
    GroupsShort(v / 128, 9);
    GroupsFold(v / 128);
    BoundedFolds(true, 0, Groups(v / 128), v % 128 + 128, rest, max);
  }

  // ---------- the loops ----------

  function After(n: nat, r: Result<Read>): Result<Read> {
    match r
    case Ok(x) => Ok(Read(x.value, x.used + n))
    case Err => Err
  }

  function Past(n: nat, r: Result<nat>): Result<nat> {
    match r
    case Ok(x) => Ok(x + n)
    case Err => Err
  }

  method UnpackCapped(input: Bytes, start: nat, max: nat) returns (r: Result<nat>, pos: nat)
    requires start <= |input|
    ensures start <= pos <= |input| && (r.Ok? <==> Unpacked(0, input[start..], max).Ok?)
    ensures r.Ok? ==> Unpacked(0, input[start..], max) == Ok(Read(r.value, pos - start))
  {
    var ret: nat, i: nat := 0, 0;
    pos := start;
    while i < max
      invariant 0 <= i <= max && pos == start + i <= |input|
      invariant Unpacked(0, input[start..], max) == After(i, Unpacked(ret, input[pos..], max - i))
    {
      if pos == |input| {
        return Err, pos;
      }
      var v := input[pos];
      assert input[pos..][1..] == input[pos + 1..];
      pos := pos + 1;
      ret := (ret * 128 + v % 128) % U64;
      if v >= 128 {
        return Ok(ret), pos;
      }
      i := i + 1;
    }
    r := Err;
  }

  /** Skip one value of at most `max` bytes. */
  method SkipOne(input: Bytes, start: nat, max: nat) returns (ok: bool, pos: nat)
    requires start <= |input| && max > 0
    ensures start <= pos <= |input| && (ok <==> Skipped(input[start..], max).Ok?)
    ensures ok ==> Skipped(input[start..], max) == Ok(pos - start)
  {
    pos := start;
    var run := 0;
    while true
      invariant 0 <= run < max && pos == start + run <= |input|
      invariant Skipped(input[start..], max) == Past(run, Skipped(input[pos..], max - run))
      decreases max - run
    {
      if pos == |input| {
        return false, pos;
      }
      var terminated := input[pos] >= 128;
      assert input[pos..][1..] == input[pos + 1..];
      pos, run := pos + 1, run + 1;
      if terminated {
        return true, pos;
      }
      if run >= max {
        return false, pos;
      }
    }
  }

  /** Where `count` packed values end, if decoding them one after another succeeds. */
  function UnpackedEnd(s: Bytes, count: nat, max: nat): (r: Result<nat>)
    ensures r.Ok? ==> r.value <= |s|
    decreases count
  {
    if count == 0 then Ok(0)
    else
      match Unpacked(0, s, max)
      case Err => Err
      case Ok(x) => Past(x.used, UnpackedEnd(s[x.used..], count - 1, max))
  }

  /** Skipping ends where decoding as many values ends, and fails where it fails. */
  method UnpackLongSkip(input: Bytes, start: nat, count: nat, max: nat) returns (ok: bool, pos: nat)
    requires start <= |input| && max > 0
    ensures start <= pos <= |input| && (ok <==> UnpackedEnd(input[start..], count, max).Ok?)
    ensures ok ==> UnpackedEnd(input[start..], count, max) == Ok(pos - start)
  {
    hide Unpacked, Skipped;
    pos, ok := start, true;
    var left := count;
    while left > 0
      invariant start <= pos <= |input| && ok && 0 <= left <= count
      invariant UnpackedEnd(input[start..], count, max) == Past(pos - start, UnpackedEnd(input[pos..], left, max))
    {
      SkipAsUnpack(0, input[pos..], max);
      ghost var p := pos;
      ok, pos := SkipOne(input, pos, max);
      if !ok {
        return;
      }
      assert input[p..][pos - p..] == input[pos..];
      left := left - 1;
    }
  }

  method ReadBounded(input: Bytes, start: nat, end: nat, max: nat) returns (r: Result<nat>, pos: nat)
    requires start <= end <= |input|
    ensures start <= pos <= end && (r.Ok? <==> Bounded(true, 0, input[start..end], max).Ok?)
    ensures r.Ok? ==> Bounded(true, 0, input[start..end], max) == Ok(Read(r.value, pos - start))
  {
    hide Bounded;
    var ret: nat, i: nat := 0, 0;
    pos := start;
    AfterNone(Bounded(true, 0, input[start..end], max));
    while i < max
      invariant 0 <= i <= max && pos == start + i <= end
      invariant Bounded(true, 0, input[start..end], max) == After(i, Bounded(i == 0, ret, input[pos..end], max - i))
    {
      if pos >= end {
        BoundedNone(ret, input[pos..end]);
        return Err, pos;
      }
      var v := input[pos];
      BoundedStep(i == 0, ret, input[pos..end], max - i);
      assert input[pos..end][1..] == input[pos + 1..end];
      pos := pos + 1;
      var group, terminal := v % 128, v >= 128;
      if i == 0 && group == 0 && !terminal {
        return Err, pos;
      }
      if ret * 128 + group >= U64 {
        return Err, pos;
      }
      ret := ret * 128 + group;
      if terminal {
        return Ok(ret), pos;
      }
      i := i + 1;
    }
    BoundedNone(ret, input[pos..end]);
    r := Err;
  }

  lemma AfterNone(r: Result<Read>)
    ensures After(0, r) == r
  {
  }

  lemma BoundedNone(acc: nat, s: Bytes)
    ensures Bounded(false, acc, s, 0) == Err && Bounded(true, acc, s, 0) == Err
    ensures forall first, max :: Bounded(first, acc, [], max) == Err
  {
  }
}

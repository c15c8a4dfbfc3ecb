/**
 The record of a tree node and the lookup that works on its bytes.  A header packs the
 number of keys and the flags; then come the right link, the key group, and either the
 child recids or the value group with the leaf's fence.  Keys and values are front-coded
 groups.  A lookup reads the bytes without decoding the node.
 */
module NodeCodec {
  import opened Basics
  import opened ByteStrings
  import opened PackedLong
  import opened FrontCoded
  import opened FrontExact

  datatype Body = Children(children: seq<nat>) | Values(values: seq<Bytes>, fence: Option<Bytes>)

  datatype Node = Node(flags: nat, link: nat, keys: seq<Bytes>, body: Body)

  predicate IsDir(flags: nat) {
    flags / 8 % 2 == 1
  }

  predicate IsRight(flags: nat) {
    flags / 2 % 2 == 1
  }

  const MAX_KEYS: nat := 0x1000_0000

  // ---------- what nodes are like ----------

  /** The last key does not exceed the fence. */
  ghost predicate FenceOk(keys: seq<Bytes>, fence: Bytes) {
    keys == [] || Compare(keys[|keys| - 1], fence) != Greater
  }

  /** What every decoded node satisfies. */
  ghost predicate Sound(n: Node) {
    && n.flags < 16 && Ascending(n.keys) && (IsRight(n.flags) <==> n.link == 0)
    && match n.body
       case Children(cs) =>
         && IsDir(n.flags) && |cs| == |n.keys| + (if IsRight(n.flags) then 1 else 0) && |cs| > 0
         && forall i :: 0 <= i < |cs| ==> cs[i] != 0
       case Values(vs, fence) =>
         && !IsDir(n.flags) && |vs| == |n.keys| && (fence.Some? <==> !IsRight(n.flags))
         && (fence.Some? ==> FenceOk(n.keys, fence.value))
  }

  /** Sizes within the limits of the format. */
  ghost predicate Fits(n: Node) {
    && |n.keys| < MAX_KEYS && n.link < U64 && Small(n.keys)
    && match n.body
       case Children(cs) => forall i :: 0 <= i < |cs| ==> cs[i] < U64
       case Values(vs, fence) => Small(vs) && (fence.Some? ==> Small([fence.value]))
  }

  // ---------- what is written ----------

  function PackedAll(cs: seq<nat>): Bytes {
    if cs == [] then [] else Packed(cs[0]) + PackedAll(cs[1..])
  }

  function LinkPart(n: Node): Bytes {
    if IsRight(n.flags) then [] else Packed(n.link)
  }

  function FencePart(fence: Option<Bytes>): Bytes {
    if fence.None? then [] else Serialized([fence.value])
  }

  function BodyPart(n: Node): Bytes {
    match n.body
    case Children(cs) => PackedAll(cs)
    case Values(vs, fence) => Serialized(vs) + FencePart(fence)
  }

  function Encoded(n: Node): Bytes {
    Packed(|n.keys| * 16 + n.flags) + (LinkPart(n) + (Serialized(n.keys) + BodyPart(n)))
  }

  /** Positions of the parts in the record. */
  function LinkAt(n: Node): nat { |Packed(|n.keys| * 16 + n.flags)| }
  function KeysAt(n: Node): nat { LinkAt(n) + |LinkPart(n)| }
  function BodyAt(n: Node): nat { KeysAt(n) + |Serialized(n.keys)| }

  lemma Parts(n: Node)
    ensures var rec := Encoded(n);
            && BodyAt(n) <= |rec|
            && Packed(|n.keys| * 16 + n.flags) <= rec && LinkPart(n) <= rec[LinkAt(n)..]
            && rec[KeysAt(n)..BodyAt(n)] == Serialized(n.keys) && rec[BodyAt(n)..] == BodyPart(n)
  {
    hide Packed, Serialized, BodyPart, LinkPart;
    var a, b, c, d, rec := Packed(|n.keys| * 16 + n.flags), LinkPart(n), Serialized(n.keys), BodyPart(n), Encoded(n);
    assert rec[|a|..] == b + (c + d);
    assert rec[|a| + |b|..] == c + d;
    assert rec[|a| + |b|..|a| + |b| + |c|] == c && rec[|a| + |b| + |c|..] == d;
  }

  lemma KeysHeld(n: Node)
    requires Fits(n)
    ensures Stored(Encoded(n), KeysAt(n), |n.keys|, n.keys)
  {
    hide Packed, Serialized, BodyPart, LinkPart, Small;
    Parts(n);
  }

  // ---------- reading the pieces ----------

  /** A packed long and where it ends. */
  datatype Long = Long(value: nat, pos: nat)

  function LongAt(input: Bytes, pos: nat): (r: Result<Long>)
    requires pos <= |input|
    ensures r.Ok? ==> pos < r.value.pos <= |input|
  {
    match Unpacked(0, input[pos..], MAX_BYTES)
    case Ok(x) => Ok(Long(x.value, pos + x.used))
    case Err => Err
  }

  lemma LongPacked(input: Bytes, pos: nat, v: nat)
    requires pos <= |input| && v < U64 && Packed(v) <= input[pos..]
    ensures LongAt(input, pos) == Ok(Long(v, pos + |Packed(v)|))
  {
    hide Packed, Unpacked;
    assert input[pos..] == Packed(v) + input[pos..][|Packed(v)|..];
    UnpackInverts(v, input[pos..][|Packed(v)|..]);
  }

  method UnpackLong(input: Bytes, start: nat) returns (r: Result<nat>, pos: nat)
    requires start <= |input|
    ensures start <= pos <= |input|
    ensures if r.Ok? then LongAt(input, start) == Ok(Long(r.value, pos)) else LongAt(input, start) == Err
  {
    hide Unpacked;
    r, pos := UnpackCapped(input, start, MAX_BYTES);
  }

  /** The header, a packed int taken as unsigned, and the right link of a node that is not the last of its level. */
  datatype Start = Start(flags: nat, keysLen: nat, link: nat, pos: nat)

  function Started(rec: Bytes): (r: Result<Start>)
    ensures r.Ok? ==> r.value.pos <= |rec| && r.value.flags < 16 && r.value.keysLen <= |rec|
    ensures r.Ok? ==> (IsRight(r.value.flags) <==> r.value.link == 0)
  {
    match Unpacked(0, rec, INT_BYTES)
    case Err => Err
    case Ok(x) =>
      var flags, keysLen := x.value % U32 % 16, x.value % U32 / 16;
      if keysLen > |rec| then Err
      else if IsRight(flags) then Ok(Start(flags, keysLen, 0, x.used))
      else
        match LongAt(rec, x.used)
        case Err => Err
        case Ok(l) => if l.value == 0 then Err else Ok(Start(flags, keysLen, l.value, l.pos))
  }

  /** Whether a key group is strictly increasing. */
  method CheckSorted(keys: seq<Bytes>) returns (ok: bool)
    ensures ok <==> Ascending(keys)
  {
    hide Compare;
    var i := 1;
    while i < |keys|
      invariant 1 <= i && (i <= |keys| || keys == []) && Ascending(keys[..if i <= |keys| then i else |keys|])
    {
      if Compare(keys[i - 1], keys[i]) != Less {
        return false;
      }
      forall j, k | 0 <= j < k < i + 1 ensures Compare(keys[j], keys[k]) == Less {
        if k < i {
          assert Compare(keys[..i][j], keys[..i][k]) == Less;
        } else if j < i - 1 {
          assert Compare(keys[..i][j], keys[..i][i - 1]) == Less;
          CompareTrans(keys[j], keys[i - 1], keys[i]);
        }
      }
      i := i + 1;
    }
    assert keys[..|keys|] == keys;
    ok := true;
  }

  // ---------- children ----------

  lemma {:induction false} ChildHere(cs: seq<nat>, i: nat)
    requires i < |cs|
    ensures PackedAll(cs) == PackedAll(cs[..i]) + (Packed(cs[i]) + PackedAll(cs[i + 1..]))
    decreases i
  {
    hide Packed;
    if i == 0 {
      assert cs[..0] == [] && [] + PackedAll(cs) == PackedAll(cs);
    } else {
      ChildHere(cs[1..], i - 1);
      assert cs[1..][..i - 1] == cs[..i][1..] && cs[1..][i..] == cs[i + 1..];
      Assoc(Packed(cs[0]), PackedAll(cs[..i][1..]), Packed(cs[i]) + PackedAll(cs[i + 1..]));
    }
  }

  lemma PackedAllAppend(cs: seq<nat>, i: nat)
    requires i < |cs|
    ensures PackedAll(cs[..i + 1]) == PackedAll(cs[..i]) + Packed(cs[i])
  {
    hide Packed;
    var init := cs[..i + 1];
    ChildHere(init, i);
    assert init[..i] == cs[..i] && init[i + 1..] == [];
    assert Packed(cs[i]) + PackedAll([]) == Packed(cs[i]);
  }

  /** Child `i` of those that begin at `start`. */
  function ChildAt(rec: Bytes, start: nat, i: nat): Result<nat>
    requires start <= |rec|
  {
    match UnpackedEnd(rec[start..], i, MAX_BYTES)
    case Err => Err
    case Ok(n) =>
      match LongAt(rec, start + n)
      case Ok(c) => Ok(c.value)
      case Err => Err
  }

  /** Packed children are where they are looked for. */
  lemma ChildPacked(rec: Bytes, start: nat, cs: seq<nat>, i: nat)
    requires start <= |rec| && rec[start..] == PackedAll(cs) && i < |cs| && forall j :: 0 <= j < |cs| ==> cs[j] < U64
    ensures ChildAt(rec, start, i) == Ok(cs[i])
  {
    hide Packed, PackedAll, UnpackedEnd, LongAt;
    SkipsTo(cs, i);
    ChildHere(cs, i);
    Here(rec, start, PackedAll(cs[..i]), Packed(cs[i]), PackedAll(cs[i + 1..]));
    LongPacked(rec, start + |PackedAll(cs[..i])|, cs[i]);
  }

  method ReadChildren(rec: Bytes, start: nat, count: nat, ghost cs: seq<nat>) returns (r: Result<seq<nat>>, pos: nat)
    requires start <= |rec|
    ensures start <= pos <= |rec|
    ensures r.Ok? ==> |r.value| == count && forall i :: 0 <= i < count ==> r.value[i] != 0
    ensures r.Ok? ==> forall i :: 0 <= i < count ==> ChildAt(rec, start, i) == Ok(r.value[i])
    ensures rec[start..] == PackedAll(cs) && |cs| == count && (forall i :: 0 <= i < count ==> 0 < cs[i] < U64) ==>
              r == Ok(cs) && pos == |rec|
  {
    hide Packed, PackedAll, UnpackedEnd, LongAt;
    ghost var ok := rec[start..] == PackedAll(cs) && |cs| == count && forall i :: 0 <= i < count ==> 0 < cs[i] < U64;
    var out: seq<nat>, i: nat := [], 0;
    pos := start;
    NoChildren(cs);
    EndOfNone(rec[start..]);
    while i < count
      invariant 0 <= i <= count && start <= pos <= |rec| && |out| == i && forall j :: 0 <= j < i ==> out[j] != 0
      invariant UnpackedEnd(rec[start..], i, MAX_BYTES) == Ok(pos - start)
      invariant forall j :: 0 <= j < i ==> ChildAt(rec, start, j) == Ok(out[j])
      invariant ok ==> out == cs[..i] && pos == start + |PackedAll(cs[..i])|
    {
      if ok {
        ChildHere(cs, i);
        PackedAllAppend(cs, i);
        Here(rec, start, PackedAll(cs[..i]), Packed(cs[i]), PackedAll(cs[i + 1..]));
        LongPacked(rec, pos, cs[i]);
      }
      ghost var was := pos;
      var c;
      c, pos := UnpackLong(rec, pos);
      if c.Err? || c.value == 0 {
        return Err, pos;
      }
      EndOfNext(rec, start, i, was, pos);
      out := out + [c.value];
      i := i + 1;
    }
    if ok {
      assert cs[..i] == cs;
    }
    r := Ok(out);
  }

  lemma EndOfNone(s: Bytes)
    ensures UnpackedEnd(s, 0, MAX_BYTES) == Ok(0)
  {
  }

  /** One more value after `i` values. */
  lemma EndOfNext(rec: Bytes, start: nat, i: nat, pos: nat, next: nat)
    requires start <= pos <= |rec| && UnpackedEnd(rec[start..], i, MAX_BYTES) == Ok(pos - start)
    requires LongAt(rec, pos).Ok? && LongAt(rec, pos).value.pos == next
    ensures UnpackedEnd(rec[start..], i + 1, MAX_BYTES) == Ok(next - start)
  {
    hide Unpacked, UnpackedEnd;
    assert rec[start..][pos - start..] == rec[pos..];
    EndAppend(rec[start..], i);
  }

  lemma {:induction false} EndAppend(s: Bytes, i: nat)
    requires UnpackedEnd(s, i, MAX_BYTES).Ok?
    ensures var n := UnpackedEnd(s, i, MAX_BYTES).value;
            var x := Unpacked(0, s[n..], MAX_BYTES);
            UnpackedEnd(s, i + 1, MAX_BYTES) == if x.Ok? then Ok(n + x.value.used) else Err
    decreases i
  {
    hide Unpacked;
    if i == 0 {
      assert s[0..] == s;
      EndOfNone(s);
      var x := Unpacked(0, s, MAX_BYTES);
      if x.Ok? {
        EndOfNone(s[x.value.used..]);
      }
    } else {
      var u := Unpacked(0, s, MAX_BYTES).value.used;
      EndAppend(s[u..], i - 1);
      var m := UnpackedEnd(s[u..], i - 1, MAX_BYTES).value;
      assert s[u..][m..] == s[u + m..];
    }
  }

  lemma NoChildren(cs: seq<nat>)
    ensures PackedAll(cs[..0]) == []
  {
  }

  /** `b` lies right after `a` in what follows `start`. */
  lemma Here(rec: Bytes, start: nat, a: Bytes, b: Bytes, c: Bytes)
    requires start <= |rec| && rec[start..] == a + (b + c)
    ensures start + |a| + |b| <= |rec| && b <= rec[start + |a|..]
  {
    assert rec[start + |a|..] == rec[start..][|a|..];
    assert rec[start..][|a|..] == b + c;
  }

  // ---------- decoding a node ----------

  /** The record of `n`, which the format can hold. */
  ghost predicate RecordOf(rec: Bytes, n: Node) {
    Sound(n) && Fits(n) && rec == Encoded(n)
  }

  /** A record that differs from the one of `n` at most in the restart table and the declared length of its key group. */
  ghost predicate DecodesTo(rec: Bytes, n: Node) {
    && Sound(n) && Fits(n) && |rec| == |Encoded(n)|
    && Packed(|n.keys| * 16 + n.flags) <= rec && LinkPart(n) <= rec[LinkAt(n)..]
    && BodyAt(n) <= |rec| && rec[BodyAt(n)..] == BodyPart(n)
    && Loose(rec, KeysAt(n), |n.keys|, n.keys)
  }

  lemma RecordDecodes(rec: Bytes, n: Node)
    requires RecordOf(rec, n)
    ensures DecodesTo(rec, n)
  {
    hide Packed, Serialized, BodyPart, LinkPart, Small, Sound, Fits, Loose;
    Parts(n);
    KeysHeld(n);
    StoredIsLoose(rec, KeysAt(n), |n.keys|, n.keys);
  }

  lemma {:induction false} BlobLong(g: seq<Bytes>, n: nat)
    requires n <= |g|
    ensures |Blob(g, n)| >= n
  {
    if n > 0 {
      BlobLong(g, n - 1);
    }
  }

  /** Every key takes at least a byte of the record. */
  lemma KeysShort(n: Node)
    ensures |n.keys| <= |Encoded(n)|
  {
    hide Packed, BodyPart, LinkPart, Blob;
    Parts(n);
    BlobLong(n.keys, |n.keys|);
  }

  lemma HeaderSplits(n: Node)
    requires n.flags < 16 && |n.keys| < MAX_KEYS
    ensures var v := |n.keys| * 16 + n.flags; v < U32 && v % 16 == n.flags && v / 16 == |n.keys|
  {
  }

  lemma StartedOf(rec: Bytes, n: Node)
    requires DecodesTo(rec, n)
    ensures Started(rec) == Ok(Start(n.flags, |n.keys|, n.link, KeysAt(n)))
  {
    hide Packed, Encoded, BodyPart, Serialized, Sound, Fits, Loose, Unpacked, LongAt;
    KeysShort(n);
    SoundFits(n);
    HeaderSplits(n);
    var h := |n.keys| * 16 + n.flags;
    assert rec == Packed(h) + rec[|Packed(h)|..];
    FiveBytes(h);
    UnpackInvertsWithin(h, rec[|Packed(h)|..], INT_BYTES);
    if !IsRight(n.flags) {
      LongPacked(rec, LinkAt(n), n.link);
    }
  }

  /** Header and link, which both readers begin with. */
  method ReadStart(rec: Bytes, ghost n: Node) returns (ok: bool, flags: nat, keysLen: nat, link: nat, pos: nat)
    ensures pos <= |rec| && flags < 16 && (ok ==> keysLen <= |rec| && (IsRight(flags) <==> link == 0))
    ensures Started(rec) == if ok then Ok(Start(flags, keysLen, link, pos)) else Err
    ensures DecodesTo(rec, n) ==> ok && flags == n.flags && keysLen == |n.keys| && link == n.link && pos == KeysAt(n)
  {
    hide DecodesTo, Unpacked, LongAt, KeysAt;
    if DecodesTo(rec, n) {
      StartedOf(rec, n);
    }
    flags, keysLen, link := 0, 0, 0;
    var h;
    assert rec[0..] == rec;
    h, pos := UnpackCapped(rec, 0, INT_BYTES);
    if h.Err? {
      ok := false;
      return;
    }
    flags, keysLen := h.value % U32 % 16, h.value % U32 / 16;
    if keysLen > |rec| {
      ok := false;
      return;
    }
    ok := true;
    if !IsRight(flags) {
      var l;
      l, pos := UnpackLong(rec, pos);
      ok := l.Ok? && l.value != 0;
      link := if ok then l.value else 0;
    }
  }

  lemma SoundFits(n: Node)
    requires Sound(n) && Fits(n)
    ensures n.flags < 16 && |n.keys| < MAX_KEYS && n.link < U64 && (IsRight(n.flags) <==> n.link == 0) && Ascending(n.keys)
  {
  }

  /** The record begins as `n` does, and at `at` its body begins. */
  ghost predicate Placed(rec: Bytes, n: Node, at: nat) {
    && Started(rec).Ok? && at <= |rec|
    && (var h := Started(rec).value; h.flags == n.flags && h.keysLen == |n.keys| && h.link == n.link)
    && (n.body.Children? ==> forall i :: 0 <= i < |n.body.children| ==> ChildAt(rec, at, i) == Ok(n.body.children[i]))
  }

  /** The declared length and the restart table of the key group do not matter to decoding. */
  method Deserialize(rec: Bytes, ghost n: Node) returns (r: Result<Node>, ghost at: nat)
    ensures r.Ok? ==> Sound(r.value)
    ensures DecodesTo(rec, n) ==> r == Ok(n)
    ensures r.Ok? ==> Placed(rec, r.value, at) && (DecodesTo(rec, n) ==> at == BodyAt(n))
  {
    hide Packed, Encoded, Serialized, Ascending, Compare, KeysAt, BodyAt, Fits, DecodesTo, Loose, Blob, Started, ChildAt;
    at := 0;
    ghost var ok := DecodesTo(rec, n);
    if ok {
      DecodesKeys(rec, n);
    }
    var good, flags, keysLen, link, pos := ReadStart(rec, n);
    if !good {
      return Err, at;
    }
    var keys;
    keys, pos := FrontCoded.Deserialize(rec, pos, keysLen, n.keys);
    if keys.Err? {
      return Err, at;
    }
    var sorted := CheckSorted(keys.value);
    if !sorted {
      return Err, at;
    }
    at := pos;
    var body;
    body, pos := ReadBody(rec, pos, flags, keys.value, n);
    if body.Err? || pos != |rec| {
      return Err, at;
    }
    r := Ok(Node(flags, link, keys.value, body.value));
  }

  lemma DecodesKeys(rec: Bytes, n: Node)
    requires DecodesTo(rec, n)
    ensures Loose(rec, KeysAt(n), |n.keys|, n.keys) && Ascending(n.keys)
    ensures BodyAt(n) == BlobBase(KeysAt(n), |n.keys|) + |Blob(n.keys, |n.keys|)| <= |rec|
  {
    hide Blob, Packed, Table, BigEndian;
    assert |BigEndian(4, |Blob(n.keys, |n.keys|)|)| == 4;
  }

  /** Children, or values and fence, with the checks on them. */
  method ReadBody(rec: Bytes, start: nat, flags: nat, keys: seq<Bytes>, ghost n: Node) returns (r: Result<Body>, pos: nat)
    requires start <= |rec| && flags < 16
    ensures start <= pos && pos <= |rec|
    ensures r.Ok? && Ascending(keys) ==> forall link: nat :: (IsRight(flags) <==> link == 0) ==> Sound(Node(flags, link, keys, r.value))
    ensures r.Ok? && r.value.Children? ==> forall i :: 0 <= i < |r.value.children| ==> ChildAt(rec, start, i) == Ok(r.value.children[i])
    ensures DecodesTo(rec, n) && start == BodyAt(n) && flags == n.flags && keys == n.keys ==> r == Ok(n.body) && pos == |rec|
  {
    hide Packed, Encoded, Serialized, Ascending, Compare, BodyAt, Loose, Blob, ChildAt;
    ghost var ok := DecodesTo(rec, n) && start == BodyAt(n) && flags == n.flags && keys == n.keys;
    if IsDir(flags) {
      var count := |keys| + if IsRight(flags) then 1 else 0;
      if count == 0 {
        return Err, start;
      }
      if ok {
        BodyOfDir(rec, n);
      }
      var cs;
      cs, pos := ReadChildren(rec, start, count, if ok then n.body.children else []);
      r := if cs.Ok? then Ok(Children(cs.value)) else Err;
    } else {
      if ok {
        BodyOfLeaf(rec, n);
      }
      var vs;
      vs, pos := FrontCoded.Deserialize(rec, start, |keys|, if ok then n.body.values else []);
      if vs.Err? {
        return Err, start;
      }
      if IsRight(flags) {
        return Ok(Values(vs.value, None)), pos;
      }
      var f;
      f, pos := FrontCoded.Deserialize(rec, pos, 1, if ok then [n.body.fence.value] else []);
      if f.Err? {
        return Err, start;
      }
      var fence := f.value[0];
      if |keys| > 0 && Compare(keys[|keys| - 1], fence) == Greater {
        return Err, start;
      }
      r := Ok(Values(vs.value, Some(fence)));
    }
  }

  lemma BodyOfDir(rec: Bytes, n: Node)
    requires DecodesTo(rec, n) && IsDir(n.flags)
    ensures n.body.Children? && BodyAt(n) <= |rec| && rec[BodyAt(n)..] == PackedAll(n.body.children)
    ensures forall i :: 0 <= i < |n.body.children| ==> 0 < n.body.children[i] < U64
  {
    hide Packed, Serialized, Ascending, Small, Loose, Encoded;
  }

  lemma BodyOfLeaf(rec: Bytes, n: Node)
    requires DecodesTo(rec, n) && !IsDir(n.flags)
    ensures n.body.Values? && Stored(rec, BodyAt(n), |n.keys|, n.body.values)
    ensures Loose(rec, BodyAt(n), |n.keys|, n.body.values)
    ensures BodyAt(n) + |Serialized(n.body.values)| == BlobBase(BodyAt(n), |n.keys|) + |Blob(n.body.values, |n.body.values|)|
    ensures IsRight(n.flags) ==> n.body.fence.None? && BodyAt(n) + |Serialized(n.body.values)| == |rec|
    ensures !IsRight(n.flags) ==>
              && n.body.fence.Some? && FenceOk(n.keys, n.body.fence.value)
              && var at := BodyAt(n) + |Serialized(n.body.values)|;
                 && Loose(rec, at, 1, [n.body.fence.value])
                 && BlobBase(at, 1) + |Blob([n.body.fence.value], 1)| == |rec|
  {
    hide Packed, Serialized, Ascending, Small, Encoded, Loose, Blob, BodyAt;
    var start, vs := BodyAt(n), Serialized(n.body.values);
    assert rec[start..] == vs + FencePart(n.body.fence);
    assert rec[start..][..|vs|] == vs && rec[start..start + |vs|] == rec[start..][..|vs|];
    StoredIsLoose(rec, start, |n.keys|, n.body.values);
    var at := start + |vs|;
    assert rec[at..] == rec[start..][|vs|..];
    assert rec[at..] == FencePart(n.body.fence);
    assert rec[at..|rec|] == rec[at..];
    if !IsRight(n.flags) {
      StoredIsLoose(rec, at, 1, [n.body.fence.value]);
    }
  }

  // ---------- encoding a node ----------

  method PackChildren(cs: seq<nat>) returns (out: Bytes)
    requires forall i :: 0 <= i < |cs| ==> cs[i] < U64
    ensures out == PackedAll(cs)
  {
    hide Packed, PackedAll;
    out := [];
    var i := 0;
    NoChildren(cs);
    while i < |cs|
      invariant 0 <= i <= |cs| && out == PackedAll(cs[..i])
    {
      PackedAllAppend(cs, i);
      var p := PackLong(cs[i]);
      out := out + p;
      i := i + 1;
    }
    assert cs[..i] == cs;
  }

  method Serialize(n: Node) returns (rec: Bytes)
    requires Sound(n) && Fits(n)
    ensures rec == Encoded(n)
  {
    hide Packed, Serialized, PackedAll;
    HeaderSplits(n);
    var head := PackLong(|n.keys| * 16 + n.flags);
    var link: Bytes, body: Bytes := [], [];
    if !IsRight(n.flags) {
      link := PackLong(n.link);
    }
    var keys := FrontCoded.Serialize(n.keys);
    match n.body {
      case Children(cs) => body := PackChildren(cs);
      case Values(vs, fence) =>
        body := FrontCoded.Serialize(vs);
        if !IsRight(n.flags) {
          var f := FrontCoded.Serialize([fence.value]);
          body := body + f;
        } else {
          assert body + [] == body;
        }
    }
    rec := head + (link + (keys + body));
  }

  /** Decoding recovers the node from exactly the bytes that were written. */
  method RoundTrip(n: Node) returns (r: Result<Node>)
    requires Sound(n) && Fits(n)
    ensures r == Ok(n)
  {
    var rec := Serialize(n);
    RecordDecodes(rec, n);
    ghost var at;
    r, at := Deserialize(rec, n);
  }

  // ---------- lookup in a node ----------

  /** Where a lookup goes next, 0 if it ends here, and what it found. */
  datatype Outcome = Outcome(next: nat, found: bool, value: Option<Bytes>)

  /** The object-side lookup, given where the key is in the key group. */
  function ObjectRead(n: Node, f: Found): Outcome
    requires n.body.Values? && f.At? ==> f.i < |n.body.values|
  {
    match n.body
    case Children(cs) => Outcome(if f.i >= |cs| then n.link else cs[f.i], false, None)
    case Values(vs, _) =>
      if f.At? then Outcome(0, true, Some(vs[f.i]))
      else Outcome(if f.i >= |n.keys| && n.link != 0 then n.link else 0, false, None)
  }

  /** Child `i`, or the link if there is none, is where `key` belongs: keys before position `i` are below it, the one there is not. */
  ghost predicate Routes(n: Node, key: Bytes, i: nat, next: nat)
    requires n.body.Children?
  {
    && i <= |n.keys| && AllLess(n.keys, key, i) && (i < |n.keys| ==> Compare(n.keys[i], key) != Less)
    && next == if i < |n.body.children| then n.body.children[i] else n.link
  }

  /**
   What a lookup must answer: a leaf finds a key exactly if it has it, with its value, and
   sends a key above all of its keys to its right sibling; a directory routes.
   */
  ghost predicate Answers(n: Node, key: Bytes, o: Outcome) {
    match n.body
    case Children(_) => !o.found && o.value == None && exists i :: Routes(n, key, i, o.next)
    case Values(vs, _) =>
      && |vs| == |n.keys| && (o.found <==> key in n.keys)
      && (forall i :: 0 <= i < |vs| && n.keys[i] == key ==> o.value == Some(vs[i]))
      && (if o.found then o.next == 0
          else o.value == None && o.next == if AllLess(n.keys, key, |n.keys|) then n.link else 0)
  }

  lemma ReadAnswers(n: Node, key: Bytes, f: Found)
    requires Sound(n) && SearchOk(n.keys, key, f)
    ensures Answers(n, key, ObjectRead(n, f))
  {
    hide Compare;
    forall x: Bytes ensures Compare(x, key) == Equal <==> x == key {
      CompareEqual(x, key);
    }
    if f.At? {
      OrderAround(n.keys, key, f.i);
    }
    if n.body.Children? {
      assert Routes(n, key, f.i, ObjectRead(n, f).next);
    }
  }

  method OnObject(n: Node, key: Bytes) returns (o: Outcome, ghost f: Found)
    requires Sound(n)
    ensures SearchOk(n.keys, key, f) && o == ObjectRead(n, f)
    ensures Answers(n, key, o)
  {
    f := Missing(0);
    var g := Search(n.keys, key);
    f := g;
    o := ObjectRead(n, g);
    ReadAnswers(n, key, g);
  }

  /** What the lookup in the bytes of a record answers: search the key group in place, then read one child or one value. */
  function ByteRead(rec: Bytes, key: Bytes): Result<Outcome> {
    match Started(rec)
    case Err => Err
    case Ok(h) =>
      match Searched(rec, h.pos, h.keysLen, key)
      case Err => Err
      case Ok(f) => AfterSearch(rec, h, f, BlobBase(h.pos, h.keysLen) + I32At(rec, h.pos).value)
  }

  function AfterSearch(rec: Bytes, h: Start, f: Found, cursor: nat): Result<Outcome>
    requires cursor <= |rec|
  {
    var count := h.keysLen + if IsRight(h.flags) then 1 else 0;
    if IsDir(h.flags) then
      if count == 0 then Err
      else if f.i >= count then Ok(Outcome(h.link, false, None))
      else
        match ChildAt(rec, cursor, f.i)
        case Err => Err
        case Ok(c) => if c == 0 then Err else Ok(Outcome(c, false, None))
    else if f.At? then
      match Gotten(rec, cursor, h.keysLen, f.i)
      case Ok(x) => Ok(Outcome(0, true, Some(x)))
      case Err => Err
    else Ok(Outcome(if f.i >= h.keysLen && h.link != 0 then h.link else 0, false, None))
  }

  /** Where a search of the key group leaves the cursor. */
  ghost predicate SearchEnds(rec: Bytes, at: nat) {
    && Started(rec).Ok?
    && var h := Started(rec).value; I32At(rec, h.pos) == Ok(at - BlobBase(h.pos, h.keysLen))
  }

  /** The tables of a record lead to what decoding finds: in the key group, to the body, and in the values. */
  ghost predicate Searchable(rec: Bytes, n: Node, at: nat) {
    && Placed(rec, n, at) && IndexedAt(rec, Started(rec).value.pos, n.keys) && SearchEnds(rec, at)
    && (n.body.Values? ==> n.body.values == [] || IndexedAt(rec, at, n.body.values))
  }

  /** Then the lookup in the bytes answers as the lookup in the decoded node. */
  lemma SearchableAgrees(rec: Bytes, n: Node, at: nat, key: Bytes)
    requires Sound(n) && Searchable(rec, n, at)
    ensures var f := Searched(rec, Started(rec).value.pos, |n.keys|, key);
            && f.Ok? && SearchOk(n.keys, key, f.value)
            && ByteRead(rec, key) == Ok(ObjectRead(n, f.value)) && Answers(n, key, ObjectRead(n, f.value))
  {
    hide Compare, Ascending, Searched, IndexedAt, ChildAt, Started, Gotten, I32At, Answers;
    var h := Started(rec).value;
    IndexedSearches(rec, h.pos, n.keys, key);
    var f := Searched(rec, h.pos, |n.keys|, key).value;
    ReadAnswers(n, key, f);
    if n.body.Values? {
      GetExact(rec, at, n.body.values);
    }
  }

  /** The key group declares a length that reaches past the record. */
  ghost predicate Overstated(rec: Bytes, n: Node) {
    exists len: nat :: Declares(rec, KeysAt(n), len) && BlobBase(KeysAt(n), |n.keys|) + len > |rec|
  }

  lemma OverstatedErrs(rec: Bytes, n: Node, key: Bytes)
    requires DecodesTo(rec, n) && Overstated(rec, n)
    ensures ByteRead(rec, key) == Err
  {
    hide DecodesTo, KeysAt, Started, BigEndian, FromBigEndian, Bisected, Scanned;
    StartedOf(rec, n);
    var len: nat :| Declares(rec, KeysAt(n), len) && BlobBase(KeysAt(n), |n.keys|) + len > |rec|;
    OffsetReads(len);
  }

  /** The byte-side lookup. */
  method OnBytes(rec: Bytes, key: Bytes, ghost n: Node) returns (r: Result<Outcome>, ghost f: Found)
    ensures r == ByteRead(rec, key)
    ensures RecordOf(rec, n) ==> SearchOk(n.keys, key, f) && (n.body.Values? && f.At? ==> f.i < |n.body.values|) && r == Ok(ObjectRead(n, f))
    ensures RecordOf(rec, n) ==> r.Ok? && Answers(n, key, r.value)
    ensures DecodesTo(rec, n) && Overstated(rec, n) ==> r.Err?
  {
    hide RecordOf, DecodesTo, Overstated, Answers, Started, Searched, I32At, ChildAt, Gotten, SearchOk, Searchable;
    f := Missing(0);
    if RecordOf(rec, n) {
      RecordDecodes(rec, n);
      RecordSound(rec, n);
      RecordSearchable(rec, n);
      SearchableAgrees(rec, n, BodyAt(n), key);
      StartedOf(rec, n);
      f := Searched(rec, KeysAt(n), |n.keys|, key).value;
    }
    if DecodesTo(rec, n) && Overstated(rec, n) {
      OverstatedErrs(rec, n, key);
    }
    var good, flags, keysLen, link, pos := ReadStart(rec, n);
    if !good {
      return Err, f;
    }
    var s;
    s, pos := BinarySearch(rec, pos, keysLen, key, []);
    if s.Err? {
      return Err, f;
    }
    if IsDir(flags) {
      var count := keysLen + if IsRight(flags) then 1 else 0;
      if count == 0 {
        return Err, f;
      }
      if s.value.i >= count {
        return Ok(Outcome(link, false, None)), f;
      }
      var child := ReadChild(rec, pos, s.value.i, []);
      if child.Err? || child.value == 0 {
        return Err, f;
      }
      return Ok(Outcome(child.value, false, None)), f;
    }
    if s.value.At? {
      var v, cursor := BinaryGet(rec, pos, keysLen, s.value.i, []);
      r := if v.Ok? then Ok(Outcome(0, true, Some(v.value))) else Err;
      return;
    }
    r := Ok(Outcome(if s.value.i >= keysLen && link != 0 then link else 0, false, None));
  }

  /** A decodable record leads from its keys to its body, and within its body to children and values. */
  lemma DecodesPlaced(rec: Bytes, n: Node)
    requires DecodesTo(rec, n)
    ensures Placed(rec, n, BodyAt(n)) && (n.body.Values? ==> IndexedAt(rec, BodyAt(n), n.body.values))
  {
    hide DecodesTo, KeysAt, BodyAt, Started, ChildAt, IndexedAt, Stored, Loose, Blob, Serialized, Sound;
    StartedOf(rec, n);
    DecodesKeys(rec, n);
    DecodesBody(rec, n);
    if n.body.Children? {
      BodyOfDir(rec, n);
      forall i | 0 <= i < |n.body.children| ensures ChildAt(rec, BodyAt(n), i) == Ok(n.body.children[i]) {
        ChildPacked(rec, BodyAt(n), n.body.children, i);
      }
    } else {
      BodyOfLeaf(rec, n);
      StoredIsIndexed(rec, BodyAt(n), |n.keys|, n.body.values);
    }
  }

  lemma DecodesBody(rec: Bytes, n: Node)
    requires DecodesTo(rec, n)
    ensures n.body.Children? <==> IsDir(n.flags)
  {
  }

  lemma RecordSearchable(rec: Bytes, n: Node)
    requires RecordOf(rec, n)
    ensures Searchable(rec, n, BodyAt(n))
  {
    hide RecordOf, DecodesTo, KeysAt, BodyAt, Started, IndexedAt, Stored, Loose, Blob, Serialized, Placed, I32At;
    RecordDecodes(rec, n);
    DecodesPlaced(rec, n);
    StartedOf(rec, n);
    RecordKeys(rec, n);
    DecodesKeys(rec, n);
    StoredIsIndexed(rec, KeysAt(n), |n.keys|, n.keys);
  }

  lemma RecordKeys(rec: Bytes, n: Node)
    requires RecordOf(rec, n)
    ensures Stored(rec, KeysAt(n), |n.keys|, n.keys) && BodyAt(n) == KeysAt(n) + |Serialized(n.keys)| <= |rec| && Ascending(n.keys)
  {
    KeysHeld(n);
    Parts(n);
  }

  lemma RecordSound(rec: Bytes, n: Node)
    requires RecordOf(rec, n)
    ensures Sound(n)
  {
  }

  /** Skip to a child and read it. */
  method ReadChild(rec: Bytes, start: nat, i: nat, ghost cs: seq<nat>) returns (r: Result<nat>)
    requires start <= |rec|
    ensures r == ChildAt(rec, start, i)
    ensures rec[start..] == PackedAll(cs) && i < |cs| && (forall j :: 0 <= j < |cs| ==> cs[j] < U64) ==> r == Ok(cs[i])
  {
    hide PackedAll, UnpackedEnd, LongAt;
    if rec[start..] == PackedAll(cs) && i < |cs| && forall j :: 0 <= j < |cs| ==> cs[j] < U64 {
      ChildPacked(rec, start, cs, i);
    }
    var good, pos := UnpackLongSkip(rec, start, i, MAX_BYTES);
    if !good {
      return Err;
    }
    var next;
    r, next := UnpackLong(rec, pos);
  }

  lemma {:induction false} SkipsTo(cs: seq<nat>, i: nat)
    requires i <= |cs| && forall j :: 0 <= j < |cs| ==> cs[j] < U64
    ensures UnpackedEnd(PackedAll(cs), i, MAX_BYTES) == Ok(|PackedAll(cs[..i])|)
    decreases i
  {
    hide Packed, Unpacked;
    if i > 0 {
      UnpackInverts(cs[0], PackedAll(cs[1..]));
      assert (Packed(cs[0]) + PackedAll(cs[1..]))[|Packed(cs[0])|..] == PackedAll(cs[1..]);
      SkipsTo(cs[1..], i - 1);
      assert cs[..i][1..] == cs[1..][..i - 1];
    }
  }

  /** On every node the two lookups give the same next recid, found flag and value. */
  method ReadBothWays(n: Node, key: Bytes) returns (a: Result<Outcome>, b: Outcome)
    requires Sound(n) && Fits(n)
    ensures a == Ok(b) && Answers(n, key, b)
  {
    hide Packed, Encoded, Serialized, Compare, Fits, Answers;
    var rec := Serialize(n);
    ghost var f, g;
    a, f := OnBytes(rec, key, n);
    b, g := OnObject(n, key);
    SearchUnique(n.keys, key, f, g);
  }

  // ---------- when the bytes of a record can stand for the node ----------

  /**
   For every record that decodes to `n`: a search of its key group answers for the keys of `n`, whatever
   the key, if and only if the declared end lies within the record and every restart leads to its entries.
   */
  lemma KeySearchExact(rec: Bytes, n: Node)
    requires DecodesTo(rec, n)
    ensures (forall key :: Finds(rec, KeysAt(n), n.keys, key)) <==> IndexedAt(rec, KeysAt(n), n.keys)
  {
    hide DecodesTo, Finds, IndexedAt, Blob, KeysAt, BodyAt, Loose, Ascending;
    DecodesKeys(rec, n);
    SearchExact(rec, KeysAt(n), n.keys);
  }

  /** It leaves the cursor at the body if and only if the declared length is that of the entries. */
  lemma CursorExact(rec: Bytes, n: Node)
    requires DecodesTo(rec, n)
    ensures SearchEnds(rec, BodyAt(n)) <==> I32At(rec, KeysAt(n)) == Ok(|Blob(n.keys, |n.keys|)|)
  {
    hide DecodesTo, Blob, KeysAt, BodyAt, Started, Loose, I32At;
    StartedOf(rec, n);
    DecodesKeys(rec, n);
  }

  /** Both together make the tables lead to everything that decoding finds. */
  lemma SearchableExact(rec: Bytes, n: Node)
    requires DecodesTo(rec, n)
    ensures Searchable(rec, n, BodyAt(n)) <==>
              IndexedAt(rec, KeysAt(n), n.keys) && I32At(rec, KeysAt(n)) == Ok(|Blob(n.keys, |n.keys|)|)
  {
    hide DecodesTo, Blob, KeysAt, BodyAt, Started, IndexedAt, I32At, SearchEnds, Placed;
    StartedOf(rec, n);
    DecodesPlaced(rec, n);
    CursorExact(rec, n);
  }

  /** The same for whatever bytes decoding accepts, as the two readers find them. */
  method ReadAnyBothWays(rec: Bytes, key: Bytes) returns (a: Result<Node>, b: Result<Outcome>, ghost at: nat)
    ensures a.Ok? ==> Sound(a.value) && Placed(rec, a.value, at)
    ensures a.Ok? ==> var g, pos := a.value.keys, Started(rec).value.pos;
                      (forall k :: Finds(rec, pos, g, k)) <==> IndexedAt(rec, pos, g)
    ensures a.Ok? && a.value.body.Values? ==> var g := a.value.body.values;
              (forall i :: 0 <= i < |g| ==> Gotten(rec, at, |g|, i) == Ok(g[i])) <==> g == [] || IndexedAt(rec, at, g)
    ensures a.Ok? && Searchable(rec, a.value, at) ==> b.Ok? && Answers(a.value, key, b.value)
  {
    hide DecodesTo, RecordOf, Finds, IndexedAt, Started, Searchable, Answers, Gotten, ByteRead, Placed;
    ghost var f;
    ghost var n := Node(0, 0, [], Children([]));
    a, at := Deserialize(rec, n);
    b, f := OnBytes(rec, key, n);
    if a.Ok? {
      PlacedStarts(rec, a.value, at);
      SearchExact(rec, Started(rec).value.pos, a.value.keys);
      if a.value.body.Values? {
        GetExact(rec, at, a.value.body.values);
      }
      if Searchable(rec, a.value, at) {
        SearchableAgrees(rec, a.value, at, key);
      }
    }
  }

  lemma PlacedStarts(rec: Bytes, n: Node, at: nat)
    requires Placed(rec, n, at)
    ensures Started(rec).Ok?
  {
  }

  // ---------- a record that decodes and cannot be searched ----------

  /** The record of `n` with another declared length in its key group. */
  function Redeclared(n: Node, len: nat): Bytes
    requires KeysAt(n) + 4 <= |Encoded(n)|
  {
    Encoded(n)[..KeysAt(n)] + BigEndian(4, len) + Encoded(n)[KeysAt(n) + 4..]
  }

  lemma RedeclaredDecodes(n: Node, len: nat)
    requires Sound(n) && Fits(n) && |Blob(n.keys, |n.keys|)| <= len < I32
    requires BlobBase(KeysAt(n), |n.keys|) + len > |Encoded(n)|
    ensures KeysAt(n) + 4 <= |Encoded(n)|
    ensures var rec := Redeclared(n, len); DecodesTo(rec, n) && Overstated(rec, n)
  {
    hide Packed, Serialized, BodyPart, Small, Sound, Fits, Encoded, Blob, LinkPart, BigEndian;
    Parts(n);
    KeysHeld(n);
    Layout(Encoded(n), KeysAt(n), n.keys);
    var rec, old_, at := Redeclared(n, len), Encoded(n), KeysAt(n);
    var base, m := BlobBase(at, |n.keys|), |Blob(n.keys, |n.keys|)|;
    assert |BigEndian(4, len)| == 4 && |rec| == |old_|;
    assert rec[..at] == old_[..at] && rec[at + 4..] == old_[at + 4..] && rec[at..at + 4] == BigEndian(4, len);
    assert Declares(rec, at, len);
    assert base + m == BodyAt(n);
    assert rec[base..base + m] == rec[at + 4..][base - at - 4..base - at - 4 + m];
    assert old_[base..base + m] == old_[at + 4..][base - at - 4..base - at - 4 + m];
    assert rec[BodyAt(n)..] == rec[at + 4..][BodyAt(n) - at - 4..];
    assert old_[BodyAt(n)..] == old_[at + 4..][BodyAt(n) - at - 4..];
    HeadKept(old_, rec, at, Packed(|n.keys| * 16 + n.flags), LinkPart(n));
  }

  lemma HeadKept(a: Bytes, b: Bytes, at: nat, x: Bytes, y: Bytes)
    requires at == |x| + |y| <= |a| && at <= |b| && a[..at] == b[..at] && x <= a && y <= a[|x|..]
    ensures x <= b && y <= b[|x|..]
  {
    assert b[..|x|] == b[..at][..|x|] && a[..|x|] == a[..at][..|x|];
    assert b[|x|..][..|y|] == b[..at][|x|..] && a[|x|..][..|y|] == a[..at][|x|..];
  }

  /** Decoding accepts, for every node, a record that every lookup in the bytes refuses. */
  method DecodesButRefuses(n: Node, len: nat, key: Bytes) returns (a: Result<Node>, b: Result<Outcome>)
    requires Sound(n) && Fits(n) && |Blob(n.keys, |n.keys|)| <= len < I32
    requires BlobBase(KeysAt(n), |n.keys|) + len > |Encoded(n)|
    ensures a == Ok(n) && b == Err
  {
    hide DecodesTo, Overstated, Sound, Fits, Encoded, Blob, KeysAt, Redeclared;
    RedeclaredDecodes(n, len);
    var rec := Redeclared(n, len);
    ghost var f, at;
    a, at := Deserialize(rec, n);
    b, f := OnBytes(rec, key, n);
  }

  const FORGED: Bytes := [0x93, 0, 0, 0, 100, 0, 0, 0, 0, 0x80, 0x81, 0x41, 0, 0, 0, 3, 0, 0, 0, 0, 0x80, 0x81, 0x42]

  lemma SmallBigEndian(x: Byte)
    ensures BigEndian(4, x) == [0, 0, 0, x]
  {
    var y: nat := x;
    assert y / 256 == 0 && y % 256 == y;
    assert BigEndian(0, 0) == [] && BigEndian(1, 0) == [0] && BigEndian(2, 0) == [0, 0] && BigEndian(3, 0) == [0, 0, 0];
  }

  lemma OneByteBlob(g: seq<Bytes>, b: Byte)
    requires g == [[b]]
    ensures Blob(g, 1) == [0x80, 0x81, b] && Blob(g, 0) == []
  {
    hide Packed, Shared;
    SharedFirst(g, 0);
    PackedSmall(0);
    PackedSmall(1);
    assert g[0][0..] == [b] && Coded(g, 0) == [0x80, 0x81, b];
    assert Blob(g, 1) == [] + Coded(g, 0);
  }

  lemma OneByteGroup(g: seq<Bytes>, b: Byte)
    requires g == [[b]]
    ensures Blob(g, 1) == [0x80, 0x81, b]
    ensures Serialized(g) == [0, 0, 0, 3, 0, 0, 0, 0, 0x80, 0x81, b]
  {
    hide Blob, BigEndian;
    OneByteBlob(g, b);
    SmallBigEndian(3);
    SmallBigEndian(0);
    assert Restarts(1) == 1 && Table(g, 0) == [] && Table(g, 1) == [] + BigEndian(4, 0);
  }

  function ForgedNode(): Node {
    Node(3, 0, [[0x41]], Values([[0x42]], None))
  }

  lemma ForgedParts()
    ensures Encoded(ForgedNode()) == [0x93] + (Serialized([[0x41]]) + Serialized([[0x42]])) && KeysAt(ForgedNode()) == 1
  {
    hide Serialized, Packed, Groups;
    var n := ForgedNode();
    assert Packed(19) == [0x93] by {
      PackedSmall(19);
    }
    assert |n.keys| * 16 + n.flags == 19 && LinkPart(n) == [] && FencePart(n.body.fence) == [];
    assert BodyPart(n) == Serialized([[0x42]]) + [] == Serialized([[0x42]]);
    assert [] + (Serialized([[0x41]]) + BodyPart(n)) == Serialized([[0x41]]) + BodyPart(n);
  }

  lemma PackedSmall(v: nat)
    requires v < 128
    ensures Packed(v) == [v + 128]
  {
  }

  lemma ForgedBytes()
    ensures Encoded(ForgedNode()) == FORGED[4 := 3] && KeysAt(ForgedNode()) == 1
    ensures KeysAt(ForgedNode()) + 4 <= |Encoded(ForgedNode())| && FORGED == Redeclared(ForgedNode(), 100)
  {
    hide Serialized, Encoded, KeysAt, ForgedNode, BigEndian, Blob;
    ForgedParts();
    OneByteGroup([[0x41]], 0x41);
    OneByteGroup([[0x42]], 0x42);
    SmallBigEndian(100);
    var rec := Encoded(ForgedNode());
    assert rec == FORGED[4 := 3];
    assert rec[..1] == [0x93] && rec[5..] == FORGED[5..];
    assert FORGED == [0x93] + [0, 0, 0, 100] + FORGED[5..];
  }

  lemma ForgedFits()
    ensures Sound(ForgedNode()) && Fits(ForgedNode()) && |Blob(ForgedNode().keys, 1)| == 3
  {
    hide Serialized, Blob, Compare;
    OneByteGroup([[0x41]], 0x41);
    OneByteGroup([[0x42]], 0x42);
  }

  /** One such record: a leaf with one key, whose key group declares a hundred bytes. */
  method ForgedLeaf(key: Bytes) returns (a: Result<Node>, b: Result<Outcome>)
    ensures KeysAt(ForgedNode()) + 4 <= |Encoded(ForgedNode())| && FORGED == Redeclared(ForgedNode(), 100)
    ensures a == Ok(ForgedNode()) && b == Err
  {
    hide Serialized, Encoded, Blob, KeysAt, Sound, Fits, Redeclared;
    ForgedBytes();
    ForgedFits();
    a, b := DecodesButRefuses(ForgedNode(), 100, key);
  }

  // ---------- a record that decodes and is searched wrongly ----------

  const MISLED: Bytes := [0x93] + ([0, 0, 0, 4] + ([0, 0, 0, 2] + ([0x80, 0x82, 0x80, 0x80] + [0, 0, 0, 3, 0, 0, 0, 0, 0x80, 0x81, 0x42])))

  /** A leaf with one key and one value; the record declares the right length and puts the one restart two bytes too far. */
  function MisledNode(): Node {
    Node(3, 0, [[0x80, 0x80]], Values([[0x42]], None))
  }

  lemma TwoByteBlob(g: seq<Bytes>)
    requires g == [[0x80, 0x80]]
    ensures Blob(g, 1) == [0x80, 0x82, 0x80, 0x80] && |Serialized(g)| == 12
  {
    hide Packed, Shared, BigEndian;
    SharedFirst(g, 0);
    PackedSmall(0);
    PackedSmall(2);
    assert g[0][0..] == [0x80, 0x80] && Coded(g, 0) == [0x80, 0x82, 0x80, 0x80];
    assert Blob(g, 0) == [] && Blob(g, 1) == [] + Coded(g, 0);
    assert Restarts(1) == 1;
  }

  lemma MisledParts()
    ensures |MISLED| == 24 && MISLED[0] == 0x93 && MISLED[1..5] == [0, 0, 0, 4] && MISLED[5..9] == [0, 0, 0, 2]
    ensures MISLED[9..13] == [0x80, 0x82, 0x80, 0x80] && MISLED[11] == 0x80 && MISLED[12] == 0x80
    ensures MISLED[13..] == [0, 0, 0, 3, 0, 0, 0, 0, 0x80, 0x81, 0x42]
  {
    var a: Bytes, b: Bytes, c: Bytes, d: Bytes, e: Bytes :=
      [0x93], [0, 0, 0, 4], [0, 0, 0, 2], [0x80, 0x82, 0x80, 0x80], [0, 0, 0, 3, 0, 0, 0, 0, 0x80, 0x81, 0x42];
    InParts(a, b, c, d, e);
    assert MISLED == a + (b + (c + (d + e)));
    assert MISLED[0] == MISLED[..1][0] && MISLED[11] == MISLED[9..13][2] && MISLED[12] == MISLED[9..13][3];
  }

  lemma InParts(a: Bytes, b: Bytes, c: Bytes, d: Bytes, e: Bytes)
    ensures var s, i, j, k := a + (b + (c + (d + e))), |a|, |a| + |b|, |a| + |b| + |c|;
            && |s| == k + |d| + |e| && s[..i] == a && s[i..j] == b && s[j..k] == c && s[k..k + |d|] == d && s[k + |d|..] == e
  {
    var s, i, j, k := a + (b + (c + (d + e))), |a|, |a| + |b|, |a| + |b| + |c|;
    assert s[i..] == b + (c + (d + e));
    assert s[j..] == s[i..][|b|..] && s[j..] == c + (d + e);
    assert s[k..] == s[j..][|c|..] && s[k..] == d + e;
    assert s[i..j] == s[i..][..|b|] && s[j..k] == s[j..][..|c|] && s[k..k + |d|] == s[k..][..|d|];
    assert s[k + |d|..] == s[k..][|d|..];
  }

  lemma MisledDecodes()
    ensures DecodesTo(MISLED, MisledNode()) && KeysAt(MisledNode()) == 1
  {
    hide Serialized, Packed, Compare, Blob, BigEndian, Loose;
    var n, g := MisledNode(), [[0x80, 0x80]];
    TwoByteBlob(g);
    OneByteGroup([[0x42]], 0x42);
    PackedSmall(19);
    assert |n.keys| * 16 + n.flags == 19 && LinkPart(n) == [] && FencePart(n.body.fence) == [];
    assert BodyPart(n) == Serialized([[0x42]]) + [] == Serialized([[0x42]]);
    assert |Encoded(n)| == 24 && BodyAt(n) == 13;
    MisledParts();
    assert MISLED[..1] == [0x93];
    MisledLoose(g);
  }

  lemma MisledLoose(g: seq<Bytes>)
    requires g == [[0x80, 0x80]]
    ensures Loose(MISLED, 1, 1, g)
  {
    hide Blob, BigEndian;
    TwoByteBlob(g);
    SmallBigEndian(4);
    MisledParts();
    assert Declares(MISLED, 1, 4) && BlobBase(1, 1) == 9;
  }

  /** A single byte with its high bit set is a packed number. */
  lemma ByteIsPacked(s: Bytes, max: nat)
    requires s != [] && s[0] >= 128 && max > 0
    ensures Unpacked(0, s, max) == Ok(Read(s[0] - 128, 1))
  {
  }

  lemma MisledNumbers()
    ensures I32At(MISLED, 1) == Ok(4) && I32At(MISLED, 5) == Ok(2) && |MISLED| == 24
    ensures IntAt(MISLED, 11) == Ok(Num(0, 12)) && IntAt(MISLED, 12) == Ok(Num(0, 13)) && Started(MISLED) == Ok(Start(3, 1, 0, 1))
  {
    hide Unpacked, FromBigEndian, BigEndian;
    MisledParts();
    SmallBigEndian(4);
    SmallBigEndian(2);
    OffsetReads(4);
    OffsetReads(2);
    ByteIsPacked(MISLED, INT_BYTES);
    ByteIsPacked(MISLED[11..], INT_BYTES);
    ByteIsPacked(MISLED[12..], INT_BYTES);
  }

  /** The restart found by the table is an empty string. */
  lemma MisledRestart(v: View, key: Bytes)
    requires v == View(MISLED, 1, 1, 4) && key == [0x80, 0x80]
    ensures RestartOrder(v, 0, key) == Ok(Less) && Rolled(v, 0, 0) == Ok(Item([], 13))
  {
    hide I32At, IntAt;
    MisledNumbers();
    assert Base(v) == 9 && End(v) == 13 && OffsetOf(v, 0) == Ok(11);
    assert InPlace(MISLED, 13, 0, key) == Ok(Less);
    assert MISLED[13..13] == [] && [] + MISLED[13..13] == [];
    assert EntryRead(MISLED, [], 11, 13, true) == Ok(Item([], 13));
  }

  lemma MisledSearch()
    ensures Started(MISLED) == Ok(Start(3, 1, 0, 1)) && Searched(MISLED, 1, 1, [0x80, 0x80]) == Ok(Missing(1))
  {
    hide I32At, IntAt, RestartOrder, Rolled, Started;
    var key: Bytes, v := [0x80, 0x80], View(MISLED, 1, 1, 4);
    MisledNumbers();
    MisledRestart(v, key);
    assert Restarts(1) == 1 && End(v) == 13 && Least(16, 1) == 1;
    assert Bisected(v, key, 1, 0) == Ok(0) && Bisected(v, key, 0, 0) == Ok(0);
    assert Compare([], key) == Less && Scanned(v, key, 0, 1, 1) == Ok(Missing(1)) && Scanned(v, key, 0, 0, 1) == Ok(Missing(1));
  }

  /** Decoding finds the key and its value; the lookup in the bytes says, without an error, that the key is not there. */
  method SilentlyAbsent() returns (a: Result<Node>, b: Result<Outcome>)
    ensures a == Ok(MisledNode()) && [0x80, 0x80] in MisledNode().keys
    ensures b == Ok(Outcome(0, false, None)) && b == ByteRead(MISLED, [0x80, 0x80]) && !Answers(MisledNode(), [0x80, 0x80], b.value)
    ensures DecodesTo(MISLED, MisledNode()) && !Overstated(MISLED, MisledNode()) && !IndexedAt(MISLED, KeysAt(MisledNode()), MisledNode().keys)
  {
    hide DecodesTo, Started, Searched, IndexedAt, KeysAt, I32At;
    MisledDecodes();
    MisledSearch();
    MisledNotIndexed();
    ghost var f, at;
    a, at := Deserialize(MISLED, MisledNode());
    b, f := OnBytes(MISLED, [0x80, 0x80], MisledNode());
    assert MisledNode().keys[0] == [0x80, 0x80];
  }

  lemma MisledNotIndexed()
    ensures !IndexedAt(MISLED, KeysAt(MisledNode()), MisledNode().keys) && !Overstated(MISLED, MisledNode())
  {
    hide DecodesTo, IndexedAt, Searched, KeysAt, BigEndian;
    MisledDecodes();
    MisledSearch();
    var g := MisledNode().keys;
    if IndexedAt(MISLED, 1, g) {
      SearchExact(MISLED, 1, g);
      assert Finds(MISLED, 1, g, g[0]);
      FoundWhereItIs(g, 0, Missing(1));
    }
    SmallBigEndian(4);
    OffsetReads(4);
    forall len: nat | Declares(MISLED, 1, len) ensures len == 4 {
      OffsetReads(len);
      MisledParts();
    }
  }
}

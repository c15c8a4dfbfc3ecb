/**
 Composite keys.  A tuple is encoded so that the unsigned byte order of the encodings
 is the order of the tuples: integers big-endian with the sign bit flipped, byte strings
 with zero bytes escaped and a two-byte terminator.
 */
module TupleCodec {
  import opened Basics
  import opened ByteStrings
  import Utf8 = Utf8Order

  datatype Component = Int32 | Int64 | Text | Raw

  /** A text value is its UTF-8 bytes. */
  datatype Value = Num(n: int) | Blob(bytes: Bytes)

  const MIN32: int := -0x8000_0000
  const MIN64: int := -0x8000_0000_0000_0000

  /** A number in range for the component, or bytes. */
  predicate OfKind(c: Component, v: Value) {
    match c
    case Int32 => v.Num? && MIN32 <= v.n < -MIN32
    case Int64 => v.Num? && MIN64 <= v.n < -MIN64
    case Text => v.Blob?
    case Raw => v.Blob?
  }

  predicate AllOfKind(schema: seq<Component>, tuple: seq<Value>) {
    |tuple| <= |schema| && forall i :: 0 <= i < |tuple| ==> OfKind(schema[i], tuple[i])
  }

  /** Bytes that a text component takes: well-formed UTF-8. */
  predicate TextOk(c: Component, v: Value) {
    c.Text? && v.Blob? ==> Utf8.IsUtf8(v.bytes)
  }

  predicate TextsOk(schema: seq<Component>, tuple: seq<Value>) {
    forall i :: 0 <= i < |tuple| && i < |schema| ==> TextOk(schema[i], tuple[i])
  }

  /** A tuple of the schema. */
  predicate AllFit(schema: seq<Component>, tuple: seq<Value>) {
    AllOfKind(schema, tuple) && TextsOk(schema, tuple)
  }

  // ---------- order ----------

  function CompareValues(c: Component, a: Value, b: Value): Order
    requires OfKind(c, a) && OfKind(c, b)
  {
    if c.Int32? || c.Int64? then CompareInts(a.n, b.n) else Compare(a.bytes, b.bytes)
  }

  /** Component-wise; on an equal shared prefix the shorter tuple is smaller. */
  function CompareTuples(schema: seq<Component>, a: seq<Value>, b: seq<Value>): Order
    requires AllOfKind(schema, a) && AllOfKind(schema, b)
  {
    if a == [] || b == [] then CompareInts(|a|, |b|)
    else if CompareValues(schema[0], a[0], b[0]) != Equal then CompareValues(schema[0], a[0], b[0])
    else CompareTuples(schema[1..], a[1..], b[1..])
  }

  // ---------- what is written ----------

  function EscapedByte(b: Byte): Bytes {
    if b == 0 then [0, 255] else [b]
  }

  function Escaped(payload: Bytes): Bytes {
    if payload == [] then [0, 0] else EscapedByte(payload[0]) + Escaped(payload[1..])
  }

  function Encoded(c: Component, v: Value): Bytes
    requires OfKind(c, v)
  {
    match c
    case Int32 => BigEndian(4, v.n - MIN32)
    case Int64 => BigEndian(8, v.n - MIN64)
    case Text => Escaped(v.bytes)
    case Raw => Escaped(v.bytes)
  }

  function EncodedTuple(schema: seq<Component>, tuple: seq<Value>): Bytes
    requires AllOfKind(schema, tuple)
  {
    if tuple == [] then [] else Encoded(schema[0], tuple[0]) + EncodedTuple(schema[1..], tuple[1..])
  }

  // ---------- order is preserved ----------

  lemma EscapedUnfolds(x: Bytes)
    ensures Escaped(x) == if x == [] then [0, 0] else EscapedByte(x[0]) + Escaped(x[1..])
  {
  }

  lemma EscapedHead(x: Bytes, a: Bytes)
    requires x != []
    ensures Escaped(x) + a == EscapedByte(x[0]) + (Escaped(x[1..]) + a) && (Escaped(x) + a)[0] == x[0]
  {
    hide Escaped;
    EscapedUnfolds(x);
    Assoc(EscapedByte(x[0]), Escaped(x[1..]), a);
  }

  lemma CompareFirst(a: Bytes, b: Bytes)
    requires a != [] && b != [] && a[0] != b[0]
    ensures Compare(a, b) == CompareInts(a[0], b[0])
  {
  }

  /** Escaped strings compare like the strings, whatever follows; in particular none is a prefix of another. */
  lemma {:induction false} EscapedOrder(x: Bytes, y: Bytes, a: Bytes, b: Bytes)
    ensures Compare(Escaped(x) + a, Escaped(y) + b) == if x == y then Compare(a, b) else Compare(x, y)
  {
    hide Escaped, Compare;
    if x == [] || y == [] {
      EscapedEnds(x, y, a, b);
    } else {
      EscapedHead(x, a);
      EscapedHead(y, b);
      assert x == [x[0]] + x[1..] && y == [y[0]] + y[1..];
      CompareHead(x[0], y[0], x[1..], y[1..]);
      if x[0] == y[0] {
        CompareAfter(EscapedByte(x[0]), Escaped(x[1..]) + a, Escaped(y[1..]) + b);
        EscapedOrder(x[1..], y[1..], a, b);
      } else {
        CompareFirst(Escaped(x) + a, Escaped(y) + b);
      }
    }
  }

  lemma EscapedEnds(x: Bytes, y: Bytes, a: Bytes, b: Bytes)
    requires x == [] || y == []
    ensures Compare(Escaped(x) + a, Escaped(y) + b) == if x == y then Compare(a, b) else Compare(x, y)
  {
    var ex, ey := Escaped(x) + a, Escaped(y) + b;
    if x == y {
      CompareAfter([0, 0], a, b);
    } else {
      assert ex[0] == (if x == [] then 0 else x[0]) && ey[0] == (if y == [] then 0 else y[0]);
      if ex[0] == ey[0] {
        assert ex[1..][0] == (if x == [] then 0 else 255) && ey[1..][0] == (if y == [] then 0 else 255);
      }
    }
  }

  lemma WidthBounds()
    ensures Pow256(4) == 0x1_0000_0000 && Pow256(8) == 0x1_0000_0000_0000_0000
  {
    assert Pow256(1) == 256 && Pow256(2) == 65536 && Pow256(3) == 0x100_0000;
    assert Pow256(5) == 256 * Pow256(4) && Pow256(6) == 256 * Pow256(5) && Pow256(7) == 256 * Pow256(6);
  }

  lemma EncodedOrder(c: Component, v: Value, w: Value, a: Bytes, b: Bytes)
    requires OfKind(c, v) && OfKind(c, w)
    ensures Compare(Encoded(c, v) + a, Encoded(c, w) + b)
         == if v == w then Compare(a, b) else CompareValues(c, v, w)
    ensures CompareValues(c, v, w) == Equal <==> v == w
  {
    WidthBounds();
    match c {
      case Int32 => BigEndianOrder(4, v.n - MIN32, w.n - MIN32, a, b);
      case Int64 => BigEndianOrder(8, v.n - MIN64, w.n - MIN64, a, b);
      case Text => EscapedOrder(v.bytes, w.bytes, a, b); CompareEqual(v.bytes, w.bytes);
      case Raw => EscapedOrder(v.bytes, w.bytes, a, b); CompareEqual(v.bytes, w.bytes);
    }
  }

  lemma EncodedNotEmpty(c: Component, v: Value)
    requires OfKind(c, v)
    ensures Encoded(c, v) != []
  {
  }

  /** For all schemas and tuples of any arity, byte order of the encodings is tuple order. */
  lemma {:induction false} EncodingPreservesOrder(schema: seq<Component>, a: seq<Value>, b: seq<Value>)
    requires AllOfKind(schema, a) && AllOfKind(schema, b)
    ensures Compare(EncodedTuple(schema, a), EncodedTuple(schema, b)) == CompareTuples(schema, a, b)
  {
    if a == [] || b == [] {
      if a != [] {
        EncodedNotEmpty(schema[0], a[0]);
      }
      if b != [] {
        EncodedNotEmpty(schema[0], b[0]);
      }
    } else {
      EncodedOrder(schema[0], a[0], b[0], EncodedTuple(schema[1..], a[1..]), EncodedTuple(schema[1..], b[1..]));
      EncodingPreservesOrder(schema[1..], a[1..], b[1..]);
    }
  }

  /** Hence different tuples have different encodings. */
  lemma {:induction false} EncodingInjective(schema: seq<Component>, a: seq<Value>, b: seq<Value>)
    requires AllOfKind(schema, a) && AllOfKind(schema, b) && EncodedTuple(schema, a) == EncodedTuple(schema, b)
    ensures a == b
  {
    CompareEqual(EncodedTuple(schema, a), EncodedTuple(schema, b));
    EncodingPreservesOrder(schema, a, b);
    EqualTuples(schema, a, b);
  }

  lemma {:induction false} EqualTuples(schema: seq<Component>, a: seq<Value>, b: seq<Value>)
    requires AllOfKind(schema, a) && AllOfKind(schema, b) && CompareTuples(schema, a, b) == Equal
    ensures a == b
  {
    if a != [] && b != [] {
      EncodedOrder(schema[0], a[0], b[0], [], []);
      EqualTuples(schema[1..], a[1..], b[1..]);
      assert a == [a[0]] + a[1..] && b == [b[0]] + b[1..];
    }
  }

  // ---------- repairing text ----------

  /** Whether `c` may follow lead byte `b` of three or four bytes. */
  predicate SecondOk(b: int, c: int) {
    && 0x80 <= c < 0xC0
    && (b == 0xE0 ==> 0xA0 <= c) && (b == 0xED ==> c < 0xA0)
    && (b == 0xF0 ==> 0x90 <= c) && (b == 0xF4 ==> c < 0x90)
  }

  /** Length of what is replaced at once: the longest beginning of a character, at least one byte. */
  function BadLength(s: Bytes): (n: nat)
    requires s != []
    ensures 1 <= n <= |s|
  {
    var b: int := s[0];
    if 0xE0 <= b < 0xF5 && |s| > 1 && SecondOk(b, s[1])
    then (if 0xF0 <= b && Utf8.Continues(s, 2) then 3 else 2)
    else 1
  }

  /** Every malformed part becomes one replacement character, U+FFFD. */
  function Repaired(s: Bytes): (r: Bytes)
    ensures Utf8.IsUtf8(r)
    decreases |s|
  {
    if s == [] then []
    else
      match Utf8.FirstChar(s)
      case Ok(c) =>
        Utf8.FirstCharSound(s);
        var rest := Repaired(s[c.used..]);
        JoinedIsUtf8(c.cp, rest);
        s[..c.used] + rest
      case Err =>
        var rest := Repaired(s[BadLength(s)..]);
        assert Utf8.Utf8(0xFFFD) == [0xEF, 0xBF, 0xBD];
        JoinedIsUtf8(0xFFFD, rest);
        [0xEF, 0xBF, 0xBD] + rest
  }

  lemma JoinedIsUtf8(cp: int, rest: Bytes)
    requires Utf8.Scalar(cp) && Utf8.IsUtf8(rest)
    ensures Utf8.IsUtf8(Utf8.Utf8(cp) + rest)
  {
    var u := Utf8.Utf8(cp);
    Utf8.FirstCharComplete(cp, rest);
    assert (u + rest)[|u|..] == rest;
  }

  /** Well-formed text, and no other, is left as it is. */
  lemma {:induction false} RepairedSame(s: Bytes)
    ensures Repaired(s) == s <==> Utf8.IsUtf8(s)
    decreases |s|
  {
    hide Utf8.FirstChar;
    if s != [] && Utf8.FirstChar(s).Ok? {
      var n := Utf8.FirstChar(s).value.used;
      RepairedSame(s[n..]);
      assert s == s[..n] + s[n..];
    }
  }

  /** Text in front of anything is kept. */
  lemma {:induction false} RepairedAfter(a: Bytes, b: Bytes)
    requires Utf8.IsUtf8(a)
    ensures Repaired(a + b) == a + Repaired(b)
    decreases |a|
  {
    hide Utf8.FirstChar, Utf8.Utf8, Repaired;
    if a == [] {
      assert a + b == b && a + Repaired(b) == Repaired(b);
    } else {
      Utf8.FirstCharSound(a);
      var c := Utf8.FirstChar(a).value;
      var u, rest := Utf8.Utf8(c.cp), a[c.used..];
      assert a == u + rest;
      RepairedAfter(rest, b);
      Regroup(u, rest, b);
      RepairedChar(c.cp, rest + b);
      Regroup(u, rest, Repaired(b));
    }
  }

  lemma RepairedChar(cp: int, rest: Bytes)
    requires Utf8.Scalar(cp)
    ensures Repaired(Utf8.Utf8(cp) + rest) == Utf8.Utf8(cp) + Repaired(rest)
  {
    hide Utf8.FirstChar, Utf8.Utf8;
    var u := Utf8.Utf8(cp);
    Utf8.FirstCharComplete(cp, rest);
    assert (u + rest)[..|u|] == u && (u + rest)[|u|..] == rest;
  }

  lemma Regroup(a: Bytes, b: Bytes, c: Bytes)
    ensures a + b + c == a + (b + c)
  {
  }

  /**
   Where no character begins, one replacement character stands for `n` bytes: the longest
   beginning of a character that is there, or a single byte.
   */
  lemma RepairsLongest(s: Bytes) returns (n: nat)
    requires s != [] && forall cp :: Utf8.Scalar(cp) ==> !(Utf8.Utf8(cp) <= s)
    ensures 1 <= n <= |s| && Repaired(s) == Utf8.Utf8(0xFFFD) + Repaired(s[n..])
    ensures n > 1 ==> exists cp :: Utf8.Scalar(cp) && s[..n] <= Utf8.Utf8(cp)
    ensures forall m, cp :: n < m <= |s| && Utf8.Scalar(cp) ==> !(s[..m] <= Utf8.Utf8(cp))
  {
    n := BadLength(s);
    if Utf8.FirstChar(s).Ok? {
      Utf8.FirstCharSound(s);
    }
    assert Utf8.Utf8(0xFFFD) == [0xEF, 0xBF, 0xBD];
    if n > 1 {
      BeginsOne(s);
    }
    forall m, cp | n < m <= |s| && Utf8.Scalar(cp) ensures !(s[..m] <= Utf8.Utf8(cp)) {
      BeginsNoLonger(s, m, cp);
    }
  }

  lemma BeginsOne(s: Bytes)
    requires s != [] && BadLength(s) > 1
    ensures exists cp :: Utf8.Scalar(cp) && s[..BadLength(s)] <= Utf8.Utf8(cp)
  {
    hide Utf8.Utf8;
    var n := BadLength(s);
    var whole: Bytes := s[..n] + if s[0] < 0xF0 || n == 3 then [0x80] else [0x80, 0x80];
    Utf8.FirstCharSound(whole);
    assert whole[..n] == s[..n];
  }

  lemma BeginsNoLonger(s: Bytes, m: nat, cp: int)
    requires s != [] && BadLength(s) < m <= |s| && Utf8.Scalar(cp) && !(Utf8.Utf8(cp) <= s)
    ensures !(s[..m] <= Utf8.Utf8(cp))
  {
  }

  // ---------- what is read ----------

  /** A parsed prefix and its length. */
  datatype Parsed<T> = Parsed(value: T, used: nat)

  /** The escaped string at the front of `s`. */
  function Unescaped(s: Bytes): (r: Result<Parsed<Bytes>>)
    ensures r.Ok? ==> 2 <= r.value.used <= |s|
  {
    if s == [] then Err
    else if s[0] != 0 then
      match Unescaped(s[1..])
      case Ok(p) => Ok(Parsed([s[0]] + p.value, p.used + 1))
      case Err => Err
    else if |s| < 2 then Err
    else if s[1] == 0 then Ok(Parsed([], 2))
    else if s[1] != 255 then Err
    else
      match Unescaped(s[2..])
      case Ok(p) => Ok(Parsed([0] + p.value, p.used + 2))
      case Err => Err
  }

  /** What the bytes of a component hold, before text is repaired. */
  function Payload(c: Component, s: Bytes): (r: Result<Parsed<Value>>)
    ensures r.Ok? ==> 0 < r.value.used <= |s|
  {
    match c
    case Int32 => if |s| < 4 then Err else Ok(Parsed(Num(FromBigEndian(s[..4]) + MIN32), 4))
    case Int64 => if |s| < 8 then Err else Ok(Parsed(Num(FromBigEndian(s[..8]) + MIN64), 8))
    case Text => PayloadBlob(s)
    case Raw => PayloadBlob(s)
  }

  function PayloadBlob(s: Bytes): (r: Result<Parsed<Value>>)
    ensures r.Ok? ==> 0 < r.value.used <= |s|
  {
    match Unescaped(s)
    case Ok(p) => Ok(Parsed(Blob(p.value), p.used))
    case Err => Err
  }

  function PayloadTuple(schema: seq<Component>, s: Bytes): Result<seq<Value>>
    decreases |s|
  {
    if s == [] then Ok([])
    else if schema == [] then Err
    else
      match Payload(schema[0], s)
      case Err => Err
      case Ok(p) => Prefixed([p.value], PayloadTuple(schema[1..], s[p.used..]))
  }

  /** Text is repaired on decoding; other values are taken as they are. */
  function Repair(c: Component, v: Value): Value {
    if c.Text? && v.Blob? then Blob(Repaired(v.bytes)) else v
  }

  function Decoded(c: Component, s: Bytes): (r: Result<Parsed<Value>>)
    ensures r.Ok? ==> 0 < r.value.used <= |s|
  {
    match Payload(c, s)
    case Ok(p) => Ok(Parsed(Repair(c, p.value), p.used))
    case Err => Err
  }

  /** Components until the bytes are used up. */
  function DecodedTuple(schema: seq<Component>, s: Bytes): Result<seq<Value>>
    decreases |s|
  {
    if s == [] then Ok([])
    else if schema == [] then Err
    else
      match Decoded(schema[0], s)
      case Err => Err
      case Ok(p) => Prefixed([p.value], DecodedTuple(schema[1..], s[p.used..]))
  }

  function Prefixed(vs: seq<Value>, r: Result<seq<Value>>): Result<seq<Value>> {
    match r
    case Ok(rest) => Ok(vs + rest)
    case Err => Err
  }

  lemma {:induction false} UnescapedSound(s: Bytes)
    ensures Unescaped(s).Ok? ==> s[..Unescaped(s).value.used] == Escaped(Unescaped(s).value.value)
  {
    if s != [] && s[0] != 0 {
      UnescapedSound(s[1..]);
    } else if |s| >= 2 && s[0] == 0 && s[1] == 255 {
      UnescapedSound(s[2..]);
    }
  }

  lemma {:induction false} UnescapedInverts(p: Bytes, rest: Bytes)
    ensures Unescaped(Escaped(p) + rest) == Ok(Parsed(p, |Escaped(p)|))
  {
    var s := Escaped(p) + rest;
    if p != [] {
      UnescapedInverts(p[1..], rest);
      if p[0] == 0 {
        assert s[2..] == Escaped(p[1..]) + rest;
      } else {
        assert s[1..] == Escaped(p[1..]) + rest;
      }
      assert p == [p[0]] + p[1..];
    }
  }

  lemma PayloadInverts(c: Component, v: Value, rest: Bytes)
    requires OfKind(c, v)
    ensures Payload(c, Encoded(c, v) + rest) == Ok(Parsed(v, |Encoded(c, v)|))
  {
    WidthBounds();
    var s := Encoded(c, v) + rest;
    match c {
      case Int32 => BigEndianInverse(4, v.n - MIN32); assert s[..4] == Encoded(c, v);
      case Int64 => BigEndianInverse(8, v.n - MIN64); assert s[..8] == Encoded(c, v);
      case Text => UnescapedInverts(v.bytes, rest);
      case Raw => UnescapedInverts(v.bytes, rest);
    }
  }

  lemma PayloadSound(c: Component, s: Bytes)
    ensures Payload(c, s).Ok? ==>
              var p := Payload(c, s).value; OfKind(c, p.value) && s[..p.used] == Encoded(c, p.value)
  {
    WidthBounds();
    UnescapedSound(s);
    if |s| >= 4 {
      BigEndianOnto(s[..4]);
    }
    if |s| >= 8 {
      BigEndianOnto(s[..8]);
    }
  }

  lemma RepairFits(c: Component, v: Value)
    requires OfKind(c, v)
    ensures OfKind(c, Repair(c, v)) && TextOk(c, Repair(c, v)) && (Repair(c, v) == v <==> TextOk(c, v))
  {
    if c.Text? {
      RepairedSame(v.bytes);
    }
  }

  /** Decoding recovers every tuple. */
  lemma {:induction false} DecodingInverts(schema: seq<Component>, t: seq<Value>)
    requires AllFit(schema, t)
    ensures DecodedTuple(schema, EncodedTuple(schema, t)) == Ok(t)
  {
    hide Payload, Encoded, OfKind, TextOk, Repair;
    if t != [] {
      var e, rest := Encoded(schema[0], t[0]), EncodedTuple(schema[1..], t[1..]);
      PayloadInverts(schema[0], t[0], rest);
      RepairFits(schema[0], t[0]);
      EncodedNotEmpty(schema[0], t[0]);
      assert (e + rest)[|e|..] == rest;
      DecodingInverts(schema[1..], t[1..]);
      assert t == [t[0]] + t[1..];
    }
  }

  /** What the bytes hold encodes to the bytes. */
  lemma {:induction false} PayloadsEncode(schema: seq<Component>, s: Bytes)
    ensures PayloadTuple(schema, s).Ok? ==>
              AllOfKind(schema, PayloadTuple(schema, s).value) && EncodedTuple(schema, PayloadTuple(schema, s).value) == s
    decreases |s|
  {
    hide Payload, Encoded, OfKind;
    if s != [] && schema != [] && Payload(schema[0], s).Ok? {
      var p := Payload(schema[0], s).value;
      PayloadSound(schema[0], s);
      PayloadsEncode(schema[1..], s[p.used..]);
      assert s == s[..p.used] + s[p.used..];
    }
  }

  /** Decoding accepts what can be split into components and repairs the texts among them. */
  lemma {:induction false} DecodingRepairs(schema: seq<Component>, s: Bytes)
    ensures DecodedTuple(schema, s).Ok? <==> PayloadTuple(schema, s).Ok?
    ensures DecodedTuple(schema, s).Ok? ==>
              var t, t0 := DecodedTuple(schema, s).value, PayloadTuple(schema, s).value;
              && AllFit(schema, t) && |t| == |t0| <= |schema|
              && forall i :: 0 <= i < |t| ==> t[i] == Repair(schema[i], t0[i])
    decreases |s|
  {
    hide Payload, Encoded, OfKind, Repair, TextOk;
    if s != [] && schema != [] && Payload(schema[0], s).Ok? {
      var p := Payload(schema[0], s).value;
      PayloadSound(schema[0], s);
      RepairFits(schema[0], p.value);
      DecodingRepairs(schema[1..], s[p.used..]);
    }
  }

  /**
   The result of decoding is always a tuple of the schema; it encodes to the bytes it came from
   if and only if every text in them is well-formed.
   */
  lemma DecodingSound(schema: seq<Component>, s: Bytes)
    requires DecodedTuple(schema, s).Ok?
    ensures AllFit(schema, DecodedTuple(schema, s).value) && PayloadTuple(schema, s).Ok?
    ensures EncodedTuple(schema, DecodedTuple(schema, s).value) == s <==> TextsOk(schema, PayloadTuple(schema, s).value)
  {
    hide DecodedTuple, PayloadTuple, Encoded, Repair, OfKind, TextOk, EncodedTuple;
    DecodingRepairs(schema, s);
    PayloadsEncode(schema, s);
    var t, t0 := DecodedTuple(schema, s).value, PayloadTuple(schema, s).value;
    forall i | 0 <= i < |t| ensures t[i] == t0[i] <==> TextOk(schema[i], t0[i]) {
      RepairFits(schema[i], t0[i]);
    }
    if EncodedTuple(schema, t) == s {
      EncodingInjective(schema, t, t0);
    }
    if TextsOk(schema, t0) {
      assert t == t0;
    }
  }

  /** Malformed text is accepted and comes back as something else. */
  lemma MalformedTextAccepted()
    ensures DecodedTuple([Text], [0xFF, 0, 0]) == Ok([Blob([0xEF, 0xBF, 0xBD])])
    ensures PayloadTuple([Text], [0xFF, 0, 0]) == Ok([Blob([0xFF])]) && !Utf8.IsUtf8([0xFF])
    ensures EncodedTuple([Text], [Blob([0xEF, 0xBF, 0xBD])]) == [0xEF, 0xBF, 0xBD, 0, 0]
  {
    var s: Bytes, bad: Bytes, good: Bytes := [0xFF, 0, 0], [0xFF], [0xEF, 0xBF, 0xBD];
    assert s[1..] == [0, 0] && Unescaped(s[1..]) == Ok(Parsed([], 2)) && [s[0]] + [] == bad;
    assert Unescaped(s) == Ok(Parsed(bad, 3)) && s[3..] == [];
    assert Repaired(bad) == good + Repaired(bad[1..]) && bad[1..] == [] && good + [] == good;
    assert Payload(Text, s) == Ok(Parsed(Blob(bad), 3));
    assert Decoded(Text, s) == Ok(Parsed(Blob(good), 3));
    var schema: seq<Component> := [Text];
    assert schema[1..] == [] && DecodedTuple(schema[1..], s[3..]) == Ok([]) && PayloadTuple(schema[1..], s[3..]) == Ok([]);
    assert [Blob(good)] + [] == [Blob(good)] && [Blob(bad)] + [] == [Blob(bad)];
    assert good[1..] == [0xBF, 0xBD] && good[1..][1..] == [0xBD] && good[1..][1..][1..] == [];
    assert Escaped(good) == [0xEF, 0xBF, 0xBD, 0, 0];
  }

  // ---------- the loops ----------

  method WriteEscaped(payload: Bytes) returns (out: Bytes)
    ensures out == Escaped(payload)
  {
    hide Escaped;
    out := [];
    var i := 0;
    assert payload[0..] == payload;
    while i < |payload|
      invariant 0 <= i <= |payload| && out + Escaped(payload[i..]) == Escaped(payload)
    {
      EscapedUnfolds(payload[i..]);
      assert payload[i..][1..] == payload[i + 1..];
      Assoc(out, EscapedByte(payload[i]), Escaped(payload[i + 1..]));
      if payload[i] == 0 {
        out := out + [0, 255];
      } else {
        out := out + [payload[i]];
      }
      i := i + 1;
    }
    EscapedUnfolds(payload[i..]);
    out := out + [0, 0];
  }

  /** A parse that continues after `used` bytes that gave `front`. */
  function Continued(front: Bytes, used: nat, r: Result<Parsed<Bytes>>): Result<Parsed<Bytes>> {
    match r
    case Ok(p) => Ok(Parsed(front + p.value, used + p.used))
    case Err => Err
  }

  lemma ContinuedStart(r: Result<Parsed<Bytes>>)
    ensures Continued([], 0, r) == r
  {
    if r.Ok? {
      assert [] + r.value.value == r.value.value;
    }
  }

  lemma ContinuedStep(front: Bytes, used: nat, b: Byte, k: nat, r: Result<Parsed<Bytes>>)
    ensures Continued(front, used, Continued([b], k, r)) == Continued(front + [b], used + k, r)
  {
    if r.Ok? {
      assert front + ([b] + r.value.value) == (front + [b]) + r.value.value;
    }
  }

  lemma UnescapedStep(s: Bytes)
    ensures s == [] || (s[0] == 0 && (|s| < 2 || (s[1] != 0 && s[1] != 255))) ==> Unescaped(s) == Err
    ensures |s| >= 2 && s[0] == 0 && s[1] == 0 ==> Unescaped(s) == Ok(Parsed([], 2))
    ensures |s| >= 2 && s[0] == 0 && s[1] == 255 ==> Unescaped(s) == Continued([0], 2, Unescaped(s[2..]))
    ensures s != [] && s[0] != 0 ==> Unescaped(s) == Continued([s[0]], 1, Unescaped(s[1..]))
  {
  }

  /** Read one escaped string from `input[start..end]`; `pos` is where it ends. */
  method ReadEscaped(input: Bytes, start: nat, end: nat) returns (r: Result<Bytes>, pos: nat)
    requires start <= end <= |input|
    ensures start <= pos <= end
    ensures r.Err? <==> Unescaped(input[start..end]).Err?
    ensures r.Ok? ==> Unescaped(input[start..end]) == Ok(Parsed(r.value, pos - start))
  {
    hide Unescaped;
    var buf: Bytes := [];
    pos := start;
    ContinuedStart(Unescaped(input[start..end]));
    while true
      invariant start <= pos <= end
      invariant Unescaped(input[start..end]) == Continued(buf, pos - start, Unescaped(input[pos..end]))
      decreases end - pos
    {
      UnescapedStep(input[pos..end]);
      if pos >= end {
        return Err, pos;
      }
      ghost var s, was, p := input[pos..end], buf, pos;
      var b := input[pos];
      pos := pos + 1;
      assert s[1..] == input[pos..end];
      if b == 0 {
        if pos >= end {
          return Err, pos;
        }
        var b2 := input[pos];
        pos := pos + 1;
        assert s[2..] == input[pos..end];
        if b2 == 0 {
          assert buf + [] == buf;
          return Ok(buf), pos;
        }
        if b2 != 255 {
          return Err, pos;
        }
        buf := buf + [0];
        ContinuedStep(was, p - start, 0, 2, Unescaped(input[pos..end]));
      } else {
        buf := buf + [b];
        ContinuedStep(was, p - start, b, 1, Unescaped(input[pos..end]));
      }
    }
  }

  method EncodeComponent(c: Component, v: Value) returns (out: Bytes)
    requires OfKind(c, v)
    ensures out == Encoded(c, v)
  {
    match c {
      case Int32 => out := BigEndian(4, v.n - MIN32);
      case Int64 => out := BigEndian(8, v.n - MIN64);
      case Text => out := WriteEscaped(v.bytes);
      case Raw => out := WriteEscaped(v.bytes);
    }
  }

  method EncodeTuple(schema: seq<Component>, tuple: seq<Value>) returns (out: Bytes)
    requires AllFit(schema, tuple)
    ensures out == EncodedTuple(schema, tuple)
  {
    hide Encoded, OfKind, TextOk;
    out := [];
    var i := 0;
    assert tuple[0..] == tuple && schema[0..] == schema;
    while i < |tuple|
      invariant 0 <= i <= |tuple| && AllOfKind(schema[i..], tuple[i..])
      invariant out + EncodedTuple(schema[i..], tuple[i..]) == EncodedTuple(schema, tuple)
    {
      var e := EncodeComponent(schema[i], tuple[i]);
      assert schema[i..][1..] == schema[i + 1..] && tuple[i..][1..] == tuple[i + 1..];
      ghost var rest := EncodedTuple(schema[i + 1..], tuple[i + 1..]);
      assert out + (e + rest) == (out + e) + rest;
      out := out + e;
      i := i + 1;
    }
  }

  /** Read one component of `enc` from `pos` on. */
  method DecodeComponent(c: Component, enc: Bytes, pos: nat) returns (r: Result<Value>, pos': nat)
    requires pos <= |enc|
    ensures pos <= pos' <= |enc|
    ensures r.Err? <==> Decoded(c, enc[pos..]).Err?
    ensures r.Ok? ==> Decoded(c, enc[pos..]) == Ok(Parsed(r.value, pos' - pos))
  {
    assert enc[pos..|enc|] == enc[pos..];
    match c {
      case Int32 =>
        if pos + 4 > |enc| {
          return Err, pos;
        }
        assert enc[pos..][..4] == enc[pos..pos + 4];
        return Ok(Num(FromBigEndian(enc[pos..pos + 4]) + MIN32)), pos + 4;
      case Int64 =>
        if pos + 8 > |enc| {
          return Err, pos;
        }
        assert enc[pos..][..8] == enc[pos..pos + 8];
        return Ok(Num(FromBigEndian(enc[pos..pos + 8]) + MIN64)), pos + 8;
      case Text =>
        var b;
        b, pos' := ReadEscaped(enc, pos, |enc|);
        r := if b.Ok? then Ok(Blob(Repaired(b.value))) else Err;
      case Raw =>
        var b;
        b, pos' := ReadEscaped(enc, pos, |enc|);
        r := if b.Ok? then Ok(Blob(b.value)) else Err;
    }
  }

  lemma PrefixedStep(vs: seq<Value>, v: Value, r: Result<seq<Value>>)
    ensures Prefixed([], r) == r
    ensures Prefixed(vs, Prefixed([v], r)) == Prefixed(vs + [v], r)
  {
    if r.Ok? {
      assert [] + r.value == r.value;
      assert vs + ([v] + r.value) == (vs + [v]) + r.value;
    }
  }

  method DecodeTuple(schema: seq<Component>, enc: Bytes) returns (r: Result<seq<Value>>)
    ensures r == DecodedTuple(schema, enc)
  {
    hide Decoded;
    var vs: seq<Value>, pos, i := [], 0, 0;
    assert enc[0..] == enc && schema[0..] == schema;
    PrefixedStep([], Num(0), DecodedTuple(schema, enc));
    while pos < |enc|
      invariant 0 <= pos <= |enc| && 0 <= i <= |schema|
      invariant DecodedTuple(schema, enc) == Prefixed(vs, DecodedTuple(schema[i..], enc[pos..]))
      decreases |enc| - pos
    {
      if i == |schema| {
        return Err;
      }
      var v, next := DecodeComponent(schema[i], enc, pos);
      if v.Err? {
        return Err;
      }
      assert enc[pos..][next - pos..] == enc[next..] && schema[i..][1..] == schema[i + 1..];
      PrefixedStep(vs, v.value, DecodedTuple(schema[i + 1..], enc[next..]));
      vs := vs + [v.value];
      pos, i := next, i + 1;
    }
    assert vs + [] == vs;
    r := Ok(vs);
  }
}

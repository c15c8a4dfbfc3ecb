/** Byte strings and lexicographic order, shared by the codecs. */
module ByteStrings {
  type Byte = x: int | 0 <= x < 256
  type Bytes = seq<Byte>

  datatype Order = Less | Equal | Greater

  function CompareInts(a: int, b: int): Order {
    if a < b then Less else if a == b then Equal else Greater
  }

  function Flip(o: Order): Order {
    match o case Less => Greater case Equal => Equal case Greater => Less
  }

  /** Lexicographic order; a proper prefix is smaller. On bytes this is the unsigned order. */
  function Compare(a: seq<int>, b: seq<int>): Order {
    if a == [] then (if b == [] then Equal else Less)
    else if b == [] then Greater
    else if a[0] != b[0] then CompareInts(a[0], b[0])
    else Compare(a[1..], b[1..])
  }

  lemma {:induction false} CompareEqual(a: seq<int>, b: seq<int>)
    ensures Compare(a, b) == Equal <==> a == b
  {
    if a != [] && b != [] && a[0] == b[0] {
      CompareEqual(a[1..], b[1..]);
      assert a == [a[0]] + a[1..] && b == [b[0]] + b[1..];
    }
  }

  /** A common prefix does not matter. */
  lemma {:induction false} CompareAfter(p: seq<int>, a: seq<int>, b: seq<int>)
    ensures Compare(p + a, p + b) == Compare(a, b)
  {
    if p == [] {
      assert p + a == a && p + b == b;
    } else {
      assert (p + a)[1..] == p[1..] + a && (p + b)[1..] == p[1..] + b;
      CompareAfter(p[1..], a, b);
    }
  }

  lemma CompareHead(x: int, y: int, a: seq<int>, b: seq<int>)
    ensures Compare([x] + a, [y] + b) == if x == y then Compare(a, b) else CompareInts(x, y)
  {
    assert ([x] + a)[1..] == a && ([y] + b)[1..] == b;
  }

  lemma Assoc(a: Bytes, b: Bytes, c: Bytes)
    ensures (a + b) + c == a + (b + c)
  {
  }

  // ---------- big-endian numbers ----------

  function Pow256(n: nat): nat {
    if n == 0 then 1 else 256 * Pow256(n - 1)
  }

  /** `x` in `n` big-endian bytes. */
  function BigEndian(n: nat, x: nat): (b: Bytes)
    ensures |b| == n
  {
    if n == 0 then [] else BigEndian(n - 1, x / 256) + [x % 256]
  }

  function FromBigEndian(b: Bytes): (x: nat)
    ensures x < Pow256(|b|)
  {
    if b == [] then 0 else 256 * FromBigEndian(b[..|b| - 1]) + b[|b| - 1]
  }

  lemma {:induction false} BigEndianInverse(n: nat, x: nat)
    requires x < Pow256(n)
    ensures FromBigEndian(BigEndian(n, x)) == x
  {
    if n > 0 {
      BigEndianInverse(n - 1, x / 256);
      assert BigEndian(n, x)[..n - 1] == BigEndian(n - 1, x / 256);
    }
  }

  lemma {:induction false} BigEndianOnto(b: Bytes)
    ensures BigEndian(|b|, FromBigEndian(b)) == b
  {
    if b != [] {
      BigEndianOnto(b[..|b| - 1]);
      assert b == b[..|b| - 1] + [b[|b| - 1]];
    }
  }

  /** Big-endian bytes compare like the numbers, whatever follows. */
  lemma {:induction false} BigEndianOrder(n: nat, x: nat, y: nat, a: Bytes, b: Bytes)
    requires x < Pow256(n) && y < Pow256(n)
    ensures Compare(BigEndian(n, x) + a, BigEndian(n, y) + b) == if x == y then Compare(a, b) else CompareInts(x, y)
  {
    if n == 0 {
      assert BigEndian(n, x) + a == a && BigEndian(n, y) + b == b;
    } else {
      var p, q := BigEndian(n - 1, x / 256), BigEndian(n - 1, y / 256);
      assert BigEndian(n, x) + a == p + ([x % 256] + a) && BigEndian(n, y) + b == q + ([y % 256] + b);
      BigEndianOrder(n - 1, x / 256, y / 256, [x % 256] + a, [y % 256] + b);
      CompareHead(x % 256, y % 256, a, b);
    }
  }
}

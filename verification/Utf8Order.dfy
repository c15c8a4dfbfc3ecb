/**
 Comparing a stored UTF-8 string with a key given as UTF-16 code units, in place and
 without decoding the whole string.  The result is the order of the code units; a byte
 sequence that is not well-formed UTF-8 is refused if it is met before the decision.
 */
module Utf8Order {
  import opened Basics
  import opened ByteStrings

  // ---------- RFC 3629 and UTF-16 ----------

  /** A Unicode scalar value: not a surrogate, at most 0x10FFFF (section 3 of RFC 3629). */
  predicate Scalar(cp: int) {
    0 <= cp <= 0x10FFFF && !(0xD800 <= cp <= 0xDFFF)
  }

  /** The UTF-8 bytes of a scalar value (section 3 of RFC 3629). */
  function Utf8(cp: int): (b: Bytes)
    requires Scalar(cp)
    ensures 1 <= |b| <= 4
  {
    if cp < 0x80 then [cp]
    else if cp < 0x800 then [0xC0 + cp / 64, 0x80 + cp % 64]
    else if cp < 0x10000 then [0xE0 + cp / 64 / 64, 0x80 + cp / 64 % 64, 0x80 + cp % 64]
    else [0xF0 + cp / 64 / 64 / 64, 0x80 + cp / 64 / 64 % 64, 0x80 + cp / 64 % 64, 0x80 + cp % 64]
  }

  /** Its UTF-16 code units. */
  function Utf16(cp: int): (u: seq<int>)
    requires Scalar(cp)
    ensures 1 <= |u| <= 2
  {
    if cp < 0x10000 then [cp] else [0xD800 + (cp - 0x10000) / 1024, 0xDC00 + (cp - 0x10000) % 1024]
  }

  ghost predicate AllScalar(s: seq<int>) {
    forall i :: 0 <= i < |s| ==> Scalar(s[i])
  }

  function Utf8All(s: seq<int>): Bytes
    requires AllScalar(s)
  {
    if s == [] then [] else Utf8(s[0]) + Utf8All(s[1..])
  }

  function Utf16All(s: seq<int>): seq<int>
    requires AllScalar(s)
  {
    if s == [] then [] else Utf16(s[0]) + Utf16All(s[1..])
  }

  // ---------- one character at the front of some bytes ----------

  datatype Char = Char(cp: int, used: nat)

  predicate Continues(s: Bytes, i: nat) {
    i < |s| && 0x80 <= s[i] < 0xC0
  }

  /** Six more bits of a code point. */
  function More(cp: int, b: int): int {
    cp * 64 + (b - 0x80)
  }

  lemma MoreSplits(cp: int, b: int)
    requires 0x80 <= b < 0xC0
    ensures More(cp, b) / 64 == cp && More(cp, b) % 64 == b - 0x80
  {
  }

  lemma SplitMore(cp: int)
    ensures More(cp / 64, 0x80 + cp % 64) == cp
  {
  }

  /** Lead byte, length, continuation bytes, then the checks against overlong forms, surrogates and range. */
  function FirstChar(s: Bytes): (r: Result<Char>)
    requires s != []
    ensures r.Ok? ==> 1 <= r.value.used <= |s|
  {
    var b: int := s[0];
    if b < 0x80 then Ok(Char(b, 1))
    else if 0xC0 <= b < 0xE0 then
      if !Continues(s, 1) then Err
      else
        var cp := More(b - 0xC0, s[1]);
        if cp < 0x80 then Err else Ok(Char(cp, 2))
    else if 0xE0 <= b < 0xF0 then
      if !Continues(s, 1) || !Continues(s, 2) then Err
      else
        var cp := More(More(b - 0xE0, s[1]), s[2]);
        if cp < 0x800 || 0xD800 <= cp <= 0xDFFF then Err else Ok(Char(cp, 3))
    else if 0xF0 <= b < 0xF8 then
      if !Continues(s, 1) || !Continues(s, 2) || !Continues(s, 3) then Err
      else
        var cp := More(More(More(b - 0xF0, s[1]), s[2]), s[3]);
        if cp < 0x10000 || cp > 0x10FFFF then Err else Ok(Char(cp, 4))
    else Err
  }

  /** What is accepted is the encoding of a scalar value. */
  lemma FirstCharSound(s: Bytes)
    requires s != [] && FirstChar(s).Ok?
    ensures var c := FirstChar(s).value; Scalar(c.cp) && c.used == |Utf8(c.cp)| && s[..c.used] == Utf8(c.cp)
  {
    var b: int, c := s[0], FirstChar(s).value;
    if b < 0x80 {
      assert s[..1] == Utf8(c.cp);
    } else if b < 0xE0 {
      MoreSplits(b - 0xC0, s[1]);
      assert s[..2] == Utf8(c.cp);
    } else if b < 0xF0 {
      MoreSplits(b - 0xE0, s[1]);
      MoreSplits(More(b - 0xE0, s[1]), s[2]);
      assert s[..3] == Utf8(c.cp);
    } else {
      MoreSplits(b - 0xF0, s[1]);
      MoreSplits(More(b - 0xF0, s[1]), s[2]);
      MoreSplits(More(More(b - 0xF0, s[1]), s[2]), s[3]);
      assert s[..4] == Utf8(c.cp);
    }
  }

  /** Every encoding of a scalar value is accepted, as that value. */
  lemma FirstCharComplete(cp: int, rest: Bytes)
    requires Scalar(cp)
    ensures FirstChar(Utf8(cp) + rest) == Ok(Char(cp, |Utf8(cp)|))
  {
    var s, u := Utf8(cp) + rest, Utf8(cp);
    assert s[0] == u[0] && (|u| > 1 ==> s[1] == u[1]) && (|u| > 2 ==> s[2] == u[2]) && (|u| > 3 ==> s[3] == u[3]);
    SplitMore(cp);
    SplitMore(cp / 64);
    SplitMore(cp / 64 / 64);
  }

  /** Well-formed UTF-8: one character after another to the end. */
  predicate IsUtf8(s: Bytes)
    decreases |s|
  {
    s == [] || (FirstChar(s).Ok? && IsUtf8(s[FirstChar(s).value.used..]))
  }

  /** That is, the encoding of some sequence of scalar values. */
  lemma {:induction false} Utf8IsWellFormed(cps: seq<int>)
    requires AllScalar(cps)
    ensures IsUtf8(Utf8All(cps))
  {
    if cps != [] {
      var rest := Utf8All(cps[1..]);
      FirstCharComplete(cps[0], rest);
      assert (Utf8(cps[0]) + rest)[|Utf8(cps[0])|..] == rest;
      Utf8IsWellFormed(cps[1..]);
    }
  }

  lemma {:induction false} WellFormedIsUtf8(s: Bytes) returns (cps: seq<int>)
    requires IsUtf8(s)
    ensures AllScalar(cps) && Utf8All(cps) == s
    decreases |s|
  {
    cps := [];
    if s != [] {
      FirstCharSound(s);
      var c := FirstChar(s).value;
      var rest := WellFormedIsUtf8(s[c.used..]);
      cps := [c.cp] + rest;
      assert cps[1..] == rest && s == s[..c.used] + s[c.used..];
    }
  }

  // ---------- the comparison ----------

  /** Order of a stored string against `key`: character by character until the code units decide. */
  function Compared(s: Bytes, key: seq<int>): Result<Order>
    decreases |s|
  {
    if s == [] then Ok(if key == [] then Equal else Less)
    else
      match FirstChar(s)
      case Err => Err
      case Ok(c) =>
        FirstCharSound(s);
        var u := Utf16(c.cp);
        if u <= key then Compared(s[c.used..], key[|u|..]) else Ok(Compare(u, key))
  }

  lemma {:induction false} NotPrefixDecides(u: seq<int>, v: seq<int>, key: seq<int>)
    requires !(u <= key)
    ensures Compare(u + v, key) == Compare(u, key)
  {
    assert u != [];
    if key != [] && u[0] == key[0] {
      assert (u + v)[1..] == u[1..] + v;
      assert !(u[1..] <= key[1..]) by {
        assert u == [u[0]] + u[1..] && key == [key[0]] + key[1..];
      }
      NotPrefixDecides(u[1..], v, key[1..]);
    }
  }

  lemma CompareInParts(u: seq<int>, v: seq<int>, key: seq<int>)
    ensures Compare(u + v, key) == if u <= key then Compare(v, key[|u|..]) else Compare(u, key)
  {
    if u <= key {
      assert key == u + key[|u|..];
      CompareAfter(u, v, key[|u|..]);
    } else {
      NotPrefixDecides(u, v, key);
    }
  }

  /** For every well-formed stored string the result is the order of the UTF-16 code units, surrogate pairs included. */
  lemma {:induction false} ComparesAsUtf16(cps: seq<int>, key: seq<int>)
    requires AllScalar(cps)
    ensures Compared(Utf8All(cps), key) == Ok(Compare(Utf16All(cps), key))
  {
    if cps != [] {
      var rest := Utf8All(cps[1..]);
      FirstCharComplete(cps[0], rest);
      var u := Utf16(cps[0]);
      CompareInParts(u, Utf16All(cps[1..]), key);
      if u <= key {
        assert (Utf8(cps[0]) + rest)[|Utf8(cps[0])|..] == rest;
        ComparesAsUtf16(cps[1..], key[|u|..]);
      }
    }
  }

  /** The bytes looked at: whole characters `cps`, then `rest`, which is not looked at or not well-formed. */
  ghost predicate Splits(s: Bytes, cps: seq<int>, rest: Bytes) {
    AllScalar(cps) && s == Utf8All(cps) + rest
  }

  lemma SplitsMore(s: Bytes, cps: seq<int>, rest: Bytes)
    requires s != [] && FirstChar(s).Ok? && Splits(s[FirstChar(s).value.used..], cps, rest)
    ensures Splits(s, [FirstChar(s).value.cp] + cps, rest)
    ensures Utf16All([FirstChar(s).value.cp] + cps) == Utf16(FirstChar(s).value.cp) + Utf16All(cps)
  {
    FirstCharSound(s);
    var c := FirstChar(s).value;
    var all := [c.cp] + cps;
    assert all[1..] == cps;
    Assoc(Utf8(c.cp), Utf8All(cps), rest);
    assert s == s[..c.used] + s[c.used..];
  }

  /**
   Whatever the bytes: an answer rests on well-formed characters only, which either are the
   whole string or already differ from the key; a refusal means that characters agreeing with
   the key so far are followed by bytes that begin no character.
   */
  lemma {:induction false} AnswerOrRefusal(s: Bytes, key: seq<int>) returns (cps: seq<int>, rest: Bytes)
    ensures Splits(s, cps, rest)
    ensures Compared(s, key).Ok? ==>
              && (rest == [] || !(Utf16All(cps) <= key))
              && Compared(s, key).value == Compare(Utf16All(cps), key)
    ensures Compared(s, key).Err? ==>
              && Utf16All(cps) <= key && rest != []
              && forall cp :: Scalar(cp) ==> !(Utf8(cp) <= rest)
    decreases |s|
  {
    hide FirstChar, Utf8, Compare, Utf16All;
    cps, rest := [], s;
    NothingYet(s);
    if s != [] {
      if FirstChar(s).Err? {
        BeginsNone(s);
      } else {
        FirstCharSound(s);
        var c := FirstChar(s).value;
        var u := Utf16(c.cp);
        if u <= key {
          var cps1;
          cps1, rest := AnswerOrRefusal(s[c.used..], key[|u|..]);
          SplitsMore(s, cps1, rest);
          cps := [c.cp] + cps1;
          CompareInParts(u, Utf16All(cps1), key);
          PrefixInParts(u, Utf16All(cps1), key);
        } else {
          rest := s[c.used..];
          NothingYet(rest);
          SplitsMore(s, [], rest);
          cps := [c.cp] + [];
          assert u + [] == u;
        }
      }
    } else {
      CompareEmpty(key);
    }
  }

  /** Characters that agree with the key so far are followed by bytes that begin no character. */
  ghost predicate Stuck(s: Bytes, key: seq<int>, cps: seq<int>, rest: Bytes) {
    && Splits(s, cps, rest) && Utf16All(cps) <= key && rest != []
    && forall cp :: Scalar(cp) ==> !(Utf8(cp) <= rest)
  }

  lemma {:induction false} StuckIsRefused(s: Bytes, key: seq<int>, cps: seq<int>, rest: Bytes)
    requires Stuck(s, key, cps, rest)
    ensures Compared(s, key).Err?
    decreases |cps|
  {
    hide FirstChar, Utf8, Utf16;
    if cps == [] {
      assert s == rest;
      if FirstChar(s).Ok? {
        FirstCharSound(s);
      }
    } else {
      var tail, u := Utf8All(cps[1..]) + rest, Utf16(cps[0]);
      Assoc(Utf8(cps[0]), Utf8All(cps[1..]), rest);
      FirstCharComplete(cps[0], tail);
      assert s[|Utf8(cps[0])|..] == tail;
      assert u <= key by {
        assert key[..|u|] == Utf16All(cps)[..|u|];
      }
      PrefixInParts(u, Utf16All(cps[1..]), key);
      StuckIsRefused(tail, key[|u|..], cps[1..], rest);
    }
  }

  /** A refusal exactly if the malformed part is met while the characters before it still agree with the key. */
  lemma RefusedExactly(s: Bytes, key: seq<int>)
    ensures Compared(s, key).Err? <==> exists cps, rest :: Stuck(s, key, cps, rest)
    ensures Compared(s, key).Err? ==> !IsUtf8(s)
  {
    hide Compared, Utf8, Utf16All, IsUtf8;
    var cps, rest := AnswerOrRefusal(s, key);
    if Compared(s, key).Err? {
      assert Stuck(s, key, cps, rest);
      if IsUtf8(s) {
        var all := WellFormedIsUtf8(s);
        ComparesAsUtf16(all, key);
      }
    }
    forall cps, rest | Stuck(s, key, cps, rest) ensures Compared(s, key).Err? {
      StuckIsRefused(s, key, cps, rest);
    }
  }

  /** Not every malformed string is refused: here the first character decides. */
  lemma MalformedAnswered()
    ensures !IsUtf8([0x62, 0xFF]) && Compared([0x62, 0xFF], [0x61]) == Ok(Greater)
  {
    var s: Bytes := [0x62, 0xFF];
    assert FirstChar(s) == Ok(Char(0x62, 1)) && s[1..] == [0xFF] && FirstChar([0xFF]) == Err;
    assert Utf16(0x62) == [0x62] && !([0x62] <= [0x61]);
  }

  lemma NothingYet(s: Bytes)
    ensures Splits(s, [], s) && Utf16All([]) == []
  {
    assert Utf8All([]) + s == s;
  }

  lemma CompareEmpty(key: seq<int>)
    ensures Compare([], key) == if key == [] then Equal else Less
  {
  }

  /** Bytes that are refused begin no character at all. */
  lemma BeginsNone(s: Bytes)
    requires s != [] && FirstChar(s).Err?
    ensures forall cp :: Scalar(cp) ==> !(Utf8(cp) <= s)
  {
    hide FirstChar, Utf8;
    forall cp | Scalar(cp) ensures !(Utf8(cp) <= s) {
      if Utf8(cp) <= s {
        assert Utf8(cp) + s[|Utf8(cp)|..] == s;
        FirstCharComplete(cp, s[|Utf8(cp)|..]);
      }
    }
  }

  lemma PrefixInParts(u: seq<int>, v: seq<int>, key: seq<int>)
    requires u <= key
    ensures u + v <= key <==> v <= key[|u|..]
  {
    assert key == u + key[|u|..];
    if v <= key[|u|..] {
      assert key[|u|..] == v + key[|u|..][|v|..];
    }
    if u + v <= key {
      assert key[|u|..][..|v|] == key[|u|..|u| + |v|] == v;
    }
  }

  // ---------- the loops ----------

  /** Continuation bytes `1..n` folded onto the bits of the lead byte. */
  function Folded(lead: int, s: Bytes, n: nat): int
    requires n < |s|
  {
    if n == 0 then lead else More(Folded(lead, s, n - 1), s[n])
  }

  method ReadChar(s: Bytes) returns (r: Result<Char>)
    requires s != []
    ensures r == FirstChar(s)
  {
    var b: int := s[0];
    var cp, need;
    if b < 0x80 {
      cp, need := b, 0;
    } else if 0xC0 <= b < 0xE0 {
      cp, need := b - 0xC0, 1;
    } else if 0xE0 <= b < 0xF0 {
      cp, need := b - 0xE0, 2;
    } else if 0xF0 <= b < 0xF8 {
      cp, need := b - 0xF0, 3;
    } else {
      return Err;
    }
    if need > |s| - 1 {
      return Err;
    }
    ghost var lead := cp;
    for i := 0 to need
      invariant cp == Folded(lead, s, i) && forall j :: 1 <= j <= i ==> Continues(s, j)
    {
      if !(0x80 <= s[i + 1] < 0xC0) {
        return Err;
      }
      cp := More(cp, s[i + 1]);
    }
    assert need >= 1 ==> Continues(s, 1) && Folded(lead, s, 1) == More(lead, s[1]);
    assert need >= 2 ==> Continues(s, 2) && Folded(lead, s, 2) == More(Folded(lead, s, 1), s[2]);
    assert need >= 3 ==> Continues(s, 3);
    if (need == 1 && cp < 0x80) || (need == 2 && (cp < 0x800 || 0xD800 <= cp <= 0xDFFF))
      || (need == 3 && !(0x10000 <= cp <= 0x10FFFF))
    {
      return Err;
    }
    r := Ok(Char(cp, need + 1));
  }

  method CompareUtf8(s: Bytes, key: seq<int>) returns (r: Result<Order>)
    ensures r == Compared(s, key)
  {
    hide FirstChar, Utf8;
    var pos, ci := 0, 0;
    assert s[0..] == s && key[0..] == key;
    while pos < |s|
      invariant 0 <= pos <= |s| && 0 <= ci <= |key| && Compared(s, key) == Compared(s[pos..], key[ci..])
      decreases |s| - pos
    {
      var c := ReadChar(s[pos..]);
      if c.Err? {
        return Err;
      }
      FirstCharSound(s[pos..]);
      ghost var u, k := Utf16(c.value.cp), key[ci..];
      assert s[pos..][c.value.used..] == s[pos + c.value.used..];
      pos := pos + c.value.used;
      var cp := c.value.cp;
      var hi := if cp < 0x10000 then cp else 0xD800 + (cp - 0x10000) / 1024;
      if ci == |key| {
        return Ok(Greater);
      }
      if hi != key[ci] {
        return Ok(if hi < key[ci] then Less else Greater);
      }
      ci := ci + 1;
      assert k[1..] == key[ci..];
      if cp >= 0x10000 {
        var lo := 0xDC00 + (cp - 0x10000) % 1024;
        assert u == [hi, lo] && u[1..] == [lo] && Compare(u, k) == Compare(u[1..], k[1..]);
        assert ci < |key| ==> k[1] == key[ci] && k[1..][0] == key[ci];
        if ci == |key| {
          return Ok(Greater);
        }
        if lo != key[ci] {
          return Ok(if lo < key[ci] then Less else Greater);
        }
        ci := ci + 1;
        assert k[2..] == key[ci..];
      }
    }
    r := Ok(if ci == |key| then Equal else Less);
  }
}

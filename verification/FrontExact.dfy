/**
 When the bytes of a group can stand for the group.  Decoding skips the restart table and
 takes the declared length as an upper limit, so it accepts groups that are not as they were
 written.  Searching the bytes and reading single elements depend on both, and answer for
 the decoded group exactly if the table leads to its entries.
 */
module FrontExact {
  import opened Basics
  import opened ByteStrings
  import opened FrontCoded

  /** Searching the bytes for `key` answers for the group `g`. */
  ghost predicate Finds(input: Bytes, start: nat, g: seq<Bytes>, key: Bytes) {
    var f := Searched(input, start, |g|, key);
    f.Ok? && SearchOk(g, key, f.value)
  }

  /** A scan that finds the key at `k` has read it there. */
  lemma {:induction false} ScanFound(v: View, key: Bytes, from: nat, i: nat, limit: nat, k: nat)
    requires from % K == 0 && from <= i <= limit <= from + K && Scanned(v, key, from, i, limit) == Ok(At(k))
    ensures i <= k < limit && Rolled(v, k / K, k % K).Ok? && Rolled(v, k / K, k % K).value.bytes == key
    decreases limit - i
  {
    hide Rolled, Compare;
    var e := Rolled(v, from / K, i - from);
    CompareEqual(e.value.bytes, key);
    if Compare(e.value.bytes, key) == Less {
      ScanFound(v, key, from, i + 1, limit, k);
    } else {
      assert i / K == from / K && i % K == i - from;
    }
  }

  /** A search that finds the key at `k` has read it there, and its declared end is within the input. */
  lemma SearchFound(input: Bytes, start: nat, count: nat, key: Bytes, k: nat)
    requires Searched(input, start, count, key) == Ok(At(k))
    ensures I32At(input, start).Ok? && I32At(input, start).value >= 0
    ensures var v := View(input, start, count, I32At(input, start).value);
            k < count && Rolled(v, k / K, k % K).Ok? && Rolled(v, k / K, k % K).value.bytes == key && End(v) <= |input|
  {
    hide Bisected, Scanned, I32At, Rolled;
    var v := View(input, start, count, I32At(input, start).value);
    var r := Bisected(v, key, 0, Restarts(count) - 1).value;
    ScanFound(v, key, r * K, r * K, Least(r * K + K, count), k);
  }

  lemma AnswerEnds(input: Bytes, start: nat, count: nat, key: Bytes)
    requires Searched(input, start, count, key).Ok?
    ensures I32At(input, start).Ok? && I32At(input, start).value >= 0
    ensures End(View(input, start, count, I32At(input, start).value)) <= |input|
  {
    hide Bisected, Scanned, I32At;
  }

  /**
   On any bytes: searching answers for `g`, whatever the key, if and only if the declared end lies
   within the input and from every restart the table leads to the entries of `g` are read.
   */
  lemma SearchExact(input: Bytes, start: nat, g: seq<Bytes>)
    requires Ascending(g)
    ensures (forall key :: Finds(input, start, g, key)) <==> IndexedAt(input, start, g)
  {
    hide Searched, I32At, Rolled, Ascending, SearchOk;
    if IndexedAt(input, start, g) {
      forall key ensures Finds(input, start, g, key) {
        IndexedSearches(input, start, g, key);
      }
    }
    if forall key :: Finds(input, start, g, key) {
      assert Finds(input, start, g, []);
      AnswerEnds(input, start, |g|, []);
      var v := View(input, start, |g|, I32At(input, start).value);
      forall i | 0 <= i < |g| ensures Reads(v, g, i) {
        assert Finds(input, start, g, g[i]);
        FoundWhereItIs(g, i, Searched(input, start, |g|, g[i]).value);
        SearchFound(input, start, |g|, g[i], i);
      }
    }
  }

  lemma FoundWhereItIs(g: seq<Bytes>, i: nat, f: Found)
    requires Ascending(g) && i < |g| && SearchOk(g, g[i], f)
    ensures f == At(i)
  {
    hide Compare, Ascending;
    assert SearchOk(g, g[i], At(i));
    SearchUnique(g, g[i], f, At(i));
  }

  /** On any bytes: single reads give the elements of `g` if and only if the same holds, or there are none. */
  lemma GetExact(input: Bytes, start: nat, g: seq<Bytes>)
    ensures (forall i :: 0 <= i < |g| ==> Gotten(input, start, |g|, i) == Ok(g[i])) <==> g == [] || IndexedAt(input, start, g)
  {
    hide I32At, Rolled;
    if g != [] && IndexedAt(input, start, g) {
      var v := View(input, start, |g|, I32At(input, start).value);
      forall i | 0 <= i < |g| ensures Gotten(input, start, |g|, i) == Ok(g[i]) {
        assert Reads(v, g, i);
      }
    }
    if g != [] && forall i :: 0 <= i < |g| ==> Gotten(input, start, |g|, i) == Ok(g[i]) {
      assert Gotten(input, start, |g|, 0) == Ok(g[0]);
      var v := View(input, start, |g|, I32At(input, start).value);
      forall i | 0 <= i < |g| ensures Reads(v, g, i) {
        assert Gotten(input, start, |g|, i) == Ok(g[i]);
      }
    }
  }
}

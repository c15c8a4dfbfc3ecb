/**
 Appending a section to the write-ahead log.  The body is produced twice: a first pass
 measures it, a second writes it, coalescing small chunks.  Any I/O operation may fail,
 leaving part of a write behind.  A failure once I/O has begun closes the store, so that
 a segment is never sealed with anything but its header and acknowledged sections.
 */
module WalWriter {
  import opened Basics
  import opened ByteStrings

  const SINK_BUF: nat := 65536
  const SEG_HDR: nat := 36
  const SEC_HDR: nat := 25

  /** What the device does with one operation; a failed write may leave a prefix behind. */
  datatype Fault = Fine | Fails(partial: nat)

  /** None of the operations after number `a`, up to number `b`, failed. */
  ghost predicate AllFine(faults: nat -> Fault, a: nat, b: nat) {
    forall i {:trigger faults(i)} :: a < i <= b ==> faults(i).Fine?
  }

  lemma NothingFails(faults: nat -> Fault, a: nat)
    ensures AllFine(faults, a, a)
  {
  }

  lemma FirstFew(faults: nat -> Fault, a: nat)
    ensures AllFine(faults, a, a) && (AllFine(faults, a, a + 1) <==> faults(a + 1).Fine?)
    ensures AllFine(faults, a, a + 2) <==> faults(a + 1).Fine? && faults(a + 2).Fine?
    ensures AllFine(faults, a, a + 3) <==> faults(a + 1).Fine? && faults(a + 2).Fine? && faults(a + 3).Fine?
  {
  }

  lemma FineTwice(faults: nat -> Fault, a: nat, b: nat, c: nat)
    requires a <= b <= c
    ensures AllFine(faults, a, c) <==> AllFine(faults, a, b) && AllFine(faults, b, c)
  {
    assert AllFine(faults, a, b) && AllFine(faults, b, c) ==> forall i {:trigger faults(i)} :: a < i <= c ==> faults(i).Fine?;
  }

  /** One pass of the body producer: some chunks, then success or an error. */
  datatype Emission = Emission(chunks: seq<Bytes>, fails: bool)

  datatype Section = Section(header: Bytes, body: Bytes)

  /**
   `file` is what the file holds, `durable` what it held at the last successful force;
   `sections`, the acknowledged ones, are history.  `id` is its sequence number.
   */
  datatype Segment = Segment(id: nat, header: Bytes, file: Bytes, durable: Bytes, fileLen: nat, validEnd: nat, sections: seq<Section>)

  function Concat(chunks: seq<Bytes>): Bytes {
    if chunks == [] then [] else Concat(chunks[..|chunks| - 1]) + chunks[|chunks| - 1]
  }

  lemma ConcatAppend(chunks: seq<Bytes>, c: Bytes)
    ensures Concat(chunks + [c]) == Concat(chunks) + c
  {
    assert (chunks + [c])[..|chunks + [c]| - 1] == chunks;
  }

  /** `b` written into `file` at `pos`. */
  function Overlay(file: Bytes, pos: nat, b: Bytes): Bytes
    requires pos <= |file|
  {
    file[..pos] + b + (if pos + |b| <= |file| then file[pos + |b|..] else [])
  }

  // ---------- one pass over a body ----------

  class BodySink {
    const writing: bool
    const faults: nat -> Fault
    ghost const base: Bytes
    var file: Bytes
    var pos: nat
    var count: nat
    var buf: Bytes
    var fed: Bytes      // what the checksum has been fed
    var ops: nat

    /** Flushed and buffered bytes together are what was fed; the measuring pass buffers nothing. */
    ghost predicate Valid()
      reads this
    {
      && count == |fed| && |buf| <= SINK_BUF
      && (if writing then file + buf == base + fed && pos == |file| else buf == [] && file == base)
    }

    constructor (w: bool, f: nat -> Fault, file0: Bytes, start: nat, ops0: nat)
      requires w ==> start == |file0|
      ensures Valid() && writing == w && faults == f && base == file0 && file == file0 && fed == [] && ops == ops0
    {
      writing, faults, base := w, f, file0;
      file, pos, count, buf, fed, ops := file0, start, 0, [], [], ops0;
    }

    method WriteAll(b: Bytes) returns (ok: bool)
      requires writing && pos == |file|
      modifies this`file, this`pos, this`ops
      ensures ok ==> file == old(file) + b && pos == |file|
      ensures old(file) <= file && ops == old(ops) + 1 && (ok <==> faults(ops).Fine?)
    {
      ops := ops + 1;
      match faults(ops) {
        case Fine =>
          file := Overlay(file, pos, b);
          pos := pos + |b|;
          ok := true;
        case Fails(partial) =>
          file := Overlay(file, pos, b[..if partial < |b| then partial else |b|]);
          ok := false;
      }
    }

    method Flush() returns (ok: bool)
      requires writing && pos == |file|
      modifies this`file, this`pos, this`ops, this`buf
      ensures ok ==> file == old(file) + old(buf) && pos == |file| && buf == []
      ensures old(file) <= file && old(ops) <= ops && (ok <==> AllFine(faults, old(ops), ops))
    {
      if buf == [] {
        return true;
      }
      ok := WriteAll(buf);
      if ok {
        buf := [];
      }
    }

    /** Emit one chunk; chunks of any size come out in order, small ones coalesced. */
    method Write(b: Bytes) returns (ok: bool)
      requires Valid()
      modifies this
      ensures ok ==> Valid() && fed == old(fed) + b
      ensures !writing ==> ok && ops == old(ops)
      ensures old(file) <= file && old(ops) <= ops && (ok <==> AllFine(faults, old(ops), ops))
    {
      fed := fed + b;
      count := count + |b|;
      if !writing {
        return true;
      }
      assert (file + buf) + b == base + fed;
      if |b| >= SINK_BUF {
        ok := Flush();
        ghost var was := ops;
        if ok {
          ok := WriteAll(b);
          FineTwice(faults, old(ops), was, ops);
        }
        return;
      }
      if |buf| + |b| > SINK_BUF {
        ok := Flush();
        if !ok {
          return;
        }
      }
      buf := buf + b;
      assert file + buf == base + fed;
      ok := true;
    }

    /** Run the producer over this pass. */
    method Emit(e: Emission) returns (ok: bool)
      requires Valid() && fed == []
      modifies this
      ensures ok ==> Valid() && fed == Concat(e.chunks) && !e.fails
      ensures !writing ==> (ok <==> !e.fails) && ops == old(ops)
      ensures old(file) <= file && old(ops) <= ops && (ok <==> AllFine(faults, old(ops), ops) && !e.fails)
    {
      var i := 0;
      while i < |e.chunks|
        invariant 0 <= i <= |e.chunks| && Valid() && fed == Concat(e.chunks[..i])
        invariant old(file) <= file && (!writing ==> ops == old(ops))
        invariant old(ops) <= ops && AllFine(faults, old(ops), ops)
      {
        ghost var was := ops;
        assert e.chunks[..i + 1] == e.chunks[..i] + [e.chunks[i]];
        ConcatAppend(e.chunks[..i], e.chunks[i]);
        ok := Write(e.chunks[i]);
        FineTwice(faults, old(ops), was, ops);
        if !ok {
          return;
        }
        i := i + 1;
      }
      assert e.chunks[..i] == e.chunks;
      ok := !e.fails;
    }
  }

  // ---------- segments ----------

  function SectionBytes(s: Section): Bytes {
    s.header + s.body
  }

  function AllSections(ss: seq<Section>): Bytes {
    if ss == [] then [] else AllSections(ss[..|ss| - 1]) + SectionBytes(ss[|ss| - 1])
  }

  lemma SectionsAppend(ss: seq<Section>, s: Section)
    ensures AllSections(ss + [s]) == AllSections(ss) + SectionBytes(s)
  {
    assert (ss + [s])[..|ss + [s]| - 1] == ss;
  }

  /** Segment header and acknowledged sections, back to back. */
  function Image(seg: Segment): Bytes {
    seg.header + AllSections(seg.sections)
  }

  /** The acknowledged part of a segment is at the front of the file and of what is durable. */
  ghost predicate Intact(seg: Segment) {
    && |seg.header| == SEG_HDR && seg.fileLen == seg.validEnd == |Image(seg)|
    && (forall i :: 0 <= i < |seg.sections| ==> |seg.sections[i].header| == SEC_HDR)
    && Image(seg) <= seg.file && Image(seg) <= seg.durable
  }

  /** The file holds nothing but the acknowledged part. */
  ghost predicate Clean(seg: Segment) {
    Intact(seg) && seg.file == Image(seg)
  }

  ghost predicate Sealed(seg: Segment, segmentBytes: nat) {
    Clean(seg) && seg.durable == Image(seg) && seg.sections != [] && seg.fileLen >= segmentBytes
  }

  ghost predicate AllSealed(segs: seq<Segment>, segmentBytes: nat) {
    forall i :: 0 <= i < |segs| ==> Sealed(segs[i], segmentBytes)
  }

  /** A segment is empty exactly if it holds no section. */
  lemma EmptyMeansNone(seg: Segment)
    requires Intact(seg)
    ensures seg.validEnd == SEG_HDR <==> seg.sections == []
  {
    if seg.sections != [] {
      var s := seg.sections[|seg.sections| - 1];
      assert |s.header| == SEC_HDR;
    }
  }

  /** All sections acknowledged in `segs`, in order. */
  function Acked(segs: seq<Segment>): seq<Section> {
    if segs == [] then [] else Acked(segs[..|segs| - 1]) + segs[|segs| - 1].sections
  }

  lemma AckedAppend(segs: seq<Segment>, seg: Segment)
    ensures Acked(segs + [seg]) == Acked(segs) + seg.sections
  {
    assert (segs + [seg])[..|segs + [seg]| - 1] == segs;
  }

  /** A section written after a clean segment, and forced, leaves it clean. */
  lemma SectionAdded(seg: Segment, hdr: Bytes, body: Bytes)
    requires Clean(seg) && |hdr| == SEC_HDR
    ensures var file := seg.file + hdr + body;
            var seg' := seg.(file := file, durable := file, fileLen := |file|, validEnd := |file|,
                             sections := seg.sections + [Section(hdr, body)]);
            Clean(seg') && seg'.durable == Image(seg')
  {
    SectionsAppend(seg.sections, Section(hdr, body));
  }

  /** Sequence numbers ascend, and end below `next`; in particular no two are equal. */
  ghost predicate Numbered(segs: seq<Segment>, next: nat) {
    && (forall i, j :: 0 <= i < j < |segs| ==> segs[i].id < segs[j].id)
    && (forall i :: 0 <= i < |segs| ==> segs[i].id < next)
  }

  lemma SealedAppend(segs: seq<Segment>, seg: Segment, next: nat, segmentBytes: nat)
    requires Numbered(segs, seg.id) && seg.id < next && AllSealed(segs, segmentBytes) && Sealed(seg, segmentBytes)
    ensures Numbered(segs + [seg], next) && AllSealed(segs + [seg], segmentBytes)
  {
  }

  lemma ForcedIsSealed(seg: Segment, segmentBytes: nat)
    requires Clean(seg) && seg.sections != [] && seg.fileLen >= segmentBytes
    ensures var seg' := seg.(durable := seg.file); Clean(seg') && Intact(seg') && Sealed(seg', segmentBytes)
  {
  }

  lemma FreshIsClean(id: nat, hdr: Bytes)
    requires |hdr| == SEG_HDR
    ensures var seg := Segment(id, hdr, hdr, hdr, SEG_HDR, SEG_HDR, []); Clean(seg) && Intact(seg)
  {
  }

  class Wal {
    const segmentBytes: nat
    const faults: nat -> Fault
    const crc: (Bytes, nat, Bytes) -> nat                       // segment header, offset, body
    const secHeader: (Bytes, nat, nat, int, nat, nat) -> Bytes   // segment header, offset, tag, lsn, length, crc
    const segHeader: (nat, int) -> Bytes                        // sequence number, first lsn
    var sealed: seq<Segment>
    var active: Option<Segment>
    var closed: bool
    var nextSeq: nat
    var ops: nat
    ghost var began: bool     // a force, a creation or a write has been attempted in this call

    ghost predicate Valid()
      reads this
    {
      && (forall h, o, t, l, n, c :: |secHeader(h, o, t, l, n, c)| == SEC_HDR) && (forall n, l :: |segHeader(n, l)| == SEG_HDR)
      && AllSealed(sealed, segmentBytes)
      && (active.Some? ==> Intact(active.value) && (!closed ==> Clean(active.value)) && active.value.id < nextSeq)
      && Numbered(sealed, if active.Some? then active.value.id else nextSeq)
    }

    /** A log as recovery leaves it: at most one segment, clean and durable. */
    constructor (limit: nat, f: nat -> Fault, c: (Bytes, nat, Bytes) -> nat, sh: (Bytes, nat, nat, int, nat, nat) -> Bytes,
                 gh: (nat, int) -> Bytes, seg: Option<Segment>, next: nat)
      requires (forall h, o, t, l, n, k :: |sh(h, o, t, l, n, k)| == SEC_HDR) && (forall n, l :: |gh(n, l)| == SEG_HDR)
      requires seg.Some? ==> Clean(seg.value) && seg.value.id < next
      ensures Valid() && !closed && active == seg && sealed == [] && nextSeq == next
    {
      segmentBytes, faults, crc, secHeader, segHeader := limit, f, c, sh, gh;
      sealed, active, closed, nextSeq, ops, began := [], seg, false, next, 0, false;
    }

    /** Force everything written to a segment. */
    method Force(seg: Segment) returns (ok: bool, seg': Segment)
      modifies this`ops, this`began
      ensures began && seg' == if ok then seg.(durable := seg.file) else seg
      ensures ops == old(ops) + 1 && (ok <==> faults(ops).Fine?)
    {
      ops, began := ops + 1, true;
      ok := faults(ops).Fine?;
      seg' := if ok then seg.(durable := seg.file) else seg;
    }

    /** Open, seal and replace the active segment. */
    method RollOver(lsn: int) returns (ok: bool)
      requires Valid() && !closed && active.Some? && active.value.sections != [] && active.value.fileLen >= segmentBytes
      modifies this`sealed, this`active, this`nextSeq, this`ops, this`began
      ensures Valid() && began
      ensures ok ==>
                && sealed == old(sealed) + [old(active).value.(durable := old(active).value.file)]
                && active.Some? && active.value.sections == [] && active.value.fileLen == SEG_HDR
                && active.value.id == old(nextSeq) && active.value.header == segHeader(old(nextSeq), lsn)
      ensures old(ops) <= ops && (ok <==> lsn > 0 && AllFine(faults, old(ops), ops))
      ensures nextSeq == old(nextSeq) + if lsn > 0 && AllFine(faults, old(ops), old(ops) + 2) then 1 else 0
      ensures !ok ==> sealed == old(sealed) && active.Some? && active.value.sections == old(active).value.sections
    {
      hide Intact, Clean, Image, Numbered, Sealed, AllSealed, AllFine;
      FirstFew(faults, ops);
      ForcedIsSealed(active.value, segmentBytes);
      began, ops := true, ops + 1;
      if faults(ops).Fails? {
        return false;
      }
      var seg;
      ok, seg := Force(active.value);
      active := Some(seg);
      if !ok {
        return;
      }
      if lsn <= 0 {
        return false;
      }
      var hdr := segHeader(nextSeq, lsn);
      nextSeq, ops := nextSeq + 1, ops + 1;
      if faults(ops).Fails? {
        return false;
      }
      SealedAppend(sealed, seg, nextSeq - 1, segmentBytes);
      FreshIsClean(nextSeq - 1, hdr);
      sealed := sealed + [seg];
      active := Some(Segment(nextSeq - 1, hdr, hdr, hdr, SEG_HDR, SEG_HDR, []));
      ok := true;
    }

    /** The last section of `seg` has this body, and a header computed for its place in the segment. */
    ghost predicate Appended(seg: Segment, tag: nat, lsn: int, body: Bytes)
      reads this
    {
      && seg.sections != [] && |body| + SEC_HDR <= seg.fileLen
      && var off := seg.fileLen - SEC_HDR - |body|;
         seg.sections[|seg.sections| - 1]
           == Section(secHeader(seg.header, off, tag, lsn, |body|, crc(seg.header, off, body)), body)
    }

    /** Sections acknowledged so far, over all segments. */
    ghost function History(): seq<Section>
      reads this
    {
      Acked(sealed) + if active.Some? then active.value.sections else []
    }

    /** Write to the end of a segment's file; a failure may leave part of it there. */
    method WriteAt(seg: Segment, b: Bytes) returns (ok: bool, seg': Segment)
      modifies this`ops, this`began
      ensures began && seg' == seg.(file := seg'.file) && seg.file <= seg'.file
      ensures ok ==> seg'.file == seg.file + b
      ensures ops == old(ops) + 1 && (ok <==> faults(ops).Fine?)
    {
      ops, began := ops + 1, true;
      match faults(ops) {
        case Fine => ok, seg' := true, seg.(file := Overlay(seg.file, |seg.file|, b));
        case Fails(partial) =>
          ok, seg' := false, seg.(file := Overlay(seg.file, |seg.file|, b[..if partial < |b| then partial else |b|]));
      }
    }

    /** Write and force one section at the end of a clean segment. */
    method WriteSection(seg: Segment, hdr: Bytes, e: Emission, bodyLen: nat, bodyCrc: nat) returns (ok: bool, seg': Segment)
      requires Clean(seg) && |hdr| == SEC_HDR
      modifies this`ops, this`began
      ensures began
      ensures seg'.id == seg.id && old(ops) <= ops
      ensures var body := Concat(e.chunks);
              ok <==> AllFine(faults, old(ops), ops) && !e.fails && |body| == bodyLen && crc(seg.header, seg.fileLen, body) == bodyCrc
      ensures !ok ==> Intact(seg') && seg'.sections == seg.sections && seg'.header == seg.header
      ensures ok ==>
                var body := Concat(e.chunks);
                && |body| == bodyLen && crc(seg.header, seg.fileLen, body) == bodyCrc
                && Clean(seg') && seg'.durable == Image(seg') && seg'.header == seg.header
                && seg'.fileLen == seg.fileLen + SEC_HDR + |body|
                && seg'.sections == seg.sections + [Section(hdr, body)]
    {
      hide Concat, AllFine, AllSections;
      FirstFew(faults, ops);
      ok, seg' := WriteAt(seg, hdr);
      if !ok {
        return;
      }
      var writer := new BodySink(true, faults, seg'.file, |seg'.file|, ops);
      ghost var o1 := ops;
      ok := writer.Emit(e);
      ghost var o2 := writer.ops;
      if ok {
        ok := writer.Flush();
      }
      FineTwice(faults, o1, o2, writer.ops);
      FineTwice(faults, old(ops), o1, writer.ops);
      ops, seg' := writer.ops, seg'.(file := writer.file);
      if !ok || writer.count != bodyLen || crc(seg.header, seg.fileLen, writer.fed) != bodyCrc {
        ok := false;
        return;
      }
      ghost var body := Concat(e.chunks);
      assert seg'.file == seg.file + hdr + body;
      ghost var o3 := ops;
      FirstFew(faults, ops);
      ok, seg' := Force(seg');
      FineTwice(faults, old(ops), o3, ops);
      if ok {
        SectionAdded(seg, hdr, body);
        seg' := seg'.(fileLen := |seg'.file|, validEnd := |seg'.file|, sections := seg.sections + [Section(hdr, writer.fed)]);
      }
    }

    /** Both passes succeed, with as many bytes and the same checksum. */
    ghost predicate SameBody(header: Bytes, off: nat, first: Emission, second: Emission) {
      && !first.fails && !second.fails && |Concat(first.chunks)| == |Concat(second.chunks)|
      && crc(header, off, Concat(first.chunks)) == crc(header, off, Concat(second.chunks))
    }

    /** Measure, write and force a section; `armed` says whether a rollover has already touched the disk. */
    method AppendBody(tag: nat, lsn: int, first: Emission, second: Emission, armed: bool) returns (ok: bool)
      requires Valid() && !closed && active.Some? && began == armed
      modifies this`active, this`closed, this`ops, this`began
      ensures Valid() && active.Some? && (armed ==> began) && old(ops) <= ops
      ensures ok <==> AllFine(faults, old(ops), ops) && SameBody(old(active).value.header, old(active).value.fileLen, first, second)
      ensures ok ==>
                && !closed && Clean(active.value) && active.value.durable == Image(active.value)
                && Appended(active.value, tag, lsn, Concat(second.chunks)) && |Concat(second.chunks)| == |Concat(first.chunks)|
                && active.value.sections[..|active.value.sections| - 1] == old(active).value.sections
      ensures !ok ==> active.value.sections == old(active).value.sections
      ensures !ok && began ==> closed
      ensures !ok && !began ==> !closed && active == old(active)
    {
      hide Intact, Image, Concat, AllFine, Numbered, AllSealed;
      FirstFew(faults, ops);
      var seg := active.value;
      var measure := new BodySink(false, faults, seg.file, 0, ops);
      ok := measure.Emit(first);
      if ok {
        ops := ops + 1;
        ok := faults(ops).Fine?;
      }
      if !ok {
        closed := armed;
        return;
      }
      var bodyCrc := crc(seg.header, seg.fileLen, measure.fed);
      var hdr := secHeader(seg.header, seg.fileLen, tag, lsn, measure.count, bodyCrc);
      ghost var was := ops;
      ok, seg := WriteSection(seg, hdr, second, measure.count, bodyCrc);
      FineTwice(faults, old(ops), was, ops);
      active := Some(seg);
      closed := !ok;
    }

    /** The active segment is full and holds something. */
    ghost predicate Rolls()
      reads this
    {
      active.Some? && active.value.fileLen >= segmentBytes && active.value.sections != []
    }

    /**
     Append one section, rolling over first if the active segment is full and not empty.
     `first` and `second` are what the producer does in the two passes.  It succeeds exactly if
     there is an active segment, a rollover has a positive lsn, no operation fails, and both
     passes succeed with the same length and checksum.
     */
    method AppendSection(tag: nat, lsn: int, first: Emission, second: Emission) returns (ok: bool)
      requires Valid() && !closed
      modifies this
      ensures Valid()
      ensures ok ==>
                && !closed && active.Some? && Clean(active.value) && active.value.durable == Image(active.value)
                && Appended(active.value, tag, lsn, Concat(second.chunks)) && |Concat(second.chunks)| == |Concat(first.chunks)|
                && History() == old(History()) + [active.value.sections[|active.value.sections| - 1]]
      ensures !ok ==> History() == old(History())
      ensures !ok && began ==> closed
      ensures !ok && !began ==> !closed && sealed == old(sealed) && active == old(active)
      ensures sealed != old(sealed) ==>
                && old(active).Some? && old(active).value.fileLen >= segmentBytes && old(active).value.sections != []
                && sealed == old(sealed) + [old(active).value.(durable := old(active).value.file)]
      ensures ok ==> old(active).Some?
      ensures ok && old(active).value.fileLen >= segmentBytes && old(active).value.sections != [] ==> sealed != old(sealed)
      ensures old(ops) <= ops && (ok <==>
                && old(active).Some? && (old(Rolls()) ==> lsn > 0) && AllFine(faults, old(ops), ops)
                && var header := if old(Rolls()) then segHeader(old(nextSeq), lsn) else old(active).value.header;
                   var off := if old(Rolls()) then SEG_HDR else old(active).value.fileLen;
                   SameBody(header, off, first, second))
      ensures old(active).Some? && (old(Rolls()) ==> lsn > 0) && AllFine(faults, old(ops), ops) && first == second && !first.fails ==> ok
      ensures nextSeq == old(nextSeq) + if old(Rolls()) && lsn > 0 && AllFine(faults, old(ops), old(ops) + 2) then 1 else 0
    {
      hide Intact, Clean, Image, Acked, Concat, AllSealed, AllFine, Numbered;
      began := false;
      if active.None? {
        return false;
      }
      var armed, seg := false, active.value;
      EmptyMeansNone(seg);
      if seg.fileLen >= segmentBytes && seg.validEnd != SEG_HDR {
        armed := true;
        ok := RollOver(lsn);
        if !ok {
          closed := true;
          return;
        }
        AckedAppend(old(sealed), seg.(durable := seg.file));
      }
      ghost var base, was := active.value.sections, ops;
      ok := AppendBody(tag, lsn, first, second, armed);
      FineTwice(faults, old(ops), was, ops);
      NothingFails(faults, old(ops));
      if ok {
        assert active.value.sections == base + [active.value.sections[|base|]];
      }
    }
  }
}

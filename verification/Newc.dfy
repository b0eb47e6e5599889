/** The newc format byte by byte: what the writer puts where, and exactly what the reader takes. */
module Newc {
  import opened Text
  import opened Initrd

  // ----- numbers -----------------------------------------------------------------------------------

  const LOWER: seq<Byte> := [48, 49, 50, 51, 52, 53, 54, 55, 56, 57, 97, 98, 99, 100, 101, 102]
  const UPPER: seq<Byte> := [48, 49, 50, 51, 52, 53, 54, 55, 56, 57, 65, 66, 67, 68, 69, 70]

  /** The reader takes hexadecimal digits of either case, and nothing else. */
  lemma DigitIs(b: Byte, d: nat)
    ensures DigitValue(b) == Some(d) <==> d < 16 && (b == LOWER[d] || b == UPPER[d])
  {
  }

  /** They are worth sixteen times what stands before them. */
  lemma NumberThen(h: Bytes, b: Byte, high: nat, d: nat)
    requires HexNumber(h) == Some(high) && d < 16 && (b == LOWER[d] || b == UPPER[d])
    ensures HexNumber(h + [b]) == Some(16 * high + d) && HexNumber([]) == Some(0)
  {
    DigitIs(b, d);
    assert (h + [b])[..|h|] == h;
  }

  lemma DigitTaken(b: Byte)
    ensures DigitValue(b).Some? <==> b in LOWER || b in UPPER
  {
    if DigitValue(b).Some? {
      DigitIs(b, DigitValue(b).value);
    }
    if b in LOWER {
      var d :| 0 <= d < 16 && LOWER[d] == b;
      DigitIs(b, d);
    }
    if b in UPPER {
      var d :| 0 <= d < 16 && UPPER[d] == b;
      DigitIs(b, d);
    }
  }

  lemma {:induction false} NoNumber(h: Bytes)
    ensures HexNumber(h).Some? <==> forall i :: 0 <= i < |h| ==> h[i] in LOWER || h[i] in UPPER
  {
    if h != [] {
      var n := |h| - 1;
      NoNumber(h[..n]);
      DigitTaken(h[n]);
      assert HexNumber(h).Some? <==> HexNumber(h[..n]).Some? && DigitValue(h[n]).Some?;
    }
  }

  lemma {:induction false} DigitsAreLower(value: nat)
    ensures forall i :: 0 <= i < |Hex(value)| ==> Hex(value)[i] in LOWER
  {
    if value < 16 {
      assert Hex(value)[0] == LOWER[value];
    } else {
      DigitsAreLower(value / 16);
      assert Hex(value)[|Hex(value)| - 1] == LOWER[value % 16];
    }
  }

  /** A field as printed: eight lower-case digits that are worth the value. */
  predicate IsField(b: Bytes, value: nat) {
    |b| == 8 && (forall i :: 0 <= i < 8 ==> b[i] in LOWER) && HexNumber(b) == Some(value)
  }

  lemma FieldIs(value: nat)
    requires value < 0x1_0000_0000
    ensures IsField(Hex8(value), value)
  {
    Hex8RoundTrip(value);
    DigitsAreLower(value);
    assert LOWER[0] == 48;
  }

  // ----- what the writer makes -----------------------------------------------------------------------

  /** The thirteen numbers of a header, each in its field. */
  predicate IsHeader(b: Bytes, values: seq<nat>) {
    && |b| == 110 && |values| == 13 && b[..6] == [48, 55, 48, 55, 48, 49]
    && forall i :: 0 <= i < 13 ==> IsField(b[6 + 8 * i..14 + 8 * i], values[i])
  }

  lemma LaterField(h: Bytes, b: Bytes, more: Bytes, k: nat)
    requires h == b + more && |b| == 8 && k > 0 && 8 * k <= |more|
    ensures h[8 * k..8 * k + 8] == more[8 * (k - 1)..8 * (k - 1) + 8]
  {
  }

  lemma FirstField(h: Bytes, b: Bytes, more: Bytes, k: nat)
    requires h == b + more && |b| == 8 && k == 0
    ensures h[8 * k..8 * k + 8] == b
  {
  }

  lemma FieldSizes(values: seq<nat>, b: Bytes, more: Bytes)
    requires values != [] && b == Hex8(values[0]) && more == HexFields(values[1..])
    requires forall i :: 0 <= i < |values| ==> values[i] < 0x1_0000_0000
    ensures HexFields(values) == b + more && |b| == 8 && |more| == 8 * (|values| - 1)
  {
    Hex8RoundTrip(values[0]);
    FieldsOfPrinted(values[1..]);
  }

  lemma {:induction false} FieldAt(values: seq<nat>, k: nat, h: Bytes)
    requires k < |values| && h == HexFields(values) && forall i :: 0 <= i < |values| ==> values[i] < 0x1_0000_0000
    ensures |h| == 8 * |values| && h[8 * k..8 * k + 8] == Hex8(values[k])
    decreases values
  {
    var b, more := Hex8(values[0]), HexFields(values[1..]);
    FieldSizes(values, b, more);
    if k == 0 {
      FirstField(h, b, more, k);
    } else {
      FieldAt(values[1..], k - 1, more);
      LaterField(h, b, more, k);
      assert values[1..][k - 1] == values[k];
    }
  }

  lemma AfterMagic(header: Bytes, magic: Bytes, fields: Bytes, k: nat)
    requires |magic| == 6 && |fields| == 104 && k < 13 && header == magic + fields
    ensures |header| == 110 && header[..6] == magic && header[6 + 8 * k..14 + 8 * k] == fields[8 * k..8 * k + 8]
  {
  }

  lemma HeaderIs(values: seq<nat>, header: Bytes)
    requires |values| == 13 && forall i :: 0 <= i < 13 ==> values[i] < 0x1_0000_0000
    requires header == [48, 55, 48, 55, 48, 49] + HexFields(values)
    ensures IsHeader(header, values)
  {
    FieldsOfPrinted(values);
    AfterMagic(header, [48, 55, 48, 55, 48, 49], HexFields(values), 0);
    forall i | 0 <= i < 13 ensures IsField(header[6 + 8 * i..14 + 8 * i], values[i]) {
      FieldAt(values, i, HexFields(values));
      AfterMagic(header, [48, 55, 48, 55, 48, 49], HexFields(values), i);
      FieldIs(values[i]);
    }
  }

  /** Fewer than four zero bytes, up to a multiple of four. */
  predicate IsPadding(z: Bytes, before: nat) {
    |z| < 4 && (before + |z|) % 4 == 0 && forall i :: 0 <= i < |z| ==> z[i] == 0
  }

  /** A record, part by part. */
  predicate IsRecord(b: Bytes, name: string, data: Bytes, mode: nat, inode: nat, codec: Codec, h: Bytes, x: Bytes,
                     y: Bytes)
  {
    && b == h + codec.encode(name) + [0] + x + data + y
    && IsHeader(h, [inode, mode, 0, 0, 1, 0, |data|, 0, 0, 0, 0, |codec.encode(name)| + 1, 0])
    && IsPadding(x, 110 + |codec.encode(name)| + 1) && IsPadding(y, |data|)
  }

  /** What `record` prints: the header, the name and a zero byte, the payload, the latter two padded. */
  lemma RecordIs(name: string, data: Bytes, mode: nat, inode: nat, codec: Codec) returns (h: Bytes, x: Bytes, y: Bytes)
    requires mode < 0x1_0000_0000 && inode < 0x1_0000_0000 && |data| < 0x1_0000_0000
    requires |codec.encode(name)| + 1 < 0x1_0000_0000
    ensures IsRecord(PrintRecord(name, data, mode, inode, codec), name, data, mode, inode, codec, h, x, y)
  {
    var encoded := codec.encode(name) + [0];
    var values := [inode, mode, 0, 0, 1, 0, |data|, 0, 0, 0, 0, |encoded|, 0];
    h := [48, 55, 48, 55, 48, 49] + HexFields(values);
    HeaderIs(values, h);
    x, y := RecordParts(h, codec.encode(name), data, PrintRecord(name, data, mode, inode, codec));
  }

  lemma RecordParts(h: Bytes, name: Bytes, data: Bytes, b: Bytes) returns (x: Bytes, y: Bytes)
    requires |h| == 110 && b == Pad4(Pad4(h + (name + [0])) + data)
    ensures b == h + name + [0] + x + data + y && IsPadding(x, 110 + |name| + 1) && IsPadding(y, |data|)
  {
    var head := h + (name + [0]);
    x := Zeros(Align(|head|) - |head|);
    var front := head + x + data;
    y := Zeros(Align(|front|) - |front|);
    assert head == h + name + [0];
  }

  /** All printed records one after the other. */
  function Concat(records: seq<Bytes>): Bytes {
    if records == [] then [] else records[0] + Concat(records[1..])
  }

  lemma {:induction false} ConcatIsArchive(ps: seq<Piece>, records: seq<Bytes>)
    requires |ps| == |records| && forall i :: 0 <= i < |ps| ==> ps[i].Record? && ps[i].bytes == records[i]
    ensures Archive(ps) == Concat(records)
  {
    if ps != [] {
      ConcatIsArchive(ps[1..], records[1..]);
    }
  }

  /** The overlay: its records in the given order, numbered from 1, the trailer, and zeros up to a multiple of 512. */
  lemma CpioIs(order: seq<string>, overlay: Files, codec: Codec) returns (records: seq<Bytes>, zeros: Bytes)
    requires forall i :: 0 <= i < |order| ==> order[i] in overlay
    ensures Cpio(order, overlay, codec) == Concat(records) + zeros
    ensures |records| == |order| + 1
    ensures forall i :: 0 <= i < |order| ==>
              records[i] == PrintRecord(order[i], overlay[order[i]].data, overlay[order[i]].mode, i + 1, codec)
    ensures records[|order|] == PrintRecord("TRAILER!!!", [], 0, |overlay| + 1, codec)
    ensures |zeros| < 512 && |Cpio(order, overlay, codec)| % 512 == 0 && forall i :: 0 <= i < |zeros| ==> zeros[i] == 0
  {
    var ps := OverlayPieces(order, overlay, codec);
    records := RecordsOf(order, overlay, codec, ps);
    zeros := ZerosTo512(Archive(ps));
  }

  lemma RecordsOf(order: seq<string>, overlay: Files, codec: Codec, ps: seq<Piece>) returns (records: seq<Bytes>)
    requires forall i :: 0 <= i < |order| ==> order[i] in overlay
    requires ps == OverlayPieces(order, overlay, codec)
    ensures Archive(ps) == Concat(records) && |records| == |order| + 1
    ensures forall i :: 0 <= i < |order| ==>
              records[i] == PrintRecord(order[i], overlay[order[i]].data, overlay[order[i]].mode, i + 1, codec)
    ensures records[|order|] == PrintRecord("TRAILER!!!", [], 0, |overlay| + 1, codec)
  {
    records := seq(|ps|, i requires 0 <= i < |ps| => ps[i].bytes);
    ConcatIsArchive(ps, records);
  }

  lemma ZerosTo512(a: Bytes) returns (zeros: Bytes)
    ensures zeros == Zeros(PadCount(a)) && |zeros| < 512 && |a + zeros| % 512 == 0
    ensures forall i :: 0 <= i < |zeros| ==> zeros[i] == 0
  {
    zeros := Zeros(PadCount(a));
  }

  // ----- what the reader takes ------------------------------------------------------------------------

  /** As much of the bytes from here to there as there is. */
  predicate IsSlice(a: Bytes, from: nat, to: nat, b: Bytes) {
    || (from <= to <= |a| && b == a[from..to])
    || (from <= |a| < to && b == a[from..])
    || (|a| < from && b == []) || (to < from && b == [])
  }

  lemma SliceIs(a: Bytes, from: nat, to: nat, b: Bytes)
    requires from <= to
    ensures IsSlice(a, from, to, b) <==> b == Slice(a, from, to)
  {
  }

  /** The next multiple of four. */
  predicate IsAligned(n: nat, r: nat) {
    n <= r < n + 4 && r % 4 == 0
  }

  /** Thirteen hexadecimal numbers after the magic. */
  predicate IsNumbers(h: Bytes, f: seq<nat>) {
    |h| == 110 && |f| == 13 && forall i :: 0 <= i < 13 ==> HexNumber(h[6 + 8 * i..14 + 8 * i]) == Some(f[i])
  }

  /** The name of a member: it ends in a zero byte. */
  ghost predicate NameHere(a: Bytes, start: nat, n: nat, raw: Bytes, name: string, codec: Codec) {
    && IsSlice(a, start, start + n, raw) && raw != [] && raw[|raw| - 1] == 0
    && codec.decode(raw[..|raw| - 1]) == Some(name)
  }

  /** Its payload, between padded positions. */
  ghost predicate PayloadHere(a: Bytes, from: nat, size: nat, body: nat, data: Bytes, next: nat) {
    IsAligned(from, body) && |data| == size && IsSlice(a, body, body + size, data) && IsAligned(body + size, next)
  }

  /** The parts of a member that starts here, after the magic and with these numbers in its header. */
  ghost predicate HasParts(a: Bytes, at: nat, m: Member, codec: Codec, f: seq<nat>, raw: Bytes, body: nat)
    requires |f| == 13
  {
    && NameHere(a, at + 110, f[11], raw, m.name, codec)
    && PayloadHere(a, at + 110 + f[11], f[6], body, m.node.data, m.next) && m.node.mode == f[1]
  }

  /** A member starts here: magic, numbers, a name that ends in a zero byte, and as much payload as they say. */
  ghost predicate MemberAt(a: Bytes, at: nat, m: Member, codec: Codec) {
    && at + 110 <= |a| && a[at..at + 6] in {[48, 55, 48, 55, 48, 49], [48, 55, 48, 55, 48, 50]}
    && exists f, raw: Bytes, body: nat :: IsNumbers(a[at..at + 110], f) && HasParts(a, at, m, codec, f, raw, body)
  }

  lemma {:induction false} FieldsAre(h: Bytes, f: seq<nat>)
    requires |h| == 8 * |f|
    ensures Fields(h) == Some(f) <==> forall i :: 0 <= i < |f| ==> HexNumber(h[8 * i..8 * i + 8]) == Some(f[i])
    decreases |f|
  {
    if f != [] {
      FieldsAre(h[8..], f[1..]);
      forall i | 0 <= i < |f[1..]| ensures h[8..][8 * i..8 * i + 8] == h[8 * (i + 1)..8 * (i + 1) + 8] {
      }
      assert h[..8] == h[8 * 0..8 * 0 + 8];
      assert f == [f[0]] + f[1..];
    }
  }

  lemma NumbersAre(a: Bytes, at: nat, f: seq<nat>)
    requires at + 110 <= |a| && |f| == 13
    ensures IsNumbers(a[at..at + 110], f) <==> Fields(a[at..at + 110][6..]) == Some(f)
  {
    var h := a[at..at + 110];
    FieldsAre(h[6..], f);
    forall i | 0 <= i < 13 ensures h[6..][8 * i..8 * i + 8] == h[6 + 8 * i..14 + 8 * i] {
    }
  }

  lemma HeaderRead(a: Bytes, at: nat, h: Header)
    ensures ReadHeader(a, at) == Ok(h) <==>
              && at + 110 <= |a| && a[at..at + 6] in {[48, 55, 48, 55, 48, 49], [48, 55, 48, 55, 48, 50]}
              && exists f :: |f| == 13 && IsNumbers(a[at..at + 110], f) && h == Header(f[1], f[6], f[11])
  {
    if at + 110 <= |a| {
      assert Slice(a, at, at + 110) == a[at..at + 110] && Slice(a, at, at + 6) == a[at..at + 6];
      var fields := Fields(a[at..at + 110][6..]);
      if fields.Some? {
        NumbersAre(a, at, fields.value);
      }
      if f :| |f| == 13 && IsNumbers(a[at..at + 110], f) {
        NumbersAre(a, at, f);
      }
      forall f | |f| == 13 && IsNumbers(a[at..at + 110], f) ensures fields == Some(f) {
        NumbersAre(a, at, f);
      }
    } else {
      assert |Slice(a, at, at + 110)| < 110;
    }
  }

  lemma AlignedIs(n: nat, r: nat)
    ensures IsAligned(n, r) <==> r == Align(n)
  {
  }

  /** What the reader looks at: the name and the payload, cut out of the archive. */
  ghost predicate CutsName(a: Bytes, start: nat, n: nat, raw: Bytes, name: string, codec: Codec) {
    raw == Slice(a, start, start + n) && ReadName(raw, codec) == Some(name)
  }

  ghost predicate CutsPayload(a: Bytes, from: nat, size: nat, body: nat, data: Bytes, next: nat) {
    body == Align(from) && |data| == size && data == Slice(a, body, body + size) && next == Align(body + size)
  }

  lemma NameCut(a: Bytes, start: nat, n: nat, raw: Bytes, name: string, codec: Codec)
    ensures CutsName(a, start, n, raw, name, codec) <==> NameHere(a, start, n, raw, name, codec)
  {
    SliceIs(a, start, start + n, raw);
  }

  lemma PayloadCut(a: Bytes, from: nat, size: nat, body: nat, data: Bytes, next: nat)
    ensures CutsPayload(a, from, size, body, data, next) <==> PayloadHere(a, from, size, body, data, next)
  {
    AlignedIs(from, body);
    SliceIs(a, body, body + size, data);
    AlignedIs(body + size, next);
  }

  lemma CutIsRead(a: Bytes, start: nat, m: Member, codec: Codec, h: Header, raw: Bytes, body: nat)
    requires CutsName(a, start, h.nameSize, raw, m.name, codec) && m.node.mode == h.mode
    requires CutsPayload(a, start + h.nameSize, h.size, body, m.node.data, m.next)
    ensures ReadBody(a, start, h, codec) == Ok(m)
  {
  }

  lemma ReadIsCut(a: Bytes, start: nat, m: Member, codec: Codec, h: Header) returns (raw: Bytes, body: nat)
    requires ReadBody(a, start, h, codec) == Ok(m)
    ensures CutsName(a, start, h.nameSize, raw, m.name, codec) && m.node.mode == h.mode
    ensures CutsPayload(a, start + h.nameSize, h.size, body, m.node.data, m.next)
  {
    raw, body := Slice(a, start, start + h.nameSize), Align(start + h.nameSize);
  }

  lemma PartsRead(a: Bytes, at: nat, m: Member, codec: Codec, f: seq<nat>)
    requires |f| == 13
    ensures ReadBody(a, at + 110, Header(f[1], f[6], f[11]), codec) == Ok(m) <==>
              exists raw: Bytes, body: nat :: HasParts(a, at, m, codec, f, raw, body)
  {
    var start, h := at + 110, Header(f[1], f[6], f[11]);
    if ReadBody(a, start, h, codec) == Ok(m) {
      var raw, body := ReadIsCut(a, start, m, codec, h);
      NameCut(a, start, f[11], raw, m.name, codec);
      PayloadCut(a, start + f[11], f[6], body, m.node.data, m.next);
      assert HasParts(a, at, m, codec, f, raw, body);
    }
    if raw: Bytes, body: nat :| HasParts(a, at, m, codec, f, raw, body) {
      NameCut(a, start, f[11], raw, m.name, codec);
      PayloadCut(a, start + f[11], f[6], body, m.node.data, m.next);
      CutIsRead(a, start, m, codec, h, raw, body);
    }
  }

  /** Exactly the members are read, as what they are. */
  lemma MemberIs(a: Bytes, at: nat, m: Member, codec: Codec)
    ensures ReadMember(a, at, codec) == Ok(m) <==> MemberAt(a, at, m, codec)
  {
    if ReadMember(a, at, codec) == Ok(m) {
      var h := ReadHeader(a, at).value;
      HeaderRead(a, at, h);
      var f :| |f| == 13 && IsNumbers(a[at..at + 110], f) && h == Header(f[1], f[6], f[11]);
      PartsRead(a, at, m, codec, f);
    }
    if MemberAt(a, at, m, codec) {
      var f, raw: Bytes, body: nat :| IsNumbers(a[at..at + 110], f) && HasParts(a, at, m, codec, f, raw, body);
      HeaderRead(a, at, Header(f[1], f[6], f[11]));
      PartsRead(a, at, m, codec, f);
    }
  }

  /** Zero bytes from here to there, where the archive ends or something else begins. */
  predicate ZerosUpTo(a: Bytes, from: nat, to: nat) {
    from <= to <= |a| && (forall i :: from <= i < to ==> a[i] == 0) && (to < |a| ==> a[to] != 0)
  }

  /** The path under which a member of this name is filed: a leading `./` is left out. */
  predicate IsFiledAs(name: string, path: string) {
    if |name| >= 2 && name[0] == '.' && name[1] == '/' then name == "./" + path else name == path
  }

  /** The files so far and one member more, which replaces an earlier one; the trailer is no file. */
  ghost predicate IsWith(before: Files, m: Member, after: Files) {
    if m.name == "TRAILER!!!" then after == before
    else exists path :: IsFiledAs(m.name, path) && after == before[path := m.node]
  }

  lemma StoreIs(before: Files, m: Member)
    ensures IsWith(before, m, Store(before, m.name, m.node))
  {
    var path := RemovePrefix(m.name);
    if |m.name| >= 2 {
      assert m.name[..2] == [m.name[0], m.name[1]] && m.name == m.name[..2] + m.name[2..];
      assert "./" == ['.', '/'];
    }
    assert IsFiledAs(m.name, path);
  }

  /**
   * Reading goes on member by member: zeros are passed over; at the end the files so far are the result; where
   * something else begins than a member, reading fails.
   */
  lemma ReadingGoesOn(a: Bytes, from: nat, at: nat, before: Files, codec: Codec)
    requires from < |a| && ZerosUpTo(a, from, at)
    ensures at == |a| ==> ReadFrom(a, from, before, codec) == Ok(before)
    ensures at < |a| && (forall m :: !MemberAt(a, at, m, codec)) ==> ReadFrom(a, from, before, codec).Err?
    ensures forall m :: at < |a| && MemberAt(a, at, m, codec) ==>
              exists after: Files :: IsWith(before, m, after) &&
                ReadFrom(a, from, before, codec) == ReadFrom(a, m.next, after, codec)
    ensures ReadFrom(a, |a|, before, codec) == Ok(before)
  {
    SkipsTo(a, from, at);
    if at < |a| {
      match ReadMember(a, at, codec)
      case Ok(m) =>
        OnlyMember(a, at, m, codec);
        assert MemberAt(a, at, m, codec);
        StoreIs(before, m);
      case Err(_) =>
        forall other ensures !MemberAt(a, at, other, codec) {
          MemberIs(a, at, other, codec);
        }
    }
  }

  lemma OnlyMember(a: Bytes, at: nat, m: Member, codec: Codec)
    requires ReadMember(a, at, codec) == Ok(m)
    ensures forall other :: MemberAt(a, at, other, codec) <==> other == m
  {
    forall other ensures MemberAt(a, at, other, codec) <==> other == m {
      MemberIs(a, at, other, codec);
    }
  }

  lemma {:induction false} SkipsTo(a: Bytes, from: nat, at: nat)
    requires ZerosUpTo(a, from, at)
    ensures SkipZeros(a, from) == at
    decreases at - from
  {
    if from < at {
      SkipsTo(a, from + 1, at);
    }
  }
}

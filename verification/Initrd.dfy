/** The newc archive reader and writer and the installer overlay of image/installer/prepare-initrd.py. */
module Initrd {
  import opened Text

  type Byte = x: int | 0 <= x < 256
  type Bytes = seq<Byte>

  /** UTF-8, taken as any encoding that decoding undoes. */
  datatype Codec = Codec(encode: string -> Bytes, decode: Bytes -> Option<string>) {
    ghost predicate Lawful() {
      forall s: string :: decode(encode(s)) == Some(s)
    }
  }

  datatype Node = Node(mode: nat, data: Bytes)

  type Files = map<string, Node>

  datatype Fault = BadMagic | TruncatedHeader | BadField | BadName | TruncatedPayload

  const TRAILER := "TRAILER!!!"
  const LIMIT: nat := 0x1_0000_0000

  // ----- arithmetic and slices -------------------------------------------------

  /** `(n + 3) & ~3`. */
  function Align(n: nat): (r: nat)
    ensures n <= r < n + 4
  {
    if n % 4 == 0 then n else n + (4 - n % 4)
  }

  lemma AlignIsMasking(n: nat)
    ensures Align(n) == (n + 3) / 4 * 4 && Align(n) % 4 == 0
  {
  }

  function Zeros(n: nat): (z: Bytes)
    ensures |z| == n && forall i :: 0 <= i < n ==> z[i] == 0
  {
    seq(n, i => 0)
  }

  /** A Python slice: bounds past the end are clamped. */
  function Slice(a: Bytes, from: nat, to: nat): Bytes {
    var hi := if to < |a| then to else |a|;
    if from < hi then a[from..hi] else []
  }

  function SkipZeros(a: Bytes, offset: nat): (r: nat)
    requires offset <= |a|
    ensures offset <= r <= |a| && (r < |a| ==> a[r] != 0)
    decreases |a| - offset
  {
    if offset < |a| && a[offset] == 0 then SkipZeros(a, offset + 1) else offset
  }

  // ----- hexadecimal fields ----------------------------------------------------

  function HexDigit(d: nat): Byte
    requires d < 16
  {
    if d < 10 then 48 + d else 87 + d
  }

  function Hex(value: nat): (h: Bytes)
    ensures h != []
  {
    if value < 16 then [HexDigit(value)] else Hex(value / 16) + [HexDigit(value % 16)]
  }

  /** `f"{value:08x}"`: at least eight digits. */
  function Hex8(value: nat): Bytes {
    var h := Hex(value);
    if |h| < 8 then seq(8 - |h|, i => 48) + h else h
  }

  function DigitValue(b: Byte): Option<nat> {
    if 48 <= b <= 57 then Some(b - 48)
    else if 97 <= b <= 102 then Some(b - 87)
    else if 65 <= b <= 70 then Some(b - 55)
    else None
  }

  function HexNumber(h: Bytes): Option<nat> {
    if h == [] then Some(0)
    else match (HexNumber(h[..|h| - 1]), DigitValue(h[|h| - 1]))
      case (Some(high), Some(low)) => Some(16 * high + low)
      case _ => None
  }

  lemma {:induction false} HexRoundTrip(value: nat)
    ensures HexNumber(Hex(value)) == Some(value)
  {
    var h := Hex(value);
    if value < 16 {
      assert HexNumber(h[..|h| - 1]) == Some(0);
    } else {
      HexRoundTrip(value / 16);
      assert h[..|h| - 1] == Hex(value / 16);
    }
  }

  lemma {:induction false} HexLength(value: nat, digits: nat, bound: nat)
    requires digits > 0 && bound == Power16(digits) && value < bound
    ensures |Hex(value)| <= digits
    decreases digits
  {
    if value >= 16 {
      HexLength(value / 16, digits - 1, bound / 16);
    }
  }

  function Power16(n: nat): nat {
    if n == 0 then 1 else 16 * Power16(n - 1)
  }

  lemma {:induction false} LeadingZeros(n: nat, h: Bytes)
    ensures HexNumber(seq(n, i => 48) + h) == HexNumber(h)
    decreases |h|, n
  {
    var padded: Bytes := seq(n, i => 48) + h;
    if h != [] {
      assert padded[..|padded| - 1] == seq(n, i => 48) + h[..|h| - 1];
      LeadingZeros(n, h[..|h| - 1]);
    } else if n > 0 {
      var shorter: Bytes := seq(n - 1, i => 48) + h;
      assert padded[..|padded| - 1] == shorter;
      LeadingZeros(n - 1, h);
    }
  }

  /** Eight-digit fields are exact up to 32 bits; wider values print more digits and break the header. */
  lemma Hex8RoundTrip(value: nat)
    requires value < LIMIT
    ensures |Hex8(value)| == 8 && HexNumber(Hex8(value)) == Some(value)
  {
    assert Power16(8) == LIMIT;
    HexLength(value, 8, LIMIT);
    HexRoundTrip(value);
    LeadingZeros(if |Hex(value)| < 8 then 8 - |Hex(value)| else 0, Hex(value));
  }

  // ----- the reader ------------------------------------------------------------

  predicate Magic(m: Bytes) {
    m == [48, 55, 48, 55, 48, 49] || m == [48, 55, 48, 55, 48, 50]
  }

  /** The numbers of a header, eight digits each. */
  function Fields(h: Bytes): (r: Option<seq<nat>>)
    ensures r.Some? ==> |r.value| == |h| / 8
    decreases |h|
  {
    if |h| < 8 then Some([])
    else match (HexNumber(h[..8]), Fields(h[8..]))
      case (Some(first), Some(rest)) => Some([first] + rest)
      case _ => None
  }

  /** The three header fields that matter. */
  datatype Header = Header(mode: nat, size: nat, nameSize: nat)

  function HeaderOf(h: Bytes): Option<Header>
    requires |h| == 104
  {
    var fields := Fields(h);
    if fields.None? then None else Some(Header(fields.value[1], fields.value[6], fields.value[11]))
  }

  function ReadHeader(a: Bytes, offset: nat): Result<Header, Fault> {
    var header := Slice(a, offset, offset + 110);
    if !Magic(Slice(a, offset, offset + 6)) then Err(BadMagic)
    else if |header| != 110 then Err(TruncatedHeader)
    else if HeaderOf(header[6..]).None? then Err(BadField)
    else Ok(HeaderOf(header[6..]).value)
  }

  /** A member as read at an offset, with the offset after it. */
  datatype Member = Member(name: string, node: Node, next: nat)

  /** A name ends with a zero byte. */
  function ReadName(raw: Bytes, codec: Codec): Option<string> {
    if raw == [] || raw[|raw| - 1] != 0 then None else codec.decode(raw[..|raw| - 1])
  }

  /** The name and payload behind a header that ends at `start`. */
  function ReadBody(a: Bytes, start: nat, h: Header, codec: Codec): (r: Result<Member, Fault>)
    ensures r.Ok? ==> r.value.next >= start
  {
    match ReadName(Slice(a, start, start + h.nameSize), codec)
    case None => Err(BadName)
    case Some(name) => ReadPayload(a, Align(start + h.nameSize), h, name)
  }

  function ReadPayload(a: Bytes, body: nat, h: Header, name: string): (r: Result<Member, Fault>)
    ensures r.Ok? ==> r.value.next >= body
  {
    var payload := Slice(a, body, body + h.size);
    if |payload| != h.size then Err(TruncatedPayload)
    else Ok(Member(name, Node(h.mode, payload), Align(body + h.size)))
  }

  function ReadMember(a: Bytes, offset: nat, codec: Codec): (r: Result<Member, Fault>)
    ensures r.Ok? ==> r.value.next > offset
  {
    match ReadHeader(a, offset)
    case Err(e) => Err(e)
    case Ok(h) => ReadBody(a, offset + 110, h, codec)
  }

  function RemovePrefix(name: string): string {
    if |name| >= 2 && name[..2] == "./" then name[2..] else name
  }

  function Store(result: Files, name: string, node: Node): Files {
    if name == TRAILER then result else result[RemovePrefix(name) := node]
  }

  /** The member after any zero bytes, or none at the end of the archive. */
  function NextMember(a: Bytes, offset: nat, codec: Codec): (r: Result<Option<Member>, Fault>)
    requires offset <= |a|
    ensures r.Ok? && r.value.Some? ==> r.value.value.next > offset
  {
    var at := SkipZeros(a, offset);
    if at == |a| then Ok(None)
    else match ReadMember(a, at, codec)
      case Err(e) => Err(e)
      case Ok(m) => Ok(Some(m))
  }

  /** Where members are found: the next one at or after an offset, if any. */
  type Scan = nat -> Result<Option<Member>, Fault>

  ghost predicate Advances(next: Scan) {
    forall offset: nat :: next(offset).Ok? && next(offset).value.Some? ==> next(offset).value.value.next > offset
  }

  function Scanner(a: Bytes, codec: Codec): (next: Scan)
    ensures Advances(next)
  {
    (offset: nat) => if offset <= |a| then NextMember(a, offset, codec) else Ok(None)
  }

  /** Members go into the result one after another, so the last of a name wins. */
  function Gather(next: Scan, size: nat, offset: nat, result: Files): Result<Files, Fault>
    requires Advances(next)
    decreases if offset < size then size - offset else 0
  {
    if offset >= size then Ok(result)
    else match next(offset)
      case Err(e) => Err(e)
      case Ok(None) => Ok(result)
      case Ok(Some(m)) => Gather(next, size, m.next, Store(result, m.name, m.node))
  }

  function ReadFrom(a: Bytes, offset: nat, result: Files, codec: Codec): Result<Files, Fault> {
    Gather(Scanner(a, codec), |a|, offset, result)
  }

  /** The reader as its two nested loops over `offset`. */
  method Entries(a: Bytes, codec: Codec) returns (out: Result<Files, Fault>)
    ensures out == ReadFrom(a, 0, map[], codec)
  {
    var result: Files := map[];
    var offset := 0;
    ghost var next := Scanner(a, codec);
    while offset < |a|
      invariant Gather(next, |a|, 0, map[]) == Gather(next, |a|, offset, result)
    {
      ghost var from := offset;
      while offset < |a| && a[offset] == 0
        invariant from <= offset <= |a|
        invariant SkipZeros(a, from) == SkipZeros(a, offset)
      {
        offset := offset + 1;
      }
      assert SkipZeros(a, from) == offset;
      if offset == |a| {
        assert next(from) == Ok(None);
        break;
      }
      var member := ReadMember(a, offset, codec);
      match member
      case Err(e) =>
        assert next(from) == Err(e);
        return Err(e);
      case Ok(m) =>
        assert next(from) == Ok(Some(m));
        result := Store(result, m.name, m.node);
        offset := m.next;
    }
    out := Ok(result);
  }

  // ----- archives as pieces ------------------------------------------------------

  /** The name and payload of a member whose header gives these sizes; `body` is where the payload starts. */
  predicate HasBody(b: Bytes, n: nat, body: nat, name: string, node: Node, codec: Codec) {
    && n > 0 && body == Align(110 + n) && |b| == Align(body + |node.data|)
    && b[110 + n - 1] == 0 && codec.decode(b[110..110 + n - 1]) == Some(name)
    && b[body..body + |node.data|] == node.data
  }

  /** `b` is one whole newc member, padded to a multiple of four, whatever its other header fields and padding hold. */
  predicate IsMember(b: Bytes, name: string, node: Node, codec: Codec) {
    && |b| >= 110 && Magic(b[..6]) && HeaderOf(b[6..110]).Some?
    && var h := HeaderOf(b[6..110]).value;
       && h.mode == node.mode && h.size == |node.data|
       && HasBody(b, h.nameSize, Align(110 + h.nameSize), name, node, codec)
  }

  /** An archive is a sequence of members and runs of zero bytes. */
  datatype Piece = Padding(count: nat) | Record(bytes: Bytes, name: string, node: Node)

  predicate GoodPiece(p: Piece, codec: Codec) {
    match p
    case Padding(count) => count % 4 == 0
    case Record(bytes, name, node) => IsMember(bytes, name, node, codec)
  }

  predicate GoodPieces(pieces: seq<Piece>, codec: Codec) {
    forall i :: 0 <= i < |pieces| ==> GoodPiece(pieces[i], codec)
  }

  function Render(p: Piece): Bytes {
    match p
    case Padding(count) => Zeros(count)
    case Record(bytes, _, _) => bytes
  }

  function Archive(pieces: seq<Piece>): Bytes {
    if pieces == [] then [] else Render(pieces[0]) + Archive(pieces[1..])
  }

  /** Later members win; trailers store nothing. */
  function Meaning(pieces: seq<Piece>, before: Files): Files {
    if pieces == [] then before
    else
      Meaning(pieces[1..], StorePiece(before, pieces[0]))
  }

  function StorePiece(before: Files, p: Piece): Files {
    if p.Record? then Store(before, p.name, p.node) else before
  }

  lemma AlignShift(base: nat, n: nat)
    requires base % 4 == 0
    ensures Align(base + n) == base + Align(n)
  {
  }

  /** The archive holds `b` at this offset. */
  predicate Holds(a: Bytes, base: nat, b: Bytes) {
    base + |b| <= |a| && forall i :: base <= i < base + |b| ==> a[i] == b[i - base]
  }

  lemma SliceOf(a: Bytes, base: nat, b: Bytes, from: nat, to: nat)
    requires Holds(a, base, b) && from <= to <= |b|
    ensures Slice(a, base + from, base + to) == b[from..to]
  {
    assert forall i :: from <= i < to ==> a[base + from..base + to][i - from] == a[base + i] == b[i];
  }

  lemma HeaderAt(a: Bytes, base: nat, b: Bytes, h: Header)
    requires Holds(a, base, b) && |b| >= 110 && Magic(b[..6]) && HeaderOf(b[6..110]) == Some(h)
    ensures ReadHeader(a, base) == Ok(h)
  {
    SliceOf(a, base, b, 0, 110);
    SliceOf(a, base, b, 0, 6);
    assert b[..110][6..] == b[6..110];
  }

  lemma NameOf(raw: Bytes, b: Bytes, n: nat, name: string, codec: Codec)
    requires 0 < n && 110 + n <= |b| && raw == b[110..110 + n]
    requires b[110 + n - 1] == 0 && codec.decode(b[110..110 + n - 1]) == Some(name)
    ensures ReadName(raw, codec) == Some(name)
  {
    assert raw[..|raw| - 1] == b[110..110 + n - 1];
  }

  lemma NameAt(a: Bytes, base: nat, start: nat, b: Bytes, n: nat, body: nat, name: string, node: Node, codec: Codec)
    requires Holds(a, base, b) && start == base + 110 && HasBody(b, n, body, name, node, codec)
    ensures ReadName(Slice(a, start, start + n), codec) == Some(name)
  {
    SliceOf(a, base, b, 110, 110 + n);
    NameOf(b[110..110 + n], b, n, name, codec);
  }

  lemma PayloadFrom(a: Bytes, at: nat, h: Header, name: string, node: Node, next: nat)
    requires h.mode == node.mode && h.size == |node.data| && Slice(a, at, at + h.size) == node.data &&
             Align(at + h.size) == next
    ensures ReadPayload(a, at, h, name) == Ok(Member(name, node, next))
  {
  }

  lemma PayloadEnd(base: nat, n: nat, end: nat)
    requires base % 4 == 0 && end == Align(n)
    ensures Align(base + n) == base + end
  {
    AlignShift(base, n);
  }

  lemma PayloadHeld(a: Bytes, base: nat, b: Bytes, body: nat, data: Bytes)
    requires Holds(a, base, b) && body + |data| <= |b| && b[body..body + |data|] == data
    ensures Slice(a, base + body, base + body + |data|) == data
  {
    SliceOf(a, base, b, body, body + |data|);
  }

  lemma PayloadAt(a: Bytes, base: nat, b: Bytes, h: Header, name: string, node: Node, body: nat, next: nat)
    requires Holds(a, base, b) && h.mode == node.mode && h.size == |node.data|
    requires body + |node.data| <= |b| && b[body..body + |node.data|] == node.data
    requires Align(base + body + h.size) == next
    ensures ReadPayload(a, base + body, h, name) == Ok(Member(name, node, next))
  {
    PayloadHeld(a, base, b, body, node.data);
    PayloadFrom(a, base + body, h, name, node, next);
  }

  lemma NameThenPayload(a: Bytes, start: nat, h: Header, name: string, codec: Codec)
    requires ReadName(Slice(a, start, start + h.nameSize), codec) == Some(name)
    ensures ReadBody(a, start, h, codec) == ReadPayload(a, Align(start + h.nameSize), h, name)
  {
  }

  lemma BodyStart(base: nat, b: Bytes, n: nat, body: nat, name: string, node: Node, codec: Codec)
    requires base % 4 == 0 && HasBody(b, n, body, name, node, codec)
    ensures Align(base + 110 + n) == base + body
  {
    AlignShift(base, 110 + n);
  }

  /** A member at an offset that is a multiple of four reads the same as it does alone. */
  lemma ReadMemberAt(a: Bytes, base: nat, b: Bytes, h: Header, body: nat, name: string, node: Node, codec: Codec)
    requires base % 4 == 0 && Holds(a, base, b) && |b| >= 110 && Magic(b[..6]) && HeaderOf(b[6..110]) == Some(h)
    requires h.mode == node.mode && h.size == |node.data| && HasBody(b, h.nameSize, body, name, node, codec)
    ensures ReadMember(a, base, codec) == Ok(Member(name, node, base + |b|))
  {
    calc {
      ReadMember(a, base, codec);
      { HeaderAt(a, base, b, h); }
      ReadBody(a, base + 110, h, codec);
      { WholeBodyAt(a, base, base + 110, b, h, body, name, node, codec); }
      Ok(Member(name, node, base + |b|));
    }
  }

  lemma NameComesFirst(a: Bytes, base: nat, start: nat, b: Bytes, h: Header, body: nat, name: string, node: Node,
                       codec: Codec)
    requires Holds(a, base, b) && start == base + 110 && HasBody(b, h.nameSize, body, name, node, codec)
    ensures ReadBody(a, start, h, codec) == ReadPayload(a, Align(start + h.nameSize), h, name)
  {
    NameAt(a, base, start, b, h.nameSize, body, name, node, codec);
    NameThenPayload(a, start, h, name, codec);
  }

  lemma WholeBodyAt(a: Bytes, base: nat, start: nat, b: Bytes, h: Header, body: nat, name: string, node: Node,
                    codec: Codec)
    requires base % 4 == 0 && Holds(a, base, b) && start == base + 110
    requires h.mode == node.mode && h.size == |node.data| && HasBody(b, h.nameSize, body, name, node, codec)
    ensures ReadBody(a, start, h, codec) == Ok(Member(name, node, base + |b|))
  {
    calc {
      ReadBody(a, start, h, codec);
      { NameComesFirst(a, base, start, b, h, body, name, node, codec); }
      ReadPayload(a, Align(start + h.nameSize), h, name);
      { BodyStart(base, b, h.nameSize, body, name, node, codec); }
      ReadPayload(a, base + body, h, name);
      {
        PayloadEnd(base, body + h.size, |b|);
        PayloadAt(a, base, b, h, name, node, body, base + |b|);
      }
      Ok(Member(name, node, base + |b|));
    }
  }

  lemma {:induction false} SkipRun(a: Bytes, offset: nat, count: nat)
    requires offset + count <= |a| && forall i :: offset <= i < offset + count ==> a[i] == 0
    ensures SkipZeros(a, offset) == SkipZeros(a, offset + count)
    decreases count
  {
    if count > 0 {
      SkipRun(a, offset + 1, count - 1);
    }
  }

  lemma SkipPadding(a: Bytes, base: nat, count: nat)
    requires Holds(a, base, Zeros(count))
    ensures SkipZeros(a, base) == SkipZeros(a, base + count)
  {
    assert forall i :: base <= i < base + count ==> a[i] == Zeros(count)[i - base];
    SkipRun(a, base, count);
  }

  lemma FirstByte(b: Bytes)
    requires |b| >= 110 && Magic(b[..6])
    ensures b[0] == 48
  {
    assert b[0] == b[..6][0];
  }

  lemma RecordReads(a: Bytes, base: nat, b: Bytes, name: string, node: Node, codec: Codec)
    requires base % 4 == 0 && IsMember(b, name, node, codec) && Holds(a, base, b)
    ensures base < |a| && NextMember(a, base, codec) == Ok(Some(Member(name, node, base + |b|)))
  {
    var h := HeaderOf(b[6..110]).value;
    ReadMemberAt(a, base, b, h, Align(110 + h.nameSize), name, node, codec);
    FirstByte(b);
    assert a[base + 0] == b[0];
    NextIs(a, base, Member(name, node, base + |b|), codec);
  }

  lemma NextIs(a: Bytes, base: nat, m: Member, codec: Codec)
    requires base < |a| && a[base] != 0 && ReadMember(a, base, codec) == Ok(m)
    ensures NextMember(a, base, codec) == Ok(Some(m))
  {
  }

  /** A scan of an archive passes over zero bytes, up to its end. */
  ghost predicate SkipsZeros(next: Scan, a: Bytes) {
    && next(|a|) == Ok(None)
    && forall base: nat, count: nat :: Holds(a, base, Zeros(count)) ==> next(base) == next(base + count)
  }

  /** It finds every member that starts at a multiple of four. */
  ghost predicate FindsMembers(next: Scan, a: Bytes, codec: Codec) {
    forall base: nat, b, name, node :: base % 4 == 0 && IsMember(b, name, node, codec) && Holds(a, base, b) ==>
      base < |a| && next(base) == Ok(Some(Member(name, node, base + |b|)))
  }

  lemma NextPastZeros(a: Bytes, base: nat, to: nat, codec: Codec)
    requires base <= |a| && to <= |a| && SkipZeros(a, base) == SkipZeros(a, to)
    ensures Scanner(a, codec)(base) == Scanner(a, codec)(to)
  {
  }

  lemma ScannerSkipsZeros(a: Bytes, codec: Codec)
    ensures SkipsZeros(Scanner(a, codec), a)
  {
    var next := Scanner(a, codec);
    ScannerIs(a, codec, |a|, Ok(None));
    forall base: nat, count: nat | Holds(a, base, Zeros(count)) ensures next(base) == next(base + count) {
      SkipPadding(a, base, count);
      NextPastZeros(a, base, base + count, codec);
    }
  }

  lemma ScannerIs(a: Bytes, codec: Codec, offset: nat, r: Result<Option<Member>, Fault>)
    requires offset <= |a| && NextMember(a, offset, codec) == r
    ensures Scanner(a, codec)(offset) == r
  {
  }

  lemma ScannerFindsMembers(a: Bytes, codec: Codec)
    ensures FindsMembers(Scanner(a, codec), a, codec)
  {
    var next := Scanner(a, codec);
    forall base: nat, b, name, node | base % 4 == 0 && IsMember(b, name, node, codec) && Holds(a, base, b)
      ensures base < |a| && next(base) == Ok(Some(Member(name, node, base + |b|)))
    {
      RecordReads(a, base, b, name, node, codec);
      ScannerIs(a, codec, base, Ok(Some(Member(name, node, base + |b|))));
    }
  }

  lemma PieceIsAligned(p: Piece, codec: Codec)
    requires GoodPiece(p, codec)
    ensures |Render(p)| % 4 == 0
  {
    if p.Record? {
      AlignIsMasking(Align(110 + HeaderOf(p.bytes[6..110]).value.nameSize) + |p.node.data|);
    }
  }

  lemma {:induction false} AlignedArchive(pieces: seq<Piece>)
    requires forall i :: 0 <= i < |pieces| ==> |Render(pieces[i])| % 4 == 0
    ensures |Archive(pieces)| % 4 == 0
  {
    if pieces != [] {
      AlignedArchive(pieces[1..]);
    }
  }

  /** The pieces one after another from this offset to the end. */
  predicate Laid(a: Bytes, base: nat, pieces: seq<Piece>)
    decreases pieces
  {
    if pieces == [] then base == |a|
    else Holds(a, base, Render(pieces[0])) && Laid(a, base + |Render(pieces[0])|, pieces[1..])
  }

  lemma FirstIsLaid(pre: Bytes, b: Bytes, more: Bytes, bs: Bytes, a: Bytes)
    requires bs == b + more && a == pre + bs
    ensures Holds(a, |pre|, b) && a == (pre + b) + more
  {
    Regroup(pre, b, more, bs);
  }

  lemma {:induction false} ArchiveIsLaid(pre: Bytes, pieces: seq<Piece>, a: Bytes)
    requires a == pre + Archive(pieces)
    ensures Laid(a, |pre|, pieces)
    decreases pieces
  {
    if pieces != [] {
      FirstIsLaid(pre, Render(pieces[0]), Archive(pieces[1..]), Archive(pieces), a);
      ArchiveIsLaid(pre + Render(pieces[0]), pieces[1..], a);
    }
  }

  lemma GatherOn(next: Scan, size: nat, base: nat, m: Member, before: Files)
    requires Advances(next) && base < size && next(base) == Ok(Some(m))
    ensures Gather(next, size, base, before) == Gather(next, size, m.next, Store(before, m.name, m.node))
  {
  }

  lemma GatherPast(next: Scan, size: nat, base: nat, to: nat, before: Files)
    requires Advances(next) && base <= to <= size && next(base) == next(to) && next(size) == Ok(None)
    ensures Gather(next, size, base, before) == Gather(next, size, to, before)
  {
  }

  /** The scan finds this piece here. */
  predicate Found(next: Scan, base: nat, p: Piece) {
    match p
    case Padding(count) => next(base) == next(base + count)
    case Record(bytes, name, node) => next(base) == Ok(Some(Member(name, node, base + |bytes|)))
  }

  /** And the pieces one after another up to the end. */
  predicate FoundAll(next: Scan, size: nat, base: nat, pieces: seq<Piece>)
    decreases pieces
  {
    if pieces == [] then base == size
    else
      && base + |Render(pieces[0])| <= size && (pieces[0].Record? ==> base < size) && Found(next, base, pieces[0])
      && FoundAll(next, size, base + |Render(pieces[0])|, pieces[1..])
  }

  /** Wherever this piece lies at a multiple of four, the scan finds it, and it ends at one. */
  ghost predicate FoundAnywhere(next: Scan, a: Bytes, p: Piece) {
    && |Render(p)| % 4 == 0
    && forall base: nat :: base % 4 == 0 && Holds(a, base, Render(p)) ==>
         Found(next, base, p) && (p.Record? ==> base < |a|)
  }

  lemma PaddingIsFound(next: Scan, a: Bytes, p: Piece)
    requires SkipsZeros(next, a) && p.Padding? && p.count % 4 == 0
    ensures FoundAnywhere(next, a, p)
  {
  }

  lemma RecordIsFound(next: Scan, a: Bytes, p: Piece, codec: Codec)
    requires FindsMembers(next, a, codec) && p.Record? && IsMember(p.bytes, p.name, p.node, codec) && |p.bytes| % 4 == 0
    ensures FoundAnywhere(next, a, p)
  {
    forall base: nat | base % 4 == 0 && Holds(a, base, p.bytes)
      ensures base < |a| && next(base) == Ok(Some(Member(p.name, p.node, base + |p.bytes|)))
    {
    }
  }

  lemma PieceIsFound(next: Scan, a: Bytes, p: Piece, codec: Codec)
    requires SkipsZeros(next, a) && FindsMembers(next, a, codec) && GoodPiece(p, codec)
    ensures FoundAnywhere(next, a, p)
  {
    if p.Padding? {
      PaddingIsFound(next, a, p);
    } else {
      PieceIsAligned(p, codec);
      RecordIsFound(next, a, p, codec);
    }
  }

  lemma {:induction false} PiecesAreFound(next: Scan, a: Bytes, base: nat, pieces: seq<Piece>)
    requires base % 4 == 0 && Laid(a, base, pieces) &&
             forall i :: 0 <= i < |pieces| ==> FoundAnywhere(next, a, pieces[i])
    ensures FoundAll(next, |a|, base, pieces)
    decreases pieces
  {
    if pieces != [] {
      PiecesAreFound(next, a, base + |Render(pieces[0])|, pieces[1..]);
    }
  }

  /** What is found at a piece goes into the result, and reading goes on behind it. */
  lemma {:induction false} GatherPieces(next: Scan, size: nat, base: nat, pieces: seq<Piece>, before: Files)
    requires Advances(next) && next(size) == Ok(None) && FoundAll(next, size, base, pieces)
    ensures Gather(next, size, base, before) == Ok(Meaning(pieces, before))
    decreases pieces
  {
    if pieces != [] {
      var p := pieces[0];
      match p {
        case Padding(count) => GatherPast(next, size, base, base + count, before);
        case Record(bytes, name, node) => GatherOn(next, size, base, Member(name, node, base + |bytes|), before);
      }
      GatherPieces(next, size, base + |Render(p)|, pieces[1..], StorePiece(before, p));
    }
  }

  /** What the reader makes of the rest of an archive from the start of any piece on. */
  lemma ReadPieces(pre: Bytes, pieces: seq<Piece>, a: Bytes, before: Files, after: Files, codec: Codec)
    requires |pre| % 4 == 0 && GoodPieces(pieces, codec) && a == pre + Archive(pieces)
    requires after == Meaning(pieces, before)
    ensures ReadFrom(a, |pre|, before, codec) == Ok(after)
  {
    ArchiveIsLaid(pre, pieces, a);
    ScannerSkipsZeros(a, codec);
    ScannerFindsMembers(a, codec);
    var next := Scanner(a, codec);
    forall i | 0 <= i < |pieces| ensures FoundAnywhere(next, a, pieces[i]) {
      PieceIsFound(next, a, pieces[i], codec);
    }
    PiecesAreFound(next, a, |pre|, pieces);
    GatherPieces(next, |a|, |pre|, pieces, before);
  }

  lemma {:induction false} ArchiveAppend(x: seq<Piece>, y: seq<Piece>)
    ensures Archive(x + y) == Archive(x) + Archive(y)
  {
    if x == [] {
      assert x + y == y;
    } else {
      assert (x + y)[1..] == x[1..] + y;
      ArchiveAppend(x[1..], y);
    }
  }

  lemma {:induction false} MeaningAppend(x: seq<Piece>, y: seq<Piece>, before: Files)
    ensures Meaning(x + y, before) == Meaning(y, Meaning(x, before))
    decreases x
  {
    if x == [] {
      assert x + y == y;
    } else {
      assert (x + y)[1..] == x[1..] + y;
      MeaningAppend(x[1..], y, StorePiece(before, x[0]));
    }
  }

  // ----- the writer --------------------------------------------------------------

  function HexFields(values: seq<nat>): Bytes {
    if values == [] then [] else Hex8(values[0]) + HexFields(values[1..])
  }

  /** `-n % 4` zero bytes. */
  function Pad4(b: Bytes): Bytes {
    b + Zeros(Align(|b|) - |b|)
  }

  function PrintRecord(name: string, payload: Bytes, mode: nat, inode: nat, codec: Codec): Bytes {
    var encoded := codec.encode(name) + [0];
    var fields := [inode, mode, 0, 0, 1, 0, |payload|, 0, 0, 0, 0, |encoded|, 0];
    var header := [48, 55, 48, 55, 48, 49] + HexFields(fields);
    Pad4(Pad4(header + encoded) + payload)
  }

  lemma FieldsThen(h: Bytes, b: Bytes, more: Bytes, first: nat, rest: seq<nat>)
    requires h == b + more && |b| == 8 && HexNumber(b) == Some(first) && Fields(more) == Some(rest)
    ensures Fields(h) == Some([first] + rest)
  {
    assert h[..8] == b && h[8..] == more;
  }

  /** Printed fields are read back one for one. */
  lemma {:induction false} FieldsOfPrinted(values: seq<nat>)
    requires forall k :: 0 <= k < |values| ==> values[k] < LIMIT
    ensures |HexFields(values)| == 8 * |values| && Fields(HexFields(values)) == Some(values)
  {
    if values != [] {
      Hex8RoundTrip(values[0]);
      FieldsOfPrinted(values[1..]);
      FieldsThen(HexFields(values), Hex8(values[0]), HexFields(values[1..]), values[0], values[1..]);
      assert [values[0]] + values[1..] == values;
    }
  }

  lemma HeaderOfPrinted(values: seq<nat>, header: Bytes)
    requires |values| == 13 && forall k :: 0 <= k < 13 ==> values[k] < LIMIT
    requires header == [48, 55, 48, 55, 48, 49] + HexFields(values)
    ensures |header| == 110 && Magic(header[..6]) &&
            HeaderOf(header[6..]) == Some(Header(values[1], values[6], values[11]))
  {
    FieldsOfPrinted(values);
    assert header[..6] == [48, 55, 48, 55, 48, 49] && header[6..] == HexFields(values);
  }

  predicate Fits(name: string, data: Bytes, mode: nat, inode: nat, codec: Codec) {
    mode < LIMIT && inode < LIMIT && |data| < LIMIT && |codec.encode(name)| + 1 < LIMIT
  }

  lemma PrintedIsMember(name: string, data: Bytes, mode: nat, inode: nat, codec: Codec)
    requires Fits(name, data, mode, inode, codec) && codec.decode(codec.encode(name)) == Some(name)
    ensures IsMember(PrintRecord(name, data, mode, inode, codec), name, Node(mode, data), codec)
  {
    var encoded := codec.encode(name) + [0];
    var values := [inode, mode, 0, 0, 1, 0, |data|, 0, 0, 0, 0, |encoded|, 0];
    var header := [48, 55, 48, 55, 48, 49] + HexFields(values);
    HeaderOfPrinted(values, header);
    var head := Pad4(header + encoded);
    var b := PrintRecord(name, data, mode, inode, codec);
    RecordSizes(header, encoded, data, head, b);
    DataAfter(head, data, b);
    RecordHeader(header, encoded, head, b);
    RecordName(header, encoded, head, b);
    assert encoded[..|encoded| - 1] == codec.encode(name);
  }

  lemma PadParts(front: Bytes, padded: Bytes)
    requires padded == Pad4(front)
    ensures |padded| == Align(|front|) && padded[..|front|] == front
  {
  }

  lemma FrontParts(header: Bytes, encoded: Bytes, head: Bytes)
    requires |header| == 110 && |encoded| > 0 && 110 + |encoded| <= |head| &&
             head[..110 + |encoded|] == header + encoded
    ensures head[..110] == header && head[..6] == header[..6] && head[110..110 + |encoded|] == encoded
    ensures head[110..110 + |encoded| - 1] == encoded[..|encoded| - 1] &&
            head[110 + |encoded| - 1] == encoded[|encoded| - 1]
  {
    var front := head[..110 + |encoded|];
    assert front[..110] == head[..110] && front[110..110 + |encoded|] == head[110..110 + |encoded|];
    assert (header + encoded)[..110] == header && (header + encoded)[110..] == encoded;
    assert header[..6] == head[..6];
    assert encoded[..|encoded| - 1] == head[110..110 + |encoded|][..|encoded| - 1];
  }

  lemma KeepsFront(head: Bytes, b: Bytes, from: nat, to: nat)
    requires |head| <= |b| && b[..|head|] == head && from <= to <= |head|
    ensures b[from..to] == head[from..to]
  {
    assert b[..|head|][from..to] == b[from..to];
  }

  lemma RecordSizes(header: Bytes, encoded: Bytes, data: Bytes, head: Bytes, b: Bytes)
    requires |header| == 110 && |encoded| > 0 && head == Pad4(header + encoded) && b == Pad4(head + data)
    ensures |head| == Align(110 + |encoded|) && |b| == Align(|head| + |data|)
    ensures head[..110 + |encoded|] == header + encoded && b[..|head| + |data|] == head + data
  {
    PadParts(header + encoded, head);
    PadParts(head + data, b);
  }

  lemma RecordHeader(header: Bytes, encoded: Bytes, head: Bytes, b: Bytes)
    requires |header| == 110 && |encoded| > 0 && 110 + |encoded| <= |head| <= |b| &&
             head[..110 + |encoded|] == header + encoded
    requires b[..|head|] == head
    ensures b[6..110] == header[6..] && b[..6] == header[..6]
  {
    FrontParts(header, encoded, head);
    KeepsFront(head, b, 6, 110);
    KeepsFront(head, b, 0, 6);
    assert head[6..110] == header[6..];
  }

  lemma RecordName(header: Bytes, encoded: Bytes, head: Bytes, b: Bytes)
    requires |header| == 110 && |encoded| > 0 && 110 + |encoded| <= |head| <= |b| &&
             head[..110 + |encoded|] == header + encoded
    requires b[..|head|] == head
    ensures b[110..110 + |encoded| - 1] == encoded[..|encoded| - 1] && b[110 + |encoded| - 1] == encoded[|encoded| - 1]
  {
    FrontParts(header, encoded, head);
    KeepsFront(head, b, 110, 110 + |encoded| - 1);
    assert b[..|head|][110 + |encoded| - 1] == head[110 + |encoded| - 1];
  }

  lemma DataAfter(head: Bytes, data: Bytes, b: Bytes)
    requires |head| + |data| <= |b| && b[..|head| + |data|] == head + data
    ensures b[..|head|] == head && b[|head|..|head| + |data|] == data
  {
    assert b[..|head| + |data|][..|head|] == b[..|head|];
    assert b[..|head| + |data|][|head|..] == b[|head|..|head| + |data|];
  }

  // ----- the overlay -------------------------------------------------------------

  /** The overlay's records in the given order, numbered from 1, then the trailer. */
  function OverlayPieces(order: seq<string>, overlay: Files, codec: Codec): (ps: seq<Piece>)
    requires forall i :: 0 <= i < |order| ==> order[i] in overlay
    ensures |ps| == |order| + 1
  {
    seq(|order|, i requires 0 <= i < |order| =>
      var node := overlay[order[i]];
      Record(PrintRecord(order[i], node.data, node.mode, i + 1, codec), order[i], node)) +
    [Record(PrintRecord(TRAILER, [], 0, |overlay| + 1, codec), TRAILER, Node(0, []))]
  }

  /** The whole printed archive, padded with zeros to a multiple of 512. */
  function Cpio(order: seq<string>, overlay: Files, codec: Codec): Bytes
    requires forall i :: 0 <= i < |order| ==> order[i] in overlay
  {
    var records := Archive(OverlayPieces(order, overlay, codec));
    records + Zeros(PadCount(records))
  }

  /** `-len(records) % 512`. */
  function PadCount(records: Bytes): nat {
    (512 - |records| % 512) % 512
  }

  predicate Enumerates(order: seq<string>, names: set<string>) {
    && (forall i :: 0 <= i < |order| ==> order[i] in names)
    && (forall name :: name in names ==> name in order)
    && (forall i, j :: 0 <= i < j < |order| ==> order[i] != order[j])
  }

  /** Names the reader stores unchanged. */
  predicate StoredAsIs(name: string) {
    name != TRAILER && RemovePrefix(name) == name
  }

  predicate OverlayFits(overlay: Files, codec: Codec) {
    && |overlay| + 1 < LIMIT && Fits(TRAILER, [], 0, |overlay| + 1, codec)
    && forall name :: name in overlay ==>
         StoredAsIs(name) && Fits(name, overlay[name].data, overlay[name].mode, |overlay|, codec)
  }

  lemma {:induction false} EnumerationLength(order: seq<string>, keys: set<string>)
    requires forall i :: 0 <= i < |order| ==> order[i] in keys
    requires forall i, j :: 0 <= i < j < |order| ==> order[i] != order[j]
    ensures |order| <= |keys|
    decreases order
  {
    if order != [] {
      EnumerationLength(order[1..], keys - {order[0]});
    }
  }

  lemma OverlayIsGood(order: seq<string>, overlay: Files, codec: Codec)
    requires Enumerates(order, overlay.Keys) && OverlayFits(overlay, codec) && codec.Lawful()
    ensures GoodPieces(OverlayPieces(order, overlay, codec), codec)
  {
    EnumerationLength(order, overlay.Keys);
    assert |overlay.Keys| == |overlay|;
    var ps := OverlayPieces(order, overlay, codec);
    forall i | 0 <= i < |ps| ensures GoodPiece(ps[i], codec) {
      if i < |order| {
        var node := overlay[order[i]];
        PrintedIsMember(order[i], node.data, node.mode, i + 1, codec);
      } else {
        PrintedIsMember(TRAILER, [], 0, |overlay| + 1, codec);
      }
    }
  }

  /** Storing records under distinct names overrides exactly those names. */
  lemma {:induction false} OverlayMeaning(ps: seq<Piece>, overlay: Files, before: Files)
    requires forall i :: 0 <= i < |ps| ==> OverlayPiece(ps[i], overlay)
    ensures forall name :: name in Meaning(ps, before) <==> name in before || Writes(ps, name)
    ensures forall name :: name in Meaning(ps, before) ==>
              if Writes(ps, name) then name in overlay && Meaning(ps, before)[name] == overlay[name]
              else Meaning(ps, before)[name] == before[name]
    decreases ps
  {
    if ps != [] {
      var next := StorePiece(before, ps[0]);
      OverlayMeaning(ps[1..], overlay, next);
      assert Meaning(ps, before) == Meaning(ps[1..], next);
      forall name ensures Writes(ps, name) <==> Writes(ps[1..], name) || (name == ps[0].name && name != TRAILER) {
        if Writes(ps[1..], name) {
          var i :| 0 <= i < |ps[1..]| && ps[1..][i].Record? && ps[1..][i].name == name;
          assert ps[i + 1].name == name;
        }
      }
    }
  }

  /** Some record of `ps` is stored under `name`. */
  predicate Writes(ps: seq<Piece>, name: string) {
    name != TRAILER && exists i :: 0 <= i < |ps| && ps[i].Record? && ps[i].name == name
  }

  predicate OverlayPiece(p: Piece, overlay: Files) {
    p.Record? && (p.name == TRAILER || (StoredAsIs(p.name) && p.name in overlay && p.node == overlay[p.name]))
  }

  lemma Overridden(m: Files, before: Files, overlay: Files)
    requires forall name :: name in m <==> name in before || name in overlay
    requires forall name :: name in m ==> m[name] == if name in overlay then overlay[name] else before[name]
    ensures m == before + overlay
  {
  }

  lemma OverlayOverrides(order: seq<string>, overlay: Files, before: Files, codec: Codec)
    requires Enumerates(order, overlay.Keys) && forall name :: name in overlay ==> StoredAsIs(name)
    ensures Meaning(OverlayPieces(order, overlay, codec), before) == before + overlay
  {
    var ps := OverlayPieces(order, overlay, codec);
    OverlayPiecesWrite(ps, order, overlay, codec);
    PiecesOverride(ps, overlay, before);
  }

  lemma PiecesOverride(ps: seq<Piece>, overlay: Files, before: Files)
    requires forall i :: 0 <= i < |ps| ==> OverlayPiece(ps[i], overlay)
    requires forall name :: Writes(ps, name) <==> name in overlay
    ensures Meaning(ps, before) == before + overlay
  {
    OverlayMeaning(ps, overlay, before);
    Overridden(Meaning(ps, before), before, overlay);
  }

  lemma OverlayPiecesWrite(ps: seq<Piece>, order: seq<string>, overlay: Files, codec: Codec)
    requires Enumerates(order, overlay.Keys) && forall name :: name in overlay ==> StoredAsIs(name)
    requires ps == OverlayPieces(order, overlay, codec)
    ensures forall i :: 0 <= i < |ps| ==> OverlayPiece(ps[i], overlay)
    ensures forall name :: Writes(ps, name) <==> name in overlay
  {
    forall name ensures Writes(ps, name) <==> name in overlay {
      if name in overlay {
        var i :| 0 <= i < |order| && order[i] == name;
        assert ps[i].name == name;
      }
    }
  }

  /**
   * Reading any archive of members and aligned padding, followed by the printed overlay, gives the original
   * files overridden at exactly the overlay's names with exactly its modes and bytes.
   */
  lemma OverlayTheorem(original: seq<Piece>, order: seq<string>, overlay: Files, codec: Codec)
    requires GoodPieces(original, codec) && codec.Lawful()
    requires Enumerates(order, overlay.Keys) && OverlayFits(overlay, codec)
    ensures ReadFrom(Archive(original) + Cpio(order, overlay, codec), 0, map[], codec) ==
            Ok(Meaning(original, map[]) + overlay)
  {
    var ps := OverlayPieces(order, overlay, codec);
    OverlayIsGood(order, overlay, codec);
    OverlayOverrides(order, overlay, Meaning(original, map[]), codec);
    var pad := PadCount(Archive(ps));
    PadIsAligned(ps, codec);
    ReadThreeParts(original, ps, pad, Archive(original) + (Archive(ps) + Zeros(pad)), codec);
  }

  lemma PiecesAreAligned(ps: seq<Piece>, codec: Codec)
    requires GoodPieces(ps, codec)
    ensures |Archive(ps)| % 4 == 0
  {
    forall i | 0 <= i < |ps| ensures |Render(ps[i])| % 4 == 0 {
      PieceIsAligned(ps[i], codec);
    }
    AlignedArchive(ps);
  }

  lemma PadIsAligned(ps: seq<Piece>, codec: Codec)
    requires GoodPieces(ps, codec)
    ensures PadCount(Archive(ps)) % 4 == 0
  {
    PiecesAreAligned(ps, codec);
    PadKeepsAlignment(|Archive(ps)|);
  }

  lemma PadKeepsAlignment(n: nat)
    requires n % 4 == 0
    ensures (512 - n % 512) % 512 % 4 == 0
  {
    var q := n / 512;
    assert n % 512 == n - 4 * (128 * q);
    QuarterOf(n % 512, n / 4 - 128 * q);
  }

  lemma QuarterOf(r: nat, k: int)
    requires r < 512 && r == 4 * k
    ensures (512 - r) % 512 % 4 == 0
  {
    if r > 0 {
      assert 512 - r == 4 * (128 - k);
    }
  }

  lemma ReadThreeParts(x: seq<Piece>, y: seq<Piece>, pad: nat, a: Bytes, codec: Codec)
    requires GoodPieces(x, codec) && GoodPieces(y, codec) && pad % 4 == 0
    requires a == Archive(x) + (Archive(y) + Zeros(pad))
    ensures ReadFrom(a, 0, map[], codec) == Ok(Meaning(y, Meaning(x, map[])))
  {
    var z := [Padding(pad)];
    assert z[1..] == [];
    assert Archive(z) == Zeros(pad);
    ArchiveAppend(y, z);
    ArchiveAppend(x, y + z);
    MeaningAppend(y, z, Meaning(x, map[]));
    MeaningAppend(x, y + z, map[]);
    var all := x + (y + z);
    assert a == [] + Archive(all);
    ReadPieces([], all, a, map[], Meaning(y, Meaning(x, map[])), codec);
  }
}

/** The newc CPIO printer and parser of `scripts/extract_desktop_runtime.py`. */
module Cpio {
  import opened Basics
  import opened Bytes
  import opened PathIndex
  import opened Payload
  import opened Streams
  import opened Frames

  const HEADER: nat := 110
  const MAX_NAME: nat := 16 * 1024

  // "070701" and "070702"
  const NEWC: Bytes := [48, 55, 48, 55, 48, 49]
  const NEWC_CRC: Bytes := [48, 55, 48, 55, 48, 50]

  // "TRAILER!!!"
  const TRAILER: Bytes := [84, 82, 65, 73, 76, 69, 82, 33, 33, 33]

  // ------------------------------------------------------------ hex numbers

  predicate IsHex(b: Byte) {
    48 <= b <= 57 || 97 <= b <= 102
  }

  function HexValue(b: Byte): (v: nat)
    requires IsHex(b)
    ensures v < 16
  {
    if b <= 57 then b - 48 else b - 87
  }

  function HexDigit(v: nat): (b: Byte)
    requires v < 16
    ensures IsHex(b) && HexValue(b) == v
  {
    if v < 10 then 48 + v else 87 + v
  }

  predicate AllHex(s: Bytes) {
    forall i | 0 <= i < |s| :: IsHex(s[i])
  }

  /** Python's `int(text, 16)` of lower-case digits. */
  function Number(s: Bytes): nat
    requires AllHex(s)
  {
    if s == [] then 0 else 16 * Number(s[..|s| - 1]) + HexValue(s[|s| - 1])
  }

  /** The `width` low hex digits of a number, zero padded. */
  function Digits(v: nat, width: nat): (s: Bytes)
    ensures |s| == width && AllHex(s)
  {
    if width == 0 then [] else Digits(v / 16, width - 1) + [HexDigit(v % 16)]
  }

  function Power16(n: nat): (p: nat)
    ensures p > 0
  {
    if n == 0 then 1 else 16 * Power16(n - 1)
  }

  lemma {:induction false} NumberOfDigits(v: nat, width: nat)
    requires v < Power16(width)
    ensures Number(Digits(v, width)) == v
  {
    if width > 0 {
      NumberOfDigits(v / 16, width - 1);
      assert Digits(v, width)[..width - 1] == Digits(v / 16, width - 1);
    }
  }

  lemma {:induction false} WordDigits(v: nat)
    requires v < WORD
    ensures Number(Digits(v, 8)) == v
  {
    assert Power16(4) == 0x1_0000 && Power16(8) == WORD;
    NumberOfDigits(v, 8);
  }

  // ----------------------------------------------------------------- headers

  /** The thirteen numeric fields of a header, in order. */
  datatype Fields = Fields(inode: nat, mode: nat, uid: nat, gid: nat, nlink: nat, mtime: nat, size: nat,
                           devMajor: nat, devMinor: nat, rdevMajor: nat, rdevMinor: nat, nameSize: nat,
                           checksum: nat)

  datatype Header = Header(withCrc: bool, fields: Fields)

  function Field(h: Bytes, i: nat): Bytes
    requires |h| == HEADER && i < 13
  {
    h[6 + 8 * i..14 + 8 * i]
  }

  function FieldsOf(h: Bytes): Fields
    requires |h| == HEADER && AllHex(h[6..])
  {
    assert forall i: nat | i < 13 :: Field(h, i) == h[6..][8 * i..8 * i + 8];
    Fields(Number(Field(h, 0)), Number(Field(h, 1)), Number(Field(h, 2)), Number(Field(h, 3)), Number(Field(h, 4)),
           Number(Field(h, 5)), Number(Field(h, 6)), Number(Field(h, 7)), Number(Field(h, 8)), Number(Field(h, 9)),
           Number(Field(h, 10)), Number(Field(h, 11)), Number(Field(h, 12)))
  }

  /** The header checks that need no context. */
  function ParseHeader(h: Bytes): Option<Header>
    requires |h| == HEADER
  {
    if (h[..6] != NEWC && h[..6] != NEWC_CRC) || !AllHex(h[6..]) then None
    else
      var f := FieldsOf(h);
      if h[..6] == NEWC && f.checksum != 0 then None
      else if f.nameSize <= 1 || f.nameSize > MAX_NAME then None
      else Some(Header(h[..6] == NEWC_CRC, f))
  }

  /** A NUL-terminated name of UTF-8 text without inner NULs. */
  predicate LegalName(utf8: Bytes -> bool, raw: Bytes) {
    raw != [] && raw[|raw| - 1] == 0 && 0 !in raw[..|raw| - 1] && utf8(raw[..|raw| - 1])
  }

  predicate CanonicalTrailer(f: Fields) {
    f.inode == 0 && f.mode == 0 && f.uid == 0 && f.gid == 0 && f.nlink == 1 && f.size == 0 &&
    f.devMajor == 0 && f.devMinor == 0 && f.rdevMajor == 0 && f.rdevMinor == 0 && f.checksum == 0
  }

  function EntryOf(f: Fields, name: Bytes): Entry {
    Entry(name, f.mode, f.size, f.nlink, f.uid, f.gid)
  }

  /** The stream may end right after the trailer, or be zero up to a block. */
  predicate EndsAt(rest: Bytes, count: nat) {
    AllZero(rest) && (|rest| == 0 || |rest| == BlockPadding(count))
  }

  // ------------------------------------------------------------------ parser

  /** Where a header's name and padding end. */
  function BodyAt(f: Fields): (n: nat)
    ensures n % 4 == 0 && n >= HEADER + f.nameSize
  {
    HEADER + f.nameSize + PaddingFor(HEADER + f.nameSize)
  }

  function NextAt(f: Fields): (n: nat)
    ensures n % 4 == 0 && n >= BodyAt(f) + f.size
  {
    BodyAt(f) + f.size + PaddingFor(f.size)
  }

  /** A header whose name has been read: the trailer, or a member with data. */
  function NamedFrame(h: Header, name: Bytes, s: Bytes, count: nat): Frame<Option<bool>>
    requires BodyAt(h.fields) <= |s|
  {
    var f := h.fields;
    if name == TRAILER then
      if CanonicalTrailer(f) && EndsAt(s[BodyAt(f)..], count + BodyAt(f)) then End else Reject
    else if |s| < NextAt(f) then Reject
    else
      var data := s[BodyAt(f)..BodyAt(f) + f.size];
      if h.withCrc && Sum(data) % WORD != f.checksum then Reject
          else Next(EntryOf(f, name), data, NextAt(f), Some(h.withCrc))
  }

  /** The header of a stream and the name behind it; the archive's kind is
      known after its first header. */
  function NamedHeader(utf8: Bytes -> bool, s: Bytes, kind: Option<bool>): (named: Option<(Header, Bytes)>)
    ensures named.Some? ==> BodyAt(named.value.0.fields) <= |s|
  {
    if |s| < HEADER || ParseHeader(s[..HEADER]).None? then None
    else
      var h := ParseHeader(s[..HEADER]).value;
      if kind == Some(!h.withCrc) || |s| < BodyAt(h.fields) then None
      else
        var raw := s[HEADER..HEADER + h.fields.nameSize];
        if LegalName(utf8, raw) then Some((h, raw[..|raw| - 1])) else None
  }

  /** One turn of the parser's loop up to `inspect`, `count` bytes into the
      stream. */
  function NextFrame(utf8: Bytes -> bool, s: Bytes, count: nat, kind: Option<bool>): (frame: Frame<Option<bool>>)
    ensures frame.Next? ==> HEADER <= frame.size <= |s| && frame.size % 4 == 0
    ensures !frame.Skip?
  {
    match NamedHeader(utf8, s, kind)
    case None => Reject
    case Some((h, name)) => NamedFrame(h, name, s, count)
  }

  function CpioFramer(utf8: Bytes -> bool): Framer<Option<bool>> {
    (s: Bytes, count: nat, kind: Option<bool>) => NextFrame(utf8, s, count, kind)
  }

  /** `extract_cpio_payload` on a whole payload. */
  function Parse(layout: Layout, utf8: Bytes -> bool, s: Bytes): Option<Progress> {
    Loop(CpioFramer(utf8), TakerOf(layout), s, 0, None, START)
  }

  predicate FourAligned(n: nat) {
    n % 4 == 0
  }

  lemma {:induction false} SumAligned(a: nat, b: nat)
    requires b % 4 == 0
    ensures FourAligned(a) ==> FourAligned(a + b)
  {}

  lemma {:induction false} FrameAligned(utf8: Bytes -> bool, s: Bytes, count: nat, kind: Option<bool>)
    ensures KeepsAligned(CpioFramer(utf8), FourAligned, s, count, kind)
  {
    var frame := NextFrame(utf8, s, count, kind);
    assert CpioFramer(utf8)(s, count, kind) == frame && !frame.Skip?;
    if frame.Next? {
      assert frame.size % 4 == 0;
      SumAligned(count, frame.size);
    }
  }

  /** Every CPIO header starts at a multiple of four. */
  lemma {:induction false} HeadersAligned(utf8: Bytes -> bool, s: Bytes)
    ensures forall at | at in Offsets(CpioFramer(utf8), s, 0, None) :: at % 4 == 0
  {
    forall t, n, j { FrameAligned(utf8, t, n, j); }
    OffsetsAligned(CpioFramer(utf8), FourAligned, s, 0, None);
    assert forall at | at in Offsets(CpioFramer(utf8), s, 0, None) :: FourAligned(at);
  }

  // ----------------------------------------------------------------- printer

  /** One call of `cpio_entry` with the default magic. */
  datatype Record = Record(name: Bytes, data: Bytes, mode: nat, inode: nat, uid: nat, gid: nat, nlink: nat)

  function FieldsFor(r: Record): Fields {
    Fields(r.inode, r.mode, r.uid, r.gid, r.nlink, 0, |r.data|, 0, 0, 0, 0, |r.name| + 1, 0)
  }

  function PrintFields(f: Fields): (s: Bytes)
    ensures |s| == 104 && AllHex(s)
  {
    Digits(f.inode, 8) + Digits(f.mode, 8) + Digits(f.uid, 8) + Digits(f.gid, 8) + Digits(f.nlink, 8) +
        Digits(f.mtime, 8) +
    Digits(f.size, 8) + Digits(f.devMajor, 8) + Digits(f.devMinor, 8) + Digits(f.rdevMajor, 8) +
        Digits(f.rdevMinor, 8) +
    Digits(f.nameSize, 8) + Digits(f.checksum, 8)
  }

  /** `cpio_entry`. */
  function PrintEntry(r: Record): Bytes {
    NEWC + PrintFields(FieldsFor(r)) + (r.name + [0]) + Zeros(PaddingFor(HEADER + |r.name| + 1)) + r.data +
        Zeros(PaddingFor(|r.data|))
  }

  const TRAILER_RECORD: Record := Record(TRAILER, [], 0, 0, 0, 0, 1)

  function PrintAll(rs: seq<Record>): Bytes {
    Concat(Pieces(rs))
  }

  function Pieces(rs: seq<Record>): seq<Bytes> {
    seq(|rs|, i requires 0 <= i < |rs| => PrintEntry(rs[i]))
  }

  /** The archive up to and including its trailer. */
  function PrintUnpadded(rs: seq<Record>): Bytes {
    PrintAll(rs) + PrintEntry(TRAILER_RECORD)
  }

  /** `cpio_archive`. */
  function PrintArchive(rs: seq<Record>): Bytes {
    PrintUnpadded(rs) + Zeros(BlockPadding(|PrintUnpadded(rs)|))
  }

  // -------------------------------------------------------------- round trip

  predicate FieldsFit(f: Fields) {
    f.inode < WORD && f.mode < WORD && f.uid < WORD && f.gid < WORD && f.nlink < WORD && f.mtime < WORD &&
        f.size < WORD &&
    f.devMajor < WORD && f.devMinor < WORD && f.rdevMajor < WORD && f.rdevMinor < WORD && f.nameSize < WORD &&
        f.checksum < WORD
  }

  predicate Printable(utf8: Bytes -> bool, r: Record) {
    FieldsFit(FieldsFor(r)) && r.name != [] && 0 !in r.name && utf8(r.name) && |r.name| < MAX_NAME
  }

  lemma {:induction false} PrintedField(f: Fields, i: nat)
    requires i < 13
    ensures PrintFields(f)[8 * i..8 * i + 8] ==
            Digits(Listed(f)[i], 8)
  {}

  function Listed(f: Fields): (s: seq<nat>)
    ensures |s| == 13
  {
    [f.inode, f.mode, f.uid, f.gid, f.nlink, f.mtime, f.size, f.devMajor, f.devMinor, f.rdevMajor, f.rdevMinor,
        f.nameSize, f.checksum]
  }

  lemma {:induction false} FieldReads(f: Fields, h: Bytes, i: nat)
    requires FieldsFit(f) && |h| == HEADER && h[6..] == PrintFields(f) && i < 13
    ensures AllHex(Field(h, i)) && Number(Field(h, i)) == Listed(f)[i]
  {
    PrintedField(f, i);
    assert Field(h, i) == h[6..][8 * i..8 * i + 8];
    WordDigits(Listed(f)[i]);
  }

  lemma {:induction false} FieldsRoundTrip(f: Fields, h: Bytes)
    requires FieldsFit(f) && |h| == HEADER && h[6..] == PrintFields(f)
    ensures AllHex(h[6..]) && FieldsOf(h) == f
  {
    FieldReads(f, h, 0); FieldReads(f, h, 1); FieldReads(f, h, 2); FieldReads(f, h, 3); FieldReads(f, h, 4);
        FieldReads(f, h, 5); FieldReads(f, h, 6);
    FieldReads(f, h, 7); FieldReads(f, h, 8); FieldReads(f, h, 9); FieldReads(f, h, 10); FieldReads(f, h, 11);
        FieldReads(f, h, 12);
    assert AllHex(PrintFields(f));
  }

  /** Everything a printed entry puts in front of its data. */
  function Front(r: Record): (s: Bytes)
    ensures |s| == BodyAt(FieldsFor(r))
  {
    NEWC + PrintFields(FieldsFor(r)) + (r.name + [0]) + Zeros(PaddingFor(HEADER + |r.name| + 1))
  }

  lemma {:induction false} EntryLayout(r: Record, t: Bytes)
    ensures PrintEntry(r) + t == Front(r) + (r.data + Zeros(PaddingFor(|r.data|)) + t)
    ensures |PrintEntry(r)| == NextAt(FieldsFor(r))
    ensures (PrintEntry(r) + t)[NextAt(FieldsFor(r))..] == t
  {}

  lemma {:induction false} FrontLayout(r: Record, rest: Bytes)
    ensures var s := Front(r) + rest;
            && s[..6] == NEWC && s[..HEADER][6..] == PrintFields(FieldsFor(r))
            && s[HEADER..HEADER + |r.name| + 1] == r.name + [0] && s[BodyAt(FieldsFor(r))..] == rest
  {
    var s := Front(r) + rest;
    var header := NEWC + PrintFields(FieldsFor(r));
    assert s[..HEADER] == header;
    assert s == header + ((r.name + [0]) + Zeros(PaddingFor(HEADER + |r.name| + 1)) + rest);
  }

  lemma {:induction false} HeaderRoundTrip(utf8: Bytes -> bool, r: Record, rest: Bytes)
    requires Printable(utf8, r)
    ensures ParseHeader((Front(r) + rest)[..HEADER]) == Some(Header(false, FieldsFor(r)))
  {
    FrontLayout(r, rest);
    var h := (Front(r) + rest)[..HEADER];
    assert h[..6] == NEWC;
    FieldsRoundTrip(FieldsFor(r), h);
  }

  /** A stream that starts with this header and name, whoever printed them. */
  lemma {:induction false} NamedStream(utf8: Bytes -> bool, s: Bytes, h: Header, name: Bytes, count: nat,
          kind: Option<bool>)
    requires |s| >= BodyAt(h.fields) && h.fields.nameSize == |name| + 1 && 0 !in name && utf8(name)
    requires ParseHeader(s[..HEADER]) == Some(h) && s[HEADER..HEADER + |name| + 1] == name + [0]
    ensures NextFrame(utf8, s, count, kind) ==
            if kind == Some(!h.withCrc) then Reject else NamedFrame(h, name, s, count)
  {
    var raw := name + [0];
    assert raw[..|raw| - 1] == name && LegalName(utf8, raw);
  }

  /** A printed entry is recognized in front of any stream: its header and
      name are read back, and its data follow. */
  lemma {:induction false} NameRoundTrip(utf8: Bytes -> bool, r: Record, t: Bytes, count: nat, kind: Option<bool>)
    requires Printable(utf8, r) && kind != Some(true)
    ensures var s := PrintEntry(r) + t;
            && BodyAt(FieldsFor(r)) <= |s| &&
                NextFrame(utf8, s, count, kind) == NamedFrame(Header(false, FieldsFor(r)), r.name, s, count)
            && s[BodyAt(FieldsFor(r))..] == r.data + Zeros(PaddingFor(|r.data|)) + t
  {
    EntryLayout(r, t);
    var rest := r.data + Zeros(PaddingFor(|r.data|)) + t;
    HeaderRoundTrip(utf8, r, rest);
    FrontLayout(r, rest);
    NamedStream(utf8, PrintEntry(r) + t, Header(false, FieldsFor(r)), r.name, count, kind);
  }

  predicate NotCrc(kind: Option<bool>) {
    kind != Some(true)
  }

  lemma {:induction false} EntryRoundTrip(utf8: Bytes -> bool, r: Record, t: Bytes, count: nat, kind: Option<bool>)
    requires Printable(utf8, r) && NotCrc(kind) && r.name != TRAILER
    ensures NextFrame(utf8, PrintEntry(r) + t, count, kind) == Next(EntryOf(FieldsFor(r), r.name), r.data,
            |PrintEntry(r)|, Some(false))
  {
    NameRoundTrip(utf8, r, t, count, kind);
    EntryLayout(r, t);
    var s := PrintEntry(r) + t;
    var at := BodyAt(FieldsFor(r));
    assert s[at..][..|r.data|] == r.data;
    assert s[at..at + |r.data|] == s[at..][..|r.data|];
  }

  lemma {:induction false} TrailerRoundTrip(utf8: Bytes -> bool, r: Record, t: Bytes, count: nat, kind: Option<bool>)
    requires Printable(utf8, r) && NotCrc(kind) && r.name == TRAILER && r.data == [] && CanonicalTrailer(FieldsFor(r))
    requires EndsAt(t, count + |PrintEntry(r)|)
    ensures NextFrame(utf8, PrintEntry(r) + t, count, kind).End?
  {
    NameRoundTrip(utf8, r, t, count, kind);
    EntryLayout(r, t);
    assert r.data + Zeros(PaddingFor(|r.data|)) + t == t;
  }

  /** Records that `cpio_entry` can print and that are not the trailer. */
  predicate AllPrintable(utf8: Bytes -> bool, rs: seq<Record>) {
    forall r | r in rs :: Printable(utf8, r) && r.name != TRAILER
  }

  function PrintedEntry(r: Record): (Entry, Bytes) {
    (EntryOf(FieldsFor(r), r.name), r.data)
  }

  function PrintedEntries(rs: seq<Record>): seq<(Entry, Bytes)> {
    seq(|rs|, i requires 0 <= i < |rs| => PrintedEntry(rs[i]))
  }

  lemma {:induction false} RecordPrints(utf8: Bytes -> bool, r: Record)
    requires Printable(utf8, r) && r.name != TRAILER
    ensures Prints(CpioFramer(utf8), PrintedEntry(r), PrintEntry(r), NotCrc)
  {
    forall t: Bytes, n: nat, j | NotCrc(j) ensures Recognizes(CpioFramer(utf8), PrintedEntry(r), PrintEntry(r), t, n,
        j, NotCrc) {
      EntryRoundTrip(utf8, r, t, n, j);
    }
  }

  predicate Ends(utf8: Bytes -> bool, r: Record) {
    Printable(utf8, r) && r.name == TRAILER && r.data == [] && CanonicalTrailer(FieldsFor(r))
  }

  lemma {:induction false} PrintedIsTaken<P>(taker: Taker<P>, p: P, utf8: Bytes -> bool, rs: seq<Record>, end: Record,
          tail: Bytes)
    requires AllPrintable(utf8, rs) && Ends(utf8, end) && EndsAt(tail, |PrintAll(rs)| + |PrintEntry(end)|)
    ensures Loop(CpioFramer(utf8), taker, PrintAll(rs) + (PrintEntry(end) + tail), 0, None, p) == TakeAll(taker, p,
            PrintedEntries(rs))
  {
    var last := PrintEntry(end) + tail;
    forall i | 0 <= i < |rs| ensures Prints(CpioFramer(utf8), PrintedEntries(rs)[i], Pieces(rs)[i], NotCrc) {
      assert rs[i] in rs;
      RecordPrints(utf8, rs[i]);
    }
    forall j | NotCrc(j) ensures CpioFramer(utf8)(last, 0 + |PrintAll(rs)|, j).End? {
      TrailerRoundTrip(utf8, end, tail, |PrintAll(rs)|, j);
    }
    LoopTakesPrinted(CpioFramer(utf8), taker, PrintedEntries(rs), Pieces(rs), last, 0, None, p, NotCrc);
  }

  lemma {:induction false} Regrouped(x: Bytes, y: Bytes, z: Bytes)
    ensures x + y + z == x + (y + z) && |x + y| == |x| + |y|
  {}

  lemma {:induction false} ParsesPrinted(layout: Layout, utf8: Bytes -> bool, rs: seq<Record>, tail: Bytes)
    requires AllPrintable(utf8, rs) && utf8(TRAILER) && EndsAt(tail, |PrintUnpadded(rs)|)
    ensures Parse(layout, utf8, PrintUnpadded(rs) + tail) == TakeAll(TakerOf(layout), START, PrintedEntries(rs))
  {
    Regrouped(PrintAll(rs), PrintEntry(TRAILER_RECORD), tail);
    PrintedIsTaken(TakerOf(layout), START, utf8, rs, TRAILER_RECORD, tail);
  }

  /** Round trip: for printable records, the archive that `cpio_archive` prints,
      and the same archive ending right after its trailer, is accepted exactly
      when `inspect` admits the records, and gives back their names, modes and
      bytes. */
  lemma {:induction false} ArchiveRoundTrip(layout: Layout, utf8: Bytes -> bool, rs: seq<Record>)
    requires AllPrintable(utf8, rs) && utf8(TRAILER)
    ensures Parse(layout, utf8, PrintArchive(rs)) == Parse(layout, utf8, PrintUnpadded(rs))
    ensures Parse(layout, utf8, PrintArchive(rs)).Some? <==>
            InspectAll(layout, EMPTY, Entries(PrintedEntries(rs))).Some?
    ensures Parse(layout, utf8, PrintArchive(rs)).Some? ==>
              |Parse(layout, utf8, PrintArchive(rs)).value.members| == |rs| &&
              forall i | 0 <= i < |rs| :: Parse(layout, utf8, PrintArchive(rs)).value.members[i] == Member(rs[i].name,
                  rs[i].mode, rs[i].data)
  {
    ParsesPrinted(layout, utf8, rs, Zeros(BlockPadding(|PrintUnpadded(rs)|)));
    ParsesPrinted(layout, utf8, rs, []);
    assert PrintUnpadded(rs) + [] == PrintUnpadded(rs);
    TakesWhatIsInspected(layout, PrintedEntries(rs));
    MembersAt(PrintedEntries(rs));
  }

  // ----------------------------------------------------------- on the stream

  method ReadHeader(source: Source) returns (header: Option<Header>)
    modifies source
    ensures header.Some? <==> |old(source.rest)| >= HEADER && ParseHeader(old(source.rest)[..HEADER]).Some?
    ensures header.Some? ==>
            header == ParseHeader(old(source.rest)[..HEADER]) &&
            Consumed(source, old(source.rest), old(source.count), HEADER)
  {
    var raw := ReadExact(source, HEADER);
    return if raw.None? then None else ParseHeader(raw.value);
  }

  /** Reads a name and discards the padding behind it. */
  method ReadName(source: Source, utf8: Bytes -> bool, n: nat) returns (name: Option<Bytes>)
    modifies source
    ensures name.Some? <==> n + PaddingFor(HEADER + n) <= |old(source.rest)| && LegalName(utf8, old(source.rest)[..n])
    ensures name.Some? ==> name.value == old(source.rest)[..n - 1]
    ensures name.Some? ==> Consumed(source, old(source.rest), old(source.count), n + PaddingFor(HEADER + n))
  {
    var raw := ReadExact(source, n);
    if raw.None? || !LegalName(utf8, raw.value) { return None; }
    var padded := DiscardExact(source, PaddingFor(HEADER + n));
    return if padded then Some(raw.value[..n - 1]) else None;
  }

  /** A header followed by its name, read one after the other. */
  lemma {:induction false} NamedAfterHeader(utf8: Bytes -> bool, s: Bytes, kind: Option<bool>, h: Header)
    requires |s| >= HEADER && ParseHeader(s[..HEADER]) == Some(h) && kind != Some(!h.withCrc)
    ensures var n, rest := h.fields.nameSize, s[HEADER..];
            && NamedHeader(utf8, s, kind) ==
               (if n + PaddingFor(HEADER + n) <= |rest| && LegalName(utf8, rest[..n]) then Some((h, rest[..n - 1]))
                   else None)
            && (n + PaddingFor(HEADER + n) <= |rest| ==> rest[n + PaddingFor(HEADER + n)..] == s[BodyAt(h.fields)..])
  {
    var n, rest := h.fields.nameSize, s[HEADER..];
    if n <= |rest| {
      assert rest[..n] == s[HEADER..HEADER + n];
      assert n > 0 ==> rest[..n][..n - 1] == rest[..n - 1];
    }
  }

  /** Reads the name behind a header that was just read off `s`. */
  method ReadNameOf(source: Source, utf8: Bytes -> bool, kind: Option<bool>, h: Header, ghost s: Bytes,
          ghost count: nat)
    returns (named: Option<(Header, Bytes)>)
    requires |s| >= HEADER && ParseHeader(s[..HEADER]) == Some(h) && kind != Some(!h.withCrc) &&
             Consumed(source, s, count, HEADER)
    modifies source
    ensures named == NamedHeader(utf8, s, kind)
    ensures named.Some? ==> Consumed(source, s, count, BodyAt(named.value.0.fields))
  {
    NamedAfterHeader(utf8, s, kind, h);
    var name := ReadName(source, utf8, h.fields.nameSize);
    return if name.None? then None else Some((h, name.value));
  }

  /** Reads a header and its name. */
  method ReadNamed(source: Source, utf8: Bytes -> bool, kind: Option<bool>) returns (named: Option<(Header, Bytes)>)
    modifies source
    ensures named == NamedHeader(utf8, old(source.rest), kind)
    ensures named.Some? ==> Consumed(source, old(source.rest), old(source.count), BodyAt(named.value.0.fields))
  {
    ghost var s, count := source.rest, source.count;
    var header := ReadHeader(source);
    if header.None? || kind == Some(!header.value.withCrc) { return None; }
    named := ReadNameOf(source, utf8, kind, header.value, s, count);
  }

  /** The trailer ends the archive. */
  method FinishArchive(source: Source, h: Header) returns (ok: bool)
    modifies source
    ensures ok <==> CanonicalTrailer(h.fields) && EndsAt(old(source.rest), old(source.count))
  {
    if !CanonicalTrailer(h.fields) { return false; }
    var padding := BlockPadding(source.count);
    var size := DiscardZeroTail(source, padding);
    return size.Some? && (size.value == 0 || size.value == padding);
  }

  /** A member behind its header, with its checksum and padding. */
  method ExtractMember(source: Source, x: RuntimePayloadExtractor, h: Header, name: Bytes) returns (ok: bool)
    requires x.Valid()
    modifies source, x`files, x`entryCount, x`totalBytes, x`staged, x`members
    ensures var f, s := h.fields, old(source.rest);
            var padded := f.size + PaddingFor(f.size);
            && (ok <==> padded <= |s| && (h.withCrc ==> Sum(s[..f.size]) % WORD == f.checksum) &&
                        Take(x.layout, old(x.State()), EntryOf(f, name), s[..f.size]).Some?)
            && (ok ==> x.Valid() && Some(x.State()) == Take(x.layout, old(x.State()), EntryOf(f, name), s[..f.size]) &&
                       Consumed(source, s, old(source.count), padded))
  {
    var crc;
    ok, crc := TakeMember(source, x, EntryOf(h.fields, name), h.withCrc);
    if !ok || (h.withCrc && crc != h.fields.checksum) { return false; }
    ok := DiscardExact(source, PaddingFor(h.fields.size));
  }

  /** One turn, from progress `p` on stream `s` to progress `q` on `t`. */
  predicate Stepped(layout: Layout, frame: Frame<Option<bool>>, s: Bytes, count: nat, p: Progress,
                    turn: Turn<Option<bool>>, t: Bytes, n: nat, q: Progress) {
    match turn
    case Finished => frame.End? && q == p
    case Failed => frame.Reject? || (frame.Next? && Take(layout, p, frame.entry, frame.data).None?)
    case More(after) => frame.Next? && frame.after == after && Some(q) == Take(layout, p, frame.entry, frame.data) &&
                        0 < frame.size <= |s| && t == s[frame.size..] && n == count + frame.size
  }

  lemma {:induction false} SteppedIsTurn(layout: Layout, utf8: Bytes -> bool, s: Bytes, count: nat,
          kind: Option<bool>, p: Progress,
                      turn: Turn<Option<bool>>, t: Bytes, n: nat, q: Progress)
    requires Stepped(layout, NextFrame(utf8, s, count, kind), s, count, p, turn, t, n, q)
    ensures Turned(CpioFramer(utf8), TakerOf(layout), s, count, kind, p, turn, t, n, q)
  {}

  /** What follows a name: the end of the archive or a member. `s` is the
      stream as it was in front of the header. */
  method ExtractNamed(source: Source, x: RuntimePayloadExtractor, h: Header, name: Bytes, ghost s: Bytes,
          ghost count: nat)
    returns (turn: Turn<Option<bool>>)
    requires x.Valid() && Consumed(source, s, count, BodyAt(h.fields))
    modifies source, x`files, x`entryCount, x`totalBytes, x`staged, x`members
    ensures turn.More? ==> x.Valid()
    ensures Stepped(x.layout, NamedFrame(h, name, s, count), s, count, old(x.State()), turn, source.rest,
            source.count, x.State())
  {
    if name == TRAILER {
      var ended := FinishArchive(source, h);
      return if ended then Finished else Failed;
    }
    MemberFrame(h, name, s, count, source.rest);
    var taken := ExtractMember(source, x, h, name);
    return if taken then More(Some(h.withCrc)) else Failed;
  }

  /** One turn of the loop: a whole frame, or the end of the extraction. */
  method ExtractNext(source: Source, x: RuntimePayloadExtractor, utf8: Bytes -> bool,
          kind: Option<bool>) returns (turn: Turn<Option<bool>>)
    requires x.Valid()
    modifies source, x`files, x`entryCount, x`totalBytes, x`staged, x`members
    ensures turn.More? ==> x.Valid()
    ensures Stepped(x.layout, NextFrame(utf8, old(source.rest), old(source.count), kind), old(source.rest),
            old(source.count), old(x.State()),
                    turn, source.rest, source.count, x.State())
  {
    ghost var s, count := source.rest, source.count;
    var named := ReadNamed(source, utf8, kind);
    if named.None? { return Failed; }
    turn := ExtractNamed(source, x, named.value.0, named.value.1, s, count);
  }

  lemma {:induction false} MemberFrame(h: Header, name: Bytes, s: Bytes, count: nat, rest: Bytes)
    requires BodyAt(h.fields) <= |s| && rest == s[BodyAt(h.fields)..] && name != TRAILER
    ensures var f := h.fields;
            NamedFrame(h, name, s, count) ==
              if f.size + PaddingFor(f.size) <= |rest| && (h.withCrc ==> Sum(rest[..f.size]) % WORD == f.checksum)
              then Next(EntryOf(f, name), rest[..f.size], BodyAt(f) + (f.size + PaddingFor(f.size)), Some(h.withCrc))
                  else Reject
    ensures var n := h.fields.size + PaddingFor(h.fields.size); n <= |rest| ==> rest[n..] == s[BodyAt(h.fields) + n..]
  {
    var f := h.fields;
    if f.size <= |rest| { assert rest[..f.size] == s[BodyAt(f)..BodyAt(f) + f.size]; }
  }

  /** `extract_cpio_payload`: however the source splits its reads, the payload
      is accepted exactly when the parser accepts its bytes, and the extractor
      ends as the parser says. */
  method ExtractCpioPayload(source: Source, x: RuntimePayloadExtractor, utf8: Bytes -> bool) returns (ok: bool)
    requires x.Valid() && x.State() == START && source.count == 0
    modifies source, x`files, x`entryCount, x`totalBytes, x`staged, x`members
    ensures ok <==> Parse(x.layout, utf8, old(source.rest)).Some?
    ensures ok ==> Some(x.State()) == Parse(x.layout, utf8, old(source.rest))
  {
    var kind: Option<bool> := None;
    while true
      invariant x.Valid()
      invariant Loop(CpioFramer(utf8), TakerOf(x.layout), source.rest, source.count, kind,
                x.State()) == Parse(x.layout, utf8, old(source.rest))
      decreases |source.rest|
    {
      ghost var s, count, p := source.rest, source.count, x.State();
      var turn := ExtractNext(source, x, utf8, kind);
      SteppedIsTurn(x.layout, utf8, s, count, kind, p, turn, source.rest, source.count, x.State());
      TurnsLoop(CpioFramer(utf8), TakerOf(x.layout), s, count, kind, p, turn, source.rest, source.count, x.State());
      match turn
      case Failed => return false;
      case Finished => return true;
      case More(after) => kind := after;
    }
  }
}

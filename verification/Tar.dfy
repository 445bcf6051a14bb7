/** The ustar and GNU tar block parser of `scripts/extract_desktop_runtime.py`. */
module Tar {
  import opened Basics
  import opened Bytes
  import opened PathIndex
  import opened Payload
  import opened Streams
  import opened Frames

  const MAX_NAME: nat := 16 * 1024
  const MAX_TRAILING_PADDING: nat := 1024 * 1024

  const SPACE: Byte := 32

  // "ustar  \0", "ustar\0" with "00", and "././@LongLink"
  const GNU_MAGIC: Bytes := [117, 115, 116, 97, 114, 32, 32, 0]
  const USTAR_MAGIC: Bytes := [117, 115, 116, 97, 114, 0, 48, 48]
  const LONG_LINK: Bytes := [46, 47, 46, 47, 64, 76, 111, 110, 103, 76, 105, 110, 107]

  const REGULAR_BIT: nat := 0x8000
  const DIRECTORY_BIT: nat := 0x4000

  // ------------------------------------------------------------ header fields

  predicate Blank(b: Byte) {
    b == 0 || b == SPACE
  }

  /** Python's `strip(b"\\0 ")`. */
  function Strip(s: Bytes): Bytes {
    if s == [] then []
    else if Blank(s[0]) then Strip(s[1..])
    else if Blank(s[|s| - 1]) then Strip(s[..|s| - 1])
    else s
  }

  predicate AllOctal(s: Bytes) {
    forall i | 0 <= i < |s| :: 48 <= s[i] <= 55
  }

  function OctalValue(s: Bytes): nat
    requires AllOctal(s)
  {
    if s == [] then 0 else 8 * OctalValue(s[..|s| - 1]) + (s[|s| - 1] - 48)
  }

  /** `parse_tar_octal`: a set high bit would mean base 256. */
  function Octal(field: Bytes): Option<nat> {
    if field != [] && field[0] >= 128 then None
    else if Strip(field) == [] || !AllOctal(Strip(field)) then None
    else Some(OctalValue(Strip(field)))
  }

  function UpToNul(s: Bytes): Bytes {
    if s == [] || s[0] == 0 then [] else [s[0]] + UpToNul(s[1..])
  }

  /** `parse_tar_text`: nothing but NULs after the first NUL. */
  function Text(utf8: Bytes -> bool, field: Bytes): Option<Bytes> {
    var value := UpToNul(field);
    if |value| <= |field| && AllZero(field[|value|..]) && utf8(value) then Some(value) else None
  }

  function WithoutTrailingNuls(s: Bytes): Bytes {
    if s != [] && s[|s| - 1] == 0 then WithoutTrailingNuls(s[..|s| - 1]) else s
  }

  /** The header with its checksum field read as spaces. */
  predicate ChecksumOk(h: Bytes)
    requires |h| == BLOCK
  {
    Octal(h[148..156]) == Some(Sum(h[..148] + seq(8, _ => SPACE) + h[156..]))
  }

  /** `tar_member_name`. */
  function NameIn(utf8: Bytes -> bool, h: Bytes, gnu: bool): Option<Bytes>
    requires |h| == BLOCK
  {
    var name := Text(utf8, h[..100]);
    var prefix := if gnu then Some([]) else Text(utf8, h[345..500]);
    if name.None? || prefix.None? then None
    else
      var combined := if prefix.value != [] then prefix.value + [SLASH] + name.value else name.value;
      if combined == [] || |combined| > MAX_NAME then None else Some(combined)
  }

  /** Python's `mode | bit` for a single bit. */
  function WithBit(mode: nat, bit: nat): nat
    requires bit > 0
  {
    if mode / bit % 2 == 1 then mode else mode + bit
  }

  /** How far the archive is: zero blocks at its end, headers so far, and a GNU
      long name waiting for its entry. */
  datatype Progression = Progression(zeros: nat, headers: nat, longName: Option<Bytes>)

  const FIRST: Progression := Progression(0, 0, None)

  /** What a non-zero header block announces. */
  datatype Head = LongName(size: nat) | Payloaded(entry: Entry)

  function EntryIn(utf8: Bytes -> bool, h: Bytes, gnu: bool, size: nat, longName: Option<Bytes>): Option<Entry>
    requires |h| == BLOCK
  {
    var regular := h[156] == 0 || h[156] == 48;
    var name := if longName.Some? then longName else NameIn(utf8, h, gnu);
    var mode, uid, gid := Octal(h[100..108]), Octal(h[108..116]), Octal(h[116..124]);
    if !regular && h[156] != 53 then None
    else if name.None? || Text(utf8, h[157..257]) != Some([]) then None
    else if mode.None? || uid.None? || gid.None? || (!regular && size != 0) then None
    else Some(Entry(name.value, WithBit(mode.value, if regular then REGULAR_BIT else DIRECTORY_BIT), size,
                    if regular then 1 else 0, uid.value, gid.value))
  }

  /** The header checks, given a pending long name. */
  function HeadOf(utf8: Bytes -> bool, h: Bytes, longName: Option<Bytes>): (head: Option<Head>)
    ensures head.Some? && head.value.Payloaded? ==> head.value.entry.size >= 0
  {
    if |h| != BLOCK || !ChecksumOk(h) then None
    else
      var gnu, size := h[257..265] == GNU_MAGIC, Octal(h[124..136]);
      if (!gnu && h[257..265] != USTAR_MAGIC) || (gnu && !AllZero(h[345..])) || size.None? then None
      else if h[156] == 76 then
        if !gnu || longName.Some? || WithoutTrailingNuls(h[..100]) != LONG_LINK || !(1 < size.value <= MAX_NAME + 1)
            then None
        else Some(LongName(size.value))
      else if longName.Some? && !gnu then None
      else match EntryIn(utf8, h, gnu, size.value, longName)
           case None => None
           case Some(entry) => Some(Payloaded(entry))
  }

  // ------------------------------------------------------------------ parser

  /** The header checks as a value, so that the framing does not depend on them. */
  type Headers = (Bytes, Option<Bytes>) -> Option<Head>

  function Padded(size: nat): (n: nat)
    ensures n % BLOCK == 0 && n >= size
  {
    size + BlockPadding(size)
  }

  /** The text of a GNU long name. */
  function LongText(utf8: Bytes -> bool, raw: Bytes): Option<Bytes> {
    if raw == [] || raw[|raw| - 1] != 0 || 0 in raw[..|raw| - 1] then None else Text(utf8, raw)
  }

  /** A zero block: the second one must end the archive. */
  function ZeroFrame(s: Bytes, k: Progression): Frame<Progression>
    requires |s| >= BLOCK
  {
    if k.longName.Some? then Reject
    else if k.zeros == 0 then Skip(BLOCK, k.(zeros := 1))
    else if |s[BLOCK..]| <= MAX_TRAILING_PADDING && AllZero(s[BLOCK..]) && |s[BLOCK..]| % BLOCK == 0 then End
    else Reject
  }

  function HeadFrame(utf8: Bytes -> bool, head: Head, s: Bytes, k: Progression): (frame: Frame<Progression>)
    requires |s| >= BLOCK
    ensures frame.Next? || frame.Skip? ==> frame.size % BLOCK == 0
    ensures !frame.End?
  {
    match head
    case LongName(size) =>
      if |s| < BLOCK + Padded(size) then Reject
      else
        var text := LongText(utf8, s[BLOCK..BLOCK + size]);
        if text.None? then Reject else Skip(BLOCK + Padded(size), k.(headers := k.headers + 1, longName := text))
    case Payloaded(e) =>
      if e.size < 0 || |s| < BLOCK + Padded(e.size) then Reject
      else Next(e, s[BLOCK..BLOCK + e.size], BLOCK + Padded(e.size), k.(headers := k.headers + 1, longName := None))
  }

  function NextFrame(utf8: Bytes -> bool, headers: Headers, s: Bytes, k: Progression): (frame: Frame<Progression>)
    ensures frame.Next? || frame.Skip? ==> frame.size % BLOCK == 0
    ensures frame.End? ==> |s| >= BLOCK && (|s| - BLOCK) % BLOCK == 0
  {
    if |s| < BLOCK then Reject
    else if AllZero(s[..BLOCK]) then ZeroFrame(s, k)
    else if k.zeros != 0 || k.headers >= MAX_ENTRIES || headers(s[..BLOCK], k.longName).None? then Reject
    else HeadFrame(utf8, headers(s[..BLOCK], k.longName).value, s, k)
  }

  function TarFramer(utf8: Bytes -> bool, headers: Headers): Framer<Progression> {
    (s: Bytes, count: nat, k: Progression) => NextFrame(utf8, headers, s, k)
  }

  function HeadersOf(utf8: Bytes -> bool): Headers {
    (h, longName) => HeadOf(utf8, h, longName)
  }

  /** `extract_tar_payload` on a whole payload. */
  function Parse(layout: Layout, utf8: Bytes -> bool, s: Bytes): Option<Progress> {
    Loop(TarFramer(utf8, HeadersOf(utf8)), TakerOf(layout), s, 0, FIRST, START)
  }

  predicate BlockAligned(n: nat) {
    n % BLOCK == 0
  }

  lemma {:induction false} SumAligned(a: nat, b: nat)
    requires BlockAligned(a) && BlockAligned(b)
    ensures BlockAligned(a + b)
  {}

  lemma {:induction false} FrameAligned(utf8: Bytes -> bool, headers: Headers, s: Bytes, count: nat, k: Progression)
    ensures KeepsAligned(TarFramer(utf8, headers), BlockAligned, s, count, k)
    ensures EndsAligned(TarFramer(utf8, headers), BlockAligned, s, count, k)
  {
    var frame := NextFrame(utf8, headers, s, k);
    if BlockAligned(count) {
      if frame.Next? || frame.Skip? { SumAligned(count, frame.size); }
      if frame.End? { SumAligned(count, BLOCK); SumAligned(count + BLOCK, |s| - BLOCK); }
    }
  }

  lemma {:induction false} FramesAligned(utf8: Bytes -> bool, headers: Headers)
    ensures forall t, n, j :: KeepsAligned(TarFramer(utf8, headers), BlockAligned, t, n, j)
    ensures forall t, n, j :: EndsAligned(TarFramer(utf8, headers), BlockAligned, t, n, j)
  {
    forall t, n, j { FrameAligned(utf8, headers, t, n, j); }
  }

  /** Every tar header starts at a multiple of 512. */
  lemma {:induction false} HeadersAligned(utf8: Bytes -> bool, headers: Headers, s: Bytes)
    ensures forall at | at in Offsets(TarFramer(utf8, headers), s, 0, FIRST) :: at % BLOCK == 0
  {
    FramesAligned(utf8, headers);
    OffsetsAligned(TarFramer(utf8, headers), BlockAligned, s, 0, FIRST);
    assert forall at | at in Offsets(TarFramer(utf8, headers), s, 0, FIRST) :: BlockAligned(at);
  }

  lemma {:induction false} LoopAligned<P>(taker: Taker<P>, utf8: Bytes -> bool, headers: Headers, s: Bytes, p: P)
    requires Loop(TarFramer(utf8, headers), taker, s, 0, FIRST, p).Some?
    ensures |s| % BLOCK == 0
  {
    FramesAligned(utf8, headers);
    AcceptedAligned(TarFramer(utf8, headers), taker, BlockAligned, s, 0, FIRST, p);
    assert BlockAligned(0 + |s|);
  }

  /** An accepted tar payload is a whole number of blocks. */
  lemma {:induction false} AcceptedIsWhole(layout: Layout, utf8: Bytes -> bool, s: Bytes)
    requires Parse(layout, utf8, s).Some?
    ensures |s| % BLOCK == 0
  {
    LoopAligned(TakerOf(layout), utf8, HeadersOf(utf8), s, START);
  }

  // ----------------------------------------------------------- on the stream

  /** A GNU long name and the padding behind it. */
  method ReadLongName(source: Source, utf8: Bytes -> bool, size: nat) returns (text: Option<Bytes>)
    modifies source
    ensures text == if Padded(size) <= |old(source.rest)| then LongText(utf8, old(source.rest)[..size]) else None
    ensures text.Some? ==> Consumed(source, old(source.rest), old(source.count), Padded(size))
  {
    var raw := ReadExact(source, size);
    if raw.None? { return None; }
    text := LongText(utf8, raw.value);
    if text.None? { return; }
    var padded := DiscardExact(source, BlockPadding(size));
    if !padded { return None; }
  }

  /** An entry's payload and the padding behind it. */
  method ExtractPayload(source: Source, x: RuntimePayloadExtractor, e: Entry) returns (ok: bool)
    requires x.Valid() && e.size >= 0
    modifies source, x`files, x`entryCount, x`totalBytes, x`staged, x`members
    ensures var s := old(source.rest);
            && (ok <==> Padded(e.size) <= |s| && Take(x.layout, old(x.State()), e, s[..e.size]).Some?)
            && (ok ==> x.Valid() && Some(x.State()) == Take(x.layout, old(x.State()), e, s[..e.size]) &&
                       Consumed(source, s, old(source.count), Padded(e.size)))
  {
    var crc;
    ok, crc := TakeMember(source, x, e, false);
    if ok { ok := DiscardExact(source, BlockPadding(e.size)); }
  }

  /** A block of zeros: the first is passed over, the second ends the archive. */
  method ReadZeroBlock(source: Source, k: Progression, ghost s: Bytes) returns (turn: Turn<Progression>)
    requires |s| >= BLOCK && source.rest == s[BLOCK..]
    modifies source
    ensures match turn
            case Failed => ZeroFrame(s, k).Reject?
            case Finished => ZeroFrame(s, k).End?
            case More(after) =>
              ZeroFrame(s, k) == Skip(BLOCK, after) && source.rest == s[BLOCK..] && source.count == old(source.count)
  {
    if k.longName.Some? { return Failed; }
    if k.zeros == 0 { return More(k.(zeros := 1)); }
    var size := DiscardZeroTail(source, MAX_TRAILING_PADDING);
    return if size.Some? && size.value % BLOCK == 0 then Finished else Failed;
  }

  /** One turn, from progress `p` on stream `s` to progress `q` on `t`. */
  predicate Stepped(layout: Layout, frame: Frame<Progression>, s: Bytes, count: nat, p: Progress,
                    turn: Turn<Progression>, t: Bytes, n: nat, q: Progress) {
    match turn
    case Finished => frame.End? && q == p
    case Failed => frame.Reject? || (frame.Next? && Take(layout, p, frame.entry, frame.data).None?)
    case More(after) =>
      && (frame.Next? || frame.Skip?) && frame.after == after && 0 < frame.size <= |s|
      && t == s[frame.size..] && n == count + frame.size
      && if frame.Next? then Some(q) == Take(layout, p, frame.entry, frame.data) else q == p
  }

  lemma {:induction false} SteppedIsTurn(layout: Layout, utf8: Bytes -> bool, headers: Headers, s: Bytes, count: nat,
          k: Progression,
          p: Progress,
                      turn: Turn<Progression>, t: Bytes, n: nat, q: Progress)
    requires Stepped(layout, NextFrame(utf8, headers, s, k), s, count, p, turn, t, n, q)
    ensures Turned(TarFramer(utf8, headers), TakerOf(layout), s, count, k, p, turn, t, n, q)
  {}

  lemma {:induction false} BehindHeader(s: Bytes, size: nat)
    requires |s| >= BLOCK && Padded(size) <= |s[BLOCK..]|
    ensures s[BLOCK..][..size] == s[BLOCK..BLOCK + size] && s[BLOCK..][Padded(size)..] == s[BLOCK + Padded(size)..]
  {}

  /** What a header announces: a long name, or an entry with its payload. */
  method ExtractHead(source: Source, x: RuntimePayloadExtractor, utf8: Bytes -> bool, head: Head, k: Progression,
          ghost s: Bytes, ghost count: nat)
    returns (turn: Turn<Progression>)
    requires x.Valid() && Consumed(source, s, count, BLOCK)
    requires head.Payloaded? ==> head.entry.size >= 0
    modifies source, x`files, x`entryCount, x`totalBytes, x`staged, x`members
    ensures turn.More? ==> x.Valid()
    ensures Stepped(x.layout, HeadFrame(utf8, head, s, k), s, count, old(x.State()), turn, source.rest, source.count,
            x.State())
  {
    match head
    case LongName(size) =>
      if Padded(size) <= |s[BLOCK..]| { BehindHeader(s, size); }
      var text := ReadLongName(source, utf8, size);
      return if text.None? then Failed else More(k.(headers := k.headers + 1, longName := text));
    case Payloaded(e) =>
      if Padded(e.size) <= |s[BLOCK..]| { BehindHeader(s, e.size); }
      var ok := ExtractPayload(source, x, e);
      return if ok then More(k.(headers := k.headers + 1, longName := None)) else Failed;
  }

  ghost predicate SizesOk(headers: Headers) {
    forall h, longName :: headers(h, longName).Some? && headers(h, longName).value.Payloaded? ==>
        headers(h, longName).value.entry.size >= 0
  }

  method ExtractNext(source: Source, x: RuntimePayloadExtractor, utf8: Bytes -> bool, headers: Headers,
          k: Progression) returns (turn: Turn<Progression>)
    requires x.Valid() && SizesOk(headers)
    modifies source, x`files, x`entryCount, x`totalBytes, x`staged, x`members
    ensures turn.More? ==> x.Valid()
    ensures Stepped(x.layout, NextFrame(utf8, headers, old(source.rest), k), old(source.rest), old(source.count),
            old(x.State()),
                    turn, source.rest, source.count, x.State())
  {
    ghost var s, count := source.rest, source.count;
    var block := ReadExact(source, BLOCK);
    if block.None? { return Failed; }
    if AllZero(block.value) {
      turn := ReadZeroBlock(source, k, s);
      return;
    }
    if k.zeros != 0 || k.headers >= MAX_ENTRIES { return Failed; }
    var head := headers(block.value, k.longName);
    if head.None? { return Failed; }
    turn := ExtractHead(source, x, utf8, head.value, k, s, count);
  }

  /** The loop, for any way of checking headers. */
  method ExtractBlocks(source: Source, x: RuntimePayloadExtractor, utf8: Bytes -> bool,
          headers: Headers) returns (ok: bool)
    requires x.Valid() && SizesOk(headers)
    modifies source, x`files, x`entryCount, x`totalBytes, x`staged, x`members
    ensures var r := Loop(TarFramer(utf8, headers), TakerOf(x.layout), old(source.rest), old(source.count), FIRST,
            old(x.State()));
            (ok <==> r.Some?) && (ok ==> Some(x.State()) == r)
  {
    var k := FIRST;
    while true
      invariant x.Valid()
      invariant Loop(TarFramer(utf8, headers), TakerOf(x.layout), source.rest, source.count, k, x.State()) ==
                Loop(TarFramer(utf8, headers), TakerOf(x.layout), old(source.rest), old(source.count), FIRST,
                    old(x.State()))
      decreases |source.rest|
    {
      ghost var s, count, p := source.rest, source.count, x.State();
      var turn := ExtractNext(source, x, utf8, headers, k);
      SteppedIsTurn(x.layout, utf8, headers, s, count, k, p, turn, source.rest, source.count, x.State());
      TurnsLoop(TarFramer(utf8, headers), TakerOf(x.layout), s, count, k, p, turn, source.rest, source.count,
          x.State());
      match turn
      case Failed => return false;
      case Finished => return true;
      case More(after) => k := after;
    }
  }

  /** `extract_tar_payload`: however the source splits its reads, the payload is
      accepted exactly when the parser accepts its bytes, and the extractor
      ends as the parser says. */
  method ExtractTarPayload(source: Source, x: RuntimePayloadExtractor, utf8: Bytes -> bool) returns (ok: bool)
    requires x.Valid() && x.State() == START && source.count == 0
    modifies source, x`files, x`entryCount, x`totalBytes, x`staged, x`members
    ensures ok <==> Parse(x.layout, utf8, old(source.rest)).Some?
    ensures ok ==> Some(x.State()) == Parse(x.layout, utf8, old(source.rest))
  {
    ok := ExtractBlocks(source, x, utf8, HeadersOf(utf8));
  }
}

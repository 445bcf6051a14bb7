/** Printed tar archives, and the proof that the parser reads back what was
    printed: an archive of ustar and GNU entries, long names among them. */
module TarArchives {
  import opened Basics
  import opened Bytes
  import opened PathIndex
  import opened Payload
  import opened Frames
  import opened Tar
  import opened TarHeaders

  // ----------------------------------------------------------------- printer

  /** How a name is laid out: in the name field of either format, over the
      prefix and the name field of a ustar header, parted at a slash, or in
      front of the entry as a GNU long name. */
  datatype Naming = Whole | Split(at: nat) | GnuWhole | GnuLong

  /** What the parser does not look at: the modification time, the owners' names
      and device numbers, and the last bytes of a ustar header. */
  datatype Filler = Filler(mtime: Bytes, owners: Bytes, tail: Bytes)

  datatype Record = Record(naming: Naming, name: Bytes, flag: Byte, mode: nat, uid: nat, gid: nat, data: Bytes,
                           filler: Filler)

  predicate IsGnu(r: Record) { r.naming == GnuWhole || r.naming == GnuLong }

  function NameField(r: Record): Bytes {
    match r.naming
    case Split(at) => if at < |r.name| then r.name[at + 1..] else []
    case GnuLong => if |r.name| <= 100 then r.name else r.name[..100]
    case _ => r.name
  }

  function PrefixField(r: Record): Bytes {
    if r.naming.Split? && r.naming.at <= |r.name| then r.name[..r.naming.at] else []
  }

  predicate FillerFits(f: Filler) { |f.mtime| == 12 && |f.owners| == 80 && |f.tail| == 12 }

  /** What a header of this kind can say. */
  predicate Printable(utf8: Bytes -> bool, r: Record) {
    && 0 < |r.name| <= 16 * 1024 && 0 !in r.name && utf8([]) && FillerFits(r.filler)
    && (r.flag == 0 || r.flag == 48 || r.flag == 53) && (r.flag == 53 ==> r.data == [])
    && r.mode < Power8(7) && r.uid < Power8(7) && r.gid < Power8(7) && |r.data| < Power8(11)
    && match r.naming
       case Split(at) => 0 < at <= 155 && at < |r.name| <= at + 101 && r.name[at] == SLASH && utf8(r.name[..at]) &&
                         utf8(r.name[at + 1..])
       case GnuLong => utf8(r.name)
       case _ => |r.name| <= 100 && utf8(r.name)
  }

  predicate Fits(r: Record) { FillerFits(r.filler) && |NameField(r)| <= 100 && |PrefixField(r)| <= 155 }

  function FieldsOf(r: Record): (f: Fields)
    requires Fits(r)
    ensures Widths(f)
  {
    Fields(TextField(NameField(r), 100), OctalField(r.mode, 7), OctalField(r.uid, 7), OctalField(r.gid, 7),
           OctalField(|r.data|, 11), r.filler.mtime, r.flag, Zeros(100), if IsGnu(r) then GNU_MAGIC else USTAR_MAGIC,
           r.filler.owners, TextField(PrefixField(r), 155), if IsGnu(r) then Zeros(12) else r.filler.tail)
  }

  /** The header in front of a GNU long name; its own mode and owner are zero. */
  function LongFieldsOf(r: Record): (f: Fields)
    requires FillerFits(r.filler)
    ensures Widths(f)
  {
    Fields(TextField(LONG_LINK, 100), OctalField(0, 7), OctalField(0, 7), OctalField(0, 7),
           OctalField(|r.name| + 1, 11), r.filler.mtime, 76, Zeros(100), GNU_MAGIC, r.filler.owners, Zeros(155),
           Zeros(12))
  }

  function Blocks(data: Bytes): (s: Bytes)
    ensures |s| == Padded(|data|)
  {
    data + Zeros(BlockPadding(|data|))
  }

  function PrintLong(r: Record): Bytes
    requires Fits(r)
  {
    if r.naming.GnuLong? then PrintHeader(LongFieldsOf(r)) + Blocks(r.name + [0]) else []
  }

  function PrintEntry(r: Record): Bytes
    requires Fits(r)
  {
    PrintHeader(FieldsOf(r)) + Blocks(r.data)
  }

  /** The archive without its end. */
  function PrintAll(rs: seq<Record>): Bytes
    requires forall i | 0 <= i < |rs| :: Fits(rs[i])
  {
    if rs == [] then [] else PrintLong(rs[0]) + PrintEntry(rs[0]) + PrintAll(rs[1..])
  }

  // ------------------------------------------------------------ one header

  function EntryOf(r: Record): Entry {
    if r.flag == 53 then Entry(r.name, WithBit(r.mode, 0x4000), |r.data|, 0, r.uid, r.gid)
    else Entry(r.name, WithBit(r.mode, 0x8000), |r.data|, 1, r.uid, r.gid)
  }

  function PendingName(r: Record): Option<Bytes> {
    if r.naming.GnuLong? then Some(r.name) else None
  }

  lemma {:induction false} HoldsField(v: nat, width: nat)
    requires width > 0 && v < Power8(width)
    ensures HoldsOctal(OctalField(v, width), v)
  {
    FieldHolds(v, width, [0]);
    OctalMeans(OctalField(v, width), v);
  }

  lemma {:induction false} PrintedFormat(f: Fields, gnu: bool)
    requires Widths(f) && (if gnu then f.magic == GNU_MAGIC && AllZero(f.prefix + f.tail) else f.magic == USTAR_MAGIC)
    ensures |PrintHeader(f)| == BLOCK && Format(PrintHeader(f), gnu)
  {
    FieldsInPlace(f);
    PrintedChecksum(f);
    FormatMeans(_ => true, PrintHeader(f), None, gnu);
  }

  lemma {:induction false} NameJoins(utf8: Bytes -> bool, r: Record)
    requires Printable(utf8, r) && !r.naming.GnuLong?
    ensures Fits(r) && utf8(NameField(r)) && utf8(PrefixField(r)) && 0 !in NameField(r) && 0 !in PrefixField(r)
    ensures r.name == (if PrefixField(r) == [] then NameField(r) else PrefixField(r) + [SLASH] + NameField(r))
  {}

  lemma {:induction false} PrintedName(utf8: Bytes -> bool, r: Record)
    requires Printable(utf8, r) && !r.naming.GnuLong?
    ensures Fits(r) && |PrintHeader(FieldsOf(r))| == BLOCK
    ensures OwnName(utf8, PrintHeader(FieldsOf(r)), IsGnu(r), r.name)
  {
    NameJoins(utf8, r);
    var h, prefix, base := PrintHeader(FieldsOf(r)), PrefixField(r), NameField(r);
    FieldsInPlace(FieldsOf(r));
    assert HoldsText(utf8, h[..100], base) && HoldsText(utf8, h[345..500], prefix);
    assert IsGnu(r) ==> prefix == [];
  }

  lemma {:induction false} PrintedNumbers(r: Record)
    requires Fits(r) && r.mode < Power8(7) && r.uid < Power8(7) && r.gid < Power8(7) && |r.data| < Power8(11)
    ensures var h := PrintHeader(FieldsOf(r));
            && |h| == BLOCK && HoldsOctal(h[100..108], r.mode) && HoldsOctal(h[108..116], r.uid)
            && HoldsOctal(h[116..124], r.gid) && HoldsOctal(h[124..136], |r.data|)
  {
    FieldsInPlace(FieldsOf(r));
    HoldsField(r.mode, 7);
    HoldsField(r.uid, 7);
    HoldsField(r.gid, 7);
    HoldsField(|r.data|, 11);
  }

  lemma {:induction false} PrintedFlag(utf8: Bytes -> bool, r: Record)
    requires Fits(r) && utf8([])
    ensures var h := PrintHeader(FieldsOf(r)); |h| == BLOCK && h[156] == r.flag && HoldsText(utf8, h[157..257], [])
  {
    FieldsInPlace(FieldsOf(r));
  }

  /** A printed header announces its record. */
  lemma {:induction false} HeaderRoundTrip(utf8: Bytes -> bool, r: Record)
    requires Printable(utf8, r)
    ensures Fits(r) && |PrintHeader(FieldsOf(r))| == BLOCK
    ensures HeadOf(utf8, PrintHeader(FieldsOf(r)), PendingName(r)) == Some(Payloaded(EntryOf(r)))
  {
    var h := PrintHeader(FieldsOf(r));
    PrintedNumbers(r);
    PrintedFlag(utf8, r);
    PrintedFormat(FieldsOf(r), IsGnu(r));
    if !r.naming.GnuLong? { PrintedName(utf8, r); }
    assert Announces(utf8, h, PendingName(r), IsGnu(r), r.name, r.mode, |r.data|, r.uid, r.gid);
    AnnouncedIsRead(utf8, h, PendingName(r), IsGnu(r), r.name, r.mode, |r.data|, r.uid, r.gid);
  }

  lemma {:induction false} SizeFits(n: nat)
    requires n <= 16 * 1024 + 1
    ensures n < Power8(11)
  {
    assert Power8(5) == 32768 && Power8(11) == 8 * 8 * 8 * 8 * 8 * 8 * Power8(5);
  }

  lemma {:induction false} LongFields(r: Record)
    requires FillerFits(r.filler) && |r.name| <= 16 * 1024
    ensures var h := PrintHeader(LongFieldsOf(r));
            |h| == BLOCK && h[156] == 76 && HoldsOctal(h[124..136], |r.name| + 1) && h[..100] == LONG_LINK + Zeros(87)
  {
    FieldsInPlace(LongFieldsOf(r));
    SizeFits(|r.name| + 1);
    HoldsField(|r.name| + 1, 11);
  }

  lemma {:induction false} LongRoundTrip(utf8: Bytes -> bool, r: Record)
    requires Printable(utf8, r) && r.naming.GnuLong?
    ensures |PrintHeader(LongFieldsOf(r))| == BLOCK
    ensures HeadOf(utf8, PrintHeader(LongFieldsOf(r)), None) == Some(LongName(|r.name| + 1))
  {
    LongFields(r);
    PrintedFormat(LongFieldsOf(r), true);
    LongNameExactly(utf8, PrintHeader(LongFieldsOf(r)), None, |r.name| + 1);
  }

  lemma {:induction false} LongNameRoundTrip(utf8: Bytes -> bool, r: Record)
    requires Printable(utf8, r) && r.naming.GnuLong?
    ensures LongText(utf8, r.name + [0]) == Some(r.name)
  {
    var raw := r.name + [0];
    assert raw[..|raw| - 1] == r.name && raw == r.name + Zeros(1);
    TextMeans(utf8, raw, r.name);
  }

  // ---------------------------------------------------------------- one frame

  /** The headers read this block so. */
  predicate Reads(headers: Headers, block: Bytes, longName: Option<Bytes>, head: Head) {
    |block| == BLOCK && !AllZero(block) && headers(block, longName) == Some(head)
  }

  function More(k: Progression, longName: Option<Bytes>): Progression {
    k.(headers := k.headers + 1, longName := longName)
  }

  lemma {:induction false} InFront(block: Bytes, data: Bytes, t: Bytes)
    requires |block| == BLOCK
    ensures var s := block + Blocks(data) + t;
            && |s| >= BLOCK + Padded(|data|) && s[..BLOCK] == block && s[BLOCK..BLOCK + |data|] == data
            && s[BLOCK + Padded(|data|)..] == t
  {
    var s := block + Blocks(data) + t;
    assert s == block + (Blocks(data) + t);
    assert s[BLOCK..] == Blocks(data) + t;
    assert s[BLOCK..BLOCK + |data|] == s[BLOCK..][..|data|];
  }

  /** In front of any stream, the block is read as this entry with its data,
      unless too many headers came before. */
  ghost predicate FramesEntry(framer: Framer<Progression>, block: Bytes, longName: Option<Bytes>, e: Entry,
          data: Bytes)
  {
    forall t: Bytes, n: nat, k: Progression | k.zeros == 0 && k.longName == longName ::
      framer(block + Blocks(data) + t, n, k) ==
        if k.headers >= MAX_ENTRIES then Reject else Next(e, data, BLOCK + Padded(|data|), More(k, None))
  }

  /** In front of any stream, the block and its text are read as a long name. */
  ghost predicate FramesLong(framer: Framer<Progression>, block: Bytes, raw: Bytes, name: Bytes) {
    forall t: Bytes, n: nat, k: Progression | k.zeros == 0 && k.longName.None? ::
      framer(block + Blocks(raw) + t, n, k) ==
        if k.headers >= MAX_ENTRIES then Reject else Skip(BLOCK + Padded(|raw|), More(k, Some(name)))
  }

  lemma {:induction false} EntryFrames(utf8: Bytes -> bool, headers: Headers, block: Bytes, longName: Option<Bytes>,
          e: Entry, data: Bytes)
    requires Reads(headers, block, longName, Payloaded(e)) && e.size == |data|
    ensures FramesEntry(TarFramer(utf8, headers), block, longName, e, data)
  {
    forall t: Bytes, n: nat, k: Progression | k.zeros == 0 && k.longName == longName
      ensures TarFramer(utf8, headers)(block + Blocks(data) + t, n, k) ==
        if k.headers >= MAX_ENTRIES then Reject else Next(e, data, BLOCK + Padded(|data|), More(k, None))
    {
      InFront(block, data, t);
    }
  }

  lemma {:induction false} LongFrames(utf8: Bytes -> bool, headers: Headers, block: Bytes, raw: Bytes, name: Bytes)
    requires Reads(headers, block, None, LongName(|raw|)) && LongText(utf8, raw) == Some(name)
    ensures FramesLong(TarFramer(utf8, headers), block, raw, name)
  {
    forall t: Bytes, n: nat, k: Progression | k.zeros == 0 && k.longName.None?
      ensures TarFramer(utf8, headers)(block + Blocks(raw) + t, n, k) ==
        if k.headers >= MAX_ENTRIES then Reject else Skip(BLOCK + Padded(|raw|), More(k, Some(name)))
    {
      InFront(block, raw, t);
    }
  }

  // --------------------------------------------------------------- all frames

  /** A printed record as the loop meets it: a block that announces a long name
      with its text, if any, and a block that announces the entry with its data. */
  datatype Piece = Piece(long: Option<(Bytes, Bytes)>, name: Bytes, block: Bytes, entry: Entry, data: Bytes)

  ghost predicate FramesPiece(framer: Framer<Progression>, x: Piece) {
    && |x.block| == BLOCK
    && match x.long
       case None => FramesEntry(framer, x.block, None, x.entry, x.data)
       case Some((block, raw)) =>
         |block| == BLOCK && FramesLong(framer, block, raw, x.name) &&
         FramesEntry(framer, x.block, Some(x.name), x.entry, x.data)
  }

  function PieceBytes(x: Piece): Bytes {
    (if x.long.Some? then x.long.value.0 + Blocks(x.long.value.1) else []) + (x.block + Blocks(x.data))
  }

  function AllBytes(xs: seq<Piece>): Bytes {
    if xs == [] then [] else PieceBytes(xs[0]) + AllBytes(xs[1..])
  }

  /** Headers printed: one for each entry, and one more for each long name. */
  function HeaderCount(xs: seq<Piece>): nat {
    if xs == [] then 0 else (if xs[0].long.Some? then 2 else 1) + HeaderCount(xs[1..])
  }

  function Taken(xs: seq<Piece>): seq<(Entry, Bytes)> {
    if xs == [] then [] else [(xs[0].entry, xs[0].data)] + Taken(xs[1..])
  }

  lemma {:induction false} LoopUnfolds<P>(framer: Framer<Progression>, taker: Taker<P>, s: Bytes, count: nat,
          k: Progression, p: P,
          frame: Frame<Progression>)
    requires framer(s, count, k) == frame
    ensures frame.Reject? ==> Loop(framer, taker, s, count, k, p) == None
    ensures frame.Skip? && 0 < frame.size <= |s| ==>
            Loop(framer, taker, s, count, k, p) ==
                Loop(framer, taker, s[frame.size..], count + frame.size, frame.after, p)
    ensures frame.Next? && 0 < frame.size <= |s| ==>
            Loop(framer, taker, s, count, k, p) ==
              (var taken := taker(p, frame.entry, frame.data);
               if taken.None? then None
               else Loop(framer, taker, s[frame.size..], count + frame.size, frame.after, taken.value))
  {}

  /** A block that announces an entry, in front of any stream. */
  lemma {:induction false} EntryStep<P>(framer: Framer<Progression>, taker: Taker<P>, block: Bytes, e: Entry,
          data: Bytes, t: Bytes,
          count: nat, k: Progression, p: P)
    requires |block| == BLOCK && k.zeros == 0 && FramesEntry(framer, block, k.longName, e, data)
    ensures Loop(framer, taker, block + Blocks(data) + t, count, k, p) ==
        if k.headers >= MAX_ENTRIES || taker(p, e, data).None? then None
        else Loop(framer, taker, t, count + BLOCK + Padded(|data|), More(k, None), taker(p, e, data).value)
  {
    var s := block + Blocks(data) + t;
    InFront(block, data, t);
    LoopUnfolds(framer, taker, s, count, k, p, framer(s, count, k));
  }

  /** A block that announces a long name, in front of any stream. */
  lemma {:induction false} LongStep<P>(framer: Framer<Progression>, taker: Taker<P>, block: Bytes, raw: Bytes,
          name: Bytes, t: Bytes,
          count: nat, k: Progression, p: P)
    requires |block| == BLOCK && k.zeros == 0 && k.longName.None? && FramesLong(framer, block, raw, name)
    ensures Loop(framer, taker, block + Blocks(raw) + t, count, k, p) ==
        if k.headers >= MAX_ENTRIES then None
        else Loop(framer, taker, t, count + BLOCK + Padded(|raw|), More(k, Some(name)), p)
  {
    var s := block + Blocks(raw) + t;
    InFront(block, raw, t);
    LoopUnfolds(framer, taker, s, count, k, p, framer(s, count, k));
  }

  /** What the loop makes of a piece in front of a stream: with headers left for
      it, the entry is taken and the loop goes on behind it. */
  lemma {:induction false} PieceStep<P>(framer: Framer<Progression>, taker: Taker<P>, x: Piece, t: Bytes, count: nat,
          k: Progression,
          p: P)
    requires FramesPiece(framer, x) && k.zeros == 0 && k.longName.None?
    ensures
      var n := k.headers + (if x.long.Some? then 2 else 1);
      Loop(framer, taker, PieceBytes(x) + t, count, k, p) ==
          if n > MAX_ENTRIES || taker(p, x.entry, x.data).None? then None
          else Loop(framer, taker, t, count + |PieceBytes(x)|, k.(headers := n), taker(p, x.entry, x.data).value)
  {
    if x.long.None? {
      assert PieceBytes(x) == x.block + Blocks(x.data);
      EntryStep(framer, taker, x.block, x.entry, x.data, t, count, k, p);
    } else {
      var (block, raw) := x.long.value;
      var u := x.block + Blocks(x.data) + t;
      assert PieceBytes(x) + t == block + Blocks(raw) + u;
      LongStep(framer, taker, block, raw, x.name, u, count, k, p);
      EntryStep(framer, taker, x.block, x.entry, x.data, t, count + BLOCK + Padded(|raw|), More(k, Some(x.name)), p);
    }
  }

  /** Zeros end the archive exactly when they are two blocks, or more up to the
      limit, and no long name waits for its entry. */
  predicate EndsIn(n: nat) { 1024 <= n <= 1024 + 1024 * 1024 && n % 512 == 0 }

  ghost predicate ZerosTaken<P>(framer: Framer<Progression>, taker: Taker<P>, n: nat, count: nat, k: Progression,
          p: P)
  {
    k.zeros == 0 && k.longName.None? ==>
      Loop(framer, taker, Zeros(n), count, k, p) == if EndsIn(n) then Some(p) else None
  }

  lemma {:induction false} ZerosEnd<P>(utf8: Bytes -> bool, headers: Headers, taker: Taker<P>, n: nat, count: nat,
          k: Progression, p: P)
    ensures ZerosTaken(TarFramer(utf8, headers), taker, n, count, k, p)
  {
    if n >= BLOCK && k.zeros == 0 && k.longName.None? {
      var after := k.(zeros := 1);
      assert NextFrame(utf8, headers, Zeros(n), k) == Skip(BLOCK, after);
      assert Zeros(n)[BLOCK..] == Zeros(n - BLOCK);
      LoopUnfolds(TarFramer(utf8, headers), taker, Zeros(n), count, k, p, Skip(BLOCK, after));
      if n - BLOCK >= BLOCK { assert Zeros(n - BLOCK)[BLOCK..] == Zeros(n - 2 * BLOCK); }
    }
  }

  lemma {:induction false} LoopTakesPieces<P>(framer: Framer<Progression>, taker: Taker<P>, xs: seq<Piece>, n: nat,
          count: nat, k: Progression, p: P)
    requires k.zeros == 0 && k.longName.None?
    requires forall i | 0 <= i < |xs| :: FramesPiece(framer, xs[i])
    requires forall c, j, q :: ZerosTaken(framer, taker, n, c, j, q)
    ensures Loop(framer, taker, AllBytes(xs) + Zeros(n), count, k, p) ==
            if (xs != [] ==> k.headers + HeaderCount(xs) <= MAX_ENTRIES) && EndsIn(n) then TakeAll(taker, p, Taken(xs))
            else None
    decreases |xs|
  {
    if xs == [] {
      assert AllBytes(xs) + Zeros(n) == Zeros(n);
      assert ZerosTaken(framer, taker, n, count, k, p);
    } else {
      var x, rest := xs[0], AllBytes(xs[1..]) + Zeros(n);
      assert AllBytes(xs) + Zeros(n) == PieceBytes(x) + rest;
      PieceStep(framer, taker, x, rest, count, k, p);
      var h, taken := k.headers + (if x.long.Some? then 2 else 1), taker(p, x.entry, x.data);
      assert Taken(xs)[1..] == Taken(xs[1..]);
      if h <= MAX_ENTRIES && taken.Some? {
        LoopTakesPieces(framer, taker, xs[1..], n, count + |PieceBytes(x)|, k.(headers := h), taken.value);
      }
    }
  }

  // ---------------------------------------------------------------- round trip

  function PieceOf(r: Record): Piece
    requires Fits(r)
  {
    Piece(if r.naming.GnuLong? then Some((PrintHeader(LongFieldsOf(r)), r.name + [0])) else None, r.name,
          PrintHeader(FieldsOf(r)), EntryOf(r), r.data)
  }

  function Pieces(rs: seq<Record>): seq<Piece>
    requires forall i | 0 <= i < |rs| :: Fits(rs[i])
  {
    seq(|rs|, i requires 0 <= i < |rs| => PieceOf(rs[i]))
  }

  lemma {:induction false} HasMagic(f: Fields)
    requires Widths(f) && f.magic[0] == 117
    ensures |PrintHeader(f)| == BLOCK && !AllZero(PrintHeader(f))
  {
    FieldsInPlace(f);
    assert PrintHeader(f)[257..265][0] == 117;
  }

  lemma {:induction false} ReadsPrinted(utf8: Bytes -> bool, f: Fields, longName: Option<Bytes>, head: Head)
    requires Widths(f) && f.magic[0] == 117 && HeadOf(utf8, PrintHeader(f), longName) == Some(head)
    ensures Reads(HeadersOf(utf8), PrintHeader(f), longName, head)
  {
    HasMagic(f);
  }

  lemma {:induction false} EntryIsFramed(utf8: Bytes -> bool, r: Record)
    requires Printable(utf8, r)
    ensures Fits(r) && |PrintHeader(FieldsOf(r))| == BLOCK
    ensures FramesEntry(TarFramer(utf8, HeadersOf(utf8)), PrintHeader(FieldsOf(r)), PendingName(r), EntryOf(r), r.data)
  {
    HeaderRoundTrip(utf8, r);
    ReadsPrinted(utf8, FieldsOf(r), PendingName(r), Payloaded(EntryOf(r)));
    EntryFrames(utf8, HeadersOf(utf8), PrintHeader(FieldsOf(r)), PendingName(r), EntryOf(r), r.data);
  }

  lemma {:induction false} LongReads(utf8: Bytes -> bool, r: Record)
    requires Printable(utf8, r) && r.naming.GnuLong?
    ensures Reads(HeadersOf(utf8), PrintHeader(LongFieldsOf(r)), None, LongName(|r.name| + 1))
  {
    LongRoundTrip(utf8, r);
    ReadsPrinted(utf8, LongFieldsOf(r), None, LongName(|r.name| + 1));
  }

  lemma {:induction false} LongIsFramed(utf8: Bytes -> bool, r: Record)
    requires Printable(utf8, r) && r.naming.GnuLong?
    ensures |PrintHeader(LongFieldsOf(r))| == BLOCK
    ensures FramesLong(TarFramer(utf8, HeadersOf(utf8)), PrintHeader(LongFieldsOf(r)), r.name + [0], r.name)
  {
    LongReads(utf8, r);
    LongNameRoundTrip(utf8, r);
    LongFrames(utf8, HeadersOf(utf8), PrintHeader(LongFieldsOf(r)), r.name + [0], r.name);
  }

  /** Joins what is known of the two blocks, for any framer. */
  lemma {:induction false} PieceFramed(framer: Framer<Progression>, r: Record)
    requires Fits(r) && |PrintHeader(FieldsOf(r))| == BLOCK
    requires FramesEntry(framer, PrintHeader(FieldsOf(r)), PendingName(r), EntryOf(r), r.data)
    requires r.naming.GnuLong? ==> |PrintHeader(LongFieldsOf(r))| == BLOCK &&
                                   FramesLong(framer, PrintHeader(LongFieldsOf(r)), r.name + [0], r.name)
    ensures FramesPiece(framer, PieceOf(r))
  {}

  lemma {:induction false} PrintedPieces(rs: seq<Record>)
    requires forall i | 0 <= i < |rs| :: Fits(rs[i])
    ensures PrintAll(rs) == AllBytes(Pieces(rs))
  {
    if rs != [] {
      PrintedPieces(rs[1..]);
      assert Pieces(rs)[0] == PieceOf(rs[0]) && Pieces(rs)[1..] == Pieces(rs[1..]);
      assert PrintLong(rs[0]) + PrintEntry(rs[0]) == PieceBytes(PieceOf(rs[0]));
    }
  }

  /** Headers printed: one for each record, and one more for each long name. */
  function Headers(rs: seq<Record>): nat {
    if rs == [] then 0 else (if rs[0].naming.GnuLong? then 2 else 1) + Headers(rs[1..])
  }

  lemma {:induction false} TakenAt(xs: seq<Piece>)
    ensures |Taken(xs)| == |xs| && forall i | 0 <= i < |xs| :: Taken(xs)[i] == (xs[i].entry, xs[i].data)
  {
    if xs != [] { TakenAt(xs[1..]); }
  }

  lemma {:induction false} CountsHeaders(rs: seq<Record>, xs: seq<Piece>)
    requires |xs| == |rs| && forall i | 0 <= i < |rs| :: xs[i].long.Some? <==> rs[i].naming.GnuLong?
    ensures HeaderCount(xs) == Headers(rs)
  {
    if rs != [] { CountsHeaders(rs[1..], xs[1..]); }
  }

  function AllEntries(rs: seq<Record>): seq<Entry> {
    seq(|rs|, i requires 0 <= i < |rs| => EntryOf(rs[i]))
  }

  lemma {:induction false} EntriesAt(es: seq<(Entry, Bytes)>)
    ensures |Entries(es)| == |es| && forall i | 0 <= i < |es| :: Entries(es)[i] == es[i].0
  {
    if es != [] { EntriesAt(es[1..]); }
  }

  lemma {:induction false} RecordFramed(utf8: Bytes -> bool, r: Record)
    requires Printable(utf8, r)
    ensures Fits(r) && FramesPiece(TarFramer(utf8, HeadersOf(utf8)), PieceOf(r))
  {
    EntryIsFramed(utf8, r);
    if r.naming.GnuLong? { LongIsFramed(utf8, r); }
    PieceFramed(TarFramer(utf8, HeadersOf(utf8)), r);
  }

  lemma {:induction false} PiecesFramed(utf8: Bytes -> bool, rs: seq<Record>)
    requires forall i | 0 <= i < |rs| :: Printable(utf8, rs[i])
    ensures forall i | 0 <= i < |rs| :: Fits(rs[i])
    ensures forall i | 0 <= i < |rs| :: FramesPiece(TarFramer(utf8, HeadersOf(utf8)), Pieces(rs)[i])
  {
    forall i | 0 <= i < |rs| ensures Fits(rs[i]) { RecordFramed(utf8, rs[i]); }
    forall i | 0 <= i < |rs| ensures FramesPiece(TarFramer(utf8, HeadersOf(utf8)), Pieces(rs)[i]) {
      RecordFramed(utf8, rs[i]);
    }
  }

  lemma {:induction false} ZerosEndAll<P>(utf8: Bytes -> bool, headers: Headers, taker: Taker<P>, n: nat)
    ensures forall c, j, q :: ZerosTaken(TarFramer(utf8, headers), taker, n, c, j, q)
  {
    forall c, j, q ensures ZerosTaken(TarFramer(utf8, headers), taker, n, c, j, q) {
      ZerosEnd(utf8, headers, taker, n, c, j, q);
    }
  }

  lemma {:induction false} ParsesPrinted(layout: Layout, utf8: Bytes -> bool, rs: seq<Record>, n: nat)
    requires forall i | 0 <= i < |rs| :: Printable(utf8, rs[i])
    ensures forall i | 0 <= i < |rs| :: Fits(rs[i])
    ensures Parse(layout, utf8, PrintAll(rs) + Zeros(n)) ==
            if Headers(rs) <= MAX_ENTRIES && EndsIn(n) then TakeAll(TakerOf(layout), START, Taken(Pieces(rs))) else None
  {
    PiecesFramed(utf8, rs);
    PrintedPieces(rs);
    CountsHeaders(rs, Pieces(rs));
    ZerosEndAll(utf8, HeadersOf(utf8), TakerOf(layout), n);
    LoopTakesPieces(TarFramer(utf8, HeadersOf(utf8)), TakerOf(layout), Pieces(rs), n, 0, FIRST, START);
  }

  lemma {:induction false} TakesPrinted(layout: Layout, rs: seq<Record>, es: seq<(Entry, Bytes)>)
    requires |es| == |rs| && forall i | 0 <= i < |rs| :: es[i] == (EntryOf(rs[i]), rs[i].data)
    ensures
      var taken := TakeAll(TakerOf(layout), START, es);
      && (taken.Some? <==> InspectAll(layout, EMPTY, AllEntries(rs)).Some?)
      && (taken.Some? ==> |taken.value.members| == |rs| && forall i | 0 <= i < |rs| ::
          taken.value.members[i] == Member(rs[i].name, EntryOf(rs[i]).mode, rs[i].data))
  {
    TakesWhatIsInspected(layout, es);
    EntriesAt(es);
    assert Entries(es) == AllEntries(rs);
    MembersAt(es);
  }

  /** Round trip: printed records and any number of zeros behind them are
      accepted exactly when the zeros are whole blocks, two or more up to the
      limit, the headers are at most 100,000 and `inspect` admits the records;
      and they give back their names, modes and bytes. */
  lemma {:induction false} ArchiveRoundTrip(layout: Layout, utf8: Bytes -> bool, rs: seq<Record>, n: nat)
    requires forall i | 0 <= i < |rs| :: Printable(utf8, rs[i])
    ensures forall i | 0 <= i < |rs| :: Fits(rs[i])
    ensures
      var parsed := Parse(layout, utf8, PrintAll(rs) + Zeros(n));
      && (parsed.Some? <==>
          1024 <= n <= 1024 + 1024 * 1024 && n % 512 == 0 && Headers(rs) <= 100_000 &&
          InspectAll(layout, EMPTY, AllEntries(rs)).Some?)
      && (parsed.Some? ==> |parsed.value.members| == |rs| && forall i | 0 <= i < |rs| ::
          parsed.value.members[i] == Member(rs[i].name, EntryOf(rs[i]).mode, rs[i].data))
  {
    ParsesPrinted(layout, utf8, rs, n);
    TakenAt(Pieces(rs));
    TakesPrinted(layout, rs, Taken(Pieces(rs)));
  }

  /** An archive is refused at a first header whose checksum field does not hold
      the sum of its bytes in octal. */
  lemma {:induction false} WrongChecksumIsRefused(layout: Layout, utf8: Bytes -> bool, h: Bytes, t: Bytes)
    requires |h| == BLOCK && !AllZero(h)
    requires !HoldsOctal(h[148..156], Sum(h[..148]) + 8 * 32 + Sum(h[156..]))
    ensures Parse(layout, utf8, h + t) == None
  {
    ChecksumExactly(utf8, h, None);
    assert (h + t)[..BLOCK] == h;
    assert NextFrame(utf8, HeadersOf(utf8), h + t, FIRST) == Reject;
    LoopUnfolds(TarFramer(utf8, HeadersOf(utf8)), TakerOf(layout), h + t, 0, FIRST, START, Reject);
  }
}

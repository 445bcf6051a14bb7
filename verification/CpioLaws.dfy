/** The newc and CRC forms of CPIO archives: what a header says, when a member is
    taken, what ends the archive, and the round trip for either form. */
module CpioLaws {
  import opened Basics
  import opened Bytes
  import opened PathIndex
  import opened Payload
  import opened Streams
  import opened Frames
  import opened Cpio

  // ----------------------------------------------------------------- headers

  lemma {:induction false} DigitsOfNumber(s: Bytes)
    requires AllHex(s)
    ensures Number(s) < Power16(|s|) && Digits(Number(s), |s|) == s
  {
    if s != [] {
      var front, last := s[..|s| - 1], s[|s| - 1];
      DigitsOfNumber(front);
      assert HexDigit(HexValue(last)) == last;
      assert Number(s) == 16 * Number(front) + HexValue(last);
      assert Number(s) / 16 == Number(front) && Number(s) % 16 == HexValue(last);
      assert s == front + [last];
    }
  }

  lemma {:induction false} FieldDigits(s: Bytes)
    requires AllHex(s) && |s| == 8
    ensures Number(s) < WORD && Digits(Number(s), 8) == s
  {
    assert Power16(4) == 0x1_0000 && Power16(8) == WORD;
    DigitsOfNumber(s);
  }

  predicate InRange(f: Fields) {
    forall i: nat | i < 13 :: Listed(f)[i] < 0x1_0000_0000
  }

  lemma {:induction false} FieldsAreDigits(h: Bytes, i: nat)
    requires |h| == HEADER && AllHex(h[6..]) && i < 13
    ensures AllHex(Field(h, i)) && Listed(FieldsOf(h))[i] == Number(Field(h, i)) < WORD
    ensures Digits(Listed(FieldsOf(h))[i], 8) == Field(h, i)
  {
    assert Field(h, i) == h[6..][8 * i..8 * i + 8];
    FieldDigits(Field(h, i));
  }

  /** What a header field printed after another is found where it was read. */
  lemma {:induction false} PrintedAt(f: Fields, h: Bytes, k: nat)
    requires |h| == HEADER && k < 104
    requires forall i: nat | i < 13 :: Digits(Listed(f)[i], 8) == Field(h, i)
    ensures PrintFields(f)[k] == h[6 + k]
  {
    var i := k / 8;
    PrintedField(f, i);
    assert PrintFields(f)[k] == PrintFields(f)[8 * i..8 * i + 8][k - 8 * i];
    assert Field(h, i)[k - 8 * i] == h[6 + k];
  }

  lemma {:induction false} ReadIsPrinted(h: Bytes)
    requires |h| == HEADER && AllHex(h[6..])
    ensures h[6..] == PrintFields(FieldsOf(h)) && InRange(FieldsOf(h))
  {
    var f := FieldsOf(h);
    forall i: nat | i < 13 ensures Listed(f)[i] < WORD && Digits(Listed(f)[i], 8) == Field(h, i) {
      FieldsAreDigits(h, i);
    }
    forall k | 0 <= k < 104 ensures PrintFields(f)[k] == h[6..][k] { PrintedAt(f, h, k); }
  }

  /** A header is read exactly when it starts with one of the two magic texts and
      its thirteen fields follow in eight lower-case hex digits each, the plain
      form without a checksum, and the name of 2 to 16,384 bytes. */
  lemma {:induction false} HeaderExactly(h: Bytes, crc: bool, f: Fields)
    requires |h| == HEADER
    ensures ParseHeader(h) == Some(Header(crc, f)) <==>
              && h[..6] == (if crc then [48, 55, 48, 55, 48, 50] else [48, 55, 48, 55, 48, 49])
              && h[6..] == PrintFields(f) && InRange(f) && (!crc ==> f.checksum == 0) && 2 <= f.nameSize <= 16 * 1024
  {
    if ParseHeader(h) == Some(Header(crc, f)) { ReadIsPrinted(h); }
    if h[6..] == PrintFields(f) && InRange(f) {
      InRangeFits(f);
      FieldsRoundTrip(f, h);
    }
  }

  lemma {:induction false} InRangeFits(f: Fields)
    requires InRange(f)
    ensures FieldsFit(f)
  {
    var s := Listed(f);
    assert s[0] < WORD && s[1] < WORD && s[2] < WORD && s[3] < WORD && s[4] < WORD && s[5] < WORD && s[6] < WORD;
    assert s[7] < WORD && s[8] < WORD && s[9] < WORD && s[10] < WORD && s[11] < WORD && s[12] < WORD;
  }

  // ------------------------------------------------------------- either form

  /** A record of an archive of one form. */
  datatype Piece = Piece(crc: bool, fields: Fields, name: Bytes, data: Bytes)

  /** The fields tell the lengths and the checksum of what follows them. */
  predicate Consistent(utf8: Bytes -> bool, x: Piece) {
    && InRange(x.fields) && x.fields.nameSize == |x.name| + 1 && x.fields.size == |x.data|
    && x.fields.checksum == (if x.crc then Sum(x.data) % 0x1_0000_0000 else 0)
    && 0 < |x.name| < 16 * 1024 && 0 !in x.name && utf8(x.name)
  }

  function Head(x: Piece): Bytes {
    (if x.crc then NEWC_CRC else NEWC) + PrintFields(x.fields)
  }

  /** Everything in front of the data. */
  function Upfront(x: Piece): (s: Bytes)
    ensures |s| == HEADER + |x.name| + 1 + PaddingFor(HEADER + |x.name| + 1)
  {
    Head(x) + ((x.name + [0]) + Zeros(PaddingFor(HEADER + |x.name| + 1)))
  }

  function Print(x: Piece): Bytes {
    Upfront(x) + (x.data + Zeros(PaddingFor(|x.data|)))
  }

  function EntryFor(x: Piece): Entry {
    Entry(x.name, x.fields.mode, |x.data|, x.fields.nlink, x.fields.uid, x.fields.gid)
  }

  lemma {:induction false} HeadReads(utf8: Bytes -> bool, x: Piece)
    requires Consistent(utf8, x)
    ensures |Head(x)| == HEADER && ParseHeader(Head(x)) == Some(Header(x.crc, x.fields))
  {
    assert Head(x)[6..] == PrintFields(x.fields);
    HeaderExactly(Head(x), x.crc, x.fields);
  }

  lemma {:induction false} UpfrontParts(x: Piece, rest: Bytes)
    ensures
      var s, n := Upfront(x) + rest, |x.name| + 1;
      && s[..HEADER] == Head(x) && s[HEADER..HEADER + n] == x.name + [0] && s[|Upfront(x)|..] == rest
  {
    var s, n := Upfront(x) + rest, |x.name| + 1;
    var behind := (x.name + [0]) + Zeros(PaddingFor(HEADER + n));
    assert s == Head(x) + (behind + rest);
    assert s[HEADER..] == behind + rest;
    assert s[HEADER..HEADER + n] == s[HEADER..][..n];
  }

  lemma {:induction false} PrintedParts(x: Piece, t: Bytes)
    requires x.fields.nameSize == |x.name| + 1 && x.fields.size == |x.data|
    ensures
      var s, f := Print(x) + t, x.fields;
      && |Print(x)| == NextAt(f) && s[..HEADER] == Head(x) && s[HEADER..HEADER + f.nameSize] == x.name + [0]
      && s[BodyAt(f)..] == x.data + Zeros(PaddingFor(|x.data|)) + t
      && s[BodyAt(f)..BodyAt(f) + f.size] == x.data
  {
    var s, f := Print(x) + t, x.fields;
    var rest := x.data + Zeros(PaddingFor(|x.data|)) + t;
    assert x.data + Zeros(PaddingFor(|x.data|)) + t == rest;
    assert s == Upfront(x) + rest && |Upfront(x)| == BodyAt(f);
    UpfrontParts(x, rest);
    assert s[BodyAt(f)..BodyAt(f) + f.size] == rest[..f.size];
  }

  lemma {:induction false} NameReads(utf8: Bytes -> bool, x: Piece, t: Bytes, count: nat, kind: Option<bool>)
    requires Consistent(utf8, x)
    ensures BodyAt(x.fields) <= |Print(x) + t|
    ensures NextFrame(utf8, Print(x) + t, count, kind) ==
            if kind == Some(!x.crc) then Reject
            else NamedFrame(Header(x.crc, x.fields), x.name, Print(x) + t, count)
  {
    HeadReads(utf8, x);
    PrintedParts(x, t);
    NamedStream(utf8, Print(x) + t, Header(x.crc, x.fields), x.name, count, kind);
  }

  /** A member whose data follow its header, in either form. */
  lemma {:induction false} MemberFrame(h: Header, name: Bytes, s: Bytes, count: nat, data: Bytes)
    requires NextAt(h.fields) <= |s| && name != TRAILER && h.fields.size == |data|
    requires s[BodyAt(h.fields)..BodyAt(h.fields) + |data|] == data
    requires h.withCrc ==> h.fields.checksum == Sum(data) % 0x1_0000_0000
    ensures NamedFrame(h, name, s, count) == Next(Cpio.EntryOf(h.fields, name), data, NextAt(h.fields), Some(h.withCrc))
  {
    var f := h.fields;
    assert s[BodyAt(f)..BodyAt(f) + f.size] == data;
  }

  /** A printed record of either form is taken in front of any stream as its
      member, unless the archive is of the other form, which refuses it. */
  lemma {:induction false} MemberRoundTrip(utf8: Bytes -> bool, x: Piece, t: Bytes, count: nat, kind: Option<bool>)
    requires Consistent(utf8, x) && x.name != TRAILER
    ensures NextFrame(utf8, Print(x) + t, count, kind) ==
            if kind == Some(!x.crc) then Reject else Next(EntryFor(x), x.data, |Print(x)|, Some(x.crc))
  {
    NameReads(utf8, x, t, count, kind);
    PrintedParts(x, t);
    MemberFrame(Header(x.crc, x.fields), x.name, Print(x) + t, count, x.data);
  }

  /** The fields that the trailer may not use are zero, and it is linked once. */
  predicate Blank(f: Fields) {
    f == Fields(0, 0, 0, 0, 1, f.mtime, 0, 0, 0, 0, 0, f.nameSize, 0)
  }

  /** Nothing is left, or zeros up to the next block. */
  predicate Finishes(at: nat, t: Bytes) {
    AllZero(t) && (t == [] || (|t| < 512 && (at + |t|) % 512 == 0))
  }

  lemma {:induction false} TrailerFrame(h: Header, s: Bytes, count: nat, t: Bytes)
    requires BodyAt(h.fields) <= |s| && s[BodyAt(h.fields)..] == t && h.fields.size == 0
    ensures NamedFrame(h, TRAILER, s, count) ==
            if CanonicalTrailer(h.fields) && Finishes(count + BodyAt(h.fields), t) then End else Reject
  {
    OnlyPadding(count + BodyAt(h.fields), |t|);
  }

  lemma {:induction false} TrailerParts(x: Piece, t: Bytes)
    requires x.fields.nameSize == |x.name| + 1 && x.fields.size == |x.data| == 0
    ensures |Print(x)| == BodyAt(x.fields) <= |Print(x) + t| && (Print(x) + t)[BodyAt(x.fields)..] == t
  {
    PrintedParts(x, t);
    assert x.data + Zeros(PaddingFor(|x.data|)) + t == t;
  }

  lemma {:induction false} BlankIsCanonical(f: Fields)
    ensures CanonicalTrailer(f) <==> Blank(f)
  {}

  lemma {:induction false} TrailerJudged(h: Header, s: Bytes, count: nat, t: Bytes, frame: Frame<Option<bool>>,
          kind: Option<bool>)
    requires BodyAt(h.fields) <= |s| && s[BodyAt(h.fields)..] == t && h.fields.size == 0
    requires frame == if kind == Some(!h.withCrc) then Reject else NamedFrame(h, TRAILER, s, count)
    ensures frame == if kind != Some(!h.withCrc) && Blank(h.fields) && Finishes(count + BodyAt(h.fields), t) then End
                     else Reject
  {
    TrailerFrame(h, s, count, t);
    BlankIsCanonical(h.fields);
  }

  /** A trailer ends the archive exactly when its fields are blank and what is
      behind it is empty, or zeros up to the next block. */
  lemma {:induction false} TrailerExactly(utf8: Bytes -> bool, x: Piece, t: Bytes, count: nat, kind: Option<bool>)
    requires Consistent(utf8, x) && x.name == TRAILER && x.data == []
    ensures NextFrame(utf8, Print(x) + t, count, kind) ==
            if kind != Some(!x.crc) && Blank(x.fields) && Finishes(count + BodyAt(x.fields), t) then End else Reject
    ensures BodyAt(x.fields) == |Print(x)|
  {
    NameReads(utf8, x, t, count, kind);
    TrailerParts(x, t);
    TrailerJudged(Header(x.crc, x.fields), Print(x) + t, count, t, NextFrame(utf8, Print(x) + t, count, kind), kind);
  }

  lemma {:induction false} OnlyPadding(at: nat, n: nat)
    ensures n == BlockPadding(at) <==> n < 512 && (at + n) % 512 == 0
  {
    var r := BlockPadding(at);
    if n < 512 && (at + n) % 512 == 0 {
      assert ((at + n) - (at + r)) % 512 == 0 by { DifferenceAligned(at + n, at + r); }
      assert -512 < n - r < 512;
    }
  }

  lemma {:induction false} DifferenceAligned(a: nat, b: nat)
    requires a % 512 == 0 && b % 512 == 0
    ensures (a - b) % 512 == 0
  {
    assert a == 512 * (a / 512) && b == 512 * (b / 512);
    assert a - b == 512 * (a / 512 - b / 512);
  }

  // ---------------------------------------------------------------- archives

  predicate OfForm(crc: bool, kind: Option<bool>) { kind != Some(!crc) }

  function Form(crc: bool): Option<bool> -> bool { kind => OfForm(crc, kind) }

  function Bodies(xs: seq<Piece>): seq<Bytes> {
    seq(|xs|, i requires 0 <= i < |xs| => Print(xs[i]))
  }

  function MembersOf(xs: seq<Piece>): seq<(Entry, Bytes)> {
    seq(|xs|, i requires 0 <= i < |xs| => (EntryFor(xs[i]), xs[i].data))
  }

  function EntriesOf(xs: seq<Piece>): seq<Entry> {
    seq(|xs|, i requires 0 <= i < |xs| => EntryFor(xs[i]))
  }

  /** The end of an archive: its trailer, and nothing or zeros up to a block. */
  ghost predicate EndsWell(utf8: Bytes -> bool, crc: bool, end: Piece, t: Bytes, before: nat) {
    && Consistent(utf8, end) && end.name == TRAILER && end.data == [] && end.crc == crc && Blank(end.fields)
    && Finishes(before + |Print(end)|, t)
  }

  /** Records of one form, none of them a trailer. */
  ghost predicate AllOf(utf8: Bytes -> bool, crc: bool, xs: seq<Piece>) {
    forall i | 0 <= i < |xs| :: Consistent(utf8, xs[i]) && xs[i].name != TRAILER && xs[i].crc == crc
  }

  lemma {:induction false} MembersPrint(utf8: Bytes -> bool, crc: bool, xs: seq<Piece>)
    requires AllOf(utf8, crc, xs)
    ensures forall i | 0 <= i < |xs| ::
              Prints(CpioFramer(utf8), MembersOf(xs)[i], Bodies(xs)[i], Form(crc))
  {
    forall i | 0 <= i < |xs|
      ensures Prints(CpioFramer(utf8), MembersOf(xs)[i], Bodies(xs)[i], Form(crc))
    {
      forall t: Bytes, n: nat, j | OfForm(crc, j)
        ensures Recognizes(CpioFramer(utf8), MembersOf(xs)[i], Bodies(xs)[i], t, n, j, Form(crc))
      {
        MemberRoundTrip(utf8, xs[i], t, n, j);
      }
    }
  }

  lemma {:induction false} TrailerEnds(utf8: Bytes -> bool, crc: bool, end: Piece, t: Bytes, before: nat)
    requires EndsWell(utf8, crc, end, t, before)
    ensures forall j | Form(crc)(j) :: CpioFramer(utf8)(Print(end) + t, before, j).End?
  {
    forall j | Form(crc)(j) ensures CpioFramer(utf8)(Print(end) + t, before, j).End? {
      TrailerExactly(utf8, end, t, before, j);
    }
  }

  lemma {:induction false} PiecesAreTaken<P>(utf8: Bytes -> bool, taker: Taker<P>, p: P, crc: bool, xs: seq<Piece>,
          end: Piece, t: Bytes)
    requires AllOf(utf8, crc, xs)
    requires EndsWell(utf8, crc, end, t, |Concat(Bodies(xs))|)
    ensures Loop(CpioFramer(utf8), taker, Concat(Bodies(xs)) + (Print(end) + t), 0, None, p) ==
            TakeAll(taker, p, MembersOf(xs))
  {
    MembersPrint(utf8, crc, xs);
    TrailerEnds(utf8, crc, end, t, 0 + |Concat(Bodies(xs))|);
    LoopTakesPrinted(CpioFramer(utf8), taker, MembersOf(xs), Bodies(xs), Print(end) + t, 0, None, p, Form(crc));
  }

  lemma {:induction false} ParsesPieces(layout: Layout, utf8: Bytes -> bool, crc: bool, xs: seq<Piece>, end: Piece,
          t: Bytes)
    requires AllOf(utf8, crc, xs)
    requires EndsWell(utf8, crc, end, t, |Concat(Bodies(xs))|)
    ensures Parse(layout, utf8, Concat(Bodies(xs)) + (Print(end) + t)) ==
            TakeAll(TakerOf(layout), START, MembersOf(xs))
  {
    PiecesAreTaken(utf8, TakerOf(layout), START, crc, xs, end, t);
  }

  lemma {:induction false} EntriesAt(es: seq<(Entry, Bytes)>)
    ensures |Entries(es)| == |es| && forall i | 0 <= i < |es| :: Entries(es)[i] == es[i].0
  {
    if es != [] { EntriesAt(es[1..]); }
  }

  /** Round trip: an archive of either form, with whatever inodes, times and
      devices its records name, is accepted exactly when `inspect` admits them,
      and gives back their names, modes and bytes. */
  lemma {:induction false} EitherFormRoundTrip(layout: Layout, utf8: Bytes -> bool, crc: bool, xs: seq<Piece>,
          end: Piece, t: Bytes)
    requires AllOf(utf8, crc, xs)
    requires EndsWell(utf8, crc, end, t, |Concat(Bodies(xs))|)
    ensures
      var parsed := Parse(layout, utf8, Concat(Bodies(xs)) + (Print(end) + t));
      && (parsed.Some? <==> InspectAll(layout, EMPTY, EntriesOf(xs)).Some?)
      && (parsed.Some? ==> |parsed.value.members| == |xs| && forall i | 0 <= i < |xs| ::
            parsed.value.members[i] == Member(xs[i].name, xs[i].fields.mode, xs[i].data))
  {
    ParsesPieces(layout, utf8, crc, xs, end, t);
    TakesWhatIsInspected(layout, MembersOf(xs));
    EntriesAt(MembersOf(xs));
    assert Entries(MembersOf(xs)) == EntriesOf(xs);
    MembersAt(MembersOf(xs));
  }

  /** A member is refused when its checksum is not that of its bytes, in the
      form that has one. */
  lemma {:induction false} WrongChecksumIsRefused(utf8: Bytes -> bool, s: Bytes, count: nat, kind: Option<bool>,
          h: Header, name: Bytes)
    requires NamedHeader(utf8, s, kind) == Some((h, name)) && name != TRAILER && h.withCrc && NextAt(h.fields) <= |s|
    requires Sum(s[BodyAt(h.fields)..BodyAt(h.fields) + h.fields.size]) % 0x1_0000_0000 != h.fields.checksum
    ensures NextFrame(utf8, s, count, kind) == Reject
  {}
}

/** What the fields of a tar header mean, and a printer of ustar and GNU headers
    (POSIX.1-1988 ustar interchange format) that the block parser reads back. */
module TarHeaders {
  import opened Basics
  import opened Bytes
  import opened PathIndex
  import opened Payload
  import opened Tar

  // ---------------------------------------------------------- octal numbers

  function Power8(n: nat): (p: nat)
    ensures p > 0
  {
    if n == 0 then 1 else 8 * Power8(n - 1)
  }

  /** The `width` octal digits of a number, zero padded. */
  function OctalDigits(v: nat, width: nat): (s: Bytes)
    ensures |s| == width && AllOctal(s)
  {
    if width == 0 then [] else OctalDigits(v / 8, width - 1) + [48 + v % 8]
  }

  lemma {:induction false} ValueOfDigits(v: nat, width: nat)
    requires v < Power8(width)
    ensures OctalValue(OctalDigits(v, width)) == v
  {
    if width > 0 {
      ValueOfDigits(v / 8, width - 1);
      assert OctalDigits(v, width)[..width - 1] == OctalDigits(v / 8, width - 1);
    }
  }

  lemma {:induction false} DigitsOfValue(s: Bytes)
    requires AllOctal(s)
    ensures OctalValue(s) < Power8(|s|) && s == OctalDigits(OctalValue(s), |s|)
  {
    if s != [] { DigitsOfValue(s[..|s| - 1]); }
  }

  predicate Blanks(s: Bytes) {
    forall i | 0 <= i < |s| :: s[i] == 0 || s[i] == 32
  }

  lemma {:induction false} Around(x: Bytes, a: Bytes, d: Bytes, b: Bytes, y: Bytes)
    ensures x + (a + d + b) + y == (x + a) + d + (b + y)
  {}

  /** Strip takes blanks off both ends and nothing else. */
  lemma {:induction false} StripSplits(s: Bytes) returns (a: Bytes, b: Bytes)
    ensures Blanks(a) && Blanks(b) && s == a + Strip(s) + b
    ensures Strip(s) != [] ==> !Blank(Strip(s)[0]) && !Blank(Strip(s)[|Strip(s)| - 1])
    decreases |s|
  {
    a, b := [], [];
    if s != [] && Blank(s[0]) {
      a, b := StripSplits(s[1..]);
      Around([s[0]], a, Strip(s[1..]), b, []);
      assert s == [s[0]] + s[1..] + [] && b == b + [];
      a := [s[0]] + a;
    } else if s != [] && Blank(s[|s| - 1]) {
      var last := [s[|s| - 1]];
      a, b := StripSplits(s[..|s| - 1]);
      Around([], a, Strip(s[..|s| - 1]), b, last);
      assert s == [] + s[..|s| - 1] + last && a == [] + a;
      b := b + last;
    } else {
      assert s == [] + s + [];
    }
  }

  lemma {:induction false} StripUndoes(a: Bytes, d: Bytes, b: Bytes)
    requires Blanks(a) && Blanks(b) && d != [] && !Blank(d[0]) && !Blank(d[|d| - 1])
    ensures Strip(a + d + b) == d
    decreases |a| + |b|
  {
    var s := a + d + b;
    if a != [] {
      assert s[1..] == a[1..] + d + b;
      StripUndoes(a[1..], d, b);
    } else if b != [] {
      assert s[0] == d[0] && s[..|s| - 1] == a + d + b[..|b| - 1];
      StripUndoes(a, d, b[..|b| - 1]);
    } else {
      assert s == d;
    }
  }

  /** The field holds this number: its octal digits, blanks on either side. */
  ghost predicate HoldsOctal(field: Bytes, v: nat) {
    exists a, width, b :: HoldsAt(field, v, a, width, b)
  }

  ghost predicate HoldsAt(field: Bytes, v: nat, a: Bytes, width: nat, b: Bytes) {
    width > 0 && v < Power8(width) && Blanks(a) && Blanks(b) && field == a + OctalDigits(v, width) + b
  }

  /** A numeric field is read exactly as the octal number it holds. */
  lemma {:induction false} OctalMeans(field: Bytes, v: nat)
    ensures Octal(field) == Some(v) <==> HoldsOctal(field, v)
  {
    if Octal(field) == Some(v) {
      var a, b := StripSplits(field);
      DigitsOfValue(Strip(field));
      assert HoldsAt(field, v, a, |Strip(field)|, b);
    }
    if HoldsOctal(field, v) {
      var a, width, b :| HoldsAt(field, v, a, width, b);
      StripUndoes(a, OctalDigits(v, width), b);
      ValueOfDigits(v, width);
      assert field[0] == if a != [] then a[0] else OctalDigits(v, width)[0];
    }
  }

  /** A number is printed with `width` digits and a NUL. */
  function OctalField(v: nat, width: nat): (s: Bytes)
    ensures |s| == width + 1
  {
    OctalDigits(v, width) + [0]
  }

  lemma {:induction false} FieldHolds(v: nat, width: nat, b: Bytes)
    requires width > 0 && v < Power8(width) && Blanks(b)
    ensures Octal(OctalDigits(v, width) + b) == Some(v)
  {
    assert HoldsAt(OctalDigits(v, width) + b, v, [], width, b);
    OctalMeans(OctalDigits(v, width) + b, v);
  }

  // ------------------------------------------------------------------- texts

  lemma {:induction false} UpToNulIs(value: Bytes, rest: Bytes)
    requires 0 !in value && (rest != [] ==> rest[0] == 0)
    ensures UpToNul(value + rest) == value
  {
    if value != [] {
      assert (value + rest)[1..] == value[1..] + rest;
      UpToNulIs(value[1..], rest);
    } else {
      assert value + rest == rest;
    }
  }

  lemma {:induction false} UpToNulSplits(s: Bytes)
    ensures |UpToNul(s)| <= |s| && 0 !in UpToNul(s) && s[..|UpToNul(s)|] == UpToNul(s)
  {
    if s != [] && s[0] != 0 { UpToNulSplits(s[1..]); }
  }

  /** A text field is read exactly as the UTF-8 text that NULs fill it up from. */
  lemma {:induction false} TextMeans(utf8: Bytes -> bool, field: Bytes, value: Bytes)
    ensures Text(utf8, field) == Some(value) <==>
            |value| <= |field| && field == value + Zeros(|field| - |value|) && 0 !in value && utf8(value)
  {
    UpToNulSplits(field);
    if Text(utf8, field) == Some(value) {
      assert field == field[..|value|] + field[|value|..];
      assert field[|value|..] == Zeros(|field| - |value|);
    }
    if |value| <= |field| && field == value + Zeros(|field| - |value|) && 0 !in value {
      UpToNulIs(value, Zeros(|field| - |value|));
      assert field[|value|..] == Zeros(|field| - |value|);
    }
  }

  function TextField(text: Bytes, width: nat): (s: Bytes)
    requires |text| <= width
    ensures |s| == width
  {
    text + Zeros(width - |text|)
  }

  // ----------------------------------------------------------------- headers

  /** The fields of a header but for its checksum, as printed. */
  datatype Fields = Fields(name: Bytes, mode: Bytes, uid: Bytes, gid: Bytes, size: Bytes, mtime: Bytes, flag: Byte,
                           link: Bytes, magic: Bytes, owners: Bytes, prefix: Bytes, tail: Bytes)

  predicate Widths(f: Fields) {
    && |f.name| == 100 && |f.mode| == 8 && |f.uid| == 8 && |f.gid| == 8 && |f.size| == 12 && |f.mtime| == 12
    && |f.link| == 100 && |f.magic| == 8 && |f.owners| == 80 && |f.prefix| == 155 && |f.tail| == 12
  }

  function Front(f: Fields): Bytes { f.name + f.mode + f.uid + f.gid + f.size + f.mtime }

  function Back(f: Fields): Bytes { [f.flag] + f.link + f.magic + f.owners + f.prefix + f.tail }

  /** The sum of all bytes, the checksum field taken as spaces. */
  function SumOf(f: Fields): nat { Sum(Front(f) + seq(8, _ => SPACE) + Back(f)) }

  /** A header: the fields in order, and the checksum as six digits, NUL, space. */
  function PrintHeader(f: Fields): Bytes { Front(f) + (OctalDigits(SumOf(f), 6) + [0, SPACE]) + Back(f) }

  lemma {:induction false} FrontParts(f: Fields)
    requires Widths(f)
    ensures var s := Front(f);
            |s| == 148 && s[..100] == f.name && s[100..108] == f.mode && s[108..116] == f.uid && s[116..124] == f.gid &&
            s[124..136] == f.size
  {}

  lemma {:induction false} BackParts(f: Fields)
    requires Widths(f)
    ensures var s := Back(f);
            |s| == 356 && s[0] == f.flag && s[1..101] == f.link && s[101..109] == f.magic && s[189..344] == f.prefix &&
            s[189..] == f.prefix + f.tail
  {}

  lemma {:induction false} HeaderParts(f: Fields)
    requires Widths(f)
    ensures
      var h := PrintHeader(f);
      && |h| == BLOCK && h[..148] == Front(f) && h[148..156] == OctalDigits(SumOf(f), 6) + [0, SPACE]
      && h[156..] == Back(f)
  {
    FrontParts(f);
    BackParts(f);
  }

  /** Each field of a printed header is found in its place. */
  lemma {:induction false} FieldsInPlace(f: Fields)
    requires Widths(f)
    ensures
      var h := PrintHeader(f);
      && |h| == BLOCK && h[..100] == f.name && h[100..108] == f.mode && h[108..116] == f.uid && h[116..124] == f.gid
      && h[124..136] == f.size && h[156] == f.flag && h[157..257] == f.link && h[257..265] == f.magic
      && h[345..500] == f.prefix && h[345..] == f.prefix + f.tail
  {
    var h := PrintHeader(f);
    FrontParts(f);
    BackParts(f);
    HeaderParts(f);
    assert h[..100] == h[..148][..100] && h[100..108] == h[..148][100..108] && h[108..116] == h[..148][108..116];
    assert h[116..124] == h[..148][116..124] && h[124..136] == h[..148][124..136];
    assert h[156] == h[156..][0] && h[157..257] == h[156..][1..101] && h[257..265] == h[156..][101..109];
    assert h[345..500] == h[156..][189..344] && h[345..] == h[156..][189..];
  }

  lemma {:induction false} SumBound(s: Bytes)
    ensures Sum(s) <= 255 * |s|
  {
    if s != [] { SumBound(s[..|s| - 1]); }
  }

  /** A printed header carries its own checksum. */
  lemma {:induction false} PrintedChecksum(f: Fields)
    requires Widths(f)
    ensures |PrintHeader(f)| == BLOCK && ChecksumOk(PrintHeader(f))
  {
    HeaderParts(f);
    SumBound(Front(f) + seq(8, _ => SPACE) + Back(f));
    assert Power8(3) == 512 && Power8(6) == 262144;
    FieldHolds(SumOf(f), 6, [0, SPACE]);
  }

  lemma {:induction false} SumOfSpaces(n: nat)
    ensures Sum(seq(n, _ => SPACE)) == 32 * n
  {
    if n > 0 {
      var s: Bytes := seq(n, _ => SPACE);
      SumOfSpaces(n - 1);
      assert s[..n - 1] == seq(n - 1, _ => SPACE);
    }
  }

  /** A header is refused unless its checksum field holds, in octal, the sum of
      its bytes with that field taken as spaces. */
  lemma {:induction false} ChecksumExactly(utf8: Bytes -> bool, h: Bytes, longName: Option<Bytes>)
    requires |h| == BLOCK
    ensures ChecksumOk(h) <==> HoldsOctal(h[148..156], Sum(h[..148]) + 8 * 32 + Sum(h[156..]))
    ensures HeadOf(utf8, h, longName).Some? ==>
              HoldsOctal(h[148..156], Sum(h[..148]) + 8 * 32 + Sum(h[156..]))
  {
    var spaces: Bytes := seq(8, _ => SPACE);
    SumOfSpaces(8);
    SumAppends(h[..148], spaces);
    SumAppends(h[..148] + spaces, h[156..]);
    OctalMeans(h[148..156], Sum(h[..148] + spaces + h[156..]));
  }

  // --------------------------------------------------- what a header announces

  /** The field is this text, filled up with NULs. */
  predicate HoldsText(utf8: Bytes -> bool, field: Bytes, value: Bytes) {
    |value| <= |field| && field == value + Zeros(|field| - |value|) && 0 !in value && utf8(value)
  }

  /** A checksum that is right, and one of the two formats: ustar, or GNU tar
      without the fields that would replace the prefix. */
  ghost predicate Format(h: Bytes, gnu: bool)
    requires |h| == BLOCK
  {
    && HoldsOctal(h[148..156], Sum(h[..148]) + 8 * 32 + Sum(h[156..]))
    && (if gnu then h[257..265] == [117, 115, 116, 97, 114, 32, 32, 0] && AllZero(h[345..])
        else h[257..265] == [117, 115, 116, 97, 114, 0, 48, 48])
  }

  /** The header's own name: its prefix and a slash come first when it has one,
      which only a ustar header may. */
  ghost predicate OwnName(utf8: Bytes -> bool, h: Bytes, gnu: bool, name: Bytes)
    requires |h| == BLOCK
  {
    exists prefix, base ::
      && HoldsText(utf8, h[..100], base) && name == (if prefix == [] then base else prefix + [47] + base)
      && (if gnu then prefix == [] else HoldsText(utf8, h[345..500], prefix)) && 0 < |name| <= 16 * 1024
  }

  /** A regular file or directory with these properties. */
  ghost predicate Announces(utf8: Bytes -> bool, h: Bytes, longName: Option<Bytes>, gnu: bool, name: Bytes, mode: nat,
          size: nat, uid: nat, gid: nat)
  {
    && |h| == BLOCK && Format(h, gnu) && (h[156] == 0 || h[156] == 48 || h[156] == 53)
    && (h[156] == 53 ==> size == 0) && (if longName.Some? then gnu && name == longName.value
                                        else OwnName(utf8, h, gnu, name))
    && HoldsText(utf8, h[157..257], []) && HoldsOctal(h[100..108], mode) && HoldsOctal(h[108..116], uid)
    && HoldsOctal(h[116..124], gid) && HoldsOctal(h[124..136], size)
  }

  function Announced(h: Bytes, name: Bytes, mode: nat, size: nat, uid: nat, gid: nat): Entry
    requires |h| == BLOCK
  {
    if h[156] == 53 then Entry(name, WithBit(mode, 0x4000), size, 0, uid, gid)
    else Entry(name, WithBit(mode, 0x8000), size, 1, uid, gid)
  }

  /** The type bit is set and every other bit of the mode is as it was. */
  lemma {:induction false} BitIsSet(mode: nat, bit: nat)
    requires bit == 0x4000 || bit == 0x8000
    ensures var m := WithBit(mode, bit);
            m / bit % 2 == 1 && m % bit == mode % bit && m / (2 * bit) == mode / (2 * bit)
  {
    var high, low := mode / bit, mode % bit;
    assert mode == bit * high + low;
    if high % 2 == 0 {
      var m := WithBit(mode, bit);
      assert m == bit * (high + 1) + low;
      assert m / bit == high + 1 && m % bit == low;
      assert mode / (2 * bit) == high / 2 && m / (2 * bit) == (high + 1) / 2;
    }
  }

  lemma {:induction false} OwnNameMeans(utf8: Bytes -> bool, h: Bytes, gnu: bool, name: Bytes)
    requires |h| == BLOCK
    ensures NameIn(utf8, h, gnu) == Some(name) <==> OwnName(utf8, h, gnu, name)
  {
    forall value ensures Text(utf8, h[..100]) == Some(value) <==> HoldsText(utf8, h[..100], value) {
      TextMeans(utf8, h[..100], value);
    }
    forall value ensures Text(utf8, h[345..500]) == Some(value) <==> HoldsText(utf8, h[345..500], value) {
      TextMeans(utf8, h[345..500], value);
    }
    if NameIn(utf8, h, gnu) == Some(name) {
      var base := Text(utf8, h[..100]).value;
      var prefix: Bytes := if gnu then [] else Text(utf8, h[345..500]).value;
      assert HoldsText(utf8, h[..100], base);
    }
  }

  lemma {:induction false} FormatMeans(utf8: Bytes -> bool, h: Bytes, longName: Option<Bytes>, gnu: bool)
    requires |h| == BLOCK
    ensures Format(h, gnu) <==>
              ChecksumOk(h) && gnu == (h[257..265] == GNU_MAGIC) && (!gnu ==> h[257..265] == USTAR_MAGIC) &&
              (gnu ==> AllZero(h[345..]))
  {
    ChecksumExactly(utf8, h, longName);
  }

  predicate Numbers(h: Bytes, mode: nat, size: nat, uid: nat, gid: nat)
    requires |h| == BLOCK
  {
    && Octal(h[100..108]) == Some(mode) && Octal(h[108..116]) == Some(uid) && Octal(h[116..124]) == Some(gid)
    && Octal(h[124..136]) == Some(size)
  }

  lemma {:induction false} NumbersMean(h: Bytes, mode: nat, size: nat, uid: nat, gid: nat)
    requires |h| == BLOCK
    ensures Numbers(h, mode, size, uid, gid) <==>
              HoldsOctal(h[100..108], mode) && HoldsOctal(h[108..116], uid) && HoldsOctal(h[116..124], gid) &&
              HoldsOctal(h[124..136], size)
  {
    OctalMeans(h[100..108], mode);
    OctalMeans(h[108..116], uid);
    OctalMeans(h[116..124], gid);
    OctalMeans(h[124..136], size);
  }

  predicate NoLink(utf8: Bytes -> bool, h: Bytes)
    requires |h| == BLOCK
  {
    Text(utf8, h[157..257]) == Some([])
  }

  lemma {:induction false} NoLinkMeans(utf8: Bytes -> bool, h: Bytes)
    requires |h| == BLOCK
    ensures NoLink(utf8, h) <==> HoldsText(utf8, h[157..257], [])
  {
    TextMeans(utf8, h[157..257], []);
  }

  /** The same announcement, as the parser puts it. */
  predicate Parsed(utf8: Bytes -> bool, h: Bytes, longName: Option<Bytes>, gnu: bool, name: Bytes, mode: nat, size: nat,
          uid: nat, gid: nat)
  {
    && |h| == BLOCK && ChecksumOk(h) && gnu == (h[257..265] == GNU_MAGIC) && (!gnu ==> h[257..265] == USTAR_MAGIC)
    && (gnu ==> AllZero(h[345..])) && (h[156] == 0 || h[156] == 48 || h[156] == 53) && (h[156] == 53 ==> size == 0)
    && (if longName.Some? then gnu && name == longName.value else NameIn(utf8, h, gnu) == Some(name))
    && NoLink(utf8, h) && Numbers(h, mode, size, uid, gid)
  }

  lemma {:induction false} AnnouncedIsParsed(utf8: Bytes -> bool, h: Bytes, longName: Option<Bytes>, gnu: bool,
          name: Bytes, mode: nat,
          size: nat, uid: nat, gid: nat)
    ensures Announces(utf8, h, longName, gnu, name, mode, size, uid, gid) <==>
            Parsed(utf8, h, longName, gnu, name, mode, size, uid, gid)
  {
    if |h| == BLOCK {
      FormatMeans(utf8, h, longName, gnu);
      NumbersMean(h, mode, size, uid, gid);
      NoLinkMeans(utf8, h);
      if longName.None? { OwnNameMeans(utf8, h, gnu, name); }
    }
  }

  lemma {:induction false} ParsedIsRead(utf8: Bytes -> bool, h: Bytes, longName: Option<Bytes>, gnu: bool,
          name: Bytes, mode: nat,
          size: nat, uid: nat, gid: nat)
    requires Parsed(utf8, h, longName, gnu, name, mode, size, uid, gid)
    ensures HeadOf(utf8, h, longName) == Some(Payloaded(Announced(h, name, mode, size, uid, gid)))
  {}

  /** An announced entry is read as announced. */
  lemma {:induction false} AnnouncedIsRead(utf8: Bytes -> bool, h: Bytes, longName: Option<Bytes>, gnu: bool,
          name: Bytes, mode: nat,
          size: nat, uid: nat, gid: nat)
    requires Announces(utf8, h, longName, gnu, name, mode, size, uid, gid)
    ensures HeadOf(utf8, h, longName) == Some(Payloaded(Announced(h, name, mode, size, uid, gid)))
  {
    AnnouncedIsParsed(utf8, h, longName, gnu, name, mode, size, uid, gid);
    ParsedIsRead(utf8, h, longName, gnu, name, mode, size, uid, gid);
  }

  lemma {:induction false} ReadIsParsed(utf8: Bytes -> bool, h: Bytes, longName: Option<Bytes>,
          e: Entry) returns (gnu: bool, mode: nat)
    requires HeadOf(utf8, h, longName) == Some(Payloaded(e))
    ensures e.size >= 0 && e.uid >= 0 && e.gid >= 0
    ensures Parsed(utf8, h, longName, gnu, e.name, mode, e.size, e.uid, e.gid)
    ensures e == Announced(h, e.name, mode, e.size, e.uid, e.gid)
  {
    gnu, mode := h[257..265] == GNU_MAGIC, Octal(h[100..108]).value;
  }

  /** Only announced entries are read. */
  lemma {:induction false} ReadIsAnnounced(utf8: Bytes -> bool, h: Bytes, longName: Option<Bytes>, e: Entry)
    requires HeadOf(utf8, h, longName) == Some(Payloaded(e))
    ensures e.size >= 0 && e.uid >= 0 && e.gid >= 0
    ensures exists gnu, mode :: Announces(utf8, h, longName, gnu, e.name, mode, e.size, e.uid, e.gid) &&
                                e == Announced(h, e.name, mode, e.size, e.uid, e.gid)
  {
    var gnu, mode := ReadIsParsed(utf8, h, longName, e);
    AnnouncedIsParsed(utf8, h, longName, gnu, e.name, mode, e.size, e.uid, e.gid);
  }

  /** A GNU long name of `size` bytes, its NUL included, is announced. */
  ghost predicate AnnouncesLong(h: Bytes, size: nat) {
    && |h| == BLOCK && Format(h, true) && h[156] == 76 && HoldsOctal(h[124..136], size) && 1 < size <= 16 * 1024 + 1
    && exists n: nat :: h[..100] == LONG_LINK + Zeros(n)
  }

  lemma {:induction false} TrailingNulsGo(s: Bytes, n: nat)
    requires s != [] && s[|s| - 1] != 0
    ensures WithoutTrailingNuls(s + Zeros(n)) == s
  {
    if n == 0 {
      assert s + Zeros(0) == s;
    } else {
      assert (s + Zeros(n))[..|s| + n - 1] == s + Zeros(n - 1);
      TrailingNulsGo(s, n - 1);
    }
  }

  lemma {:induction false} TrailingNulsWere(s: Bytes) returns (n: nat)
    ensures s == WithoutTrailingNuls(s) + Zeros(n)
  {
    n := 0;
    if s != [] && s[|s| - 1] == 0 {
      n := TrailingNulsWere(s[..|s| - 1]);
      n := n + 1;
    }
  }

  /** A long name is read exactly where one is announced and none is pending. */
  lemma {:induction false} LongNameExactly(utf8: Bytes -> bool, h: Bytes, longName: Option<Bytes>, size: nat)
    ensures HeadOf(utf8, h, longName) == Some(LongName(size)) <==> longName.None? && AnnouncesLong(h, size)
  {
    if |h| == BLOCK {
      FormatMeans(utf8, h, longName, true);
      FormatMeans(utf8, h, longName, false);
      OctalMeans(h[124..136], size);
      var n := TrailingNulsWere(h[..100]);
      forall m: nat | h[..100] == LONG_LINK + Zeros(m) ensures WithoutTrailingNuls(h[..100]) == LONG_LINK {
        TrailingNulsGo(LONG_LINK, m);
      }
    }
  }
}

/** Member paths as `scripts/safe_extract_tar.py` normalizes them. Text is its
    UTF-8 bytes: every character the checks name is a single byte in it. */
module PayloadPaths {
  import opened Basics
  import opened Bytes

  /** Python's `split("/")`. */
  function Split(p: Bytes): (r: seq<Bytes>)
    ensures |r| >= 1
  {
    if p == [] then [[]]
    else if p[0] == SLASH then [[]] + Split(p[1..])
    else
      var r := Split(p[1..]);
      [[p[0]] + r[0]] + r[1..]
  }

  /** Python's `"/".join`. */
  function Join(parts: seq<Bytes>): Bytes {
    if parts == [] then [] else if |parts| == 1 then parts[0] else parts[0] + [SLASH] + Join(parts[1..])
  }

  lemma {:induction false} JoinPrefixed(b: Byte, parts: seq<Bytes>)
    requires parts != []
    ensures Join([[b] + parts[0]] + parts[1..]) == [b] + Join(parts)
  {
    var q := [[b] + parts[0]] + parts[1..];
    assert q[1..] == parts[1..];
    if |parts| > 1 {
      assert [b] + (parts[0] + [SLASH] + Join(parts[1..])) == ([b] + parts[0]) + [SLASH] + Join(parts[1..]);
    }
  }

  lemma {:induction false} JoinEmptyFirst(parts: seq<Bytes>)
    requires parts != []
    ensures Join([[]] + parts) == [SLASH] + Join(parts)
  {
    assert ([[]] + parts)[1..] == parts;
  }

  lemma {:induction false} JoinSplit(p: Bytes)
    ensures Join(Split(p)) == p
  {
    if p == [] {
    } else {
      JoinSplit(p[1..]);
      if p[0] == SLASH { JoinEmptyFirst(Split(p[1..])); } else { JoinPrefixed(p[0], Split(p[1..])); }
    }
  }

  // ---------------------------------------------------------- normalization

  /** The components `PurePosixPath` keeps. */
  function Kept(parts: seq<Bytes>): seq<Bytes> {
    if parts == [] then []
    else (if parts[0] == [] || parts[0] == [DOT] then [] else [parts[0]]) + Kept(parts[1..])
  }

  /** `PurePosixPath(p).as_posix()` of a relative path. */
  function AsPosix(p: Bytes): Bytes {
    if Kept(Split(p)) == [] then [DOT] else Join(Kept(Split(p)))
  }

  function Stripped(name: Bytes, directory: bool): Bytes {
    var n := if [DOT, SLASH] <= name then name[2..] else name;
    if directory && n != [] && n[|n| - 1] == SLASH then n[..|n| - 1] else n
  }

  /** `normalized_member_path`. */
  function Normalize(name: Bytes, directory: bool): Option<Bytes> {
    var n := Stripped(name, directory);
    if n == [] || BACKSLASH in n || 0 in n then None
    else if n[0] == SLASH || [DOT, DOT] in Kept(Split(n)) then None
    else if AsPosix(n) != n then None
    else Some(n)
  }

  predicate LegalPart(part: Bytes) {
    part != [] && part != [DOT] && part != [DOT, DOT]
  }

  /** What a normalized path is: the root, or components that name something. */
  predicate Canonical(p: Bytes) {
    BACKSLASH !in p && 0 !in p && (p == [DOT] || forall part | part in Split(p) :: LegalPart(part))
  }

  function Length(parts: seq<Bytes>): nat {
    if parts == [] then 0 else |parts[0]| + 1 + Length(parts[1..])
  }

  lemma {:induction false} JoinLength(parts: seq<Bytes>)
    requires parts != []
    ensures |Join(parts)| + 1 == Length(parts)
  {
    if |parts| > 1 { JoinLength(parts[1..]); }
  }

  lemma {:induction false} KeptLength(parts: seq<Bytes>)
    ensures Length(Kept(parts)) <= Length(parts)
    ensures Length(Kept(parts)) == Length(parts) ==> Kept(parts) == parts
    ensures (forall part | part in parts :: part != [] && part != [DOT]) ==> Kept(parts) == parts
    ensures forall part | part in Kept(parts) :: part != [] && part != [DOT]
  {
    if parts != [] {
      KeptLength(parts[1..]);
      assert parts == [parts[0]] + parts[1..];
      if parts[0] == [] || parts[0] == [DOT] {
        assert Kept(parts) == Kept(parts[1..]) && parts[0] in parts;
      } else {
        assert Kept(parts)[1..] == Kept(parts[1..]) && forall q | q in parts[1..] :: q in parts;
      }
    }
  }

  /** A path is its own posix text exactly when nothing in it is dropped. */
  lemma {:induction false} PosixIsItself(p: Bytes)
    requires p != []
    ensures AsPosix(p) == p <==> p == [DOT] || Kept(Split(p)) == Split(p)
  {
    JoinSplit(p);
    var parts := Split(p);
    KeptLength(parts);
    JoinLength(parts);
    if Kept(parts) != [] { JoinLength(Kept(parts)); }
    if p == [DOT] { assert Split(p[1..]) == [[]]; }
  }

  lemma {:induction false} SplitFirst(p: Bytes)
    requires p != []
    ensures p[0] == SLASH <==> Split(p)[0] == []
  {}

  /** Normalization accepts exactly the names that strip to a canonical path,
      and gives that path back. */
  lemma {:induction false} NormalizeMeans(name: Bytes, directory: bool, c: Bytes)
    ensures Normalize(name, directory) == Some(c) <==> c == Stripped(name, directory) && Canonical(c)
  {
    var n := Stripped(name, directory);
    if n == [] {
      assert Split(n) == [[]] && [] in Split(n);
    } else {
      PosixIsItself(n);
      SplitFirst(n);
      KeptLength(Split(n));
      assert Split(n)[0] in Split(n);
      if n == [DOT] {
        assert Split(n) == [[DOT]] && Kept(Split(n)) == [] by { assert Split(n[1..]) == [[]]; }
      }
    }
  }

  // -------------------------------------------------------------- ancestors

  /** `a` names a directory above `p`. */
  predicate IsAncestor(a: Bytes, p: Bytes) {
    a + [SLASH] <= p
  }

  /** The ancestors the extractor walks: joined leading components. */
  function AncestorAt(p: Bytes, i: nat): Bytes
    requires i <= |Split(p)|
  {
    Join(Split(p)[..i])
  }

  lemma {:induction false} AncestorShift(p: Bytes, i: nat)
    requires p != [] && 1 <= i
    ensures p[0] == SLASH && i < |Split(p[1..])| ==>
            i + 1 < |Split(p)| && AncestorAt(p, i + 1) == [SLASH] +
            AncestorAt(p[1..], i)
    ensures p[0] != SLASH && i < |Split(p[1..])| ==>
            i < |Split(p)| && AncestorAt(p, i) == [p[0]] +
            AncestorAt(p[1..], i)
  {
    var r := Split(p[1..]);
    if i < |r| {
      if p[0] == SLASH {
        assert Split(p)[..i + 1] == [[]] + r[..i];
        JoinEmptyFirst(r[..i]);
      } else {
        assert Split(p)[..i] == [[p[0]] + r[..i][0]] + r[..i][1..];
        JoinPrefixed(p[0], r[..i]);
      }
    }
  }

  lemma {:induction false} WalkedIsAncestor(p: Bytes, i: nat)
    requires 1 <= i < |Split(p)|
    ensures IsAncestor(AncestorAt(p, i), p)
    decreases |p|
  {
    if p[0] == SLASH {
      if i == 1 {
        assert Split(p)[..1] == [[]];
      } else {
        WalkedIsAncestor(p[1..], i - 1);
        AncestorShift(p, i - 1);
      }
    } else {
      WalkedIsAncestor(p[1..], i);
      AncestorShift(p, i);
    }
  }

  lemma {:induction false} AncestorIsWalked(a: Bytes, p: Bytes) returns (i: nat)
    requires IsAncestor(a, p)
    ensures 1 <= i < |Split(p)| && AncestorAt(p, i) == a
    decreases |p|
  {
    if p[0] == SLASH {
      if a == [] {
        i := 1;
        assert Split(p)[..1] == [[]];
      } else {
        assert a == [SLASH] + a[1..];
        var j := AncestorIsWalked(a[1..], p[1..]);
        AncestorShift(p, j);
        i := j + 1;
      }
    } else {
      assert a == [p[0]] + a[1..];
      i := AncestorIsWalked(a[1..], p[1..]);
      AncestorShift(p, i);
    }
  }

  /** The joined proper prefixes of the components are the ancestors, all of
      them and nothing else. */
  lemma {:induction false} WalkCoversAncestors(p: Bytes, a: Bytes)
    ensures (exists i: nat :: 1 <= i < |Split(p)| && AncestorAt(p, i) == a) <==> IsAncestor(a, p)
  {
    if i: nat :| 1 <= i < |Split(p)| && AncestorAt(p, i) == a { WalkedIsAncestor(p, i); }
    if IsAncestor(a, p) { var i := AncestorIsWalked(a, p); }
  }
}

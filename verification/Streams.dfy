/** Reading a payload in pieces: the source may split its bytes as it likes, and
    no reader's result depends on how it does. */
module Streams {
  import opened Basics
  import opened Bytes
  import opened Payload

  const COPY_BUFFER: nat := 1024 * 1024
  const WORD: nat := 0x1_0000_0000

  /** The byte source together with `CountingReader`: `rest` is still unread and
      `count` has been handed out. `pace` decides how short each read is. */
  class Source {
    const pace: nat -> nat
    var rest: Bytes
    var count: nat
    var turn: nat

    constructor (data: Bytes, pace: nat -> nat)
      ensures rest == data && count == 0 && this.pace == pace
    {
      this.pace := pace;
      rest, count, turn := data, 0, 0;
    }

    /** Short reads are allowed; an empty one means the end, or a zero request. */
    method Read(size: nat) returns (chunk: Bytes)
      modifies this
      ensures old(rest) == chunk + rest && |chunk| <= size && count == old(count) + |chunk|
      ensures size > 0 && old(rest) != [] ==> chunk != []
    {
      var n := if pace(turn) == 0 then 1 else pace(turn);
      turn := turn + 1;
      n := Min(n, Min(size, |rest|));
      chunk := rest[..n];
      rest := rest[n..];
      count := count + n;
    }
  }

  /** `n` bytes were read from the front of `before`. */
  ghost predicate Consumed(source: Source, before: Bytes, count: nat, n: nat)
    reads source
  {
    n <= |before| && source.rest == before[n..] && source.count == count + n
  }

  method ReadExact(source: Source, size: nat) returns (data: Option<Bytes>)
    modifies source
    ensures data.Some? <==> size <= |old(source.rest)|
    ensures data.Some? ==>
            data.value == old(source.rest)[..size] &&
            Consumed(source, old(source.rest), old(source.count), size)
  {
    var got: Bytes := [];
    while |got| < size
      invariant |got| <= size && old(source.rest) == got + source.rest && source.count == old(source.count) + |got|
      decreases size - |got|
    {
      var chunk := source.Read(size - |got|);
      if chunk == [] { return None; }
      got := got + chunk;
    }
    return Some(got);
  }

  method DiscardExact(source: Source, size: nat) returns (ok: bool)
    modifies source
    ensures ok <==> size <= |old(source.rest)|
    ensures ok ==> Consumed(source, old(source.rest), old(source.count), size)
  {
    var remaining := size;
    while remaining > 0
      invariant 0 <= remaining <= size && Consumed(source, old(source.rest), old(source.count), size - remaining)
    {
      var chunk := source.Read(Min(COPY_BUFFER, remaining));
      if chunk == [] { return false; }
      remaining := remaining - |chunk|;
    }
    return true;
  }

  /** The bytes left, if there are at most `limit` and all are zero. Which of
      the two conditions is reported can depend on the reads, but not whether
      one fails. */
  method DiscardZeroTail(source: Source, limit: nat) returns (size: Option<nat>)
    modifies source
    ensures size.Some? <==> |old(source.rest)| <= limit && AllZero(old(source.rest))
    ensures size.Some? ==> size.value == |old(source.rest)| && source.rest == []
  {
    ghost var all := source.rest;
    var consumed := 0;
    while true
      invariant consumed <= limit && consumed <= |all| && source.rest == all[consumed..] && AllZero(all[..consumed])
      decreases |all| - consumed
    {
      var chunk := source.Read(Min(COPY_BUFFER, limit - consumed + 1));
      if chunk == [] {
        assert all[..consumed] == all;
        return Some(consumed);
      }
      assert chunk == all[consumed..][..|chunk|] == all[consumed..consumed + |chunk|];
      consumed := consumed + |chunk|;
      if consumed > limit { return None; }
      if !AllZero(chunk) {
        ghost var i :| 0 <= i < |chunk| && chunk[i] != 0;
        assert all[consumed - |chunk| + i] != 0;
        return None;
      }
    }
  }

  /** `BoundedMemberReader`, and with `withCrc` also `CPIOMemberReader`. */
  class MemberReader {
    const source: Source
    const withCrc: bool
    var remaining: nat
    var crc: nat
    ghost var got: Bytes

    constructor (source: Source, size: nat, withCrc: bool)
      ensures this.source == source && this.withCrc == withCrc && remaining == size && got == [] && Valid()
    {
      this.source, this.withCrc := source, withCrc;
      remaining, crc, got := size, 0, [];
    }

    /** The running checksum is the byte sum modulo 2^32. */
    ghost predicate Valid()
      reads this
    {
      crc == if withCrc then Sum(got) % WORD else 0
    }

    method Read(size: nat) returns (chunk: Option<Bytes>)
      requires Valid()
      modifies this, source
      ensures Valid()
      ensures var n := Min(size, old(remaining));
              && (chunk.Some? <==> n <= |old(source.rest)|)
              && (chunk.Some? ==>
                  |chunk.value| == n && chunk.value == old(source.rest)[..n] &&
                  remaining == old(remaining) - n &&
                                  got == old(got) + chunk.value &&
                                      Consumed(source, old(source.rest), old(source.count), n))
    {
      if remaining == 0 { return Some([]); }
      chunk := ReadExact(source, Min(size, remaining));
      if chunk.Some? {
        remaining := remaining - |chunk.value|;
        if withCrc {
          SumAppends(got, chunk.value);
          crc := (crc + Sum(chunk.value)) % WORD;
        }
        got := got + chunk.value;
      }
    }
  }

  /** The reader has passed on exactly the next `size` bytes of its source. */
  ghost predicate Drained(m: MemberReader, before: Bytes, count: nat, size: nat)
    reads m, m.source
  {
    m.Valid() && m.remaining == 0 && size <= |before| && m.got == before[..size] &&
        Consumed(m.source, before, count, size)
  }

  /** `discard_exact` on a member. */
  method DiscardMember(m: MemberReader, size: nat) returns (ok: bool)
    requires m.Valid() && m.remaining == size && m.got == []
    modifies m, m.source
    ensures ok <==> size <= |old(m.source.rest)|
    ensures ok ==> Drained(m, old(m.source.rest), old(m.source.count), size)
  {
    ghost var all, count := m.source.rest, m.source.count;
    var remaining := size;
    while remaining > 0
      invariant m.Valid() && m.remaining == remaining <= size && size - remaining <= |all| &&
                m.got == all[..size - remaining]
      invariant Consumed(m.source, all, count, size - remaining)
    {
      var chunk := m.Read(Min(COPY_BUFFER, remaining));
      if chunk.None? { return false; }
      remaining := remaining - |chunk.value|;
    }
    return true;
  }

  /** `write_selected`: stages the member's bytes with its permissions. */
  method WriteSelected(x: RuntimePayloadExtractor, m: MemberReader, output: Bytes, size: nat,
          mode: nat) returns (ok: bool)
    requires m.Valid() && m.remaining == size && m.got == []
    requires x.Valid() && output !in x.staged && x.layout.root + [SLASH] + output in x.files
    modifies x`staged, m, m.source
    ensures x.Valid()
    ensures ok <==> size <= |old(m.source.rest)|
    ensures ok ==> Drained(m, old(m.source.rest), old(m.source.count), size)
    ensures x.staged == if ok then old(x.staged)[output := (Permissions(mode), old(m.source.rest)[..size])]
            else old(x.staged)
  {
    ghost var all, count := m.source.rest, m.source.count;
    var content: Bytes := [];
    while |content| < size
      invariant x.staged == old(x.staged)
      invariant m.Valid() && |content| <= size && m.remaining == size - |content| && m.got == content
      invariant |content| <= |all| && content == all[..|content|] && Consumed(m.source, all, count, |content|)
    {
      var chunk := m.Read(Min(COPY_BUFFER, size - |content|));
      if chunk.None? { return false; }
      content := content + chunk.value;
    }
    assert content == all[..size];
    x.staged := x.staged[output := (Permissions(mode), content)];
    return true;
  }

  /** A member behind its header, in either format: inspected, then staged or
      read past. `crc` is its running checksum. */
  method TakeMember(source: Source, x: RuntimePayloadExtractor, e: Entry, withCrc: bool) returns (ok: bool, crc: nat)
    requires x.Valid() && e.size >= 0
    modifies source, x`files, x`entryCount, x`totalBytes, x`staged, x`members
    ensures var s := old(source.rest);
            && (ok <==> e.size <= |s| && Take(x.layout, old(x.State()), e, s[..e.size]).Some?)
            && (ok ==> x.Valid() && Some(x.State()) == Take(x.layout, old(x.State()), e, s[..e.size]) &&
                       Consumed(source, s, old(source.count), e.size) && (withCrc ==> crc == Sum(s[..e.size]) % WORD))
  {
    ghost var s, before := source.rest, x.State();
    var output := x.Inspect(e);
    if output.None? { return false, 0; }
    var member := new MemberReader(source, e.size, withCrc);
    if output.value.Some? {
      ok := WriteSelected(x, member, output.value.value, e.size, e.mode);
    } else {
      ok := DiscardMember(member, e.size);
    }
    if !ok { return false, 0; }
    x.members := x.members + [Member(e.name, e.mode, s[..e.size])];
    assert Some(x.State()) == Take(x.layout, before, e, s[..e.size]);
    return true, member.crc;
  }
}

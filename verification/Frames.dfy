/** The loop both payload parsers are: take the next frame off the stream, hand
    a member to the extractor, go on behind it. */
module Frames {
  import opened Basics
  import opened Bytes
  import opened PathIndex
  import opened Payload

  /** The next frame of a stream: the end, a member with its data, or metadata;
      `size` bytes belong to it, and the loop goes on in state `then`. */
  datatype Frame<K> = Reject | End | Next(entry: Entry, data: Bytes, size: nat, after: K) | Skip(size: nat, after: K)

  /** `count` bytes of the stream have been read, `s` are still to come. */
  type Framer<!K> = (Bytes, nat, K) -> Frame<K>

  type Taker<!P> = (P, Entry, Bytes) -> Option<P>

  predicate Moves<K>(frame: Frame<K>, s: Bytes) {
    (frame.Next? || frame.Skip?) && 0 < frame.size <= |s|
  }

  /** Every frame is a non-empty piece of the stream, so the loop terminates on
      the bytes that remain. */
  function Loop<K, P>(framer: Framer<K>, taker: Taker<P>, s: Bytes, count: nat, k: K, p: P): Option<P>
    decreases |s|
  {
    var frame := framer(s, count, k);
    if frame.End? then Some(p)
    else if !Moves(frame, s) then None
    else if frame.Skip? then Loop(framer, taker, s[frame.size..], count + frame.size, frame.after, p)
    else match taker(p, frame.entry, frame.data)
         case None => None
         case Some(next) => Loop(framer, taker, s[frame.size..], count + frame.size, frame.after, next)
  }

  /** How one turn of the loop leaves it. */
  datatype Turn<K> = Failed | Finished | More(after: K)

  /** One turn, from progress `p` on stream `s` to progress `q` on stream `t`. */
  ghost predicate Turned<K, P>(framer: Framer<K>, taker: Taker<P>, s: Bytes, count: nat, k: K, p: P, turn: Turn<K>,
          t: Bytes, n: nat, q: P) {
    var frame := framer(s, count, k);
    match turn
    case Finished => frame.End? && q == p
    case Failed => frame.Reject? || (frame.Next? && taker(p, frame.entry, frame.data).None?)
    case More(after) =>
      && Moves(frame, s) && frame.after == after && t == s[frame.size..] && n == count + frame.size
      && (if frame.Next? then taker(p, frame.entry, frame.data) == Some(q) else q == p)
  }

  lemma {:induction false} TurnsLoop<K,
          P>(framer: Framer<K>, taker: Taker<P>, s: Bytes, count: nat, k: K, p: P, turn: Turn<K>, t: Bytes,
          n: nat, q: P)
    requires Turned(framer, taker, s, count, k, p, turn, t, n, q)
    ensures turn.More? ==> |t| < |s|
    ensures Loop(framer, taker, s, count, k, p) ==
            match turn {
              case Failed => None
              case Finished => Some(q)
              case More(after) => Loop(framer, taker, t, n, after, q)
            }
  {}

  /** Where the loop looks for a header. */
  function Offsets<K>(framer: Framer<K>, s: Bytes, count: nat, k: K): seq<nat>
    decreases |s|
  {
    var frame := framer(s, count, k);
    [count] + if Moves(frame, s) then Offsets(framer, s[frame.size..], count + frame.size, frame.after) else []
  }

  predicate KeepsAligned<K>(framer: Framer<K>, aligned: nat -> bool, s: Bytes, count: nat, k: K) {
    var frame := framer(s, count, k);
    aligned(count) && Moves(frame, s) ==> aligned(count + frame.size)
  }

  /** Frames whose sizes keep an alignment keep every header aligned. */
  lemma {:induction false} OffsetsAligned<K(!new)>(framer: Framer<K>, aligned: nat -> bool, s: Bytes, count: nat, k: K)
    requires aligned(count)
    requires forall t, n, j :: KeepsAligned(framer, aligned, t, n, j)
    ensures forall at | at in Offsets(framer, s, count, k) :: aligned(at)
    decreases |s|
  {
    var frame := framer(s, count, k);
    if Moves(frame, s) {
      assert KeepsAligned(framer, aligned, s, count, k);
      OffsetsAligned(framer, aligned, s[frame.size..], count + frame.size, frame.after);
    }
  }

  predicate EndsAligned<K>(framer: Framer<K>, aligned: nat -> bool, s: Bytes, count: nat, k: K) {
    aligned(count) && framer(s, count, k).End? ==> aligned(count + |s|)
  }

  /** An accepted stream ends on the same alignment. */
  lemma {:induction false} AcceptedAligned<K(!new),
          P>(framer: Framer<K>, taker: Taker<P>, aligned: nat -> bool, s: Bytes, count: nat, k: K, p: P)
    requires aligned(count) && Loop(framer, taker, s, count, k, p).Some?
    requires forall t, n, j :: KeepsAligned(framer, aligned, t, n, j)
    requires forall t, n, j :: EndsAligned(framer, aligned, t, n, j)
    ensures aligned(count + |s|)
    decreases |s|
  {
    var frame := framer(s, count, k);
    assert KeepsAligned(framer, aligned, s, count, k) && EndsAligned(framer, aligned, s, count, k);
    if frame.Skip? {
      AcceptedAligned(framer, taker, aligned, s[frame.size..], count + frame.size, frame.after, p);
    } else if frame.Next? {
      AcceptedAligned(framer, taker, aligned, s[frame.size..], count + frame.size, frame.after,
          taker(p, frame.entry, frame.data).value);
    }
  }

  /** Members taken one after another. */
  function TakeAll<P>(taker: Taker<P>, p: P, es: seq<(Entry, Bytes)>): Option<P>
    decreases es
  {
    if es == [] then Some(p)
    else match taker(p, es[0].0, es[0].1)
         case None => None
         case Some(next) => TakeAll(taker, next, es[1..])
  }

  function Concat(pieces: seq<Bytes>): Bytes {
    if pieces == [] then [] else pieces[0] + Concat(pieces[1..])
  }

  /** In front of any stream, `piece` is taken as the member `e`. */
  predicate Recognizes<K>(framer: Framer<K>, e: (Entry, Bytes), piece: Bytes, t: Bytes, n: nat, k: K, good: K -> bool) {
    var frame := framer(piece + t, n, k);
    piece != [] && frame.Next? && frame.entry == e.0 && frame.data == e.1 && frame.size == |piece| && good(frame.after)
  }

  ghost predicate Prints<K(!new)>(framer: Framer<K>, e: (Entry, Bytes), piece: Bytes, good: K -> bool) {
    forall t, n, j | good(j) :: Recognizes(framer, e, piece, t, n, j, good)
  }

  /** A stream made of printed members and an end is parsed into exactly those
      members, if the framer recognizes each of them in front of any stream. */
  lemma {:induction false} LoopTakesPrinted<K(!new),
          P>(framer: Framer<K>, taker: Taker<P>, es: seq<(Entry, Bytes)>, pieces: seq<Bytes>,
                                                        last: Bytes, count: nat, k: K, p: P, good: K -> bool)
    requires |pieces| == |es| && good(k)
    requires forall i | 0 <= i < |es| :: Prints(framer, es[i], pieces[i], good)
    requires forall j | good(j) :: framer(last, count + |Concat(pieces)|, j).End?
    ensures Loop(framer, taker, Concat(pieces) + last, count, k, p) == TakeAll(taker, p, es)
    decreases es
  {
    if es == [] {
      assert Concat(pieces) + last == last;
    } else {
      var rest := Concat(pieces[1..]) + last;
      assert Concat(pieces) + last == pieces[0] + rest;
      assert Prints(framer, es[0], pieces[0], good) && Recognizes(framer, es[0], pieces[0], rest, count, k, good);
      assert (pieces[0] + rest)[|pieces[0]|..] == rest;
      var taken := taker(p, es[0].0, es[0].1);
      if taken.Some? {
        LoopTakesPrinted(framer, taker, es[1..], pieces[1..], last, count + |pieces[0]|,
            framer(pieces[0] + rest, count, k).after, taken.value, good);
      }
    }
  }

  // ------------------------------------------------------- what is extracted

  function TakerOf(layout: Layout): Taker<Progress> {
    (p, e, data) => Take(layout, p, e, data)
  }

  function Entries(es: seq<(Entry, Bytes)>): seq<Entry> {
    if es == [] then [] else [es[0].0] + Entries(es[1..])
  }

  function Members(es: seq<(Entry, Bytes)>): seq<Member> {
    if es == [] then [] else [Member(es[0].0.name, es[0].0.mode, es[0].1)] + Members(es[1..])
  }

  lemma {:induction false} MembersAt(es: seq<(Entry, Bytes)>)
    ensures |Members(es)| == |es|
    ensures forall i | 0 <= i < |es| :: Members(es)[i] == Member(es[i].0.name, es[i].0.mode, es[i].1)
  {
    if es != [] { MembersAt(es[1..]); }
  }

  /** One member taken is one entry inspected, and recorded as it came. */
  predicate Extends(taker: Taker<Progress>, inspect: (Index, Entry) -> Option<Index>, p: Progress, e: Entry,
          data: Bytes) {
    var taken := taker(p, e, data);
    && (taken.Some? <==> inspect(p.index, e).Some?)
    && (taken.Some? ==>
        taken.value.index == inspect(p.index, e).value && taken.value.members == p.members +
        [Member(e.name, e.mode, data)])
  }

  lemma {:induction false} OneMember(before: seq<Member>, m: Member, rest: seq<Member>)
    ensures before + [m] + rest == before + ([m] + rest)
  {}

  lemma {:induction false} TakenUnfolds(taker: Taker<Progress>, p: Progress, es: seq<(Entry, Bytes)>)
    requires es != []
    ensures var taken := taker(p, es[0].0, es[0].1);
            TakeAll(taker, p, es) == if taken.None? then None else TakeAll(taker, taken.value, es[1..])
  {}

  lemma {:induction false} InspectUnfolds(inspect: (Index, Entry) -> Option<Index>, ix: Index, es: seq<(Entry, Bytes)>)
    requires es != []
    ensures var next := inspect(ix, es[0].0);
            InspectEach(inspect, ix, Entries(es)) == if next.None? then None
                else InspectEach(inspect, next.value, Entries(es[1..]))
  {
    assert Entries(es)[1..] == Entries(es[1..]);
  }

  lemma {:induction false} TakesEach(taker: Taker<Progress>, inspect: (Index, Entry) -> Option<Index>, p: Progress,
          es: seq<(Entry, Bytes)>)
    requires forall q, e, data :: Extends(taker, inspect, q, e, data)
    ensures TakeAll(taker, p, es).Some? <==> InspectEach(inspect, p.index, Entries(es)).Some?
    ensures TakeAll(taker, p, es).Some? ==> TakeAll(taker, p, es).value.members == p.members + Members(es)
    decreases es
  {
    if es != [] {
      assert Extends(taker, inspect, p, es[0].0, es[0].1);
      TakenUnfolds(taker, p, es);
      InspectUnfolds(inspect, p.index, es);
      var taken := taker(p, es[0].0, es[0].1);
      if taken.Some? {
        TakesEach(taker, inspect, taken.value, es[1..]);
        OneMember(p.members, Member(es[0].0.name, es[0].0.mode, es[0].1), Members(es[1..]));
      }
    }
  }

  /** All members are taken exactly when `inspect` admits all entries, and each
      of them is passed on with its name, mode and bytes. */
  lemma {:induction false} TakesWhatIsInspected(layout: Layout, es: seq<(Entry, Bytes)>)
    ensures TakeAll(TakerOf(layout), START, es).Some? <==> InspectAll(layout, EMPTY, Entries(es)).Some?
    ensures TakeAll(TakerOf(layout), START, es).Some? ==>
            TakeAll(TakerOf(layout), START, es).value.members == Members(es)
  {
    forall q, e, data ensures Extends(TakerOf(layout), Inspector(layout), q, e, data) {}
    TakesEach(TakerOf(layout), Inspector(layout), START, es);
  }
}

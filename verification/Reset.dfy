/** The fenced configuration reset of the gateway: several renames into an
    archive, undone in reverse when one fails, with a crash after any operation
    and unsynced renames surviving it in any subset. */
module Reset {
  import opened Basics

  datatype Place = Root | Archive

  /** What a crash can find: the places each configuration file may be in, and
      whether the reset marker may be there. */
  datatype Snapshot = Snapshot(could: map<string, set<Place>>, fence: set<bool>)

  /** What a crash did find. A rename moves a file, so it is in one place. */
  datatype Disk = Disk(place: map<string, Place>, fenced: bool)

  predicate CrashesInto(s: Snapshot, d: Disk) {
    d.fenced in s.fence && d.place.Keys == s.could.Keys && forall n | n in d.place :: d.place[n] in s.could[n]
  }

  predicate AllAt(d: Disk, p: Place) {
    forall n | n in d.place :: d.place[n] == p
  }

  predicate SettledAt(s: Snapshot, p: Place) {
    forall n | n in s.could :: s.could[n] == {p}
  }

  predicate Safe(s: Snapshot) {
    false in s.fence ==> SettledAt(s, Root) || SettledAt(s, Archive)
  }

  /** Whatever subset of the unsynced operations survives, a gateway that starts
      without seeing the marker finds its configuration whole or wholly gone. */
  lemma {:induction false} NeverPartial(s: Snapshot, d: Disk)
    requires Safe(s) && CrashesInto(s, d) && !d.fenced
    ensures AllAt(d, Root) || AllAt(d, Archive)
  {
    var p := if SettledAt(s, Root) then Root else Archive;
    forall n | n in d.place ensures d.place[n] == p { assert d.place[n] in s.could[n]; }
  }

  datatype MarkerFate = NotWritten | NotSynced | Written

  /** Which operations succeed: the marker's write, the moves and their
      restorations by position, and the later syncs and removals. */
  datatype Io = Io(marker: MarkerFate, moves: nat -> bool, restores: nat -> bool,
                   restoreSync: bool, restoreClear: bool, sync: bool, clear: bool, finalSync: bool)

  datatype Outcome = Refused | NotRecorded | Restored | Retained | Undurable | Completed

  /** Restoring the first `n` moves succeeds, and is settled. */
  predicate GoesBack(io: Io, n: nat) {
    (forall k | 0 <= k < n :: io.restores(k)) && io.restoreSync && io.restoreClear
  }

  predicate AllMove(io: Io, n: nat) {
    forall k | 0 <= k < n :: io.moves(k)
  }

  /** How a reset ends whose move `n` failed. */
  function UndoneAt(io: Io, n: nat): Outcome {
    if GoesBack(io, n) then Restored else Retained
  }

  /** The first move of `n` that fails. */
  predicate FailsAt(io: Io, n: nat, i: nat) {
    i < n && !io.moves(i) && AllMove(io, i)
  }

  /** How a reset of `n` files ends, by the operations that succeed: it is refused
      behind a marker or without files; without the written marker nothing is
      recorded; a failed move is undone, where everything goes back, or leaves
      the marker; and otherwise the archive is complete, durably if the marker's
      removal is. */
  ghost function OutcomeOf(fenced: bool, n: nat, io: Io): Outcome {
    if fenced || n == 0 then Refused
    else if !io.marker.Written? then NotRecorded
    else if exists i :: FailsAt(io, n, i) then
      var i :| FailsAt(io, n, i); UndoneAt(io, i)
    else if !io.sync then Retained
    else if io.clear && io.finalSync then Completed else Undurable
  }

  /** An undisturbed reset completes. */
  lemma {:induction false} UndisturbedCompletes(n: nat, io: Io)
    requires n > 0 && io.marker.Written? && io.sync && io.clear && io.finalSync && AllMove(io, n)
    ensures OutcomeOf(false, n, io) == Completed
  {}

  lemma {:induction false} FirstFailure(io: Io, n: nat)
    ensures AllMove(io, n) <==> !exists i :: FailsAt(io, n, i)
  {
    if n > 0 {
      var m := n - 1;
      FirstFailure(io, m);
      if !AllMove(io, m) {
        var i :| FailsAt(io, m, i);
        assert FailsAt(io, n, i);
      } else if !io.moves(m) {
        assert FailsAt(io, n, m);
      }
    }
  }

  class GatewayState {
    var place: map<string, Place>
    var fenced: bool
    ghost var could: map<string, set<Place>>
    ghost var fence: set<bool>
    /** An operation so far has left a snapshot that is not safe. */
    ghost var exposed: bool

    /** A state root as it is at rest: its configuration files, no marker. */
    constructor (files: set<string>)
      ensures Valid() && place.Keys == files && AtRest(Root) && !fenced && !exposed
    {
      place := map n | n in files :: Root;
      fenced := false;
      could := map n | n in files :: {Root};
      fence, exposed := {false}, false;
    }

    ghost predicate Valid()
      reads this
    {
      place.Keys == could.Keys && fenced in fence && forall n | n in place :: place[n] in could[n]
    }

    ghost function Now(): Snapshot
      reads this
    {
      Snapshot(could, fence)
    }

    /** Every file is at `p`, durably, and so is the marker's presence. */
    ghost predicate AtRest(p: Place)
      reads this
    {
      SettledAt(Now(), p) && fence == {fenced} && forall n | n in place :: place[n] == p
    }

    // ----------------------------------------------------------- operations

    method WriteMarker(fate: MarkerFate)
      requires Valid()
      modifies `fenced, `fence, `exposed
      ensures Valid() && exposed == (old(exposed) || !Safe(Now()))
      ensures fate.NotWritten? ==> fenced == old(fenced) && fence == old(fence)
      ensures fate.NotSynced? ==> fenced && fence == old(fence) + {true}
      ensures fate.Written? ==> fenced && fence == {true}
    {
      if !fate.NotWritten? {
        fenced := true;
        fence := if fate.Written? then {true} else fence + {true};
      }
      exposed := exposed || !Safe(Now());
    }

    method RemoveMarker(ok: bool)
      requires Valid()
      modifies `fenced, `fence, `exposed
      ensures Valid() && exposed == (old(exposed) || !Safe(Now()))
      ensures if ok then !fenced && fence == old(fence) + {false} else fenced == old(fenced) && fence == old(fence)
    {
      if ok {
        fenced := false;
        fence := fence + {false};
      }
      exposed := exposed || !Safe(Now());
    }

    method Rename(name: string, to: Place, ok: bool)
      requires Valid() && name in place
      modifies `place, `could, `exposed
      ensures Valid() && exposed == (old(exposed) || !Safe(Now()))
      ensures place == if ok then old(place)[name := to] else old(place)
      ensures could == if ok then old(could)[name := old(could)[name] + {to}] else old(could)
    {
      if ok {
        place := place[name := to];
        could := could[name := could[name] + {to}];
      }
      exposed := exposed || !Safe(Now());
    }

    /** A sync of the directories involved settles everything done so far. */
    method Sync(ok: bool)
      requires Valid()
      modifies `could, `fence, `exposed
      ensures Valid() && exposed == (old(exposed) || !Safe(Now()))
      ensures ok ==> fence == {fenced} && could == map n | n in place :: {place[n]}
      ensures !ok ==> fence == old(fence) && could == old(could)
    {
      if ok {
        fence := {fenced};
        could := map n | n in place :: {place[n]};
      }
      exposed := exposed || !Safe(Now());
    }

    // ---------------------------------------------------------------- reset

    /** Moves the files back in reverse order; reports whether all went back. */
    method Restore(moved: seq<string>, io: Io) returns (all: bool)
      requires Valid() && fence == {true} && (forall n | n in moved :: n in place)
      modifies `place, `could, `exposed
      ensures Valid() && exposed == old(exposed) && place.Keys == old(place).Keys
      ensures forall n | n in place && n !in moved :: place[n] == old(place)[n]
      ensures all ==> forall n | n in moved :: place[n] == Root
      ensures all <==> forall k | 0 <= k < |moved| :: io.restores(k)
    {
      all := true;
      var i := |moved|;
      while i > 0
        invariant 0 <= i <= |moved| && Valid() && fence == {true} && exposed == old(exposed) &&
                  place.Keys == old(place).Keys
        invariant forall n | n in place && n !in moved :: place[n] == old(place)[n]
        invariant all ==> forall k | i <= k < |moved| :: place[moved[k]] == Root
        invariant all <==> forall k | i <= k < |moved| :: io.restores(k)
      {
        i := i - 1;
        Rename(moved[i], Root, io.restores(i));
        if !io.restores(i) { all := false; }
      }
      assert all ==> forall n | n in moved :: exists k | 0 <= k < |moved| :: moved[k] == n;
    }

    /** The way back after a failed move. */
    method Undo(moved: seq<string>, io: Io) returns (r: Outcome)
      requires Valid() && fenced && fence == {true} && (forall n | n in moved :: n in place)
      requires forall n | n in place && n !in moved :: place[n] == Root
      modifies this
      ensures Valid() && exposed == old(exposed) && place.Keys == old(place).Keys
      ensures r == Restored || r == Retained
      ensures r == Restored <==> GoesBack(io, |moved|)
      ensures r == Restored ==> SettledAt(Now(), Root) && !fenced && forall n | n in place :: place[n] == Root
      ensures r == Retained ==> fenced && fence == {true}
    {
      var all := Restore(moved, io);
      if all {
        Sync(io.restoreSync);
        if io.restoreSync {
          RemoveMarker(io.restoreClear);
          if io.restoreClear { return Restored; }
        }
      }
      return Retained;
    }

    /** Moves the files in order, up to the first move that fails. */
    method MoveFirst(present: seq<string>, io: Io) returns (done: nat)
      requires Valid() && fence == {true} && (forall n | n in present :: n in place)
      requires forall n | n in place :: place[n] == Root
      modifies `place, `could, `exposed
      ensures Valid() && exposed == old(exposed) && place.Keys == old(place).Keys
      ensures done <= |present| && AllMove(io, done) && (done < |present| ==> !io.moves(done))
      ensures forall n | n in place :: place[n] == if n in present[..done] then Archive else Root
    {
      done := 0;
      while done < |present|
        invariant done <= |present| && Valid() && fence == {true} && exposed == old(exposed)
        invariant place.Keys == old(place).Keys && AllMove(io, done)
        invariant forall n | n in place :: place[n] == if n in present[..done] then Archive else Root
      {
        Rename(present[done], Archive, io.moves(done));
        if !io.moves(done) { return; }
        assert present[..done + 1] == present[..done] + [present[done]];
        done := done + 1;
      }
    }

    /** The moves; `stopped` is the outcome when one of them failed. */
    method MoveAll(present: seq<string>, io: Io) returns (stopped: Option<Outcome>)
      requires Valid() && fenced && fence == {true} && (forall n :: n in present <==> n in place)
      requires forall n | n in place :: place[n] == Root
      modifies this
      ensures Valid() && exposed == old(exposed) && place.Keys == old(place).Keys
      ensures stopped.None? ==> fenced && fence == {true} && forall n | n in place :: place[n] == Archive
      ensures stopped.None? <==> AllMove(io, |present|)
      ensures stopped.Some? ==> exists i :: FailsAt(io, |present|, i) && stopped.value == UndoneAt(io, i)
      ensures stopped == Some(Restored) ==> SettledAt(Now(), Root) && !fenced && forall n | n in place ::
              place[n] == Root
      ensures stopped == Some(Retained) ==> fenced && fence == {true}
    {
      var done := MoveFirst(present, io);
      if done == |present| {
        assert present[..done] == present;
        return None;
      }
      assert FailsAt(io, |present|, done);
      var outcome := Undo(present[..done], io);
      return Some(outcome);
    }

    /** Everything is in the archive: settle it, then lift the fence. */
    method Conclude(io: Io) returns (r: Outcome)
      requires Valid() && fenced && fence == {true} && forall n | n in place :: place[n] == Archive
      modifies this
      ensures Valid() && exposed == old(exposed) && place == old(place)
      ensures r == Retained ==> fenced && fence == {true}
      ensures r == (if !io.sync then Retained else if io.clear && io.finalSync then Completed else Undurable)
      ensures r == Undurable || r == Completed ==> SettledAt(Now(), Archive)
      ensures r == Completed ==> !fenced && fence == {false}
    {
      Sync(io.sync);
      if !io.sync { return Retained; }
      RemoveMarker(io.clear);
      if !io.clear { return Undurable; }
      Sync(io.finalSync);
      return if io.finalSync then Completed else Undurable;
    }

    /** `resetGatewayConfiguration`, from the pending check on: no operation on
        the way leaves a disk that a crash could expose. */
    method ResetGatewayConfiguration(present: seq<string>, io: Io) returns (r: Outcome)
      requires Valid() && AtRest(Root) && (forall n :: n in present <==> n in place)
      modifies this
      ensures Valid() && exposed == old(exposed) && place.Keys == old(place).Keys
      ensures r == OutcomeOf(old(fenced), |present|, io)
      ensures r == Refused || r == NotRecorded || r == Restored ==> SettledAt(Now(), Root) && forall n | n in place ::
              place[n] == Root
      ensures r == Restored ==> !fenced
      ensures r == Retained ==> fenced && fence == {true}
      ensures r == Undurable || r == Completed ==> SettledAt(Now(), Archive) && forall n | n in place ::
              place[n] == Archive
      ensures r == Completed ==> !fenced && fence == {false}
    {
      if fenced || present == [] { return Refused; }
      WriteMarker(io.marker);
      if io.marker != Written { return NotRecorded; }
      FirstFailure(io, |present|);
      var stopped := MoveAll(present, io);
      if stopped.Some? { return stopped.value; }
      r := Conclude(io);
    }
  }
}

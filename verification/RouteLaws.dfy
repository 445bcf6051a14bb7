/** What each operation on the cloud route does, stated on the stored log and the
    request alone, and over whole runs where a committed route comes from. */
module RouteLaws {
  import opened Basics
  import opened Routes

  // ------------------------------------------------------------ one operation

  /** The route that a request asks for is valid in this configuration. */
  predicate Fits(k: Checks, c: Config, expected: int, selection: Selection) {
    k.valid(c.surroundings, Route(selection, expected + 1))
  }

  function Coordinates(k: Checks, c: Config, expected: int, selection: Selection): string {
    k.digest(c.surroundings, c.association, Route(selection, expected + 1))
  }

  function RevisionOf(c: Config): int {
    match c.route case None => 0 case Some(r) => r.revision
  }

  lemma {:induction false} FindExactly(log: seq<Operation>, id: string, op: Operation)
    requires UniqueIds(log)
    ensures Find(log, id) == Some(op) <==> op in log && op.id == id
  {
    FindIs(log, id);
    if op in log && op.id == id && Find(log, id).Some? { SameId(log, op, Find(log, id).value); }
  }

  lemma {:induction false} FindNothing(log: seq<Operation>, id: string)
    ensures Find(log, id).None? <==> forall op | op in log :: op.id != id
  {
    FindIs(log, id);
  }

  /** The request meets the configuration it was made for. */
  predicate Asked(k: Checks, seen: Config, q: Preflight) {
    k.idOk(q.id) && RevisionOf(seen) == q.expected && q.expected != 0x7fff_ffff_ffff_ffff
  }

  /** The same request was recorded before. */
  predicate Answered(q: Preflight, op: Operation) {
    op.id == q.id && op.expected == q.expected && op.selection == q.selection
  }

  /** No record has the request's id, its route is valid and reached the cloud,
      and none of what that rests on has changed since. */
  predicate Storable(k: Checks, current: Config, seen: Config, q: Preflight, probed: bool) {
    && Asked(k, seen, q) && probed && (forall op | op in seen.log :: op.id != q.id)
    && Fits(k, seen, q.expected, q.selection) && Fits(k, current, q.expected, q.selection)
    && seen.association == current.association && RevisionOf(current) == q.expected
    && Coordinates(k, current, q.expected, q.selection) == Coordinates(k, seen, q.expected, q.selection)
  }

  /** A request is recorded exactly when it is new and its route is valid, was
      reached and still the one probed; then a record awaiting its commit joins
      the newest 31, and nothing else changes. */
  lemma {:induction false} PreflightExactly(k: Checks, current: Config, seen: Config, q: Preflight, probed: bool,
          expires: int)
    requires UniqueIds(seen.log) && UniqueIds(current.log)
    ensures
      var (next, r) := PreflightRoute(k, current, seen, q, probed, expires);
      var stores := Storable(k, current, seen, q, probed) && forall op | op in current.log :: op.id != q.id;
      && (r.Ok? <==>
          || stores || (Asked(k, seen, q) && exists op :: op in seen.log && Answered(q, op))
          || (Storable(k, current, seen, q, probed) && exists op :: op in current.log && Answered(q, op)))
      && (r.Ok? ==> Answered(q, r.value) && (stores || r.value in seen.log || r.value in current.log))
      && (!stores ==> next == current)
      && (stores ==>
          && r.value == Operation(q.id, q.expected, current.association, q.selection,
                            Coordinates(k, current, q.expected, q.selection), Awaiting, expires, 0)
          && next == current.(log := (if |current.log| < 32 then current.log else current.log[|current.log| - 31..]) +
                            [r.value]))
  {
    FindNothing(seen.log, q.id);
    FindNothing(current.log, q.id);
    FoundAnswers(seen.log, q);
    FoundAnswers(current.log, q);
  }

  lemma {:induction false} FoundAnswers(log: seq<Operation>, q: Preflight)
    requires UniqueIds(log)
    ensures Find(log, q.id).Some? ==> Find(log, q.id).value in log && Find(log, q.id).value.id == q.id
    ensures (exists op :: op in log && Answered(q, op)) <==>
            Find(log, q.id).Some? && Answered(q, Find(log, q.id).value)
  {
    FindIs(log, q.id);
    forall op | op in log && Answered(q, op) ensures Find(log, q.id) == Some(op) { FindExactly(log, q.id, op); }
  }

  /** An awaiting record that may be committed now. */
  predicate Committable(k: Checks, c: Config, op: Operation, now: int) {
    && op.state == Awaiting && now < op.expires && c.association == op.association && RevisionOf(c) == op.expected
    && op.expected != 0x7fff_ffff_ffff_ffff && Fits(k, c, op.expected, op.selection)
    && Coordinates(k, c, op.expected, op.selection) == op.fingerprint
  }

  /** The record `op` is replaced by `next`, and all others stay. */
  ghost predicate Turns(log: seq<Operation>, after: seq<Operation>, op: Operation, next: Operation) {
    |after| == |log| && forall i | 0 <= i < |log| :: after[i] == if log[i] == op then next else log[i]
  }

  lemma {:induction false} ReplacedTurns(log: seq<Operation>, op: Operation, next: Operation)
    requires UniqueIds(log) && op in log && next.id == op.id
    ensures Turns(log, Replaced(log, next), op, next)
  {
    forall i | 0 <= i < |log| && log[i].id == op.id ensures log[i] == op { SameId(log, log[i], op); }
  }

  /** A record is committed exactly when it awaits, has not expired, and neither
      the association, the revision nor the route's coordinates have changed; the
      route then is its selection at the next revision, its record committed, and
      nothing else changes. A committed record answers again. */
  lemma {:induction false} CommitExactly(k: Checks, c: Config, op: Operation, confirmed: bool, now: int)
    requires UniqueIds(c.log) && op in c.log
    ensures
      var (next, r) := CommitRoute(k, c, op.id, confirmed, now);
      && (r.Ok? <==> confirmed && (op.state == Committed || Committable(k, c, op, now)))
      && (confirmed && op.state == Committed ==> r == Ok(op))
      && (!(confirmed && Committable(k, c, op, now)) ==> next == c)
      && (confirmed && Committable(k, c, op, now) ==>
          && r.value == op.(state := Committed, committedRevision := op.expected + 1)
          && next == c.(route := next.route, log := next.log) && Turns(c.log, next.log, op, r.value)
          && next.route == Some(Route(op.selection, op.expected + 1)))
  {
    FindExactly(c.log, op.id, op);
    ReplacedTurns(c.log, op, op.(state := Committed, committedRevision := op.expected + 1));
  }

  /** An awaiting record is cancelled, any other answers as it is. */
  lemma {:induction false} CancelExactly(c: Config, op: Operation)
    requires UniqueIds(c.log) && op in c.log
    ensures
      var (next, r) := CancelRoute(c, op.id);
      && (op.state != Awaiting ==> next == c && r == Ok(op))
      && (op.state == Awaiting ==>
          r == Ok(op.(state := Cancelled)) && next == c.(log := next.log) && Turns(c.log, next.log, op, r.value))
  {
    FindExactly(c.log, op.id, op);
    ReplacedTurns(c.log, op, op.(state := Cancelled));
  }

  /** An id without a record is neither committed nor cancelled. */
  lemma {:induction false} UnknownIsRefused(k: Checks, c: Config, id: string, confirmed: bool, now: int)
    requires forall op | op in c.log :: op.id != id
    ensures CommitRoute(k, c, id, confirmed, now) == (c, Err(if confirmed then NotFound else Unconfirmed))
    ensures CancelRoute(c, id) == (c, Err(NotFound))
  {
    FindNothing(c.log, id);
  }

  // --------------------------------------------- where a committed route comes from

  /** The record as it was first stored. */
  function Origin(op: Operation): Operation {
    op.(state := Awaiting, committedRevision := 0)
  }

  /** The step records `op` after its route was reached. */
  ghost predicate StepRecords(k: Checks, w: World, s: Step, op: Operation) {
    && s.Preflighting? && Storable(k, w.config, s.seen, s.request, s.probed) && Answered(s.request, op)
    && op == Operation(op.id, op.expected, w.config.association, op.selection,
                       Coordinates(k, w.config, op.expected, op.selection), Awaiting, s.expires, 0)
  }

  ghost predicate RecordedIn(k: Checks, w: World, steps: seq<Step>, op: Operation)
    decreases steps
  {
    steps != [] && (StepRecords(k, w, steps[0], op) || RecordedIn(k, After(k, w, steps[0]), steps[1..], op))
  }

  ghost predicate Has(log: seq<Operation>, origin: Operation) {
    exists op :: op in log && Origin(op) == origin
  }

  lemma {:induction false} TurnsKeepOrigins(log: seq<Operation>, after: seq<Operation>, op: Operation,
          next: Operation, x: Operation)
    requires Turns(log, after, op, next) && Origin(next) == Origin(op) && op in log && x in after
    ensures Has(log, Origin(x))
  {
    var i :| 0 <= i < |after| && after[i] == x;
    assert log[i] in log;
  }

  /** Whatever record a step leaves has the origin of one before, or is new. */
  lemma {:induction false} StepOrigins(k: Checks, w: World, s: Step, x: Operation)
    requires Routes.Inv(w) && Allowed(w, s) && (s.Preflighting? ==> UniqueIds(s.seen.log))
    requires x in After(k, w, s).config.log
    ensures Has(w.config.log, Origin(x)) || StepRecords(k, w, s, Origin(x))
  {
    var c := w.config;
    match s
    case Preflighting(seen, q, probed, expires) =>
      PreflightExactly(k, c, seen, q, probed, expires);
      assert x in c.log ==> Has(c.log, Origin(x));
    case Committing(id, confirmed, now) =>
      FindIs(c.log, id);
      assert x in c.log ==> Has(c.log, Origin(x));
      if Find(c.log, id).Some? {
        var op := Find(c.log, id).value;
        CommitExactly(k, c, op, confirmed, now);
        var r := CommitRoute(k, c, id, confirmed, now);
        if r.0 != c && Origin(r.1.value) == Origin(op) { TurnsKeepOrigins(c.log, r.0.log, op, r.1.value, x); }
      }
    case Cancelling(id) =>
      FindIs(c.log, id);
      assert x in c.log ==> Has(c.log, Origin(x));
      if Find(c.log, id).Some? {
        var op := Find(c.log, id).value;
        CancelExactly(c, op);
        var r := CancelRoute(c, id);
        if r.0 != c { TurnsKeepOrigins(c.log, r.0.log, op, r.1.value, x); }
      }
    case OtherWriter(_) =>
      assert Has(c.log, Origin(x));
  }

  /** Each snapshot a request was judged on is of a well-formed log. */
  ghost predicate Snapshots(steps: seq<Step>) {
    forall s | s in steps && s.Preflighting? :: UniqueIds(s.seen.log)
  }

  lemma {:induction false} RunOrigins(k: Checks, w: World, steps: seq<Step>, x: Operation)
    requires Routes.Inv(w) && AllowedRun(k, w, steps) && Snapshots(steps) && x in Run(k, w, steps).config.log
    ensures Has(w.config.log, Origin(x)) || RecordedIn(k, w, steps, Origin(x))
    decreases steps
  {
    if steps == [] {
      assert Has(w.config.log, Origin(x));
    } else {
      var v := After(k, w, steps[0]);
      StepKeeps(k, w, steps[0]);
      assert steps[0] in steps && Snapshots(steps[1..]);
      RunOrigins(k, v, steps[1..], x);
      if Has(v.config.log, Origin(x)) {
        var y :| y in v.config.log && Origin(y) == Origin(x);
        StepOrigins(k, w, steps[0], y);
      }
    }
  }

  /** A change of the route was preflighted: over every run, a commit that changes
      anything names a record that an earlier step of the run stored, for a route
      that was valid and reached the cloud at that very revision, association and
      coordinates; it has not expired since, and the route becomes what it
      selected. */
  lemma {:induction false} ChangeWasPreflighted(k: Checks, start: Config, steps: seq<Step>, id: string,
          confirmed: bool, now: int)
    requires Fresh(start) && AllowedRun(k, World(start, []), steps) && Snapshots(steps)
    requires var c := Run(k, World(start, []), steps).config; CommitRoute(k, c, id, confirmed, now).0 != c
    ensures
      var c := Run(k, World(start, []), steps).config;
      confirmed && exists op ::
        && op in c.log && op.id == id && RecordedIn(k, World(start, []), steps, Origin(op)) &&
            Committable(k, c, op, now)
        && CommitRoute(k, c, id, confirmed, now).0.route == Some(Route(op.selection, RevisionOf(c) + 1))
  {
    var c := Run(k, World(start, []), steps).config;
    Routes.RunKeeps(k, World(start, []), steps);
    FindIs(c.log, id);
    if Find(c.log, id).None? {
      UnknownIsRefused(k, c, id, confirmed, now);
    } else {
      var op := Find(c.log, id).value;
      CommitExactly(k, c, op, confirmed, now);
      RunOrigins(k, World(start, []), steps, op);
    }
  }

  /** A preflighted route can be committed until it expires: right after its
      record is stored, with nothing else in between, the commit makes it the
      route of the next revision. */
  lemma {:induction false} PreflightThenCommit(k: Checks, c: Config, q: Preflight, expires: int, now: int)
    requires UniqueIds(c.log) && now < expires && Storable(k, c, c, q, true)
    ensures
      var stored := PreflightRoute(k, c, c, q, true, expires).0;
      var (next, r) := CommitRoute(k, stored, q.id, true, now);
      r.Ok? && r.value.state == Committed && next.route == Some(Route(q.selection, q.expected + 1))
  {
    var (stored, r) := PreflightRoute(k, c, c, q, true, expires);
    PreflightExactly(k, c, c, q, true, expires);
    AppendIsUnique(c.log, r.value);
    assert r.value == stored.log[|stored.log| - 1];
    CommitExactly(k, stored, r.value, true, now);
  }
}

/** The cloud route: a revisioned log of preflighted changes that are committed
    or cancelled, each as one atomic update of the stored configuration. */
module Routes {
  import opened Basics

  const LOG_LIMIT: nat := 32
  const MAX_REVISION: int := 0x7fff_ffff_ffff_ffff

  datatype Selection = Selection(kind: string, attachment: string)

  datatype Route = Route(selection: Selection, revision: int)

  datatype State = Awaiting | Committed | Cancelled

  datatype Operation = Operation(id: string, expected: int, association: int, selection: Selection,
                                 fingerprint: string, state: State, expires: int, committedRevision: int)

  /** `association` is its revision (0 without one), `surroundings` the rest of
      the configuration. */
  datatype Config = Config(route: Option<Route>, association: int, surroundings: string, log: seq<Operation>)

  datatype RouteError = InvalidId | Conflict | NotFound | Unconfirmed | InvalidRoute | PreflightFailed

  /** `ValidateCloudRoute`, the digest of the coordinates, and the shape of an
      operation id. Nothing is assumed of them. */
  datatype Checks = Checks(valid: (string, Route) -> bool, digest: (string, int, Route) -> string, idOk: string -> bool)

  function Revision(c: Config): int {
    if c.route.Some? then c.route.value.revision else 0
  }

  function Fingerprint(k: Checks, c: Config, r: Route): Option<string> {
    if k.valid(c.surroundings, r) then Some(k.digest(c.surroundings, c.association, r)) else None
  }

  function Find(log: seq<Operation>, id: string): Option<Operation> {
    if log == [] then None else if log[0].id == id then Some(log[0]) else Find(log[1..], id)
  }

  /** The result replaces every record with its id. */
  function Replaced(log: seq<Operation>, op: Operation): seq<Operation> {
    seq(|log|, i requires 0 <= i < |log| => if log[i].id == op.id then op else log[i])
  }

  /** The log with room for one more record: the newest 31 stay. */
  function Trimmed(log: seq<Operation>): seq<Operation> {
    if |log| >= LOG_LIMIT then log[|log| - (LOG_LIMIT - 1)..] else log
  }

  datatype Preflight = Preflight(id: string, expected: int, selection: Selection)

  function Target(expected: int, selection: Selection): Route {
    Route(selection, expected + 1)
  }

  // -------------------------------------------------------------- preflight

  /** The part before the update, on a snapshot: refuse, answer with an earlier
      record, or go on with the record to store. `probed` tells whether the
      selected route reached the cloud. */
  function Probe(k: Checks, seen: Config, q: Preflight, probed: bool, expires: int): Result<(Operation, bool),
          RouteError> {
    if !k.idOk(q.id) then Err(InvalidId)
    else if Revision(seen) != q.expected || q.expected == MAX_REVISION then Err(Conflict)
    else match Find(seen.log, q.id)
    case Some(op) => if op.expected != q.expected || op.selection != q.selection then Err(Conflict) else Ok((op, false))
    case None =>
      var fingerprint := Fingerprint(k, seen, Target(q.expected, q.selection));
      if fingerprint.None? then Err(InvalidRoute)
      else if !probed then Err(PreflightFailed)
      else Ok((Operation(q.id, q.expected, seen.association, q.selection, fingerprint.value, Awaiting, expires, 0),
          true))
  }

  /** The update: nothing the probe relied on may have changed. */
  function Record(k: Checks, current: Config, seen: Config, q: Preflight, op: Operation): (Config, Result<Operation,
          RouteError>) {
    if seen.association != current.association || Revision(seen) != Revision(current) then (current, Err(Conflict))
    else if Fingerprint(k, current, Target(q.expected, q.selection)) != Some(op.fingerprint)
        then (current, Err(Conflict))
    else match Find(current.log, q.id)
    case Some(previous) =>
      (current, if previous.expected != q.expected || previous.selection != q.selection then Err(Conflict)
          else Ok(previous))
    case None => (current.(log := Trimmed(current.log) + [op]), Ok(op))
  }

  /** `PreflightCloudRoute`, with the configuration `seen` at its start. */
  function PreflightRoute(k: Checks, current: Config, seen: Config, q: Preflight, probed: bool,
          expires: int): (Config, Result<Operation, RouteError>) {
    match Probe(k, seen, q, probed, expires)
    case Err(e) => (current, Err(e))
    case Ok((op, stores)) => if stores then Record(k, current, seen, q, op) else (current, Ok(op))
  }

  // --------------------------------------------------------- commit and cancel

  function CommitRoute(k: Checks, current: Config, id: string, confirmed: bool, now: int): (Config, Result<Operation,
          RouteError>) {
    if !confirmed then (current, Err(Unconfirmed))
    else match Find(current.log, id)
    case None => (current, Err(NotFound))
    case Some(op) =>
      if op.state == Committed then (current, Ok(op))
      else if op.state != Awaiting || op.expires <= now || current.association != op.association ||
          Revision(current) != op.expected || op.expected == MAX_REVISION
      then (current, Err(Conflict))
      else
        var target := Target(op.expected, op.selection);
        if Fingerprint(k, current, target) != Some(op.fingerprint) then (current, Err(Conflict))
        else
          var done := op.(state := Committed, committedRevision := target.revision);
          (current.(route := Some(target), log := Replaced(current.log, done)), Ok(done))
  }

  function CancelRoute(current: Config, id: string): (Config, Result<Operation, RouteError>) {
    match Find(current.log, id)
    case None => (current, Err(NotFound))
    case Some(op) =>
      if op.state != Awaiting then (current, Ok(op))
      else (current.(log := Replaced(current.log, op.(state := Cancelled))), Ok(op.(state := Cancelled)))
  }

  // -------------------------------------------------------- the stored config

  class RouteStore {
    const checks: Checks
    var config: Config

    constructor (checks: Checks, config: Config)
      ensures this.checks == checks && this.config == config
    {
      this.checks, this.config := checks, config;
    }

    static method FindRouteOperation(log: seq<Operation>, id: string) returns (op: Option<Operation>)
      ensures op == Find(log, id)
    {
      for i := 0 to |log|
        invariant Find(log, id) == Find(log[i..], id)
      {
        if log[i].id == id { return Some(log[i]); }
      }
      return None;
    }

    static method StoreOperation(log: seq<Operation>, op: Operation) returns (r: seq<Operation>)
      ensures r == Replaced(log, op)
    {
      r := log;
      for i := 0 to |log|
        invariant |r| == |log|
        invariant forall j | 0 <= j < i :: r[j] == if log[j].id == op.id then op else log[j]
        invariant forall j | i <= j < |log| :: r[j] == log[j]
      {
        if r[i].id == op.id { r := r[i := op]; }
      }
    }

    method RecordPreflight(seen: Config, q: Preflight, op: Operation) returns (r: Result<Operation, RouteError>)
      modifies this
      ensures (config, r) == Record(checks, old(config), seen, q, op)
    {
      if seen.association != config.association || Revision(seen) != Revision(config) { return Err(Conflict); }
      var fingerprint := Fingerprint(checks, config, Target(q.expected, q.selection));
      if fingerprint != Some(op.fingerprint) { return Err(Conflict); }
      var previous := FindRouteOperation(config.log, q.id);
      if previous.Some? {
        if previous.value.expected != q.expected || previous.value.selection != q.selection { return Err(Conflict); }
        return Ok(previous.value);
      }
      if |config.log| >= LOG_LIMIT { config := config.(log := config.log[|config.log| - 31..]); }
      config := config.(log := config.log + [op]);
      return Ok(op);
    }

    method PreflightCloudRoute(seen: Config, q: Preflight, probed: bool, expires: int) returns (r: Result<Operation,
            RouteError>)
      modifies this
      ensures (config, r) == PreflightRoute(checks, old(config), seen, q, probed, expires)
    {
      if !checks.idOk(q.id) { return Err(InvalidId); }
      if Revision(seen) != q.expected || q.expected == MAX_REVISION { return Err(Conflict); }
      var existing := FindRouteOperation(seen.log, q.id);
      if existing.Some? {
        if existing.value.expected != q.expected || existing.value.selection != q.selection { return Err(Conflict); }
        return Ok(existing.value);
      }
      var fingerprint := Fingerprint(checks, seen, Target(q.expected, q.selection));
      if fingerprint.None? { return Err(InvalidRoute); }
      if !probed { return Err(PreflightFailed); }
      r := RecordPreflight(seen, q, Operation(q.id, q.expected, seen.association, q.selection, fingerprint.value,
          Awaiting, expires, 0));
    }

    method CommitCloudRoute(id: string, confirmed: bool, now: int) returns (r: Result<Operation, RouteError>)
      modifies this
      ensures (config, r) == CommitRoute(checks, old(config), id, confirmed, now)
    {
      if !confirmed { return Err(Unconfirmed); }
      var found := FindRouteOperation(config.log, id);
      if found.None? { return Err(NotFound); }
      var op := found.value;
      if op.state == Committed { return Ok(op); }
      if op.state != Awaiting || op.expires <= now || config.association != op.association ||
          Revision(config) != op.expected || op.expected == MAX_REVISION {
        return Err(Conflict);
      }
      var selection := Route(op.selection, op.expected + 1);
      var fingerprint := Fingerprint(checks, config, selection);
      if fingerprint.None? || fingerprint.value != op.fingerprint { return Err(Conflict); }
      op := op.(state := Committed, committedRevision := selection.revision);
      var log := StoreOperation(config.log, op);
      config := config.(route := Some(selection), log := log);
      return Ok(op);
    }

    method CancelCloudRoute(id: string) returns (r: Result<Operation, RouteError>)
      modifies this
      ensures (config, r) == CancelRoute(old(config), id)
    {
      var found := FindRouteOperation(config.log, id);
      if found.None? { return Err(NotFound); }
      var op := found.value;
      if op.state == Awaiting {
        op := op.(state := Cancelled);
        var log := StoreOperation(config.log, op);
        config := config.(log := log);
      }
      return Ok(op);
    }
  }

  // ------------------------------------------------------------------- runs

  /** A commit that changed the route: the operation and the revision before. */
  datatype Change = Change(id: string, expected: int)

  datatype World = World(config: Config, changes: seq<Change>)

  datatype Step =
    | Preflighting(seen: Config, request: Preflight, probed: bool, expires: int)
    | Committing(id: string, confirmed: bool, now: int)
    | Cancelling(id: string)
    | OtherWriter(config: Config)

  /** Other writers leave the log alone and only raise the route revision. */
  predicate Allowed(w: World, s: Step) {
    s.OtherWriter? ==> s.config.log == w.config.log && Revision(w.config) <= Revision(s.config) <= MAX_REVISION
  }

  function Effect(k: Checks, w: World, s: Step): (Config, Result<Operation, RouteError>) {
    match s
    case Preflighting(seen, q, probed, expires) => PreflightRoute(k, w.config, seen, q, probed, expires)
    case Committing(id, confirmed, now) => CommitRoute(k, w.config, id, confirmed, now)
    case Cancelling(id) => CancelRoute(w.config, id)
    case OtherWriter(config) => (config, Err(NotFound))
  }

  function After(k: Checks, w: World, s: Step): World {
    var next := Effect(k, w, s).0;
    World(next, w.changes + if s.Committing? && next != w.config then [Change(s.id, Revision(w.config))] else [])
  }

  ghost predicate UniqueIds(log: seq<Operation>) {
    forall i, j | 0 <= i < j < |log| :: log[i].id != log[j].id
  }

  ghost predicate Inv(w: World) {
    && UniqueIds(w.config.log) && |w.config.log| <= LOG_LIMIT && Revision(w.config) <= MAX_REVISION
    && (forall k | 0 <= k < |w.changes| :: w.changes[k].expected < Revision(w.config))
    && (forall j, k | 0 <= j < k < |w.changes| :: w.changes[j].expected < w.changes[k].expected)
  }

  lemma {:induction false} FindIs(log: seq<Operation>, id: string)
    ensures Find(log, id).Some? ==> Find(log, id).value in log && Find(log, id).value.id == id
    ensures Find(log, id).None? ==> forall op | op in log :: op.id != id
  {
    if log != [] && log[0].id != id { FindIs(log[1..], id); }
  }

  /** What may happen to an operation that stays in the log. */
  predicate Moves(before: Operation, after: Operation) {
    after == before ||
    (before.state == Awaiting && after == before.(state := Cancelled)) ||
    (before.state == Awaiting && after == before.(state := Committed, committedRevision := before.expected + 1))
  }

  /** From one stored configuration to the next: the log stays well formed and
      its operations only move forward. */
  ghost predicate LogMoves(before: Config, after: Config) {
    && UniqueIds(after.log) && |after.log| <= LOG_LIMIT
    && forall op, next | op in before.log && next in after.log && op.id == next.id :: Moves(op, next)
  }

  lemma {:induction false} ReplacedMoves(log: seq<Operation>, op: Operation, next: Operation)
    requires UniqueIds(log) && op in log && next.id == op.id && Moves(op, next)
    ensures UniqueIds(Replaced(log, next))
    ensures forall a, b | a in log && b in Replaced(log, next) && a.id == b.id :: Moves(a, b)
  {
    forall a, b | a in log && b in Replaced(log, next) && a.id == b.id ensures Moves(a, b) {
      var j :| 0 <= j < |log| && Replaced(log, next)[j] == b;
      SameId(log, a, log[j]);
      if a.id == op.id { SameId(log, a, op); }
    }
  }

  lemma {:induction false} SameId(log: seq<Operation>, a: Operation, b: Operation)
    requires UniqueIds(log) && a in log && b in log && a.id == b.id
    ensures a == b
  {}

  lemma {:induction false} PreflightMoves(k: Checks, current: Config, seen: Config, q: Preflight, probed: bool,
          expires: int)
    requires UniqueIds(current.log) && |current.log| <= LOG_LIMIT
    ensures LogMoves(current, PreflightRoute(k, current, seen, q, probed, expires).0)
    ensures Revision(PreflightRoute(k, current, seen, q, probed, expires).0) == Revision(current)
  {
    FindIs(current.log, q.id);
    if PreflightRoute(k, current, seen, q, probed, expires).0 != current {
      AppendIsUnique(current.log, Probe(k, seen, q, probed, expires).value.0);
    }
  }

  lemma {:induction false} CommitMoves(k: Checks, current: Config, id: string, confirmed: bool, now: int)
    requires UniqueIds(current.log) && |current.log| <= LOG_LIMIT && Revision(current) <= MAX_REVISION
    ensures var next := CommitRoute(k, current, id, confirmed, now).0;
            LogMoves(current, next) && (next != current ==> Revision(next) == Revision(current) + 1 <= MAX_REVISION)
  {
    FindIs(current.log, id);
    var r := CommitRoute(k, current, id, confirmed, now);
    if r.0 != current { ReplacedMoves(current.log, Find(current.log, id).value, r.1.value); }
  }

  lemma {:induction false} CancelMoves(current: Config, id: string)
    requires UniqueIds(current.log) && |current.log| <= LOG_LIMIT
    ensures LogMoves(current, CancelRoute(current, id).0) && Revision(CancelRoute(current, id).0) == Revision(current)
  {
    FindIs(current.log, id);
    var r := CancelRoute(current, id);
    if r.0 != current { ReplacedMoves(current.log, Find(current.log, id).value, r.1.value); }
  }

  lemma {:induction false} StepKeeps(k: Checks, w: World, s: Step)
    requires Inv(w) && Allowed(w, s)
    ensures Inv(After(k, w, s)) && LogMoves(w.config, After(k, w, s).config)
    ensures s.Committing? && After(k, w, s).config != w.config ==>
            Revision(After(k, w, s).config) == Revision(w.config) + 1
  {
    match s
    case Preflighting(seen, q, probed, expires) => PreflightMoves(k, w.config, seen, q, probed, expires);
    case Committing(id, confirmed, now) => CommitMoves(k, w.config, id, confirmed, now);
    case Cancelling(id) => CancelMoves(w.config, id);
    case OtherWriter(_) =>
      forall a, b | a in w.config.log && b in w.config.log && a.id == b.id { SameId(w.config.log, a, b); }
  }

  ghost predicate AllowedRun(k: Checks, w: World, steps: seq<Step>)
    decreases steps
  {
    steps == [] || (Allowed(w, steps[0]) && AllowedRun(k, After(k, w, steps[0]), steps[1..]))
  }

  function Run(k: Checks, w: World, steps: seq<Step>): World
    decreases steps
  {
    if steps == [] then w else Run(k, After(k, w, steps[0]), steps[1..])
  }

  lemma {:induction false} RunKeeps(k: Checks, w: World, steps: seq<Step>)
    requires Inv(w) && AllowedRun(k, w, steps)
    ensures Inv(Run(k, w, steps))
    decreases steps
  {
    if steps != [] {
      StepKeeps(k, w, steps[0]);
      RunKeeps(k, After(k, w, steps[0]), steps[1..]);
    }
  }

  /** A configuration whose log has not been used. */
  predicate Fresh(c: Config) {
    c.log == [] && 0 <= Revision(c) <= MAX_REVISION
  }

  /** Over every run, a revision is the base of at most one committed change,
      the log has unique ids and at most 32 records, and the next step moves
      operations only from awaiting to committed or cancelled; a commit that
      changes anything raises the revision by exactly one, without overflow. */
  lemma {:induction false} RouteLogIsSound(k: Checks, start: Config, steps: seq<Step>, s: Step)
    requires Fresh(start) && AllowedRun(k, World(start, []), steps) && Allowed(Run(k, World(start, []), steps), s)
    ensures
      var w := Run(k, World(start, []), steps);
      var v := After(k, w, s);
      && (forall i, j | 0 <= i < j < |v.changes| :: v.changes[i].expected != v.changes[j].expected)
      && UniqueIds(v.config.log) && |v.config.log| <= LOG_LIMIT
      && (forall op, next | op in w.config.log && next in v.config.log && op.id == next.id :: Moves(op, next))
      && (s.Committing? && v.config != w.config ==> Revision(v.config) == Revision(w.config) + 1 <= MAX_REVISION)
  {
    RunKeeps(k, World(start, []), steps);
    StepKeeps(k, Run(k, World(start, []), steps), s);
  }

  // ---------------------------------------------------------- committing again

  /** How a committed record stands: nothing else in the log has its id, unless
      it is of a later revision, and the route has moved past its base. */
  ghost predicate Passed(c: Config, done: Operation) {
    && done.state == Committed && done.expected < Revision(c)
    && forall op | op in c.log && op.id == done.id :: op == done || op.expected > done.expected
  }

  /** The number of records stored after it. */
  function Behind(log: seq<Operation>, op: Operation): nat
    requires op in log
  {
    if log[0] == op then |log| - 1 else Behind(log[1..], op)
  }

  lemma {:induction false} BehindIs(log: seq<Operation>, op: Operation, i: nat)
    requires UniqueIds(log) && i < |log| && log[i] == op
    ensures Behind(log, op) == |log| - 1 - i
    decreases i
  {
    if i > 0 {
      assert log[0].id != log[i].id;
      assert UniqueIds(log[1..]) by {
        forall j, k | 0 <= j < k < |log[1..]| ensures log[1..][j].id != log[1..][k].id {
          assert log[j + 1].id != log[k + 1].id;
        }
      }
      BehindIs(log[1..], op, i - 1);
    }
  }

  /** The step stores a new record. */
  predicate Appends(k: Checks, w: World, s: Step) {
    s.Preflighting? && Effect(k, w, s).0 != w.config
  }

  /** What a step does to the place of a committed record. */
  ghost predicate Keeps(k: Checks, w: World, s: Step, done: Operation)
    requires done in w.config.log
  {
    var log := After(k, w, s).config.log;
    if !Appends(k, w, s) then done in log && Behind(log, done) == Behind(w.config.log, done)
    else if Behind(w.config.log, done) == LOG_LIMIT - 1 then done !in log
    else done in log && Behind(log, done) == Behind(w.config.log, done) + 1
  }

  lemma {:induction false} AppendIsUnique(log: seq<Operation>, op: Operation)
    requires UniqueIds(log) && forall x | x in log :: x.id != op.id
    ensures UniqueIds(Trimmed(log) + [op])
  {
    var next, cut := Trimmed(log) + [op], |log| - |Trimmed(log)|;
    forall j, k | 0 <= j < k < |next| ensures next[j].id != next[k].id {
      assert next[j] == log[j + cut];
      if k < |next| - 1 { assert next[k] == log[k + cut]; }
    }
  }

  lemma {:induction false} AppendKeeps(log: seq<Operation>, i: nat, op: Operation)
    requires UniqueIds(log) && |log| <= LOG_LIMIT && |log| - |Trimmed(log)| <= i < |log| && forall x | x in log ::
             x.id != op.id
    ensures log[i] in Trimmed(log) + [op] && Behind(Trimmed(log) + [op], log[i]) == Behind(log, log[i]) + 1
  {
    var next, cut := Trimmed(log) + [op], |log| - |Trimmed(log)|;
    AppendIsUnique(log, op);
    assert next[i - cut] == log[i];
    BehindIs(log, log[i], i);
    BehindIs(next, log[i], i - cut);
  }

  lemma {:induction false} AppendMoves(log: seq<Operation>, done: Operation, op: Operation)
    requires UniqueIds(log) && |log| <= LOG_LIMIT && done in log && (forall x | x in log :: x.id != op.id)
    ensures var next := Trimmed(log) + [op];
            if Behind(log, done) == LOG_LIMIT - 1 then done !in next
            else done in next && Behind(next, done) == Behind(log, done) + 1
  {
    var i :| 0 <= i < |log| && log[i] == done;
    BehindIs(log, done, i);
    var cut := |log| - |Trimmed(log)|;
    if i >= cut {
      AppendKeeps(log, i, op);
    } else {
      forall x | x in Trimmed(log) ensures x != done {
        var j :| 0 <= j < |Trimmed(log)| && Trimmed(log)[j] == x;
        assert x == log[j + cut] && log[i].id != log[j + cut].id;
      }
    }
  }

  lemma {:induction false} ReplacingKeeps(log: seq<Operation>, done: Operation, op: Operation)
    requires UniqueIds(log) && done in log && op.id != done.id
    ensures UniqueIds(Replaced(log, op)) && done in Replaced(log, op) &&
            Behind(Replaced(log, op), done) == Behind(log, done)
  {
    var i :| 0 <= i < |log| && log[i] == done;
    assert Replaced(log, op)[i] == done;
    BehindIs(log, done, i);
    BehindIs(Replaced(log, op), done, i);
  }

  lemma {:induction false} StepKeepsRecord(k: Checks, w: World, s: Step, done: Operation)
    requires Inv(w) && Allowed(w, s) && Passed(w.config, done) && done in w.config.log
    ensures Keeps(k, w, s, done)
  {
    match s
    case Preflighting(seen, q, probed, expires) =>
      FindIs(w.config.log, q.id);
      if Appends(k, w, s) { AppendMoves(w.config.log, done, Probe(k, seen, q, probed, expires).value.0); }
    case Committing(id, confirmed, now) =>
      FindIs(w.config.log, id);
      if id == done.id { SameId(w.config.log, done, Find(w.config.log, id).value); }
      var r := CommitRoute(k, w.config, id, confirmed, now);
      if r.0 != w.config { ReplacingKeeps(w.config.log, done, r.1.value); }
    case Cancelling(id) =>
      FindIs(w.config.log, id);
      if id == done.id { SameId(w.config.log, done, Find(w.config.log, id).value); }
      var r := CancelRoute(w.config, id);
      if r.0 != w.config { ReplacingKeeps(w.config.log, done, r.1.value); }
    case OtherWriter(_) =>
  }

  /** A new record is based on the revision in force, so on a later one. */
  lemma {:induction false} StepPasses(k: Checks, w: World, s: Step, done: Operation)
    requires Inv(w) && Allowed(w, s) && Passed(w.config, done)
    ensures Passed(After(k, w, s).config, done)
    ensures done !in w.config.log ==> done !in After(k, w, s).config.log
  {
    StepKeeps(k, w, s);
    var v := After(k, w, s);
    forall op | op in v.config.log && op.id == done.id ensures op == done || op.expected > done.expected {
      OperationStems(k, w, s, op);
    }
    if done in v.config.log && done !in w.config.log { OperationStems(k, w, s, done); }
  }

  /** Every record after a step was there, perhaps in an earlier state, or is a
      new awaiting one based on the current revision. */
  lemma {:induction false} OperationStems(k: Checks, w: World, s: Step, op: Operation)
    requires Inv(w) && Allowed(w, s) && op in After(k, w, s).config.log
    ensures
      || op in w.config.log
      || (op.state == Awaiting && op.expected == Revision(w.config))
      || (op.state == Cancelled && op.(state := Awaiting) in w.config.log)
      || (op.state == Committed && op.expected == Revision(w.config) &&
          Revision(After(k, w, s).config) == op.expected + 1 &&
          exists was :: was in w.config.log && was.state == Awaiting && was.id == op.id && was.expected == op.expected)
  {
    match s
    case Preflighting(_, _, _, _) =>
    case Committing(id, confirmed, now) =>
      FindIs(w.config.log, id);
      var i :| 0 <= i < |After(k, w, s).config.log| && After(k, w, s).config.log[i] == op;
      assert w.config.log[i] in w.config.log;
    case Cancelling(id) =>
      FindIs(w.config.log, id);
      var i :| 0 <= i < |After(k, w, s).config.log| && After(k, w, s).config.log[i] == op;
      assert w.config.log[i] in w.config.log;
    case OtherWriter(_) =>
  }

  lemma {:induction false} RevisionRises(k: Checks, w: World, s: Step)
    requires Inv(w) && Allowed(w, s)
    ensures Revision(w.config) <= Revision(After(k, w, s).config)
  {
    match s
    case Preflighting(seen, q, probed, expires) => PreflightMoves(k, w.config, seen, q, probed, expires);
    case Committing(id, confirmed, now) => CommitMoves(k, w.config, id, confirmed, now);
    case Cancelling(id) => CancelMoves(w.config, id);
    case OtherWriter(_) =>
  }

  /** The route has moved past the base of every committed record. */
  ghost predicate CommittedPassed(c: Config) {
    forall op | op in c.log && op.state == Committed :: op.expected < Revision(c)
  }

  lemma {:induction false} RunPasses(k: Checks, w: World, steps: seq<Step>)
    requires Inv(w) && CommittedPassed(w.config) && AllowedRun(k, w, steps)
    ensures CommittedPassed(Run(k, w, steps).config)
    decreases steps
  {
    if steps != [] {
      var v := After(k, w, steps[0]);
      StepKeeps(k, w, steps[0]);
      RevisionRises(k, w, steps[0]);
      forall op | op in v.config.log && op.state == Committed ensures op.expected < Revision(v.config) {
        OperationStems(k, w, steps[0], op);
      }
      RunPasses(k, v, steps[1..]);
    }
  }

  /** How many new records a run stores. */
  function Appended(k: Checks, w: World, steps: seq<Step>): nat
    decreases steps
  {
    if steps == [] then 0
    else (if Appends(k, w, steps[0]) then 1 else 0) + Appended(k, After(k, w, steps[0]), steps[1..])
  }

  lemma {:induction false} RunLeavesGone(k: Checks, w: World, steps: seq<Step>, done: Operation)
    requires Inv(w) && AllowedRun(k, w, steps) && Passed(w.config, done)
    ensures Passed(Run(k, w, steps).config, done)
    ensures done !in w.config.log ==> done !in Run(k, w, steps).config.log
    decreases steps
  {
    if steps != [] {
      StepKeeps(k, w, steps[0]);
      StepPasses(k, w, steps[0], done);
      RunLeavesGone(k, After(k, w, steps[0]), steps[1..], done);
    }
  }

  /** A committed record leaves the log with the 32nd record stored after it. */
  lemma {:induction false} RecordStaysUntil(k: Checks, w: World, steps: seq<Step>, done: Operation)
    requires Inv(w) && AllowedRun(k, w, steps) && Passed(w.config, done) && done in w.config.log
    ensures done in Run(k, w, steps).config.log <==> Behind(w.config.log, done) + Appended(k, w, steps) < LOG_LIMIT
    decreases steps
  {
    if steps == [] {
      var i :| 0 <= i < |w.config.log| && w.config.log[i] == done;
      BehindIs(w.config.log, done, i);
    } else {
      var v := After(k, w, steps[0]);
      StepKeeps(k, w, steps[0]);
      StepPasses(k, w, steps[0], done);
      StepKeepsRecord(k, w, steps[0], done);
      if done in v.config.log {
        RecordStaysUntil(k, v, steps[1..], done);
      } else {
        RunLeavesGone(k, v, steps[1..], done);
      }
    }
  }

  /** The record that a successful commit answers with, in what it leaves. */
  lemma {:induction false} CommitLeaves(k: Checks, w: World, id: string, now: int)
    requires Inv(w) && CommittedPassed(w.config) && CommitRoute(k, w.config, id, true, now).1.Ok?
    ensures var v, done := After(k, w, Committing(id, true, now)).config,
            CommitRoute(k, w.config, id, true, now).1.value;
            Passed(v, done) && done in v.log && done.id == id
  {
    var s, done := Committing(id, true, now), CommitRoute(k, w.config, id, true, now).1.value;
    var v := After(k, w, s).config;
    FindIs(w.config.log, id);
    StepKeeps(k, w, s);
    if v != w.config { ReplacedIsFound(w.config.log, done, id); FindIs(v.log, id); }
    forall op | op in v.log && op.id == done.id ensures op == done { SameId(v.log, op, done); }
  }

  lemma {:induction false} RecommitAnswers(k: Checks, c: Config, done: Operation, later: int)
    requires UniqueIds(c.log) && Passed(c, done)
    ensures CommitRoute(k, c, done.id, true, later) == (c, Ok(done)) <==> done in c.log
    ensures done !in c.log && CommitRoute(k, c, done.id, true, later).1.Ok? ==>
              CommitRoute(k, c, done.id, true, later).1.value.expected > done.expected
  {
    FindIs(c.log, done.id);
    if done in c.log { SameId(c.log, done, Find(c.log, done.id).value); }
  }

  /** Committing again, over every run and whatever came in between: the same
      answer and nothing changed, exactly while the record is still in the log,
      which is until 32 records have been stored after it. A record that reuses
      the id afterwards is based on a later revision, and so is whatever a
      repeated commit then commits. */
  lemma {:induction false} RecommitIsIdempotent(k: Checks, start: Config, steps: seq<Step>, id: string, now: int,
          more: seq<Step>, later: int)
    requires Fresh(start) && AllowedRun(k, World(start, []), steps)
    requires CommitRoute(k, Run(k, World(start, []), steps).config, id, true, now).1.Ok?
    requires AllowedRun(k, After(k, Run(k, World(start, []), steps), Committing(id, true, now)), more)
    ensures
      var w := Run(k, World(start, []), steps);
      var v, done := After(k, w, Committing(id, true, now)), CommitRoute(k, w.config, id, true, now).1.value;
      var c := Run(k, v, more).config;
      && done in v.config.log
      && (CommitRoute(k, c, id, true, later) == (c, Ok(done)) <==> done in c.log)
      && (done in c.log <==> Behind(v.config.log, done) + Appended(k, v, more) < LOG_LIMIT)
      && (forall op | op in c.log && op.id == id :: op == done || op.expected > done.expected)
      && (done !in c.log && CommitRoute(k, c, id, true, later).1.Ok? ==>
          CommitRoute(k, c, id, true, later).1.value.expected > done.expected)
  {
    var w := Run(k, World(start, []), steps);
    var s := Committing(id, true, now);
    var v, done := After(k, w, s), CommitRoute(k, w.config, id, true, now).1.value;
    RunKeeps(k, World(start, []), steps);
    RunPasses(k, World(start, []), steps);
    CommitLeaves(k, w, id, now);
    StepKeeps(k, w, s);
    RunKeeps(k, v, more);
    RunLeavesGone(k, v, more, done);
    RecordStaysUntil(k, v, more, done);
    RecommitAnswers(k, Run(k, v, more).config, done, later);
  }

  lemma {:induction false} ReplacedIsFound(log: seq<Operation>, op: Operation, id: string)
    requires op.id == id && Find(log, id).Some?
    ensures Find(Replaced(log, op), id) == Some(op)
  {
    if log != [] {
      assert Replaced(log, op)[1..] == Replaced(log[1..], op);
      if log[0].id != id { ReplacedIsFound(log[1..], op, id); }
    }
  }
}

/** Moving the password verifier from its legacy file into the sealed authority,
    with a crash after any single write. */
module Migration {
  import opened Basics
  import opened Factors
  import opened Authority

  /** `access-auth.key`: absent, present but not (or not wholly) written, or a
      well-formed key. */
  datatype KeyFile = NoKey | TornKey | Key(id: string, initialized: bool)

  /** `access-auth.sqlite`: `Partial` is a non-empty file without a committed
      authority, as an interrupted first transaction leaves it. The row opens
      only under the key it was sealed with. */
  datatype DbFile = NoDb | EmptyDb | Partial | Committed(sealedBy: string, row: Row)

  /** `local-ui-password.bcrypt`. */
  datatype Legacy = NoLegacy | BadLegacy | Verifier(hash: string)

  datatype Disk = Disk(key: KeyFile, db: DbFile, legacy: Legacy)

  datatype StoreError =
    | KeyMissing | KeyInvalid | DatabaseMissing | RepairNeeded | SealBroken | PolicyInvalid | LegacyInvalid
    | HashInvalid | Protected

  /** What a run of writes leaves behind, one disk per write, and its result. */
  datatype Effect<T> = Effect(trace: seq<Disk>, result: Result<T, StoreError>)

  /** `bcrypt.Cost` succeeds. Nothing is assumed of it. */
  type Hashes = string -> bool

  function Latest(d: Disk, trace: seq<Disk>): Disk {
    if trace == [] then d else trace[|trace| - 1]
  }

  predicate Uncommitted(db: DbFile) {
    db.NoDb? || db.EmptyDb?
  }

  function ReadLegacy(valid: Hashes, legacy: Legacy): Result<string, StoreError> {
    match legacy
    case NoLegacy => Ok("")
    case BadLegacy => Err(LegacyInvalid)
    case Verifier(hash) => if valid(hash) then Ok(hash) else Err(LegacyInvalid)
  }

  /** The checks made on a stored authority. */
  function Unseal(valid: Hashes, key: KeyFile, db: DbFile): Result<Row, StoreError> {
    if !db.Committed? || !key.Key? then Err(RepairNeeded)
    else if db.sealedBy != key.id then Err(SealBroken)
    else if !PolicyOk(db.row.state) then Err(PolicyInvalid)
    else if db.row.state.passwordHash != "" && !valid(db.row.state.passwordHash) then Err(HashInvalid)
    else Ok(db.row)
  }

  // ------------------------------------------------------------ opening

  function KeyWrites(d: Disk, id: string): seq<Disk> {
    if d.key.NoKey? then [d.(key := TornKey), d.(key := Key(id, false))] else []
  }

  function DbWrites(d: Disk, hash: string): seq<Disk>
    requires d.key.Key?
  {
    if Uncommitted(d.db) then
      (if d.db.NoDb? then [d.(db := EmptyDb)] else []) +
          [d.(db := Partial), d.(db := Committed(d.key.id, Row(1, FirstState(hash))))]
    else []
  }

  function FlagWrites(d: Disk): seq<Disk>
    requires d.key.Key?
  {
    if d.key.initialized then [] else [d.(key := Key(d.key.id, true))]
  }

  function LegacyWrites(d: Disk): seq<Disk> {
    if d.legacy.NoLegacy? then [] else [d.(legacy := NoLegacy)]
  }

  /** The tail of an open, once the authority is committed. */
  function Finish(valid: Hashes, d: Disk): Effect<Row>
    requires d.key.Key?
  {
    if Unseal(valid, d.key, d.db).Err? then Effect([], Unseal(valid, d.key, d.db))
    else
      var flag := FlagWrites(d);
      Effect(flag + LegacyWrites(Latest(d, flag)), Unseal(valid, d.key, d.db))
  }

  /** The part of an open behind the key. */
  function OpenKeyed(valid: Hashes, d: Disk, hash: string): Effect<Row>
    requires d.key.Key?
  {
    if Uncommitted(d.db) && d.key.initialized then Effect([], Err(DatabaseMissing))
    else if d.db.Partial? then Effect([], Err(RepairNeeded))
    else
      var made := DbWrites(d, hash);
      var rest := Finish(valid, Latest(d, made));
      Effect(made + rest.trace, rest.result)
  }

  /** `openAuthStore` with a random key id. */
  function OpenStore(valid: Hashes, d: Disk, hash: string, id: string): Effect<Row> {
    if d.key.NoKey? && !d.db.NoDb? then Effect([], Err(KeyMissing))
    else if d.key.TornKey? then Effect([], Err(KeyInvalid))
    else
      var keyed := KeyWrites(d, id);
      var rest := OpenKeyed(valid, Latest(d, keyed), hash);
      Effect(keyed + rest.trace, rest.result)
  }

  /** `OpenPersistent`: the legacy verifier seeds an authority not yet made. */
  function Reopen(valid: Hashes, d: Disk, id: string): Effect<Row> {
    if !Uncommitted(d.db) then OpenStore(valid, d, "", id)
    else match ReadLegacy(valid, d.legacy)
         case Ok(hash) => OpenStore(valid, d, hash, id)
         case Err(e) => Effect([], Err(e))
  }

  /** `ReadPasswordHash`. */
  function ReadHash(valid: Hashes, d: Disk): Result<string, StoreError> {
    if d.key.NoKey? && d.db.NoDb? then ReadLegacy(valid, d.legacy)
    else if d.key.Key? && !d.key.initialized && Uncommitted(d.db) then ReadLegacy(valid, d.legacy)
    else if d.key.NoKey? then Err(KeyMissing)
    else if d.key.TornKey? then Err(KeyInvalid)
    else if Uncommitted(d.db) then Err(DatabaseMissing)
    else match Unseal(valid, d.key, d.db)
         case Ok(row) => Ok(row.state.passwordHash)
         case Err(e) => Err(e)
  }

  /** The change of the verifier behind an open `e` of the authority. */
  function ChangeRow(valid: Hashes, d: Disk, e: Effect<Row>, hash: string): Effect<()>
    requires d.key.Key? || e.result.Err?
  {
    match e.result
    case Err(cause) => Effect(e.trace, Err(cause))
    case Ok(row) =>
      if row.state.secret != "" || row.state.recoveryPending then Effect(e.trace, Err(Protected))
      else if hash != "" && !valid(hash) then Effect(e.trace, Err(HashInvalid))
      else
        var saved := Authority.WriteHash(Opened(row), row, hash, Stored).1;
        Effect(e.trace + [Latest(d, e.trace).(db := Committed(d.key.id, saved))], Ok(()))
  }

  /** `WritePasswordHash`. */
  function ChangeHash(valid: Hashes, d: Disk, hash: string, id: string): Effect<()> {
    if !d.key.NoKey? then ChangeRow(valid, d, OpenStore(valid, d, "", id), hash)
    else if hash == "" then Effect(LegacyWrites(d), Ok(()))
    else if !valid(hash) then Effect([], Err(HashInvalid))
    else Effect([d.(legacy := Verifier(hash))], Ok(()))
  }

  /** The disk a crash leaves after the first `n` writes. */
  function CrashedAt(d: Disk, trace: seq<Disk>, n: nat): Disk {
    if n == 0 then d else if n <= |trace| then trace[n - 1] else Latest(d, trace)
  }

  // ------------------------------------------------------------------- runs

  /** An attempt to open, cut off after `writes` of its writes, or SQLite's own
      rollback of an unfinished first transaction. */
  datatype Step = Attempt(id: string, writes: nat) | Rollback

  function After(valid: Hashes, d: Disk, s: Step): Disk {
    match s
    case Attempt(id, writes) => CrashedAt(d, Reopen(valid, d, id).trace, writes)
    case Rollback => if d.db.Partial? then d.(db := EmptyDb) else d
  }

  function Run(valid: Hashes, d: Disk, steps: seq<Step>): Disk
    decreases steps
  {
    if steps == [] then d else Run(valid, After(valid, d, steps[0]), steps[1..])
  }

  /** The authority of an installation that migrated `hash`. */
  predicate Holds(valid: Hashes, d: Disk, hash: string) {
    d.key.Key? && d.db == Committed(d.key.id, Row(1, FirstState(hash))) && (hash == "" || valid(hash))
  }

  /** Where a migration of `legacy` can be. */
  predicate Migrating(valid: Hashes, d: Disk, legacy: Legacy) {
    if d.db.Committed? then ReadLegacy(valid, legacy).Ok? && Holds(valid, d, ReadLegacy(valid, legacy).value)
    else d.legacy == legacy && (d.db.NoDb? || d.key.Key?) && (d.key.Key? ==> !d.key.initialized)
  }

  lemma {:induction false} LegacyIsValid(valid: Hashes, legacy: Legacy)
    ensures ReadLegacy(valid, legacy).Ok? && ReadLegacy(valid, legacy).value != "" ==>
            valid(ReadLegacy(valid, legacy).value)
  {}

  ghost predicate AllMigrating(valid: Hashes, trace: seq<Disk>, legacy: Legacy) {
    forall k | 0 <= k < |trace| :: Migrating(valid, trace[k], legacy)
  }

  lemma {:induction false} KeyKeeps(valid: Hashes, d: Disk, legacy: Legacy, id: string)
    requires Migrating(valid, d, legacy) && !(d.key.NoKey? && !d.db.NoDb?)
    ensures AllMigrating(valid, KeyWrites(d, id), legacy) && Migrating(valid, Latest(d, KeyWrites(d, id)), legacy)
    ensures !d.key.TornKey? ==>
            Latest(d, KeyWrites(d, id)).key.Key? &&
            Latest(d, KeyWrites(d, id)) == if d.key.NoKey? then d.(key := Key(id, false)) else d
  {}

  lemma {:induction false} DbKeeps(valid: Hashes, d: Disk, legacy: Legacy, hash: string)
    requires Migrating(valid, d, legacy) && d.key.Key? && !d.db.Partial? &&
             (d.db.Committed? || ReadLegacy(valid, legacy) == Ok(hash))
    ensures AllMigrating(valid, DbWrites(d, hash), legacy) && Migrating(valid, Latest(d, DbWrites(d, hash)), legacy)
    ensures Latest(d, DbWrites(d, hash)) == if d.db.Committed? then d
            else d.(db := Committed(d.key.id, Row(1, FirstState(hash))))
  {
    LegacyIsValid(valid, legacy);
  }

  lemma {:induction false} FinishKeeps(valid: Hashes, d: Disk, legacy: Legacy)
    requires Migrating(valid, d, legacy) && d.db.Committed?
    ensures AllMigrating(valid, Finish(valid, d).trace, legacy)
    ensures Finish(valid, d).result == Ok(d.db.row)
    ensures Latest(d, Finish(valid, d).trace) == Disk(Key(d.key.id, true), d.db, NoLegacy)
  {}

  lemma {:induction false} Joined(valid: Hashes, x: seq<Disk>, y: seq<Disk>, legacy: Legacy)
    requires AllMigrating(valid, x, legacy) && AllMigrating(valid, y, legacy)
    ensures AllMigrating(valid, x + y, legacy)
  {}

  lemma {:induction false} Regrouped(x: seq<Disk>, y: seq<Disk>, z: seq<Disk>)
    ensures x + y + z == x + (y + z)
  {}

  lemma {:induction false} LatestJoined(d: Disk, x: seq<Disk>, y: seq<Disk>)
    ensures Latest(d, x + y) == Latest(Latest(d, x), y)
  {}

  /** Every disk an open passes through is a point of the same migration, and
      an open that gets through ends it. */
  lemma {:induction false} KeyedKeeps(valid: Hashes, d: Disk, legacy: Legacy, hash: string)
    requires Migrating(valid, d, legacy) && d.key.Key? &&
             (d.db.Committed? || d.db.Partial? || ReadLegacy(valid, legacy) == Ok(hash))
    ensures AllMigrating(valid, OpenKeyed(valid, d, hash).trace, legacy)
    ensures OpenKeyed(valid, d, hash).result.Ok? <==> !d.db.Partial?
    ensures !d.db.Partial? ==>
              Migrated(valid, Latest(d, OpenKeyed(valid, d, hash).trace), ReadLegacy(valid, legacy).value) &&
              OpenKeyed(valid, d, hash).result == Ok(Row(1, FirstState(ReadLegacy(valid, legacy).value)))
  {
    if !d.db.Partial? {
      DbKeeps(valid, d, legacy, hash);
      var made := DbWrites(d, hash);
      FinishKeeps(valid, Latest(d, made), legacy);
      Joined(valid, made, Finish(valid, Latest(d, made)).trace, legacy);
      LatestJoined(d, made, Finish(valid, Latest(d, made)).trace);
    }
  }

  lemma {:induction false} OpenKeeps(valid: Hashes, d: Disk, legacy: Legacy, hash: string, id: string)
    requires Migrating(valid, d, legacy) && (d.db.Committed? || d.db.Partial? || ReadLegacy(valid, legacy) == Ok(hash))
    ensures AllMigrating(valid, OpenStore(valid, d, hash, id).trace, legacy)
    ensures OpenStore(valid, d, hash, id).result.Ok? <==> !d.key.TornKey? && !d.db.Partial?
    ensures !d.key.TornKey? && !d.db.Partial? ==>
              Migrated(valid, Latest(d, OpenStore(valid, d, hash, id).trace), ReadLegacy(valid, legacy).value) &&
              OpenStore(valid, d, hash, id).result == Ok(Row(1, FirstState(ReadLegacy(valid, legacy).value)))
  {
    if !d.key.TornKey? {
      var keyed := KeyWrites(d, id);
      KeyKeeps(valid, d, legacy, id);
      KeyedKeeps(valid, Latest(d, keyed), legacy, hash);
      var rest := OpenKeyed(valid, Latest(d, keyed), hash).trace;
      Joined(valid, keyed, rest, legacy);
      LatestJoined(d, keyed, rest);
    }
  }

  lemma {:induction false} AttemptKeeps(valid: Hashes, d: Disk, legacy: Legacy, id: string)
    requires Migrating(valid, d, legacy)
    ensures AllMigrating(valid, Reopen(valid, d, id).trace, legacy)
  {
    if !Uncommitted(d.db) || ReadLegacy(valid, d.legacy).Ok? {
      OpenKeeps(valid, d, legacy, if Uncommitted(d.db) then ReadLegacy(valid, d.legacy).value else "", id);
    }
  }

  lemma {:induction false} RunKeeps(valid: Hashes, d: Disk, legacy: Legacy, steps: seq<Step>)
    requires Migrating(valid, d, legacy)
    ensures Migrating(valid, Run(valid, d, steps), legacy)
    decreases steps
  {
    if steps != [] {
      if steps[0].Attempt? {
        var trace := Reopen(valid, d, steps[0].id).trace;
        AttemptKeeps(valid, d, legacy, steps[0].id);
      }
      RunKeeps(valid, After(valid, d, steps[0]), legacy, steps[1..]);
    }
  }

  /** Crash safety: whatever sequence of interrupted opens has happened, the
      password verifier read back is the original one, or an error. */
  lemma {:induction false} MigrationKeepsVerifier(valid: Hashes, legacy: Legacy, steps: seq<Step>)
    ensures var r := ReadHash(valid, Run(valid, Disk(NoKey, NoDb, legacy), steps));
            r.Ok? ==> r == ReadLegacy(valid, legacy)
  {
    RunKeeps(valid, Disk(NoKey, NoDb, legacy), legacy, steps);
  }

  /** The disk after an undisturbed migration. */
  predicate Migrated(valid: Hashes, d: Disk, hash: string) {
    Holds(valid, d, hash) && d.key.initialized && d.legacy.NoLegacy?
  }

  lemma {:induction false} MigratedIsQuiet(valid: Hashes, d: Disk, hash: string, id: string)
    requires Migrated(valid, d, hash)
    ensures Reopen(valid, d, id) == Effect([], Ok(Row(1, FirstState(hash))))
  {}

  lemma {:induction false} OpenCompletes(valid: Hashes, d: Disk, legacy: Legacy, id: string)
    requires Migrating(valid, d, legacy)
    ensures
      var e := Reopen(valid, d, id);
      && (e.result.Ok? <==> !d.key.TornKey? && !d.db.Partial? && ReadLegacy(valid, legacy).Ok?)
      && (e.result.Ok? ==>
            && Migrated(valid, Latest(d, e.trace), ReadLegacy(valid, legacy).value)
            && e.result == Ok(Row(1, FirstState(ReadLegacy(valid, legacy).value)))
            && Reopen(valid, Latest(d, e.trace), id) == Effect([], e.result))
  {
    if !Uncommitted(d.db) || ReadLegacy(valid, d.legacy).Ok? {
      OpenKeeps(valid, d, legacy, if Uncommitted(d.db) then ReadLegacy(valid, d.legacy).value else "", id);
      var e := Reopen(valid, d, id);
      if !d.key.TornKey? && !d.db.Partial? {
        MigratedIsQuiet(valid, Latest(d, e.trace), ReadLegacy(valid, legacy).value, id);
      }
    }
  }

  /** Convergence: from every reachable disk an undisturbed open completes the
      migration exactly when the key is not torn, no half-made database is in
      the way and the legacy file was readable; the result is the one an
      undisturbed first open gives, and opening it again writes nothing. */
  lemma {:induction false} MigrationConverges(valid: Hashes, legacy: Legacy, steps: seq<Step>, id: string)
    ensures
      var d := Run(valid, Disk(NoKey, NoDb, legacy), steps);
      var e := Reopen(valid, d, id);
      && (e.result.Ok? <==> !d.key.TornKey? && !d.db.Partial? && ReadLegacy(valid, legacy).Ok?)
      && (e.result.Ok? ==>
            && Migrated(valid, Latest(d, e.trace), ReadLegacy(valid, legacy).value)
            && e.result == Ok(Row(1, FirstState(ReadLegacy(valid, legacy).value)))
            && Reopen(valid, Latest(d, e.trace), id) == Effect([], e.result))
  {
    RunKeeps(valid, Disk(NoKey, NoDb, legacy), legacy, steps);
    OpenCompletes(valid, Run(valid, Disk(NoKey, NoDb, legacy), steps), legacy, id);
  }

  /** Once the key says the authority was initialized, a missing or empty
      database is an error for every operation, and none of them writes. */
  lemma {:induction false} InitializedNeedsAuthority(valid: Hashes, d: Disk, hash: string, id: string)
    requires d.key.Key? && d.key.initialized && Uncommitted(d.db)
    ensures ReadHash(valid, d).Err?
    ensures Reopen(valid, d, id).result.Err? && Reopen(valid, d, id).trace == []
    ensures ChangeHash(valid, d, hash, id).result.Err? && ChangeHash(valid, d, hash, id).trace == []
  {}

  // ---------------------------------------------------- changing the verifier

  /** A write is seen whole or not at all, wherever it is cut off. */
  ghost predicate WrittenWholly(valid: Hashes, d: Disk, hash: string, id: string) {
    forall n: nat :: SeenWhole(valid, d, hash, CrashedAt(d, ChangeHash(valid, d, hash, id).trace, n))
  }

  predicate SeenWhole(valid: Hashes, before: Disk, hash: string, after: Disk) {
    var r := ReadHash(valid, after);
    r.Err? || r == ReadHash(valid, before) || r == Ok(hash)
  }

  /** The guard an interrupted first initialization leaves: a key whose
      authority was never made. */
  predicate Interrupted(d: Disk) {
    d.key.Key? && !d.key.initialized && Uncommitted(d.db)
  }

  /** With a key and no interrupted initialization, an open changes nothing of
      the authority: it raises the flag and drops the legacy file at most. */
  lemma {:induction false} QuietOpens(valid: Hashes, d: Disk, id: string)
    requires !Interrupted(d) && !d.key.NoKey?
    ensures
      var e := OpenStore(valid, d, "", id);
      && (forall k | 0 <= k < |e.trace| :: ReadHash(valid, e.trace[k]) == ReadHash(valid, d))
      && (e.result.Ok? ==> d.key.Key? && d.db.Committed? && Latest(d, e.trace).key == Key(d.key.id, true))
  {
    assert KeyWrites(d, id) == [];
    if d.key.Key? && !d.db.Partial? && !Uncommitted(d.db) {
      assert DbWrites(d, "") == [] && [] + ([] + Finish(valid, d).trace) == Finish(valid, d).trace;
    }
  }

  lemma {:induction false} KeyedWriteSeenWhole(valid: Hashes, d: Disk, e: Effect<Row>, hash: string, k: nat)
    requires d.key.Key? && k < |ChangeRow(valid, d, e, hash).trace|
    requires forall i | 0 <= i < |e.trace| :: ReadHash(valid, e.trace[i]) == ReadHash(valid, d)
    requires e.result.Ok? ==> Latest(d, e.trace).key == Key(d.key.id, true)
    ensures SeenWhole(valid, d, hash, ChangeRow(valid, d, e, hash).trace[k])
  {}

  lemma {:induction false} WriteSeenWhole(valid: Hashes, d: Disk, hash: string, id: string, k: nat)
    requires !Interrupted(d) && k < |ChangeHash(valid, d, hash, id).trace|
    ensures SeenWhole(valid, d, hash, ChangeHash(valid, d, hash, id).trace[k])
  {
    if !d.key.NoKey? {
      QuietOpens(valid, d, id);
      if d.key.Key? { KeyedWriteSeenWhole(valid, d, OpenStore(valid, d, "", id), hash, k); }
    }
  }

  /** Written while a first initialization is interrupted, a new verifier first
      replaces the legacy one by an authority with no password at all. */
  lemma {:induction false} InterruptedWriteLosesVerifier(valid: Hashes, d: Disk, hash: string, id: string)
    requires Interrupted(d)
    ensures exists n: nat :: ReadHash(valid, CrashedAt(d, ChangeHash(valid, d, hash, id).trace, n)) == Ok("")
  {
    var trace := OpenStore(valid, d, "", id).trace;
    var n := |DbWrites(d, "")|;
    assert trace[n - 1].db == Committed(d.key.id, Row(1, FirstState("")));
    assert CrashedAt(d, ChangeHash(valid, d, hash, id).trace, n) == trace[n - 1];
  }

  predicate SeenOrEmpty(valid: Hashes, before: Disk, hash: string, after: Disk) {
    SeenWhole(valid, before, hash, after) || ReadHash(valid, after) == Ok("")
  }

  ghost predicate AllSeen(valid: Hashes, before: Disk, hash: string, trace: seq<Disk>) {
    forall k | 0 <= k < |trace| :: SeenOrEmpty(valid, before, hash, trace[k])
  }

  /** An open in the interrupted state makes an authority without a password
      and completes. */
  lemma {:induction false} InterruptedOpens(valid: Hashes, d: Disk, id: string)
    requires Interrupted(d)
    ensures
      var d2 := Latest(d, DbWrites(d, ""));
      && d2 == d.(db := Committed(d.key.id, Row(1, FirstState(""))))
      && OpenStore(valid, d, "", id) == Effect(DbWrites(d, "") + Finish(valid, d2).trace, Ok(Row(1, FirstState(""))))
      && Latest(d, DbWrites(d, "") + Finish(valid, d2).trace) == Disk(Key(d.key.id, true), d2.db, NoLegacy)
  {
    var made := DbWrites(d, "");
    var d2 := Latest(d, made);
    assert d2 == d.(db := Committed(d.key.id, Row(1, FirstState(""))));
    var rest := Finish(valid, d2);
    assert rest.result == Ok(Row(1, FirstState(""))) &&
        Latest(d2, rest.trace) == Disk(Key(d.key.id, true), d2.db, NoLegacy);
    LatestJoined(d, made, rest.trace);
    assert [] + (made + rest.trace) == made + rest.trace && KeyWrites(d, id) == [];
  }

  lemma {:induction false} InterruptedOpenSees(valid: Hashes, d: Disk, hash: string)
    requires Interrupted(d)
    ensures AllSeen(valid, d, hash, DbWrites(d, ""))
    ensures var d2 := d.(db := Committed(d.key.id, Row(1, FirstState(""))));
            AllSeen(valid, d, hash, Finish(valid, d2).trace)
  {}

  lemma {:induction false} ChangeRowSees(valid: Hashes, d: Disk, e: Effect<Row>, hash: string)
    requires d.key.Key? && e.result == Ok(Row(1, FirstState(""))) && AllSeen(valid, d, hash, e.trace)
    requires Latest(d, e.trace).key == Key(d.key.id, true)
    ensures AllSeen(valid, d, hash, ChangeRow(valid, d, e, hash).trace)
  {}

  lemma {:induction false} InterruptedWriteSees(valid: Hashes, d: Disk, hash: string, id: string)
    requires Interrupted(d)
    ensures AllSeen(valid, d, hash, ChangeHash(valid, d, hash, id).trace)
  {
    var d2, e := d.(db := Committed(d.key.id, Row(1, FirstState("")))), OpenStore(valid, d, "", id);
    InterruptedOpens(valid, d, id);
    InterruptedOpenSees(valid, d, hash);
    var made, rest := DbWrites(d, ""), Finish(valid, d2).trace;
    SeenJoined(valid, d, hash, made, rest);
    ChangeRowSees(valid, d, e, hash);
  }

  lemma {:induction false} SeenJoined(valid: Hashes, d: Disk, hash: string, x: seq<Disk>, y: seq<Disk>)
    requires AllSeen(valid, d, hash, x) && AllSeen(valid, d, hash, y)
    ensures AllSeen(valid, d, hash, x + y)
  {}

  /** A write of the verifier is all or nothing under crashes if and only if no
      interrupted initialization is pending, or there is nothing to lose: no
      verifier is set yet, or none is being set. */
  lemma {:induction false} WriteIsWholeExactlyWhen(valid: Hashes, d: Disk, hash: string, id: string)
    ensures WrittenWholly(valid, d, hash, id) <==>
            !Interrupted(d) || ReadLegacy(valid, d.legacy) == Ok("") ||
            hash == ""
  {
    var trace := ChangeHash(valid, d, hash, id).trace;
    if !Interrupted(d) {
      forall n: nat ensures SeenWhole(valid, d, hash, CrashedAt(d, trace, n)) {
        if trace != [] && n > 0 { WriteSeenWhole(valid, d, hash, id, if n <= |trace| then n - 1 else |trace| - 1); }
      }
    } else {
      InterruptedWriteLosesVerifier(valid, d, hash, id);
      forall n: nat ensures ReadHash(valid, d) == Ok("") || hash == "" ==>
          SeenWhole(valid, d, hash, CrashedAt(d, trace, n)) {
        InterruptedWriteSees(valid, d, hash, id);
      }
    }
  }

  // --------------------------------------------------------- the state files

  /** The state directory, written one file at a time; `seen` is the disk after
      each write, which is what a crash can leave. */
  class StateDir {
    const valid: Hashes
    var key: KeyFile
    var db: DbFile
    var legacy: Legacy
    ghost var seen: seq<Disk>

    constructor (valid: Hashes, d: Disk)
      ensures this.valid == valid && View() == d && seen == []
    {
      this.valid := valid;
      key, db, legacy, seen := d.key, d.db, d.legacy, [];
    }

    function View(): Disk
      reads this
    {
      Disk(key, db, legacy)
    }

    ghost predicate Wrote<T>(before: Disk, saw: seq<Disk>, e: Effect<T>, r: Result<T, StoreError>)
      reads this
    {
      seen == saw + e.trace && View() == Latest(before, e.trace) && r == e.result
    }

    method PutKey(key: KeyFile)
      modifies `key, `seen
      ensures View() == old(View()).(key := key) && seen == old(seen) + [View()]
    {
      this.key := key;
      seen := seen + [View()];
    }

    method PutDb(db: DbFile)
      modifies `db, `seen
      ensures View() == old(View()).(db := db) && seen == old(seen) + [View()]
    {
      this.db := db;
      seen := seen + [View()];
    }

    method PutLegacy(legacy: Legacy)
      modifies `legacy, `seen
      ensures View() == old(View()).(legacy := legacy) && seen == old(seen) + [View()]
    {
      this.legacy := legacy;
      seen := seen + [View()];
    }

    method RemoveLegacy()
      modifies `legacy, `seen
      ensures seen == old(seen) + LegacyWrites(old(View())) && View() == Latest(old(View()), LegacyWrites(old(View())))
    {
      if !legacy.NoLegacy? { PutLegacy(NoLegacy); }
    }

    /** The authority row as the database gives it back. */
    method Load() returns (r: Result<Row, StoreError>)
      ensures r == Unseal(valid, key, db)
    {
      if !db.Committed? || !key.Key? { return Err(RepairNeeded); }
      if db.sealedBy != key.id { return Err(SealBroken); }
      var state := db.row.state;
      if state.revision == 0 || (state.secret != "" && (state.passwordHash == "" || state.credentialId == "")) {
        return Err(PolicyInvalid);
      }
      if state.passwordHash != "" && !valid(state.passwordHash) { return Err(HashInvalid); }
      return Ok(db.row);
    }

    method CreateKey(id: string)
      modifies `key, `seen
      ensures seen == old(seen) + KeyWrites(old(View()), id) &&
              View() == Latest(old(View()), KeyWrites(old(View()), id))
    {
      if key.NoKey? {
        PutKey(TornKey);
        PutKey(Key(id, false));
      }
    }

    method CreateDatabase(hash: string)
      requires key.Key?
      modifies `db, `seen
      ensures seen == old(seen) + DbWrites(old(View()), hash) &&
              View() == Latest(old(View()), DbWrites(old(View()), hash))
    {
      if db.NoDb? { PutDb(EmptyDb); }
      if db.EmptyDb? {
        PutDb(Partial);
        PutDb(Committed(key.id, Row(1, FirstState(hash))));
      }
    }

    method FinishOpen() returns (r: Result<Row, StoreError>)
      requires key.Key?
      modifies `key, `legacy, `seen
      ensures Wrote(old(View()), old(seen), Finish(valid, old(View())), r)
    {
      r := Load();
      if r.Err? { return; }
      if !key.initialized { PutKey(Key(key.id, true)); }
      RemoveLegacy();
    }

    method OpenDatabase(hash: string) returns (r: Result<Row, StoreError>)
      requires key.Key?
      modifies `key, `db, `legacy, `seen
      ensures Wrote(old(View()), old(seen), OpenKeyed(valid, old(View()), hash), r)
    {
      if db.NoDb? || db.EmptyDb? {
        if key.initialized { return Err(DatabaseMissing); }
      } else if db.Partial? {
        return Err(RepairNeeded);
      }
      CreateDatabase(hash);
      r := FinishOpen();
    }

    method OpenAuthStore(hash: string, id: string) returns (r: Result<Row, StoreError>)
      modifies this
      ensures Wrote(old(View()), old(seen), OpenStore(valid, old(View()), hash, id), r)
    {
      if key.NoKey? && !db.NoDb? { return Err(KeyMissing); }
      if key.TornKey? { return Err(KeyInvalid); }
      ghost var d := View();
      CreateKey(id);
      ghost var keyed := View();
      assert keyed == Latest(d, KeyWrites(d, id)) && keyed.key.Key?;
      r := OpenDatabase(hash);
      ghost var rest := OpenKeyed(valid, keyed, hash);
      assert OpenStore(valid, d, hash, id) == Effect(KeyWrites(d, id) + rest.trace, rest.result);
      LatestJoined(d, KeyWrites(d, id), rest.trace);
      Regrouped(old(seen), KeyWrites(d, id), rest.trace);
    }

    method OpenPersistent(id: string) returns (r: Result<Row, StoreError>)
      modifies this
      ensures Wrote(old(View()), old(seen), Reopen(valid, old(View()), id), r)
    {
      var hash := "";
      if db.NoDb? || db.EmptyDb? {
        match ReadLegacy(valid, legacy) {
          case Ok(stored) => hash := stored;
          case Err(e) => return Err(e);
        }
      }
      r := OpenAuthStore(hash, id);
    }

    method ReadPasswordHash() returns (r: Result<string, StoreError>)
      ensures r == ReadHash(valid, View())
    {
      if key.NoKey? && db.NoDb? { return ReadLegacy(valid, legacy); }
      if key.Key? && !key.initialized && (db.NoDb? || db.EmptyDb?) { return ReadLegacy(valid, legacy); }
      if key.NoKey? { return Err(KeyMissing); }
      if key.TornKey? { return Err(KeyInvalid); }
      if db.NoDb? || db.EmptyDb? { return Err(DatabaseMissing); }
      var row := Load();
      return if row.Ok? then Ok(row.value.state.passwordHash) else Err(row.error);
    }

    method WritePasswordHash(hash: string, id: string) returns (r: Result<(), StoreError>)
      modifies this
      ensures Wrote(old(View()), old(seen), ChangeHash(valid, old(View()), hash, id), r)
    {
      if !key.NoKey? {
        var row := OpenAuthStore("", id);
        if row.Err? { return Err(row.error); }
        var state := row.value.state;
        if state.secret != "" || state.recoveryPending { return Err(Protected); }
        if hash != "" && !valid(hash) { return Err(HashInvalid); }
        PutDb(Committed(key.id, Row(row.value.generation + 1,
            state.(passwordHash := hash, revision := state.revision + 1))));
        return Ok(());
      }
      if hash == "" {
        RemoveLegacy();
        return Ok(());
      }
      if !valid(hash) { return Err(HashInvalid); }
      PutLegacy(Verifier(hash));
      return Ok(());
    }
  }
}

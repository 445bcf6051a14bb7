/** One-time factors over the whole authority: any number of openers of one
    row, saves that fail or whose report is lost, reopening, and management.
    `Factors` follows one memory; here a factor counts for the stored row. */
module OneTime {
  import opened Basics
  import opened Throttle
  import opened Factors
  import opened Authority

  /** A stored spend of a time code. It was accepted if its save was reported;
      otherwise the row has lost it without an answer. */
  datatype CodeSpend = CodeSpend(credential: string, used: UsedCode, reported: bool)

  /** A stored spend of a recovery hash of the list issued under `salt`. */
  datatype HashSpend = HashSpend(salt: string, hash: string, reported: bool)

  /** What the row has ever enrolled, issued and spent. */
  datatype Tally = Tally(enrolled: set<string>, issued: map<string, seq<string>>, codes: seq<CodeSpend>,
                         hashes: seq<HashSpend>)

  /** The authority with its tally and the random identifiers drawn so far. */
  datatype Book = Book(world: World, drawn: set<string>, tally: Tally)

  // ------------------------------------------------------------------- steps

  datatype Trial = Trial(i: nat, code: string, recovery: string, now: int, fate: Fate)

  /** A change of a configured policy asks for a factor once its guards pass. */
  predicate Reauthenticates(o: Owner, row: Row, q: Query) {
    && row.generation == o.generation && q.request.Begin? && q.request.action != Setup
    && |Unexpired(o.ops, q.now)| < MAX_OPERATIONS && o.auth.secret != "" && !o.auth.recoveryPending
    && (o.enabled ==> q.password0.Accepted?)
  }

  /** The factor that a step tries, if it tries one. */
  function TrialOf(w: World, s: Step): Option<Trial>
    requires Allowed(w, s)
  {
    match s
    case Factor(i, code, recovery, now, fate) => Some(Trial(i, code, recovery, now, fate))
    case Managed(i, q) =>
      if Reauthenticates(w.owners[i], w.row, q) then Some(Trial(i, q.code, q.recovery, q.now, q.fate)) else None
    case _ => None
  }

  function EventOf(t: Trial): FactorEvent {
    TryFactor(t.code, t.recovery, t.now, true)
  }

  /** The factor counts for what the owner holds, and its save reaches the row. */
  predicate SpendsFactor(c: Crypto, policy: Policy, o: Owner, row: Row, t: Trial) {
    Accepts(c, policy, o.auth, EventOf(t)) && o.generation == row.generation && t.fate != Failed
  }

  predicate Spends(c: Crypto, policy: Policy, w: World, s: Step)
    requires Allowed(w, s)
  {
    TrialOf(w, s).Some? && SpendsFactor(c, policy, w.owners[TrialOf(w, s).value.i], w.row, TrialOf(w, s).value)
  }

  function WithSpend(c: Crypto, l: Tally, a: AuthState, t: Trial): Tally
    requires Takes(c, a, t.code, t.recovery, t.now)
  {
    if t.recovery == "" then l.(codes := l.codes +
        [CodeSpend(a.credentialId, UsedBy(c, a, EventOf(t)), t.fate == Stored)])
    else l.(hashes := l.hashes + [HashSpend(a.recoverySalt, RecoveryHash(c, a, t.recovery), t.fate == Stored)])
  }

  /** A pending operation that the next commit could store. */
  predicate Live(o: Owner, row: Row, id: string) {
    id in o.ops && o.generation == row.generation && o.ops[id].revision == o.auth.revision && !o.ops[id].committed
  }

  /** The step stores the commit of this operation, reported or not. */
  predicate CommitsOp(w: World, s: Step)
    requires Allowed(w, s)
  {
    s.Managed? && s.query.request.Commit? && s.query.fate != Failed &&
    var o, id := w.owners[s.i].(ops := Unexpired(w.owners[s.i].ops, s.query.now)), s.query.operationId;
    Live(o, w.row, id) && o.ops[id].binding == s.query.binding && o.ops[id].verified &&
        (o.ops[id].action == Disable || s.query.saved)
  }

  function WithCommit(l: Tally, op: Op): Tally {
    if op.action == Disable then l
    else l.(issued := l.issued[op.salt := op.hashes], enrolled := if op.secret == "" then l.enrolled
        else l.enrolled + {op.credentialId})
  }

  function DrawnBy(s: Step): set<string> {
    if s.Managed? && s.query.material.Some? then {s.query.material.value.credentialId, s.query.material.value.salt}
        else {}
  }

  /** Credential ids and salts are new random tokens. */
  predicate Fresh(b: Book, s: Step) {
    Allowed(b.world, s) && DrawnBy(s) !! b.drawn &&
    (s.Managed? && s.query.material.Some? ==> s.query.material.value.salt != "")
  }

  function TallyAfter(c: Crypto, policy: Policy, b: Book, s: Step): Tally
    requires Fresh(b, s)
  {
    var w := b.world;
    if Spends(c, policy, w, s) then
      var t := TrialOf(w, s).value;
      WithSpend(c, b.tally, w.owners[t.i].auth, t)
    else if CommitsOp(w, s) then WithCommit(b.tally, w.owners[s.i].ops[s.query.operationId])
    else b.tally
  }

  function Next(c: Crypto, policy: Policy, b: Book, s: Step): Book
    requires Fresh(b, s)
  {
    Book(Authority.After(c, policy, b.world, s), b.drawn + DrawnBy(s), TallyAfter(c, policy, b, s))
  }

  // ---------------------------------------------------- how one row moves

  /** Equal in everything that factors are judged and accounted by. */
  predicate Steady(a: AuthState, b: AuthState) {
    && a.secret == b.secret && a.credentialId == b.credentialId && a.lastStep == b.lastStep
    && a.lastCodeHash == b.lastCodeHash && a.lastCodeUntil == b.lastCodeUntil
    && a.recoverySalt == b.recoverySalt && a.recoveryHashes == b.recoveryHashes
  }

  /** An owner of the row's generation holds the row's state. */
  predicate Holds(o: Owner, row: Row) {
    o.generation == row.generation ==> o.auth == row.state
  }

  /** The row after a trial: the spent state, or nothing that counts. */
  ghost predicate TrialMoves(c: Crypto, policy: Policy, o: Owner, row: Row, t: Trial, next: Row) {
    if SpendsFactor(c, policy, o, row, t) then o.auth == row.state &&
        next.state == Spend(c, o.auth, t.code, t.recovery, t.now)
    else Steady(row.state, next.state)
  }

  lemma {:induction false} FactorMoves(c: Crypto, policy: Policy, o: Owner, row: Row, t: Trial)
    requires Holds(o, row)
    ensures TrialMoves(c, policy, o, row, t, VerifyFactor(c, policy, o, row, t.code, t.recovery, t.now, t.fate).1)
  {}

  lemma {:induction false} ChangeMoves(c: Crypto, policy: Policy, o: Owner, row: Row, action: Action, q: Query)
    requires Holds(o, row)
    ensures
      var t, next := Trial(0, q.code, q.recovery, q.now, q.fate), Change(c, policy, o, row, action, q).row;
      if o.enabled && !q.password0.Accepted? then next == row else TrialMoves(c, policy, o, row, t, next)
  {
    var f := VerifyFactor(c, policy, o, row, q.code, q.recovery, q.now, q.fate);
    FactorMoves(c, policy, o, row, Trial(0, q.code, q.recovery, q.now, q.fate));
    AddKeepsRow(c, f.0, f.1, action, q);
  }

  lemma {:induction false} AddKeepsRow(c: Crypto, o: Owner, row: Row, action: Action, q: Query)
    ensures AddOp(c, o, row, action, q).row == row
  {}

  lemma {:induction false} BeginMoves(c: Crypto, policy: Policy, o: Owner, row: Row, q: Query)
    requires Holds(o, row) && q.request.Begin? && row.generation == o.generation
    ensures
      var v := o.(ops := Unexpired(o.ops, q.now));
      var t, next := Trial(0, q.code, q.recovery, q.now, q.fate), DoBegin(c, policy, v, row, q.request.action, q).row;
      if Reauthenticates(o, row, q) then TrialMoves(c, policy, o, row, t, next) else next == row
  {
    var v := o.(ops := Unexpired(o.ops, q.now));
    ChangeMoves(c, policy, v, row, q.request.action, q);
    AddKeepsRow(c, v, row, q.request.action, q);
  }

  /** A commit stores exactly when its guards pass and the save does not fail. */
  lemma {:induction false} CommitMoves(c: Crypto, policy: Policy, o: Owner, row: Row, q: Query)
    requires Holds(o, row) && q.request.Commit? && row.generation == o.generation
    ensures
      var id, next := q.operationId, DoOperation(c, policy, o, row, q).row;
      if q.fate != Failed && Live(o, row, id) && o.ops[id].binding == q.binding && o.ops[id].verified &&
          (o.ops[id].action == Disable || q.saved)
      then next.state == CommitNext(c, row.state, o.ops[id]) && o.auth == row.state
      else next == row
  {}

  lemma {:induction false} VerifyMoves(c: Crypto, policy: Policy, o: Owner, row: Row, q: Query)
    requires Holds(o, row) && !q.request.Commit?
    ensures Steady(row.state, DoOperation(c, policy, o, row, q).row.state)
  {}

  /** The three ways in which a step moves the row. */
  ghost predicate StepMoves(c: Crypto, policy: Policy, w: World, s: Step, next: Row)
    requires Allowed(w, s)
  {
    if Spends(c, policy, w, s) then
      var t := TrialOf(w, s).value;
      w.owners[t.i].auth == w.row.state && next.state == Spend(c, w.owners[t.i].auth, t.code, t.recovery, t.now)
    else if CommitsOp(w, s) then
      w.owners[s.i].auth == w.row.state &&
          next.state == CommitNext(c, w.row.state, w.owners[s.i].ops[s.query.operationId])
    else Steady(w.row.state, next.state)
  }

  lemma {:induction false} OwnerHolds(w: World, i: nat)
    requires Authority.Inv(w) && i in w.owners
    ensures Holds(w.owners[i], w.row)
  {
    assert OwnerOk(w.history, w.owners[i]);
  }

  lemma {:induction false} ManageMoves(c: Crypto, policy: Policy, w: World, s: Step)
    requires Allowed(w, s) && s.Managed? && Holds(w.owners[s.i], w.row)
    ensures StepMoves(c, policy, w, s, Manage(c, policy, w.owners[s.i], w.row, s.query).row)
  {
    var o, q := w.owners[s.i], s.query;
    var v := o.(ops := Unexpired(o.ops, q.now));
    if w.row.generation == o.generation {
      if q.request.Begin? {
        BeginMoves(c, policy, o, w.row, q);
      } else if q.request.Commit? {
        CommitMoves(c, policy, v, w.row, q);
      } else if q.request.Verify? || q.request.Unknown? {
        VerifyMoves(c, policy, v, w.row, q);
      }
    }
  }

  lemma {:induction false} RowMoves(c: Crypto, policy: Policy, w: World, s: Step)
    requires Authority.Inv(w) && Allowed(w, s)
    ensures StepMoves(c, policy, w, s, Authority.After(c, policy, w, s).row)
  {
    match s
    case Open(_) =>
    case Close(_) =>
    case Factor(i, code, recovery, now, fate) =>
      OwnerHolds(w, i);
      FactorMoves(c, policy, w.owners[i], w.row, Trial(i, code, recovery, now, fate));
    case Managed(i, _) =>
      OwnerHolds(w, i);
      ManageMoves(c, policy, w, s);
    case Write(i, _, _) =>
      OwnerHolds(w, i);
  }

  // --------------------------------------------------- operations stay fresh

  predicate SameMaterial(a: Op, b: Op) {
    a.action == b.action && a.salt == b.salt && a.credentialId == b.credentialId
  }

  predicate FromMaterial(m: Option<Material>, op: Op) {
    m.Some? && (op.action != Disable ==> op.salt == m.value.salt) &&
        (Enrolls(op.action) ==> op.credentialId == m.value.credentialId)
  }

  /** A live operation was live before, or is made of newly drawn material. */
  predicate Stems(o: Owner, row: Row, p: Owner, next: Row, m: Option<Material>, id: string) {
    Live(p, next, id) ==> (Live(o, row, id) && SameMaterial(o.ops[id], p.ops[id])) || FromMaterial(m, p.ops[id])
  }

  lemma {:induction false} FactorStems(c: Crypto, policy: Policy, o: Owner, row: Row, t: Trial, id: string)
    ensures var f := VerifyFactor(c, policy, o, row, t.code, t.recovery, t.now, t.fate);
            Stems(o, row, f.0, f.1, None, id)
    ensures VerifyFactor(c, policy, o, row, t.code, t.recovery, t.now, t.fate).0.ops == o.ops
  {}

  lemma {:induction false} AddStems(c: Crypto, o: Owner, row: Row, action: Action, q: Query, id: string)
    ensures var t := AddOp(c, o, row, action, q); Stems(o, row, t.owner, t.row, q.material, id)
  {}

  lemma {:induction false} ChangeStems(c: Crypto, policy: Policy, o: Owner, row: Row, action: Action, q: Query,
          id: string)
    ensures var t := Change(c, policy, o, row, action, q); Stems(o, row, t.owner, t.row, q.material, id)
  {
    var f := VerifyFactor(c, policy, o, row, q.code, q.recovery, q.now, q.fate);
    FactorStems(c, policy, o, row, Trial(0, q.code, q.recovery, q.now, q.fate), id);
    AddStems(c, f.0, f.1, action, q, id);
  }

  lemma {:induction false} BeginStems(c: Crypto, policy: Policy, o: Owner, row: Row, action: Action, q: Query,
          id: string)
    ensures var t := DoBegin(c, policy, o, row, action, q); Stems(o, row, t.owner, t.row, q.material, id)
  {
    ChangeStems(c, policy, o, row, action, q, id);
    AddStems(c, o, row, action, q, id);
  }

  lemma {:induction false} VerifyStems(c: Crypto, policy: Policy, o: Owner, row: Row, q: Query, id: string)
    requires q.operationId in o.ops
    ensures var t := DoVerify(c, policy, o, row, q); Stems(o, row, t.owner, t.row, q.material, id)
  {}

  lemma {:induction false} CommitStems(c: Crypto, o: Owner, row: Row, q: Query, id: string)
    requires q.operationId in o.ops && OpsOk(o.auth, o.ops)
    ensures var t := DoCommit(c, o, row, q);
            Stems(o, row, t.owner, t.row, q.material, id) && (t.row != row ==> !Live(t.owner, t.row, id))
  {
    if id in o.ops { assert OpOk(o.auth, o.ops[id]); }
  }

  lemma {:induction false} OperationStems(c: Crypto, policy: Policy, o: Owner, row: Row, q: Query, id: string)
    requires OpsOk(o.auth, o.ops)
    ensures var t := DoOperation(c, policy, o, row, q);
            Stems(o, row, t.owner, t.row, q.material, id) &&
                (q.request.Commit? && t.row != row ==> !Live(t.owner, t.row, id))
  {
    if q.operationId in o.ops {
      VerifyStems(c, policy, o, row, q, id);
      CommitStems(c, o, row, q, id);
    }
  }

  lemma {:induction false} RecoverStems(o: Owner, row: Row, q: Query, id: string)
    requires OpsOk(o.auth, o.ops)
    ensures var t := DoRecover(o, row, q.fate); Stems(o, row, t.owner, t.row, q.material, id)
  {
    if id in o.ops { assert OpOk(o.auth, o.ops[id]); }
  }

  lemma {:induction false} ManageStems(c: Crypto, policy: Policy, o: Owner, row: Row, q: Query, id: string)
    requires OpsOk(o.auth, o.ops)
    ensures var t := Manage(c, policy, o, row, q);
            Stems(o, row, t.owner, t.row, q.material, id) &&
                (q.request.Commit? && t.row != row ==> !Live(t.owner, t.row, id))
  {
    var v := o.(ops := Unexpired(o.ops, q.now));
    ExpireFair(o, row, q.now);
    if row.generation == o.generation {
      if q.request.Begin? {
        BeginStems(c, policy, v, row, q.request.action, q, id);
      } else if q.request.Recover? {
        RecoverStems(v, row, q, id);
      } else if q.request.Verify? || q.request.Commit? || q.request.Unknown? {
        OperationStems(c, policy, v, row, q, id);
      }
    }
  }

  /** What an operation would install has never been enrolled or issued. */
  predicate Unused(l: Tally, drawn: set<string>, op: Op) {
    && (op.action != Disable ==> op.salt != "" && op.salt in drawn && op.salt !in l.issued)
    && (Enrolls(op.action) ==> op.credentialId in drawn && op.credentialId !in l.enrolled)
  }

  predicate OpUnused(b: Book, i: nat, id: string) {
    i in b.world.owners && Live(b.world.owners[i], b.world.row, id) ==>
        Unused(b.tally, b.drawn, b.world.owners[i].ops[id])
  }

  ghost predicate OpsUnused(b: Book) {
    && b.tally.issued.Keys <= b.drawn && b.tally.enrolled <= b.drawn
    && forall i, id :: OpUnused(b, i, id)
  }

  /** Once the row has moved on, what another owner has pending is dead. */
  lemma {:induction false} OthersAreStale(w: World, next: Row, j: nat, id: string)
    requires Authority.Inv(w) && j in w.owners && next.generation == w.row.generation + 1
    ensures !Live(w.owners[j], next, id)
  {
    assert OwnerOk(w.history, w.owners[j]);
  }

  /** The operation that a step commits, as it is pending before. */
  lemma {:induction false} CommittedOp(b: Book, s: Step)
    requires Authority.Inv(b.world) && OpsUnused(b) && Allowed(b.world, s) && CommitsOp(b.world, s)
    ensures var op := b.world.owners[s.i].ops[s.query.operationId];
            Unused(b.tally, b.drawn, op) && OpOk(b.world.owners[s.i].auth, op) &&
                (op.secret != "" <==> Enrolls(op.action))
  {
    assert OwnerOk(b.world.history, b.world.owners[s.i]) && OpUnused(b, s.i, s.query.operationId);
  }

  lemma {:induction false} TallyGrows(c: Crypto, policy: Policy, b: Book, s: Step)
    requires Authority.Inv(b.world) && Fresh(b, s) && OpsUnused(b)
    ensures var l := TallyAfter(c, policy, b, s);
            && l.issued.Keys <= b.drawn && l.enrolled <= b.drawn
            && (!CommitsOp(b.world, s) || Spends(c, policy, b.world, s) ==>
                l.issued == b.tally.issued &&
                l.enrolled == b.tally.enrolled)
  {
    if CommitsOp(b.world, s) { CommittedOp(b, s); }
  }

  /** Whoever acts: what is live afterwards was live before or is new, nothing
      is live after a stored commit, and the others only lose. */
  lemma {:induction false} LiveStems(c: Crypto, policy: Policy, w: World, s: Step, i: nat, id: string)
    requires Authority.Inv(w) && Allowed(w, s) && i in Authority.After(c, policy, w, s).owners
    ensures
      var v := Authority.After(c, policy, w, s);
      var m := if s.Managed? then s.query.material else None;
      Live(v.owners[i], v.row, id) ==>
        && !CommitsOp(w, s)
        && (FromMaterial(m, v.owners[i].ops[id]) ||
            (i in w.owners && Live(w.owners[i], w.row, id) && SameMaterial(w.owners[i].ops[id], v.owners[i].ops[id])))
  {
    var v := Authority.After(c, policy, w, s);
    if CommitsOp(w, s) { CommitMovesRow(c, policy, w, s); }
    if v.row != w.row {
      StoredByHolder(c, policy, w, s);
      if i in w.owners { OthersAreStale(w, v.row, i, id); }
    }
    match s
    case Factor(j, code, recovery, now, fate) => FactorStems(c, policy, w.owners[j], w.row,
        Trial(j, code, recovery, now, fate), id);
    case Managed(j, q) =>
      assert OwnerOk(w.history, w.owners[j]);
      ManageStems(c, policy, w.owners[j], w.row, q, id);
    case _ =>
  }

  lemma {:induction false} CommitMovesRow(c: Crypto, policy: Policy, w: World, s: Step)
    requires Authority.Inv(w) && Allowed(w, s) && CommitsOp(w, s)
    ensures Authority.After(c, policy, w, s).row != w.row
  {
    RowMoves(c, policy, w, s);
  }

  lemma {:induction false} OpsStayUnused(c: Crypto, policy: Policy, b: Book, s: Step)
    requires Authority.Inv(b.world) && Fresh(b, s) && OpsUnused(b)
    ensures OpsUnused(Next(c, policy, b, s))
  {
    var v := Next(c, policy, b, s);
    TallyGrows(c, policy, b, s);
    forall i: nat, id ensures OpUnused(v, i, id) {
      if i in v.world.owners && Live(v.world.owners[i], v.world.row, id) {
        LiveStems(c, policy, b.world, s, i, id);
        assert OpUnused(b, i, id);
      }
    }
  }

  // ---------------------------------------------------------- the accounts

  /** The hashes spent of one issued list, by what became of their saves. */
  function Taken(hashes: seq<HashSpend>, salt: string, reported: bool): seq<string> {
    if hashes == [] then []
    else
      var last := hashes[|hashes| - 1];
      Taken(hashes[..|hashes| - 1], salt, reported) +
          (if last.salt == salt && last.reported == reported then [last.hash] else [])
  }

  function AllTaken(hashes: seq<HashSpend>, salt: string): multiset<string> {
    multiset(Taken(hashes, salt, true)) + multiset(Taken(hashes, salt, false))
  }

  lemma {:induction false} TakenGrows(hashes: seq<HashSpend>, h: HashSpend, salt: string)
    ensures AllTaken(hashes + [h], salt) == AllTaken(hashes, salt) + if h.salt == salt then multiset{h.hash}
            else multiset{}
  {
    assert (hashes + [h])[..|hashes|] == hashes;
  }

  /** No entry of a salt that nothing was spent of. */
  lemma {:induction false} NoneTaken(hashes: seq<HashSpend>, salt: string, reported: bool)
    requires forall h | h in hashes :: h.salt != salt
    ensures Taken(hashes, salt, reported) == []
  {
    if hashes != [] { NoneTaken(hashes[..|hashes| - 1], salt, reported); }
  }

  predicate SpentIn(l: Tally, h: HashSpend) {
    h.salt in l.issued
  }

  /** Every issued list has eight hashes, none spent more often than issued, and
      of the list in force all that is not spent remains. */
  ghost predicate HashesOk(a: AuthState, l: Tally) {
    && (forall h | h in l.hashes :: SpentIn(l, h))
    && (forall salt | salt in l.issued :: |l.issued[salt]| == 8 && AllTaken(l.hashes, salt) <= multiset(l.issued[salt]))
    && (if a.recoverySalt == "" then a.recoveryHashes == []
        else a.recoverySalt in l.issued &&
             AllTaken(l.hashes, a.recoverySalt) + multiset(a.recoveryHashes) == multiset(l.issued[a.recoverySalt]))
  }

  /** Of one credential, a later spend has a later step, and the next one is not
      the same code again inside its window. */
  ghost predicate InOrder(c: Crypto, codes: seq<CodeSpend>, j: nat, k: nat) {
    j < k < |codes| && codes[j].credential == codes[k].credential ==>
      codes[j].used.step < codes[k].used.step &&
      (k == j + 1 ==> NotAtOnce(c, codes[j].credential, codes[j].used, codes[k].used))
  }

  predicate SpentBy(a: AuthState, l: Tally, u: CodeSpend) {
    u.credential in l.enrolled && (u.credential == a.credentialId ==> u.used.step <= a.lastStep)
  }

  ghost predicate CodesOk(c: Crypto, a: AuthState, l: Tally) {
    && "" !in l.enrolled && (a.credentialId != "" ==> a.credentialId in l.enrolled)
    && (forall u | u in l.codes :: SpentBy(a, l, u))
    && (forall j, k :: InOrder(c, l.codes, j, k))
    && (l.codes != [] && l.codes[|l.codes| - 1].credential == a.credentialId ==>
        Remembers(c, a, l.codes[|l.codes| - 1].used))
  }

  ghost predicate Accounted(c: Crypto, a: AuthState, l: Tally) {
    HashesOk(a, l) && CodesOk(c, a, l) && HonestWindow(a)
  }

  lemma {:induction false} SteadyKeeps(c: Crypto, a: AuthState, b: AuthState, l: Tally)
    requires Accounted(c, a, l) && Steady(a, b)
    ensures Accounted(c, b, l)
  {
    forall u | u in l.codes ensures SpentBy(b, l, u) { assert SpentBy(a, l, u); }
  }

  lemma {:induction false} OneMoreTaken(hashes: seq<HashSpend>, h: HashSpend, left: seq<string>, issued: seq<string>)
    requires AllTaken(hashes, h.salt) + multiset(left) == multiset(issued) && h.hash in left
    ensures AllTaken(hashes + [h], h.salt) + multiset(Without(left, h.hash)) == multiset(issued)
  {
    TakenGrows(hashes, h, h.salt);
    WithoutOne(left, h.hash);
  }

  lemma {:induction false} SpentHashKeeps(a: AuthState, l: Tally, m: Tally, h: HashSpend)
    requires HashesOk(a, l) && h.salt == a.recoverySalt && h.hash in a.recoveryHashes
    requires m.issued == l.issued && m.hashes == l.hashes + [h]
    ensures HashesOk(a.(recoveryHashes := Without(a.recoveryHashes, h.hash)), m)
  {
    OneMoreTaken(l.hashes, h, a.recoveryHashes, l.issued[h.salt]);
    forall g | g in m.hashes ensures SpentIn(m, g) { assert g in l.hashes || g == h; }
    forall salt | salt in m.issued ensures |m.issued[salt]| == 8 &&
        AllTaken(m.hashes, salt) <= multiset(m.issued[salt]) {
      if salt != h.salt { TakenGrows(l.hashes, h, salt); }
    }
  }

  /** The codes depend on nothing else of the state and the tally. */
  lemma {:induction false} SameCodes(c: Crypto, a: AuthState, b: AuthState, l: Tally, m: Tally)
    requires CodesOk(c, a, l) && m.enrolled == l.enrolled && m.codes == l.codes && b.credentialId == a.credentialId
    requires b.lastStep == a.lastStep && b.lastCodeHash == a.lastCodeHash && b.lastCodeUntil == a.lastCodeUntil
    ensures CodesOk(c, b, m)
  {
    forall u | u in m.codes ensures SpentBy(b, m, u) { assert SpentBy(a, l, u); }
    forall j: nat, k: nat ensures InOrder(c, m.codes, j, k) { assert InOrder(c, l.codes, j, k); }
  }

  lemma {:induction false} HashSpendKeeps(c: Crypto, a: AuthState, l: Tally, t: Trial)
    requires Accounted(c, a, l) && t.recovery != "" && TakesRecovery(c, a, t.recovery)
    ensures Accounted(c, Spend(c, a, t.code, t.recovery, t.now), WithSpend(c, l, a, t))
  {
    var b, m := Spend(c, a, t.code, t.recovery, t.now), WithSpend(c, l, a, t);
    SpentHashKeeps(a, l, m, HashSpend(a.recoverySalt, RecoveryHash(c, a, t.recovery), t.fate == Stored));
    SameCodes(c, a, b, l, m);
  }

  lemma {:induction false} CodeSpendKeeps(c: Crypto, a: AuthState, l: Tally, t: Trial)
    requires Accounted(c, a, l) && a.credentialId != "" && t.recovery == "" && TakesCode(c, a, t.code, t.now)
    ensures Accounted(c, Spend(c, a, t.code, t.recovery, t.now), WithSpend(c, l, a, t))
  {
    var b, m := Spend(c, a, t.code, t.recovery, t.now), WithSpend(c, l, a, t);
    var n := |l.codes|;
    forall u | u in m.codes ensures SpentBy(b, m, u) {
      if u in l.codes { assert SpentBy(a, l, u); }
    }
    forall j: nat, k: nat ensures InOrder(c, m.codes, j, k) {
      if j < k < n {
        assert InOrder(c, l.codes, j, k);
      } else if j < k == n {
        assert l.codes[j] in l.codes && SpentBy(a, l, l.codes[j]);
      }
    }
  }

  lemma {:induction false} IssueKeeps(a: AuthState, l: Tally, m: Tally, salt: string, hashes: seq<string>)
    requires HashesOk(a, l) && salt != "" && salt !in l.issued && |hashes| == 8
    requires m.issued == l.issued[salt := hashes] && m.hashes == l.hashes
    ensures HashesOk(a.(recoverySalt := salt, recoveryHashes := hashes), m)
  {
    forall h | h in m.hashes ensures SpentIn(m, h) && h.salt != salt { assert SpentIn(l, h); }
    NoneTaken(l.hashes, salt, true);
    NoneTaken(l.hashes, salt, false);
  }

  /** A credential that nothing was spent of takes the place of the old one. */
  lemma {:induction false} EnrolKeeps(c: Crypto, a: AuthState, b: AuthState, l: Tally, m: Tally)
    requires CodesOk(c, a, l) && b.credentialId != "" && b.credentialId !in l.enrolled
    requires m.enrolled == l.enrolled + {b.credentialId} && m.codes == l.codes
    ensures CodesOk(c, b, m)
  {
    forall u | u in m.codes ensures SpentBy(b, m, u) && u.credential != b.credentialId { assert SpentBy(a, l, u); }
    forall j: nat, k: nat ensures InOrder(c, m.codes, j, k) { assert InOrder(c, l.codes, j, k); }
  }

  lemma {:induction false} DisableKeeps(c: Crypto, a: AuthState, b: AuthState, l: Tally)
    requires Accounted(c, a, l) && b.credentialId == b.recoverySalt == "" && b.recoveryHashes == []
    requires b.lastStep == a.lastStep && b.lastCodeUntil == a.lastCodeUntil
    ensures Accounted(c, b, l)
  {
    forall u | u in l.codes ensures SpentBy(b, l, u) && u.credential != "" { assert SpentBy(a, l, u); }
  }

  lemma {:induction false} CommitKeeps(c: Crypto, a: AuthState, l: Tally, drawn: set<string>, op: Op)
    requires Accounted(c, a, l) && Unused(l, drawn, op) && OpOk(a, op) && op.revision == a.revision && !op.committed
    ensures Accounted(c, CommitNext(c, a, op), WithCommit(l, op))
  {
    var b, m := CommitNext(c, a, op), WithCommit(l, op);
    if op.action == Disable {
      DisableKeeps(c, a, b, l);
    } else {
      IssueKeeps(a, l, m, op.salt, op.hashes);
      if op.secret == "" { SameCodes(c, a, b, l, m); } else { EnrolKeeps(c, a, b, l, m); }
    }
  }

  // -------------------------------------------------------------------- runs

  ghost predicate Sound(c: Crypto, b: Book) {
    Authority.Inv(b.world) && OpsUnused(b) && Accounted(c, b.world.row.state, b.tally)
  }

  lemma {:induction false} NextKeeps(c: Crypto, policy: Policy, b: Book, s: Step)
    requires Sound(c, b) && Fresh(b, s)
    ensures Sound(c, Next(c, policy, b, s))
  {
    var w := b.world;
    Authority.StepKeeps(c, policy, w, s);
    OpsStayUnused(c, policy, b, s);
    RowMoves(c, policy, w, s);
    var a, n := w.row.state, Authority.After(c, policy, w, s).row.state;
    if Spends(c, policy, w, s) {
      SpendIsAccounted(c, policy, b, s);
    } else if CommitsOp(w, s) {
      CommittedOp(b, s);
      CommitKeeps(c, a, b.tally, b.drawn, w.owners[s.i].ops[s.query.operationId]);
    } else {
      SteadyKeeps(c, a, n, b.tally);
    }
  }

  lemma {:induction false} SpendIsAccounted(c: Crypto, policy: Policy, b: Book, s: Step)
    requires Sound(c, b) && Fresh(b, s) && Spends(c, policy, b.world, s)
    requires b.world.owners[TrialOf(b.world, s).value.i].auth == b.world.row.state
    ensures var t := TrialOf(b.world, s).value;
            Accounted(c, Spend(c, b.world.row.state, t.code, t.recovery, t.now),
                WithSpend(c, b.tally, b.world.row.state, t))
  {
    var a, t := b.world.row.state, TrialOf(b.world, s).value;
    assert Past(b.world.history[|b.world.history| - 1], a);
    if t.recovery == "" { CodeSpendKeeps(c, a, b.tally, t); } else { HashSpendKeeps(c, a, b.tally, t); }
  }

  ghost predicate FreshRun(c: Crypto, policy: Policy, b: Book, steps: seq<Step>)
    decreases steps
  {
    steps == [] || (Fresh(b, steps[0]) && FreshRun(c, policy, Next(c, policy, b, steps[0]), steps[1..]))
  }

  ghost function RunOf(c: Crypto, policy: Policy, b: Book, steps: seq<Step>): Book
    requires FreshRun(c, policy, b, steps)
    decreases steps
  {
    if steps == [] then b else RunOf(c, policy, Next(c, policy, b, steps[0]), steps[1..])
  }

  lemma {:induction false} RunKeeps(c: Crypto, policy: Policy, b: Book, steps: seq<Step>)
    requires Sound(c, b) && FreshRun(c, policy, b, steps)
    ensures Sound(c, RunOf(c, policy, b, steps))
    decreases steps
  {
    if steps != [] {
      NextKeeps(c, policy, b, steps[0]);
      RunKeeps(c, policy, Next(c, policy, b, steps[0]), steps[1..]);
    }
  }

  /** An authority as first initialized. */
  function Begun(hash: string): Book {
    Book(Start(hash), {}, Tally({}, map[], [], []))
  }

  lemma {:induction false} BegunIsSound(c: Crypto, hash: string)
    ensures Sound(c, Begun(hash))
  {}

  /** Whoever opened the row, and whatever became of the saves: of one
      credential every stored spend, accepted or lost, has a later step than any
      before it, and is not at once the same code again inside its window. */
  lemma {:induction false} StepsIncreaseForAll(c: Crypto, policy: Policy, hash: string, steps: seq<Step>, j: nat,
          k: nat)
    requires FreshRun(c, policy, Begun(hash), steps)
    requires var codes := RunOf(c, policy, Begun(hash), steps).tally.codes;
             j < k < |codes| && codes[j].credential == codes[k].credential
    ensures var codes := RunOf(c, policy, Begun(hash), steps).tally.codes;
            codes[j].used.step < codes[k].used.step &&
            (k == j + 1 ==> NotAtOnce(c, codes[j].credential, codes[j].used, codes[k].used))
  {
    BegunIsSound(c, hash);
    RunKeeps(c, policy, Begun(hash), steps);
    assert InOrder(c, RunOf(c, policy, Begun(hash), steps).tally.codes, j, k);
  }

  lemma {:induction false} TakenAt(hashes: seq<HashSpend>, k: nat)
    requires k < |hashes|
    ensures AllTaken(hashes, hashes[k].salt)[hashes[k].hash] >= 1
  {
    var init, last := hashes[..|hashes| - 1], hashes[|hashes| - 1];
    assert hashes == init + [last];
    TakenGrows(init, last, hashes[k].salt);
    if k < |init| { TakenAt(init, k); }
  }

  lemma {:induction false} TakenTwice(hashes: seq<HashSpend>, j: nat, k: nat)
    requires j < k < |hashes| && hashes[j].salt == hashes[k].salt && hashes[j].hash == hashes[k].hash
    ensures AllTaken(hashes, hashes[k].salt)[hashes[k].hash] >= 2
  {
    var init, last := hashes[..|hashes| - 1], hashes[|hashes| - 1];
    assert hashes == init + [last];
    TakenGrows(init, last, hashes[k].salt);
    if k < |init| { TakenTwice(init, j, k); } else { TakenAt(init, j); }
  }

  /** A recovery hash is spent, and so accepted, at most once: two spends of one
      hash of one issued list mean that the list held it twice. */
  lemma {:induction false} RecoveryOnceForAll(c: Crypto, policy: Policy, hash: string, steps: seq<Step>, j: nat, k: nat)
    requires FreshRun(c, policy, Begun(hash), steps)
    requires var hashes := RunOf(c, policy, Begun(hash), steps).tally.hashes;
             j < k < |hashes| && hashes[j].salt == hashes[k].salt && hashes[j].hash == hashes[k].hash
    ensures var l := RunOf(c, policy, Begun(hash), steps).tally;
            l.hashes[k].salt in l.issued && multiset(l.issued[l.hashes[k].salt])[l.hashes[k].hash] >= 2
  {
    BegunIsSound(c, hash);
    RunKeeps(c, policy, Begun(hash), steps);
    var l := RunOf(c, policy, Begun(hash), steps).tally;
    assert SpentIn(l, l.hashes[k]);
    TakenTwice(l.hashes, j, k);
  }

  lemma {:induction false} EightInAll(a: AuthState, l: Tally)
    requires HashesOk(a, l) && a.recoverySalt != ""
    ensures |Taken(l.hashes, a.recoverySalt, true)| + |Taken(l.hashes, a.recoverySalt, false)| + |a.recoveryHashes| == 8
  {
    assert |AllTaken(l.hashes, a.recoverySalt) + multiset(a.recoveryHashes)| == |multiset(l.issued[a.recoverySalt])|;
  }

  /** Since the last setup, replacement or rotation that the row holds: accepted
      and remaining recovery codes are at most eight together, and eight exactly
      when no save of a spent one was stored without its report. */
  lemma {:induction false} EightAtMost(c: Crypto, policy: Policy, hash: string, steps: seq<Step>)
    requires FreshRun(c, policy, Begun(hash), steps)
    requires RunOf(c, policy, Begun(hash), steps).world.row.state.recoverySalt != ""
    ensures
      var b := RunOf(c, policy, Begun(hash), steps);
      var a, hashes := b.world.row.state, b.tally.hashes;
      var accepted, lost := |Taken(hashes, a.recoverySalt, true)|, |Taken(hashes, a.recoverySalt, false)|;
      && accepted + |a.recoveryHashes| == 8 - lost
      && (accepted + |a.recoveryHashes| == 8 <==> forall h | h in hashes && h.salt == a.recoverySalt :: h.reported)
  {
    BegunIsSound(c, hash);
    RunKeeps(c, policy, Begun(hash), steps);
    var b := RunOf(c, policy, Begun(hash), steps);
    EightInAll(b.world.row.state, b.tally);
    NoneLost(b.tally.hashes, b.world.row.state.recoverySalt);
  }

  lemma {:induction false} NoneLost(hashes: seq<HashSpend>, salt: string)
    ensures Taken(hashes, salt, false) == [] <==> forall h | h in hashes && h.salt == salt :: h.reported
  {
    if hashes != [] {
      var init, last := hashes[..|hashes| - 1], hashes[|hashes| - 1];
      assert hashes == init + [last];
      NoneLost(init, salt);
    }
  }

  /** The state that any run leaves in the row has a window no longer than its
      last step's, as `Factors.WindowIsUniqueExactlyWhen` assumes. */
  lemma {:induction false} WindowsAreHonest(c: Crypto, policy: Policy, hash: string, steps: seq<Step>)
    requires FreshRun(c, policy, Begun(hash), steps)
    ensures HonestWindow(RunOf(c, policy, Begun(hash), steps).world.row.state)
  {
    BegunIsSound(c, hash);
    RunKeeps(c, policy, Begun(hash), steps);
  }

  // ------------------------------------------------ what the answers say of it

  /** A factor is accepted exactly when its spend is stored and reported. */
  lemma {:induction false} AcceptanceIsReported(c: Crypto, policy: Policy, w: World, s: Step)
    requires Allowed(w, s) && s.Factor?
    ensures VerifyFactor(c, policy, w.owners[s.i], w.row, s.code, s.recovery, s.now, s.fate).2.None? <==>
            Spends(c, policy, w, s) && s.fate == Stored
  {
    FactorIsEvent(c, policy, w.owners[s.i], w.row, s.code, s.recovery, s.now, s.fate);
  }

  /** A change of a configured policy begins only with such a spend. */
  lemma {:induction false} ChangeNeedsSpend(c: Crypto, policy: Policy, w: World, s: Step)
    requires Allowed(w, s) && s.Managed? && s.query.request.Begin? && s.query.request.action != Setup
    requires Manage(c, policy, w.owners[s.i], w.row, s.query).reply.Ok?
    ensures Spends(c, policy, w, s) && s.query.fate == Stored
  {
    var o, q := w.owners[s.i], s.query;
    FactorIsEvent(c, policy, o.(ops := Unexpired(o.ops, q.now)), w.row, q.code, q.recovery, q.now, q.fate);
  }

  /** The input that breaks eight: a good recovery code whose save is stored but
      not reported is answered as a failed save, and gone from the row. */
  lemma {:induction false} LostReportCostsACode(c: Crypto, policy: Policy, w: World, i: nat, recovery: string, now: int)
    requires Authority.Inv(w) && i in w.owners && w.owners[i].generation == w.row.generation
    requires var a := w.row.state; a.secret != "" && UnixMilli(now) >= a.cooldownUntil && TakesRecovery(c, a, recovery)
    ensures
      var s := Step.Factor(i, "", recovery, now, Lost);
      var left := Authority.After(c, policy, w, s).row.state.recoveryHashes;
      && VerifyFactor(c, policy, w.owners[i], w.row, "", recovery, now, Lost).2 == Some(SaveFailed)
      && |left| + 1 == |w.row.state.recoveryHashes|
  {
    OwnerHolds(w, i);
    var a := w.row.state;
    var hash := RecoveryHash(c, a, recovery);
    WithoutOne(a.recoveryHashes, hash);
    assert |multiset(a.recoveryHashes)| == |multiset(Without(a.recoveryHashes, hash)) + multiset{hash}|;
  }
}

/** Opening the authority and changing the password verifier, undisturbed and
    from any disk at all: when they succeed and what they leave to be read. */
module VerifierLaws {
  import opened Basics
  import opened Factors
  import opened Authority
  import opened Migration

  /** A stored authority that opens: sealed under this key, with a policy that
      is complete and a verifier that is well formed. */
  predicate Opens(valid: Hashes, d: Disk) {
    && d.key.Key? && d.db.Committed? && d.db.sealedBy == d.key.id && d.db.row.state.revision != 0
    && (d.db.row.state.secret != "" ==> d.db.row.state.passwordHash != "" && d.db.row.state.credentialId != "")
    && (d.db.row.state.passwordHash != "" ==> valid(d.db.row.state.passwordHash))
  }

  /** Nothing has been made yet, or only a key and an empty database. */
  predicate Beginning(d: Disk) {
    (d.key.NoKey? && d.db.NoDb?) || (d.key.Key? && !d.key.initialized && (d.db.NoDb? || d.db.EmptyDb?))
  }

  /** The verifier read is the one of the opened authority, or before there is
      any, the legacy one; everything else is an error. */
  lemma {:induction false} ReadsExactly(valid: Hashes, d: Disk, hash: string)
    ensures ReadHash(valid, d) == Ok(hash) <==>
              || (Beginning(d) && (if d.legacy.Verifier? then d.legacy.hash == hash && valid(hash)
                                   else d.legacy.NoLegacy? && hash == ""))
              || (Opens(valid, d) && hash == d.db.row.state.passwordHash)
  {}

  lemma {:induction false} FinishLeaves(valid: Hashes, d: Disk)
    requires d.key.Key?
    ensures Finish(valid, d).result.Ok? <==> Opens(valid, d)
    ensures Finish(valid, d).result.Ok? ==>
              Finish(valid, d).result == Ok(d.db.row) &&
              Latest(d, Finish(valid, d).trace) == Disk(Key(d.key.id, true), d.db, NoLegacy)
  {}

  lemma {:induction false} KeyedLeaves(valid: Hashes, d: Disk, hash: string)
    requires d.key.Key?
    ensures
      var e := OpenKeyed(valid, d, hash);
      var begins := !d.key.initialized && (d.db.NoDb? || d.db.EmptyDb?);
      && (e.result.Ok? <==> Opens(valid, d) || (begins && (hash == "" || valid(hash))))
      && (e.result.Ok? && begins ==>
          e.result == Ok(Row(1, FirstState(hash))) &&
          Latest(d, e.trace) == Disk(Key(d.key.id, true), Committed(d.key.id, Row(1, FirstState(hash))), NoLegacy))
      && (e.result.Ok? && !begins ==>
          e.result == Ok(d.db.row) && Latest(d, e.trace) == Disk(Key(d.key.id, true), d.db, NoLegacy))
  {
    if d.key.initialized && Uncommitted(d.db) {
    } else if !d.db.Partial? {
      var made := DbWrites(d, hash);
      FinishLeaves(valid, Latest(d, made));
      LatestJoined(d, made, Finish(valid, Latest(d, made)).trace);
      assert Uncommitted(d.db) ==> Latest(d, made) == d.(db := Committed(d.key.id, Row(1, FirstState(hash))));
    }
  }

  /** What an undisturbed open of the authority leaves. */
  lemma {:induction false} StoreLeaves(valid: Hashes, d: Disk, hash: string, id: string)
    ensures
      var e := OpenStore(valid, d, hash, id);
      && (e.result.Ok? <==> Opens(valid, d) || (Beginning(d) && (hash == "" || valid(hash))))
      && (e.result.Ok? && Opens(valid, d) ==>
          e.result == Ok(d.db.row) && Latest(d, e.trace) == Disk(Key(d.key.id, true), d.db, NoLegacy))
      && (e.result.Ok? && Beginning(d) ==>
          var key := if d.key.NoKey? then id else d.key.id;
          e.result == Ok(Row(1, FirstState(hash))) &&
          Latest(d, e.trace) == Disk(Key(key, true), Committed(key, Row(1, FirstState(hash))), NoLegacy))
  {
    if !(d.key.NoKey? && !d.db.NoDb?) && !d.key.TornKey? {
      var keyed := KeyWrites(d, id);
      KeyedLeaves(valid, Latest(d, keyed), hash);
      LatestJoined(d, keyed, OpenKeyed(valid, Latest(d, keyed), hash).trace);
    }
  }

  /** An undisturbed open succeeds exactly on a stored authority that opens, or
      where none was made and the legacy verifier is absent or well formed; it
      keeps the one and is seeded by the other, and what is read afterwards is
      what was read before. */
  lemma {:induction false} OpensExactly(valid: Hashes, d: Disk, id: string)
    ensures
      var e := Reopen(valid, d, id);
      && (e.result.Ok? <==>
          Opens(valid, d) || (Beginning(d) && !d.legacy.BadLegacy? && (d.legacy.Verifier? ==> valid(d.legacy.hash))))
      && (e.result.Ok? ==>
          && Opens(valid, Latest(d, e.trace)) && e.result.value == Latest(d, e.trace).db.row
          && ReadHash(valid, Latest(d, e.trace)) == ReadHash(valid, d)
          && (Opens(valid, d) ==> e.result.value == d.db.row))
  {
    if Uncommitted(d.db) && ReadLegacy(valid, d.legacy).Ok? {
      StoreLeaves(valid, d, ReadLegacy(valid, d.legacy).value, id);
    } else {
      StoreLeaves(valid, d, "", id);
    }
  }

  /** A policy that a verifier may be written over: without a second factor and
      without a recovery in progress. */
  predicate Unprotected(d: Disk) {
    d.db.Committed? ==> d.db.row.state.secret == "" && !d.db.row.state.recoveryPending
  }

  /** Behind an open that left `after`, the write is refused or adds the row. */
  lemma {:induction false} RowChanges(valid: Hashes, d: Disk, e: Effect<Row>, hash: string)
    requires d.key.Key? && e.result.Ok? && Latest(d, e.trace).key == Key(d.key.id, true)
    requires e.result.value.state.revision != 0
    ensures
      var f, s := ChangeRow(valid, d, e, hash), e.result.value.state;
      && (f.result.Ok? <==> s.secret == "" && !s.recoveryPending && (hash == "" || valid(hash)))
      && (f.result.Ok? ==>
          Latest(d, f.trace) == Latest(d, e.trace).(db := Committed(d.key.id,
              Row(e.result.value.generation + 1, s.(passwordHash := hash, revision := s.revision + 1)))))
  {
    LatestJoined(d, e.trace, ChangeRow(valid, d, e, hash).trace[|e.trace|..]);
  }

  /** A verifier is written exactly when it is empty or well formed and, where
      there is a key, the authority opens and is unprotected; afterwards it is
      what is read, but where a database is left without its key. */
  lemma {:induction false} WritesExactly(valid: Hashes, d: Disk, hash: string, id: string)
    ensures
      var e := ChangeHash(valid, d, hash, id);
      && (e.result.Ok? <==>
          (hash == "" || valid(hash)) &&
          (d.key.NoKey? || ((Opens(valid, d) || Beginning(d)) && Unprotected(d))))
      && (e.result.Ok? ==>
          (ReadHash(valid, Latest(d, e.trace)) == Ok(hash) <==> !(d.key.NoKey? && !d.db.NoDb?)))
      && (e.result.Ok? && d.key.NoKey? ==> Latest(d, e.trace) == d.(legacy := Latest(d, e.trace).legacy))
      && (e.result.Ok? && Opens(valid, d) ==>
          var s := d.db.row.state;
          Latest(d, e.trace) == Disk(Key(d.key.id, true), Committed(d.key.id, Row(d.db.row.generation + 1,
              s.(passwordHash := hash, revision := s.revision + 1))), NoLegacy))
  {
    if !d.key.NoKey? {
      var e := OpenStore(valid, d, "", id);
      StoreLeaves(valid, d, "", id);
      if e.result.Ok? { RowChanges(valid, d, e, hash); }
    }
  }

  /** The writes of a first open, in order: the key, torn and then whole; the
      database, empty, half made and then committed; the flag; and the legacy
      file removed, if there was one. */
  lemma {:induction false} FirstOpenWrites(valid: Hashes, legacy: Legacy, id: string)
    requires legacy.Verifier? && valid(legacy.hash)
    ensures
      var d, row := Disk(NoKey, NoDb, legacy), Row(1, FirstState(legacy.hash));
      var key, made := Key(id, false), Committed(id, row);
      Reopen(valid, d, id) == Effect([Disk(TornKey, NoDb, legacy), Disk(key, NoDb, legacy), Disk(key, EmptyDb, legacy),
        Disk(key, Partial, legacy), Disk(key, made, legacy), Disk(Key(id, true), made, legacy),
        Disk(Key(id, true), made, NoLegacy)], Ok(row))
  {}

  /** Where an empty database was left behind, it is not made again. */
  lemma {:induction false} LaterOpenWrites(valid: Hashes, legacy: Legacy, key: string, id: string)
    requires legacy.Verifier? && valid(legacy.hash)
    ensures
      var d, row := Disk(Key(key, false), EmptyDb, legacy), Row(1, FirstState(legacy.hash));
      Reopen(valid, d, id) == Effect([Disk(Key(key, false), Partial, legacy),
        Disk(Key(key, false), Committed(key, row), legacy), Disk(Key(key, true), Committed(key, row), legacy),
        Disk(Key(key, true), Committed(key, row), NoLegacy)], Ok(row))
  {}
}

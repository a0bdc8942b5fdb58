/**
 * The four loaders run one after another. Starting from a session whose
 * cache holds only committed chemicals (a new manager, say), the InChI, names
 * and accessions stages never fail, so `populate` fails only when the
 * compounds stage does.
 */
module PipelineFacts {
  import opened Wrappers
  import opened Models
  import opened Session
  import opened SessionFacts
  import opened CompoundFacts
  import opened AttributeFacts

  /** Every chemical the manager caches is a committed row. */
  ghost predicate CacheStored(db: Db)
  {
    && InRange(db)
    && (forall k | k in db.cache :: Stored(db, db.cache[k]))
  }

  /**
   * The state inside an attribute loader: every cached chemical is committed
   * or pending, and every pending chemical was created by the manager for an
   * id the committed table does not hold, and is still the cached one.
   */
  ghost predicate CacheReady(db: Db)
  {
    && InRange(db)
    && (forall k | k in db.cache :: Stored(db, db.cache[k]) || db.cache[k] in db.pending)
    && (forall i | 0 <= i < |db.pending| ::
          && db.objects[db.pending[i]].chebiId in db.cache
          && db.cache[db.objects[db.pending[i]].chebiId] == db.pending[i]
          && db.objects[db.pending[i]].chebiId !in db.store)
  }

  /** Two sessions that agree on everything `CacheReady` looks at. */
  ghost predicate SameShape(a: Db, b: Db)
  {
    && |a.objects| == |b.objects|
    && a.store == b.store && a.cache == b.cache && a.pending == b.pending
    && (forall g | 0 <= g < |a.objects| :: a.objects[g].chebiId == b.objects[g].chebiId && a.objects[g].key == b.objects[g].key)
  }

  lemma StoredReady(db: Db)
    requires CacheStored(db) && db.pending == []
    ensures CacheReady(db)
  {
  }

  lemma ShapeReady(a: Db, b: Db)
    requires CacheReady(a) && SameShape(a, b) && InRange(b)
    ensures CacheReady(b)
  {
    assert forall g | 0 <= g < |a.objects| :: Stored(a, g) == Stored(b, g);
  }

  /** A ready session can be committed: its pending chemicals have new, distinct ids. */
  lemma ReadyUnique(db: Db)
    requires Valid(db) && CacheReady(db)
    ensures UniqueInserts(db)
  {
    forall i, j | 0 <= i < j < |db.pending|
      ensures db.objects[db.pending[i]].chebiId != db.objects[db.pending[j]].chebiId
    {
    }
  }

  /** Committing a ready session succeeds, and afterwards every cached chemical is committed. */
  lemma ReadyCommit(db: Db)
    requires Valid(db) && CacheReady(db)
    ensures Commit(db).Ok?
    ensures var r := Commit(db).value;
      && Valid(r) && CacheStored(r) && r.pending == []
      && r.cache == db.cache && r.objects == db.objects
      && r.synonyms == db.synonyms && r.accessions == db.accessions
      && (forall k | k in db.store :: k in r.store && r.store[k] == db.store[k])
  {
    ReadyUnique(db);
    CommitValid(db);
  }

  // ---------------------------------------------------------------------------
  // One iteration of an attribute loader keeps the session ready

  /** A hit in the cache or in the committed table returns an object already in the session. */
  lemma ResolveKnownReady(db: Db, chebiId: string)
    requires Valid(db) && CacheReady(db)
    requires chebiId in db.cache || chebiId in db.store
    ensures CacheReady(Resolve(db, chebiId).0)
    ensures Resolve(db, chebiId).0.objects[Resolve(db, chebiId).1].key.Some?
  {
    if chebiId !in db.cache {
      var h := db.store[chebiId];
      var db1 := Resolve(db, chebiId).0;
      assert db1 == db.(cache := db.cache[chebiId := h]);
      assert forall i | 0 <= i < |db.pending| :: db.objects[db.pending[i]].chebiId != chebiId;
    }
  }

  /** What a miss followed by `session.add` of the new object does to the session. */
  lemma ResolveNewEffect(db: Db, chebiId: string, db2: Db)
    requires InRange(db) && chebiId !in db.cache && chebiId !in db.store
    requires SameShape(Resolve(db, chebiId).0, db2) && InRange(db2)
    ensures var n, r := |db.objects|, Add(db2, Resolve(db, chebiId).1);
      && Resolve(db, chebiId).1 == n
      && InRange(r) && |r.objects| == n + 1
      && r.store == db.store && r.cache == db.cache[chebiId := n] && r.pending == db.pending + [n]
      && r.objects[n].chebiId == chebiId
      && (forall g | 0 <= g < n :: r.objects[g].chebiId == db.objects[g].chebiId)
  {
    AddFrame(db2, |db.objects|);
  }

  /** Every cached chemical of the session after a miss and the add is committed or pending. */
  lemma NewCacheReady(db: Db, chebiId: string, r: Db)
    requires CacheReady(db) && chebiId !in db.cache
    requires InRange(r) && |r.objects| == |db.objects| + 1
    requires r.store == db.store && r.cache == db.cache[chebiId := |db.objects|] && r.pending == db.pending + [|db.objects|]
    requires forall g | 0 <= g < |db.objects| :: r.objects[g].chebiId == db.objects[g].chebiId
    ensures forall k | k in r.cache :: Stored(r, r.cache[k]) || r.cache[k] in r.pending
  {
    assert forall g | 0 <= g < |db.objects| :: Stored(r, g) == Stored(db, g);
  }

  /** Every pending chemical of the session after a miss and the add is still the cached one for an uncommitted id. */
  lemma NewPendingReady(db: Db, chebiId: string, r: Db)
    requires CacheReady(db) && chebiId !in db.cache && chebiId !in db.store
    requires InRange(r) && |r.objects| == |db.objects| + 1
    requires r.store == db.store && r.cache == db.cache[chebiId := |db.objects|] && r.pending == db.pending + [|db.objects|]
    requires r.objects[|db.objects|].chebiId == chebiId
    requires forall g | 0 <= g < |db.objects| :: r.objects[g].chebiId == db.objects[g].chebiId
    ensures forall i | 0 <= i < |r.pending| ::
      && r.objects[r.pending[i]].chebiId in r.cache
      && r.cache[r.objects[r.pending[i]].chebiId] == r.pending[i]
      && r.objects[r.pending[i]].chebiId !in r.store
  {
    forall i | 0 <= i < |r.pending|
      ensures && r.objects[r.pending[i]].chebiId in r.cache
              && r.cache[r.objects[r.pending[i]].chebiId] == r.pending[i]
              && r.objects[r.pending[i]].chebiId !in r.store
    {
      if i < |db.pending| {
        assert r.pending[i] == db.pending[i];
      }
    }
  }

  /** A miss creates an object that the following `session.add` makes pending, still cached under its id. */
  lemma ResolveNewReady(db: Db, chebiId: string, db2: Db)
    requires CacheReady(db)
    requires chebiId !in db.cache && chebiId !in db.store
    requires SameShape(Resolve(db, chebiId).0, db2) && InRange(db2)
    ensures CacheReady(Add(db2, Resolve(db, chebiId).1))
  {
    ResolveNewEffect(db, chebiId, db2);
    var r := Add(db2, Resolve(db, chebiId).1);
    NewCacheReady(db, chebiId, r);
    NewPendingReady(db, chebiId, r);
  }

  /** One iteration: resolve, change columns other than chebi_id and the key, add. */
  lemma StepReady(db: Db, chebiId: string, db2: Db)
    requires Valid(db) && CacheReady(db)
    requires SameShape(Resolve(db, chebiId).0, db2) && InRange(db2)
    ensures CacheReady(Add(db2, Resolve(db, chebiId).1))
  {
    if chebiId in db.cache || chebiId in db.store {
      ResolveKnownReady(db, chebiId);
      ShapeReady(Resolve(db, chebiId).0, db2);
    } else {
      ResolveNewReady(db, chebiId, db2);
    }
  }

  /** One iteration of `_populate_inchis` keeps the session invariant. */
  lemma InchiStepValid(db: Db, row: InchiRow)
    requires Valid(db)
    ensures Valid(InchiStep(db, row))
  {
    ResolveValid(db, row.chebiId);
    var res := Resolve(db, row.chebiId);
    var db1, h := res.0, res.1;
    var c := db1.objects[h].(inchi := Some(row.inchi));
    UpdateValid(db1, h, c);
    AddValid(db1.(objects := db1.objects[h := c]), h);
  }

  lemma InchiStepReady(db: Db, row: InchiRow)
    requires Valid(db) && CacheReady(db)
    ensures CacheReady(InchiStep(db, row))
  {
    var res := Resolve(db, row.chebiId);
    var db1, h := res.0, res.1;
    var c := db1.objects[h].(inchi := Some(row.inchi));
    UpdateStored(db1, h, c);
    var db2 := db1.(objects := db1.objects[h := c]);
    assert SameShape(db1, db2);
    StepReady(db, row.chebiId, db2);
  }

  /** Appending a synonym of a chemical that is in the session keeps the session invariant. */
  lemma SynonymValid(db: Db, s: Synonym)
    requires Valid(db) && s.chemical < |db.objects| && db.objects[s.chemical].key.Some?
    ensures Valid(db.(synonyms := db.synonyms + [s]))
  {
    assert forall x | x in db.synonyms + [s] :: x in db.synonyms || x == s;
  }

  /** Appending an accession of a chemical that is in the session keeps the session invariant. */
  lemma AccessionValid(db: Db, a: Accession)
    requires Valid(db) && a.chemical < |db.objects| && db.objects[a.chemical].key.Some?
    ensures Valid(db.(accessions := db.accessions + [a]))
  {
    assert forall x | x in db.accessions + [a] :: x in db.accessions || x == a;
  }

  /** `session.add` does not look at the synonym and accession lists. */
  lemma AddIgnoresLists(db: Db, h: Handle, synonyms: seq<Synonym>, accessions: seq<Accession>)
    requires h < |db.objects|
    ensures Add(db.(synonyms := synonyms, accessions := accessions), h) == Add(db, h).(synonyms := synonyms, accessions := accessions)
  {
  }

  /** One iteration of `_populate_names` keeps the session invariant. */
  lemma NameStepValid(db: Db, row: NameRow)
    requires Valid(db)
    ensures Valid(NameStep(db, row))
  {
    ResolveValid(db, row.chebiId);
    var res := Resolve(db, row.chebiId);
    var db1, h := res.0, res.1;
    AddValid(db1, h);
    AddIgnoresLists(db1, h, db1.synonyms + [NewSynonym(h, row)], db1.accessions);
    SynonymValid(Add(db1, h), NewSynonym(h, row));
  }

  lemma NameStepReady(db: Db, row: NameRow)
    requires Valid(db) && CacheReady(db)
    ensures CacheReady(NameStep(db, row))
  {
    var res := Resolve(db, row.chebiId);
    var db1, h := res.0, res.1;
    StepReady(db, row.chebiId, db1.(synonyms := db1.synonyms + [NewSynonym(h, row)]));
  }

  /** One iteration of `_populate_accession` keeps the session invariant. */
  lemma AccessionStepValid(db: Db, row: AccessionRow)
    requires Valid(db)
    ensures Valid(AccessionStep(db, row))
  {
    ResolveValid(db, row.chebiId);
    var res := Resolve(db, row.chebiId);
    var db1, h := res.0, res.1;
    AddValid(db1, h);
    AddIgnoresLists(db1, h, db1.synonyms, db1.accessions + [NewAccession(h, row)]);
    AccessionValid(Add(db1, h), NewAccession(h, row));
  }

  lemma AccessionStepReady(db: Db, row: AccessionRow)
    requires Valid(db) && CacheReady(db)
    ensures CacheReady(AccessionStep(db, row))
  {
    var res := Resolve(db, row.chebiId);
    var db1, h := res.0, res.1;
    StepReady(db, row.chebiId, db1.(accessions := db1.accessions + [NewAccession(h, row)]));
  }

  // ---------------------------------------------------------------------------
  // Whole stages

  lemma {:induction false} AddInchisReady(db: Db, rows: seq<InchiRow>)
    requires Valid(db) && CacheReady(db)
    ensures Valid(AddInchis(db, rows)) && CacheReady(AddInchis(db, rows))
    decreases |rows|
  {
    if rows != [] {
      InchiStepValid(db, rows[0]);
      InchiStepReady(db, rows[0]);
      AddInchisReady(InchiStep(db, rows[0]), rows[1..]);
    }
  }

  lemma {:induction false} AddNamesReady(db: Db, rows: seq<NameRow>)
    requires Valid(db) && CacheReady(db)
    ensures Valid(AddNames(db, rows)) && CacheReady(AddNames(db, rows))
    decreases |rows|
  {
    if rows != [] {
      NameStepValid(db, rows[0]);
      NameStepReady(db, rows[0]);
      AddNamesReady(NameStep(db, rows[0]), rows[1..]);
    }
  }

  lemma {:induction false} AddAccessionsReady(db: Db, rows: seq<AccessionRow>)
    requires Valid(db) && CacheReady(db)
    ensures Valid(AddAccessions(db, rows)) && CacheReady(AddAccessions(db, rows))
    decreases |rows|
  {
    if rows != [] {
      AccessionStepValid(db, rows[0]);
      AccessionStepReady(db, rows[0]);
      AddAccessionsReady(AccessionStep(db, rows[0]), rows[1..]);
    }
  }

  /** `_populate_inchis` on a session whose cache holds committed chemicals only: the commit succeeds. */
  lemma LoadInchisOk(db: Db, rows: seq<InchiRow>)
    requires Valid(db) && CacheStored(db) && db.pending == []
    ensures LoadInchis(db, rows).Ok?
    ensures var r := LoadInchis(db, rows).value;
      && Valid(r) && CacheStored(r) && r.pending == []
      && r.objects == AddInchis(db, rows).objects && r.cache == AddInchis(db, rows).cache
      && (forall k | k in db.store :: k in r.store && r.store[k] == db.store[k])
  {
    StoredReady(db);
    AddInchisReady(db, rows);
    AddInchisCache(db, rows);
    ReadyCommit(AddInchis(db, rows));
  }

  /** `_populate_names` on such a session: the commit succeeds and the synonyms are those of `AddNamesEffect`. */
  lemma LoadNamesOk(db: Db, rows: seq<NameRow>)
    requires Valid(db) && CacheStored(db) && db.pending == []
    ensures LoadNames(db, rows).Ok?
    ensures var r := LoadNames(db, rows).value;
      && Valid(r) && CacheStored(r) && r.pending == []
      && r.cache == AddNames(db, rows).cache && r.synonyms == AddNames(db, rows).synonyms
      && r.accessions == db.accessions
      && (forall k | k in db.store :: k in r.store && r.store[k] == db.store[k])
  {
    StoredReady(db);
    AddNamesReady(db, rows);
    AddNamesCache(db, rows);
    ReadyCommit(AddNames(db, rows));
  }

  /** `_populate_accession` on such a session: the commit succeeds. */
  lemma LoadAccessionsOk(db: Db, rows: seq<AccessionRow>)
    requires Valid(db) && CacheStored(db) && db.pending == []
    ensures LoadAccessions(db, rows).Ok?
    ensures var r := LoadAccessions(db, rows).value;
      && Valid(r) && CacheStored(r) && r.pending == []
      && r.cache == AddAccessions(db, rows).cache && r.accessions == AddAccessions(db, rows).accessions
      && r.synonyms == db.synonyms
      && (forall k | k in db.store :: k in r.store && r.store[k] == db.store[k])
  {
    StoredReady(db);
    AddAccessionsReady(db, rows);
    AddAccessionsCache(db, rows);
    ReadyCommit(AddAccessions(db, rows));
  }

  /** `_populate_compounds` leaves the cache alone and keeps every committed row, so cached chemicals stay committed. */
  lemma LoadCompoundsStored(db: Db, rows: seq<CompoundRow>)
    requires Valid(db) && CacheStored(db) && db.pending == [] && LoadCompounds(db, rows).Ok?
    ensures Valid(LoadCompounds(db, rows).value) && CacheStored(LoadCompounds(db, rows).value)
    ensures LoadCompounds(db, rows).value.pending == []
  {
    LoadCompoundsValid(db, rows);
    LoadCompoundsEffect(db, rows);
    var r := LoadCompounds(db, rows).value;
    forall k | k in r.cache ensures Stored(r, r.cache[k]) {
      var h := db.cache[k];
      assert r.objects[h] == db.objects[h];
    }
  }

  /** Loading the same names twice through `_populate_names` stores every synonym twice. */
  lemma LoadNamesTwice(db: Db, rows: seq<NameRow>)
    requires Valid(db) && CacheStored(db) && db.pending == []
    ensures LoadNames(db, rows).Ok? && LoadNames(LoadNames(db, rows).value, rows).Ok?
    ensures |LoadNames(LoadNames(db, rows).value, rows).value.synonyms| == |db.synonyms| + 2 * |rows|
  {
    LoadNamesOk(db, rows);
    var r1 := LoadNames(db, rows).value;
    LoadNamesOk(r1, rows);
    AddNamesEffect(db, rows);
    AddNamesEffect(r1, rows);
  }

  /** Loading the same accessions twice through `_populate_accession` stores every accession twice. */
  lemma LoadAccessionsTwice(db: Db, rows: seq<AccessionRow>)
    requires Valid(db) && CacheStored(db) && db.pending == []
    ensures LoadAccessions(db, rows).Ok? && LoadAccessions(LoadAccessions(db, rows).value, rows).Ok?
    ensures |LoadAccessions(LoadAccessions(db, rows).value, rows).value.accessions| == |db.accessions| + 2 * |rows|
  {
    LoadAccessionsOk(db, rows);
    var r1 := LoadAccessions(db, rows).value;
    LoadAccessionsOk(r1, rows);
    AddAccessionsEffect(db, rows);
    AddAccessionsEffect(r1, rows);
  }

  /** A failing compounds stage stops `populate` before anything has changed. */
  lemma PopulateStops(db: Db, compounds: seq<CompoundRow>, inchis: seq<InchiRow>,
                      names: seq<NameRow>, accessions: seq<AccessionRow>)
    requires InRange(db) && LoadCompounds(db, compounds).Err?
    ensures Populate(db, compounds, inchis, names, accessions) == (db, Fail(LoadCompounds(db, compounds).error))
  {
  }

  /**
   * Once the compounds stage has committed, the other three stages commit
   * too, in order, and the session ends with every cached chemical committed.
   */
  lemma PopulatePasses(db: Db, compounds: seq<CompoundRow>, inchis: seq<InchiRow>,
                       names: seq<NameRow>, accessions: seq<AccessionRow>)
    requires Valid(db) && CacheStored(db) && db.pending == [] && LoadCompounds(db, compounds).Ok?
    ensures var db1 := LoadCompounds(db, compounds).value;
      && LoadInchis(db1, inchis).Ok?
      && var db2 := LoadInchis(db1, inchis).value;
      && LoadNames(db2, names).Ok?
      && var db3 := LoadNames(db2, names).value;
      && LoadAccessions(db3, accessions).Ok?
      && var db4 := LoadAccessions(db3, accessions).value;
      && Populate(db, compounds, inchis, names, accessions) == (db4, Pass)
      && Valid(db4) && CacheStored(db4) && db4.pending == []
  {
    LoadCompoundsStored(db, compounds);
    var db1 := LoadCompounds(db, compounds).value;
    LoadInchisOk(db1, inchis);
    var db2 := LoadInchis(db1, inchis).value;
    LoadNamesOk(db2, names);
    var db3 := LoadNames(db2, names).value;
    LoadAccessionsOk(db3, accessions);
  }

  /**
   * `populate` on a session whose cache holds committed chemicals only (a new
   * manager, say) succeeds exactly when every compounds row parses and their
   * ids are new and distinct; when it fails, nothing has changed.
   */
  lemma PopulateOutcome(db: Db, compounds: seq<CompoundRow>, inchis: seq<InchiRow>,
                        names: seq<NameRow>, accessions: seq<AccessionRow>)
    requires Valid(db) && CacheStored(db) && db.pending == []
    ensures Populate(db, compounds, inchis, names, accessions).1 == Pass <==> AllParse(compounds) && FreshDistinct(db, compounds)
    ensures Populate(db, compounds, inchis, names, accessions).1.Fail? ==> Populate(db, compounds, inchis, names, accessions).0 == db
  {
    LoadCompoundsOutcome(db, compounds);
    if LoadCompounds(db, compounds).Ok? {
      PopulatePasses(db, compounds, inchis, names, accessions);
    } else {
      PopulateStops(db, compounds, inchis, names, accessions);
    }
  }

  // ---------------------------------------------------------------------------
  // Why the cache must hold committed chemicals only

  /**
   * A cached chemical that was never added to the session, for an id the
   * committed table now holds, makes `_populate_inchis` fail: the cache hit
   * returns the stale object, `session.add` makes it pending, and committing
   * it would insert a second row with that chebi_id.
   */
  lemma StaleCacheConflict(db: Db, chebiId: string, inchi: string)
    requires Valid(db) && db.pending == []
    requires chebiId in db.cache && chebiId in db.store && !Stored(db, db.cache[chebiId])
    ensures LoadInchis(db, [InchiRow(chebiId, inchi)]) == Err(IntegrityError)
  {
    var rows := [InchiRow(chebiId, inchi)];
    var h := db.cache[chebiId];
    var r := AddInchis(db, rows);
    var r1 := InchiStep(db, rows[0]);
    assert rows[1..] == [];
    assert AddInchis(r1, []) == r1;
    assert r == r1;
    assert db.objects[h].key.None?;
    assert r.pending == [h] && r.objects[h].chebiId == chebiId && r.store == db.store;
    assert r.objects[r.pending[0]].chebiId in r.store;
  }

  /**
   * The stale state arises from the manager's own operations: calling
   * `get_or_create_chemical` on a new manager before `populate` caches an
   * object that is never added, and the compounds stage then commits a
   * different object with that id.
   */
  lemma StaleCacheReachable(chebiId: string, row: CompoundRow)
    requires ChebiIdOf(row.chebiAccession) == Ok(chebiId)
    ensures var db0 := Resolve(Empty, chebiId).0;
      && LoadCompounds(db0, [row]).Ok?
      && var db1 := LoadCompounds(db0, [row]).value;
      && Valid(db1) && db1.pending == []
      && chebiId in db1.cache && chebiId in db1.store && !Stored(db1, db1.cache[chebiId])
  {
    EmptyValid();
    ResolveValid(Empty, chebiId);
    var db0 := Resolve(Empty, chebiId).0;
    var rows := [row];
    assert rows[0] == row;
    assert AllParse(rows) && ParsedId(rows[0]) == chebiId;
    assert db0.store == map[] && db0.pending == [] && db0.cache == map[chebiId := 0] && |db0.objects| == 1;
    LoadCompoundsOutcome(db0, rows);
    LoadCompoundsValid(db0, rows);
    LoadCompoundsEffect(db0, rows);
    LoadedCompoundFound(db0, rows, 0);
  }

  /**
   * So `get_or_create_chemical` followed by `populate` fails at the InChI stage
   * when the id the caller passes is the same key the InChI rows carry. The
   * model has one string type for ids; in Python the InChI reader yields
   * integer ids, so a caller passing the string form misses the cache entry.
   */
  lemma GetOrCreateThenPopulate(chebiId: string, row: CompoundRow, inchi: string,
                                names: seq<NameRow>, accessions: seq<AccessionRow>)
    requires ChebiIdOf(row.chebiAccession) == Ok(chebiId)
    ensures Populate(Resolve(Empty, chebiId).0, [row], [InchiRow(chebiId, inchi)], names, accessions).1 == Fail(IntegrityError)
  {
    StaleCacheReachable(chebiId, row);
    var db1 := LoadCompounds(Resolve(Empty, chebiId).0, [row]).value;
    StaleCacheConflict(db1, chebiId, inchi);
  }
}

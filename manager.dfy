/**
 * The manager itself: an object holding the database session and the
 * identity cache, whose loaders walk their rows one at a time and commit at
 * the end. Each method is proved to do what the corresponding function of
 * `Session` describes, so every property proved about those functions holds
 * of the manager.
 */
module ChebiManager {
  import opened Wrappers
  import opened Models
  import opened Session

  class Manager {
    /** The chemical objects, indexed by handle. */
    var objects: seq<Chemical>
    /** The committed chemical table, keyed by chebi_id. */
    var store: map<string, Handle>
    /** The chemicals added to the session since the last commit. */
    var pending: seq<Handle>
    /** `self.chemicals`: the identity cache of `get_or_create_chemical`. */
    var cache: map<string, Handle>
    var synonyms: seq<Synonym>
    var accessions: seq<Accession>
    /** The next autoincrement primary key. */
    var nextKey: int

    /** The manager's state as a value. */
    function State(): Db
      reads this
    {
      Db(objects, store, pending, cache, synonyms, accessions, nextKey)
    }

    /** A manager on a new, empty database with an empty cache. */
    constructor ()
      ensures State() == Empty
    {
      objects, store, pending, cache := [], map[], [], map[];
      synonyms, accessions, nextKey := [], [], 1;
    }

    /**
     * A manager on an existing database file: `create_all(checkfirst=True)`
     * keeps the committed rows, while the session and the cache start empty.
     */
    constructor Open(db: Db)
      requires Valid(db) && db.pending == [] && db.cache == map[]
      ensures State() == db
    {
      objects, store, pending, cache := db.objects, db.store, db.pending, db.cache;
      synonyms, accessions, nextKey := db.synonyms, db.accessions, db.nextKey;
    }

    /** Puts the whole state back, as a failed loader leaves it. */
    method Restore(db: Db)
      modifies this
      ensures State() == db
    {
      objects, store, pending, cache := db.objects, db.store, db.pending, db.cache;
      synonyms, accessions, nextKey := db.synonyms, db.accessions, db.nextKey;
    }

    /** `get_chemical_by_chebi_id`: a query on the committed table. */
    method GetChemicalByChebiId(chebiId: string) returns (r: Option<Handle>)
      requires InRange(State())
      ensures r == Find(State(), chebiId)
    {
      if chebiId in store {
        r := Some(store[chebiId]);
      } else {
        r := None;
      }
    }

    /** `get_chemical_by_chebi_name`: `one_or_none()` over the name column. */
    method GetChemicalByChebiName(name: string) returns (r: Result<Option<Handle>, Error>)
      requires InRange(State())
      ensures r == FindByName(State(), name)
    {
      var matches := Named(State(), name);
      if |matches| == 0 {
        r := Ok(None);
      } else if |matches| == 1 {
        var h :| h in matches;
        r := Ok(Some(h));
      } else {
        r := Err(MultipleResultsFound);
      }
    }

    /** `get_or_create_chemical`: cache, then committed table, then a new object; the result is cached. */
    method GetOrCreateChemical(chebiId: string) returns (h: Handle)
      requires InRange(State())
      modifies this
      ensures (State(), h) == Resolve(old(State()), chebiId)
    {
      if chebiId in cache {
        return cache[chebiId];
      }
      var found := GetChemicalByChebiId(chebiId);
      if found.Some? {
        h := found.value;
      } else {
        h := |objects|;
        objects := objects + [NewChemical(chebiId)];
      }
      cache := cache[chebiId := h];
    }

    /** `session.add` of chemical `h`. */
    method AddToSession(h: Handle)
      requires h < |objects|
      modifies this
      ensures State() == Add(old(State()), h)
    {
      if objects[h].key.None? {
        objects := objects[h := objects[h].(key := Some(nextKey))];
        pending := pending + [h];
        nextKey := nextKey + 1;
      }
    }

    /** `session.commit()`: on a duplicate chebi_id nothing is written. */
    method CommitSession() returns (outcome: Outcome<Error>)
      requires InRange(State())
      modifies this
      ensures Commit(old(State())).Ok? ==> outcome == Pass && State() == Commit(old(State())).value
      ensures Commit(old(State())).Err? ==> outcome == Fail(Commit(old(State())).error) && State() == old(State())
    {
      if UniqueInserts(State()) {
        store := Insert(store, objects, pending);
        pending := [];
        outcome := Pass;
      } else {
        outcome := Fail(IntegrityError);
      }
    }

    /** The body of the loop of `_populate_inchis`. */
    method LoadInchiRow(row: InchiRow)
      requires InRange(State())
      modifies this
      ensures State() == InchiStep(old(State()), row)
    {
      var h := GetOrCreateChemical(row.chebiId);
      objects := objects[h := objects[h].(inchi := Some(row.inchi))];
      AddToSession(h);
    }

    /** The body of the loop of `_populate_names`. */
    method LoadNameRow(row: NameRow)
      requires InRange(State())
      modifies this
      ensures State() == NameStep(old(State()), row)
    {
      var h := GetOrCreateChemical(row.chebiId);
      synonyms := synonyms + [NewSynonym(h, row)];
      AddToSession(h);
    }

    /** The body of the loop of `_populate_accession`. */
    method LoadAccessionRow(row: AccessionRow)
      requires InRange(State())
      modifies this
      ensures State() == AccessionStep(old(State()), row)
    {
      var h := GetOrCreateChemical(row.chebiId);
      accessions := accessions + [NewAccession(h, row)];
      AddToSession(h);
    }

    /** `_populate_compounds`. */
    method PopulateCompounds(rows: seq<CompoundRow>) returns (outcome: Outcome<Error>)
      requires InRange(State())
      modifies this
      ensures LoadCompounds(old(State()), rows).Ok? ==> outcome == Pass && State() == LoadCompounds(old(State()), rows).value
      ensures LoadCompounds(old(State()), rows).Err? ==>
        outcome == Fail(LoadCompounds(old(State()), rows).error) && State() == old(State())
    {
      var start := State();
      var i := 0;
      while i < |rows|
        invariant 0 <= i <= |rows|
        invariant InRange(State())
        invariant AddCompounds(start, rows) == AddCompounds(State(), rows[i..])
      {
        assert rows[i..][0] == rows[i] && rows[i..][1..] == rows[i + 1..];
        var chebiId := ChebiIdOf(rows[i].chebiAccession);
        if chebiId.Err? {
          Restore(start);
          return Fail(chebiId.error);
        }
        objects := objects + [NewCompound(rows[i], chebiId.value)];
        AddToSession(|objects| - 1);
        i := i + 1;
      }
      assert rows[i..] == [];
      outcome := CommitSession();
      if outcome.Fail? {
        Restore(start);
      }
    }

    /** `_populate_inchis`. */
    method PopulateInchis(rows: seq<InchiRow>) returns (outcome: Outcome<Error>)
      requires InRange(State())
      modifies this
      ensures LoadInchis(old(State()), rows).Ok? ==> outcome == Pass && State() == LoadInchis(old(State()), rows).value
      ensures LoadInchis(old(State()), rows).Err? ==>
        outcome == Fail(LoadInchis(old(State()), rows).error) && State() == old(State())
    {
      var start := State();
      var i := 0;
      while i < |rows|
        invariant 0 <= i <= |rows|
        invariant InRange(State())
        invariant AddInchis(start, rows) == AddInchis(State(), rows[i..])
      {
        assert rows[i..][0] == rows[i] && rows[i..][1..] == rows[i + 1..];
        LoadInchiRow(rows[i]);
        i := i + 1;
      }
      assert rows[i..] == [];
      outcome := CommitSession();
      if outcome.Fail? {
        Restore(start);
      }
    }

    /** `_populate_names`. */
    method PopulateNames(rows: seq<NameRow>) returns (outcome: Outcome<Error>)
      requires InRange(State())
      modifies this
      ensures LoadNames(old(State()), rows).Ok? ==> outcome == Pass && State() == LoadNames(old(State()), rows).value
      ensures LoadNames(old(State()), rows).Err? ==>
        outcome == Fail(LoadNames(old(State()), rows).error) && State() == old(State())
    {
      var start := State();
      var i := 0;
      while i < |rows|
        invariant 0 <= i <= |rows|
        invariant InRange(State())
        invariant AddNames(start, rows) == AddNames(State(), rows[i..])
      {
        assert rows[i..][0] == rows[i] && rows[i..][1..] == rows[i + 1..];
        LoadNameRow(rows[i]);
        i := i + 1;
      }
      assert rows[i..] == [];
      outcome := CommitSession();
      if outcome.Fail? {
        Restore(start);
      }
    }

    /** `_populate_accession`. */
    method PopulateAccessions(rows: seq<AccessionRow>) returns (outcome: Outcome<Error>)
      requires InRange(State())
      modifies this
      ensures LoadAccessions(old(State()), rows).Ok? ==> outcome == Pass && State() == LoadAccessions(old(State()), rows).value
      ensures LoadAccessions(old(State()), rows).Err? ==>
        outcome == Fail(LoadAccessions(old(State()), rows).error) && State() == old(State())
    {
      var start := State();
      var i := 0;
      while i < |rows|
        invariant 0 <= i <= |rows|
        invariant InRange(State())
        invariant AddAccessions(start, rows) == AddAccessions(State(), rows[i..])
      {
        assert rows[i..][0] == rows[i] && rows[i..][1..] == rows[i + 1..];
        LoadAccessionRow(rows[i]);
        i := i + 1;
      }
      assert rows[i..] == [];
      outcome := CommitSession();
      if outcome.Fail? {
        Restore(start);
      }
    }

    /** `populate`: the four loaders in order; the first failure propagates. */
    method Populate(compounds: seq<CompoundRow>, inchis: seq<InchiRow>,
                    names: seq<NameRow>, accessions: seq<AccessionRow>) returns (outcome: Outcome<Error>)
      requires InRange(State())
      modifies this
      ensures (State(), outcome) == Session.Populate(old(State()), compounds, inchis, names, accessions)
    {
      outcome := PopulateCompounds(compounds);
      if outcome.Fail? {
        return;
      }
      outcome := PopulateInchis(inchis);
      if outcome.Fail? {
        return;
      }
      outcome := PopulateNames(names);
      if outcome.Fail? {
        return;
      }
      outcome := PopulateAccessions(accessions);
    }
  }
}

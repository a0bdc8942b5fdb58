/**
 * The loading pipeline of the ChEBI manager as functions over an in-memory
 * database session.
 *
 * Python objects are modelled by handles: `objects[h]` is the current state
 * of the chemical object with handle `h`, so two lookups that return the same
 * handle return the same object. `store` is the committed chemical table,
 * keyed by its unique `chebi_id` column; `pending` lists the chemical objects
 * added to the session since the last commit; `cache` is the manager's
 * identity cache (`Manager.chemicals`); `nextKey` is the next autoincrement
 * primary key.
 */
module Session {
  import opened Wrappers
  import opened Models
  import PyStrings

  /** The exceptions the loaders can raise. */
  datatype Error =
    | IndexError            // `chebi_id.split(':')[1]` on an accession without a colon
    | IntegrityError        // commit would insert a second row with an existing chebi_id
    | MultipleResultsFound  // `one_or_none()` matched more than one row

  type Handle = nat

  datatype Db = Db(
    objects: seq<Chemical>,
    store: map<string, Handle>,
    pending: seq<Handle>,
    cache: map<string, Handle>,
    synonyms: seq<Synonym>,
    accessions: seq<Accession>,
    nextKey: int)

  /** A new manager on an empty database. */
  const Empty: Db := Db([], map[], [], map[], [], [], 1)

  /** A compounds.tsv row, keeping the columns the loader unpacks. */
  datatype CompoundRow = CompoundRow(
    status: Option<string>,
    chebiAccession: string,
    source: Option<string>,
    parentId: Option<int>,
    name: Option<string>,
    definition: Option<string>)

  /** A chebiId_inchi.tsv row. */
  datatype InchiRow = InchiRow(chebiId: string, inchi: string)

  /** A names.tsv row (`kind` is the TYPE column). */
  datatype NameRow = NameRow(
    chebiId: string,
    kind: Option<string>,
    source: Option<string>,
    name: Option<string>,
    adapted: Option<string>,
    language: Option<string>)

  /** A database_accession.tsv row (`kind` is the TYPE column). */
  datatype AccessionRow = AccessionRow(
    chebiId: string,
    source: Option<string>,
    kind: Option<string>,
    accession: Option<string>)

  /** Every handle the session mentions names an existing object. */
  predicate InRange(db: Db)
  {
    && (forall k | k in db.store :: db.store[k] < |db.objects|)
    && (forall k | k in db.cache :: db.cache[k] < |db.objects|)
    && (forall i | 0 <= i < |db.pending| :: db.pending[i] < |db.objects|)
    && (forall s | s in db.synonyms :: s.chemical < |db.objects|)
    && (forall a | a in db.accessions :: a.chemical < |db.objects|)
  }

  /** The object `h` is the committed row for its chebi_id. */
  predicate Stored(db: Db, h: Handle)
    requires h < |db.objects|
  {
    db.objects[h].chebiId in db.store && db.store[db.objects[h].chebiId] == h
  }

  /**
   * The session invariant. The committed table and the cache map each
   * chebi_id to an object with that chebi_id; an object has a primary key
   * exactly when it is committed or pending; keys are below `nextKey` and
   * distinct; every synonym and accession belongs to a chemical in the session.
   */
  ghost predicate Valid(db: Db)
  {
    && InRange(db)
    && (forall k | k in db.store :: db.objects[db.store[k]].chebiId == k)
    && (forall k | k in db.cache :: db.objects[db.cache[k]].chebiId == k)
    && (forall i, j | 0 <= i < j < |db.pending| :: db.pending[i] != db.pending[j])
    && (forall i | 0 <= i < |db.pending| :: !Stored(db, db.pending[i]))
    && (forall h | 0 <= h < |db.objects| :: db.objects[h].key.Some? <==> Stored(db, h) || h in db.pending)
    && (forall h | 0 <= h < |db.objects| && db.objects[h].key.Some? :: db.objects[h].key.value < db.nextKey)
    && (forall g, h | 0 <= g < h < |db.objects| && db.objects[g].key.Some? :: db.objects[g].key != db.objects[h].key)
    && (forall s | s in db.synonyms :: db.objects[s.chemical].key.Some?)
    && (forall a | a in db.accessions :: db.objects[a.chemical].key.Some?)
  }

  /** `get_chemical_by_chebi_id`: the committed row for `chebiId`, or None. */
  function Find(db: Db, chebiId: string): (r: Option<Handle>)
    requires InRange(db)
    ensures r.Some? <==> chebiId in db.store
    ensures r.Some? ==> r.value < |db.objects|
  {
    if chebiId in db.store then Some(db.store[chebiId]) else None
  }

  /** The committed chemicals whose name column is `name`. */
  function Named(db: Db, name: string): set<Handle>
    requires InRange(db)
  {
    set k | k in db.store && db.objects[db.store[k]].name == Some(name) :: db.store[k]
  }

  /** `get_chemical_by_chebi_name`: `one_or_none()` over a column that is not unique. */
  ghost function FindByName(db: Db, name: string): (r: Result<Option<Handle>, Error>)
    requires InRange(db)
    ensures r == Ok(None) <==> Named(db, name) == {}
    ensures r.Err? <==> |Named(db, name)| >= 2
    ensures r.Err? ==> r.error == MultipleResultsFound
    ensures r.Ok? && r.value.Some? ==> Named(db, name) == {r.value.value}
  {
    var matches := Named(db, name);
    if |matches| == 0 then Ok(None)
    else if |matches| == 1 then
      var h :| h in matches;
      assert matches == {h} by {
        forall g | g in matches ensures g == h {
          assert |matches - {h}| == 0;
        }
      }
      Ok(Some(h))
    else Err(MultipleResultsFound)
  }

  /**
   * `get_or_create_chemical`: the cached object, else the committed row
   * (which is then cached), else a new `Chemical(chebi_id=...)` (which is then
   * cached). The new object is not added to the session here.
   */
  function Resolve(db: Db, chebiId: string): (r: (Db, Handle))
    requires InRange(db)
    ensures InRange(r.0) && r.1 < |r.0.objects|
    ensures r.0.cache == db.cache[chebiId := r.1]
    ensures chebiId in db.cache ==> r == (db, db.cache[chebiId])
    ensures chebiId !in db.cache && chebiId in db.store ==> r.1 == db.store[chebiId] && r.0.objects == db.objects
    ensures chebiId !in db.cache && chebiId !in db.store ==>
      r.1 == |db.objects| && r.0.objects == db.objects + [NewChemical(chebiId)]
    ensures r.0 == db.(objects := r.0.objects, cache := r.0.cache)
  {
    if chebiId in db.cache then (db, db.cache[chebiId])
    else
      var found := Find(db, chebiId);
      var db1 := if found.Some? then db else db.(objects := db.objects + [NewChemical(chebiId)]);
      var h := if found.Some? then found.value else |db.objects|;
      (db1.(cache := db1.cache[chebiId := h]), h)
  }

  /**
   * `session.add` of a chemical object (directly, or through the save-update
   * cascade when a synonym or accession that refers to it is added): an object
   * already in the session is left alone; otherwise it becomes pending and
   * receives the next primary key.
   */
  function Add(db: Db, h: Handle): (r: Db)
    requires h < |db.objects|
    ensures InRange(db) ==> InRange(r)
    ensures |r.objects| == |db.objects|
    ensures r.objects[h].key.Some?
    ensures db.objects[h].key.Some? ==> r == db
  {
    if db.objects[h].key.Some? then db
    else
      db.(objects := db.objects[h := db.objects[h].(key := Some(db.nextKey))],
          pending := db.pending + [h],
          nextKey := db.nextKey + 1)
  }

  /** The pending chemicals can be inserted without breaking the unique chebi_id column. */
  predicate UniqueInserts(db: Db)
    requires InRange(db)
  {
    && (forall i | 0 <= i < |db.pending| :: db.objects[db.pending[i]].chebiId !in db.store)
    && (forall i, j | 0 <= i < j < |db.pending| ::
          db.objects[db.pending[i]].chebiId != db.objects[db.pending[j]].chebiId)
  }

  /** Inserting the rows `hs` into the committed table. */
  function Insert(store: map<string, Handle>, objects: seq<Chemical>, hs: seq<Handle>): (r: map<string, Handle>)
    requires forall i | 0 <= i < |hs| :: hs[i] < |objects|
    ensures (forall k | k in store :: store[k] < |objects|) ==> forall k | k in r :: r[k] < |objects|
    decreases |hs|
  {
    if hs == [] then store
    else Insert(store[objects[hs[0]].chebiId := hs[0]], objects, hs[1..])
  }

  /** `session.commit()`: insert every pending chemical, or fail on a duplicate chebi_id. */
  function Commit(db: Db): (r: Result<Db, Error>)
    requires InRange(db)
    ensures r.Err? ==> r.error == IntegrityError
  {
    if UniqueInserts(db) then
      Ok(db.(store := Insert(db.store, db.objects, db.pending), pending := []))
    else Err(IntegrityError)
  }

  /** `chebi_id.split(':')[1]`. */
  function ChebiIdOf(accession: string): (r: Result<string, Error>)
    ensures r.Err? ==> r.error == IndexError
  {
    var fields := PyStrings.Split(accession, ':');
    if |fields| >= 2 then Ok(fields[1]) else Err(IndexError)
  }

  /**
   * The chemical `_populate_compounds` builds from a row: status, parent id,
   * name and definition copied, the row's source column dropped.
   */
  function NewCompound(row: CompoundRow, chebiId: string): Chemical
  {
    Chemical(None, chebiId, row.parentId, row.name, row.definition, None, row.status, None)
  }

  /** One iteration of `_populate_compounds`. The identity cache is not consulted. */
  function CompoundStep(db: Db, row: CompoundRow): (r: Result<Db, Error>)
    ensures r.Ok? && InRange(db) ==> InRange(r.value)
  {
    match ChebiIdOf(row.chebiAccession)
    case Err(e) => Err(e)
    case Ok(chebiId) => Ok(Add(db.(objects := db.objects + [NewCompound(row, chebiId)]), |db.objects|))
  }

  /** The loop of `_populate_compounds`: rows in order, stopping at the first error. */
  function AddCompounds(db: Db, rows: seq<CompoundRow>): (r: Result<Db, Error>)
    ensures r.Ok? && InRange(db) ==> InRange(r.value)
    decreases |rows|
  {
    if rows == [] then Ok(db)
    else
      match CompoundStep(db, rows[0])
      case Err(e) => Err(e)
      case Ok(db1) => AddCompounds(db1, rows[1..])
  }

  /** `_populate_compounds`: the loop, then one commit. */
  function LoadCompounds(db: Db, rows: seq<CompoundRow>): (r: Result<Db, Error>)
    requires InRange(db)
    ensures r.Ok? ==> InRange(r.value)
  {
    match AddCompounds(db, rows)
    case Err(e) => Err(e)
    case Ok(db1) => Commit(db1)
  }

  /** One iteration of `_populate_inchis`: resolve, set `inchi`, add to the session. */
  function InchiStep(db: Db, row: InchiRow): (r: Db)
    requires InRange(db)
    ensures InRange(r)
  {
    var res := Resolve(db, row.chebiId);
    var db1, h := res.0, res.1;
    Add(db1.(objects := db1.objects[h := db1.objects[h].(inchi := Some(row.inchi))]), h)
  }

  function AddInchis(db: Db, rows: seq<InchiRow>): (r: Db)
    requires InRange(db)
    ensures InRange(r)
    decreases |rows|
  {
    if rows == [] then db else AddInchis(InchiStep(db, rows[0]), rows[1..])
  }

  /** `_populate_inchis`. */
  function LoadInchis(db: Db, rows: seq<InchiRow>): (r: Result<Db, Error>)
    requires InRange(db)
    ensures r.Ok? ==> InRange(r.value)
  {
    Commit(AddInchis(db, rows))
  }

  /** The synonym `_populate_names` builds; the row's adapted column is not passed on. */
  function NewSynonym(h: Handle, row: NameRow): Synonym
  {
    Synonym(h, row.kind, row.source, row.name, None, row.language)
  }

  /** One iteration of `_populate_names`. */
  function NameStep(db: Db, row: NameRow): (r: Db)
    requires InRange(db)
    ensures InRange(r)
  {
    var res := Resolve(db, row.chebiId);
    var db1, h := res.0, res.1;
    Add(db1.(synonyms := db1.synonyms + [NewSynonym(h, row)]), h)
  }

  function AddNames(db: Db, rows: seq<NameRow>): (r: Db)
    requires InRange(db)
    ensures InRange(r)
    decreases |rows|
  {
    if rows == [] then db else AddNames(NameStep(db, rows[0]), rows[1..])
  }

  /** `_populate_names`. */
  function LoadNames(db: Db, rows: seq<NameRow>): (r: Result<Db, Error>)
    requires InRange(db)
    ensures r.Ok? ==> InRange(r.value)
  {
    Commit(AddNames(db, rows))
  }

  function NewAccession(h: Handle, row: AccessionRow): Accession
  {
    Accession(h, row.source, row.kind, row.accession)
  }

  /** One iteration of `_populate_accession`. */
  function AccessionStep(db: Db, row: AccessionRow): (r: Db)
    requires InRange(db)
    ensures InRange(r)
  {
    var res := Resolve(db, row.chebiId);
    var db1, h := res.0, res.1;
    Add(db1.(accessions := db1.accessions + [NewAccession(h, row)]), h)
  }

  function AddAccessions(db: Db, rows: seq<AccessionRow>): (r: Db)
    requires InRange(db)
    ensures InRange(r)
    decreases |rows|
  {
    if rows == [] then db else AddAccessions(AccessionStep(db, rows[0]), rows[1..])
  }

  /** `_populate_accession`. */
  function LoadAccessions(db: Db, rows: seq<AccessionRow>): (r: Result<Db, Error>)
    requires InRange(db)
    ensures r.Ok? ==> InRange(r.value)
  {
    Commit(AddAccessions(db, rows))
  }

  /**
   * `populate`: compounds, InChIs, names, accessions, in that order. A failing
   * stage raises, so the later stages do not run and the state is the one the
   * earlier stages committed.
   */
  function Populate(db: Db, compounds: seq<CompoundRow>, inchis: seq<InchiRow>,
                    names: seq<NameRow>, accessions: seq<AccessionRow>): (r: (Db, Outcome<Error>))
    requires InRange(db)
    ensures InRange(r.0)
  {
    match LoadCompounds(db, compounds)
    case Err(e) => (db, Fail(e))
    case Ok(db1) =>
      match LoadInchis(db1, inchis)
      case Err(e) => (db1, Fail(e))
      case Ok(db2) =>
        match LoadNames(db2, names)
        case Err(e) => (db2, Fail(e))
        case Ok(db3) =>
          match LoadAccessions(db3, accessions)
          case Err(e) => (db3, Fail(e))
          case Ok(db4) => (db4, Pass)
  }
}

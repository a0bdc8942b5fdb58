# bio2bel ChEBI manager: a Dafny model

This project models the core of `bio2bel_chebi`. That package loads the
ChEBI chemical ontology's flat files into a relational database through
SQLAlchemy:

- `Manager` (`src/bio2bel_chebi/manager.py`) owns a database session and an
  identity cache, `self.chemicals`.
- `get_or_create_chemical` resolves a ChEBI id in a fixed order: first the
  cache, then the committed table, then a new unsaved `Chemical`.
- Four loaders run in this order: `_populate_compounds`, `_populate_inchis`,
  `_populate_names` and `_populate_accession`. Each walks its rows and then
  commits once.
- `models.py` defines the three records, `Chemical`, `Synonym` and
  `Accession`, with their `__repr__`, `__str__`, `to_json` and `to_bel`.

The model in brief:

- **Sessions as values.** The database session is a value, `Session.Db`, over
  an object arena:
  - `objects[h]` is the chemical object with handle `h`, so "returns the same
    object" is equality of handles;
  - `store` is the committed chemical table, keyed by its unique `chebi_id`
    column;
  - `pending` lists the objects added since the last commit;
  - `cache` is `Manager.chemicals`;
  - `nextKey` is the next autoincrement primary key.
- **The loaders.** Each loader is a head-first fold over its rows followed by
  `Commit`. `Commit` fails with `IntegrityError` when a pending chemical would
  duplicate a committed `chebi_id`, or another pending one.
- **Queries.** The session is created with `autoflush=False` (manager.py:26),
  so the by-id and by-name queries see committed rows only.
- **The class.** `ChebiManager.Manager` is a class with these fields and
  methods:
  - `get_or_create_chemical`, the two lookups, `session.add` and
    `session.commit`;
  - the four loaders, written as `while` loops;
  - `populate`.

  Each method is proved to produce exactly the new state, or the result, that
  the corresponding `Session` function describes.
- **The proofs.** The lemmas in `SessionFacts`, `CompoundFacts`,
  `AttributeFacts`, `PipelineFacts` and `Fixture` make these functions say
  what the package promises:
  - precedence and idempotence of identity resolution;
  - the unique `chebi_id`;
  - one chemical per compounds row, with its columns copied;
  - the last InChI for an id wins;
  - one synonym or accession per row, with no deduplication;
  - a session invariant that every step keeps;
  - the stage order of `populate`, and which stages can fail;
  - the test suite's rosuvastatin lookup.

Some facts about the code that the model keeps as they are:

- `_populate_names` (manager.py:123-134) keeps synonyms with empty text. The
  loop has no filter.
- `manager.py` has no parent linking. `parent_id` is copied as given, and the
  `parent` relationship is only a foreign key.
- `_populate_inchis` (manager.py:107-112) runs after the compounds stage. It
  sets InChIs on the chemicals already loaded, or on new ones.
- `manager.py` has no relation loader.
- `populate` does not deduplicate. A second compounds load fails with
  `IntegrityError`, and a second names or accessions load doubles the rows.

## Model

| member | source | states |
|---|---|---|
| Models.Chemical.Repr | src/bio2bel_chebi/models.py:45-46 | the repr is `<Chemical CHEBI:` followed by the chebi_id and `>`, and its length is the id's plus 17 |
| Models.ReprMatchesBel | src/bio2bel_chebi/models.py:45-46 | the repr is `<Chemical ` + namespace + `:` + identifier + `>` of the chemical's BEL node |
| Models.ReprSplit | src/bio2bel_chebi/models.py:45-46 | splitting the repr at ':' gives the prefix and the id (with `>`) back, when the id has no colon |
| Models.Chemical.Str | src/bio2bel_chebi/models.py:48-49 | `str(name)`: the name when there is one, "None" otherwise |
| Models.Chemical.ToJson | src/bio2bel_chebi/models.py:51-67 | the keys are exactly chebi_id, name, definition, source and inchi, plus `id` if and only if include_id is set; each key carries the matching column's value (NULL as null), and `id` carries the primary key |
| Models.ToJsonDeterminedBy | src/bio2bel_chebi/models.py:56-65 | two chemicals have equal JSON if and only if they agree on the five exported columns (and the key when it is included); status and parent are never exported |
| Models.ToJsonIncludeId | src/bio2bel_chebi/models.py:64-65 | include_id adds the `id` entry and changes nothing else |
| Models.Chemical.ToBel | src/bio2bel_chebi/models.py:69-78 | namespace is CHEBI, name is `str(name)`, identifier is the chebi_id |
| Models.Synonym.Str | src/bio2bel_chebi/models.py:99-100 | the name; absent (Python raises TypeError) when the name is NULL |
| Models.Accession.Str | src/bio2bel_chebi/models.py:116-117 | "source:accession": the source, one ':', then the accession, with None rendered as "None" |
| Models.AccessionStrSplit | src/bio2bel_chebi/models.py:116-117 | splitting the rendered accession at ':' gives back the source followed by the accession's own fields |
| Models.NewChemical | src/bio2bel_chebi/manager.py:53 | `Chemical(chebi_id=...)` has that id; its key, parent id, name, definition, source, status and InChI are all NULL |
| SessionFacts.EmptyValid | src/bio2bel_chebi/manager.py:23-29 | a new manager on an empty database satisfies the session invariant and has nothing pending |
| SessionFacts.UniqueChebiId | src/bio2bel_chebi/models.py:34 | two committed chemicals with the same chebi_id are the same object |
| SessionFacts.AtMostOneParent | src/bio2bel_chebi/models.py:36-37 | the parent foreign key denotes at most one committed chemical |
| PyStrings.SplitFieldsFree | src/bio2bel_chebi/manager.py:89 | no field of `str.split(':')` contains the separator |
| PyStrings.JoinSplit | src/bio2bel_chebi/manager.py:89 | `str.split` loses nothing: joining its fields with the separator gives the string back |
| PyStrings.SplitJoin | src/bio2bel_chebi/manager.py:89 | splitting a join of separator-free fields gives the fields back |
| PyStrings.SplitHasSecondField | src/bio2bel_chebi/manager.py:89 | `split(':')` has a field at index 1 if and only if the string contains ':' |
| Session.ChebiIdOf | src/bio2bel_chebi/manager.py:89 | `chebi_id.split(':')[1]`, or IndexError; its meaning is given by CompoundFacts.ChebiIdOfColon and ChebiIdOfPrefixed |
| Session.Add | src/bio2bel_chebi/manager.py:94 | `session.add`: the object is now in the session, and an object already there is left alone; the rest is SessionFacts.AddValid |
| Session.Commit | src/bio2bel_chebi/manager.py:96 | `session.commit()`, failing only with IntegrityError; SessionFacts.CommitValid and CompoundFacts.AppendedUnique say when it succeeds and what it writes |
| Session.CompoundStep | src/bio2bel_chebi/manager.py:87-94 | one iteration of the compounds loop; its effect is CompoundFacts.CompoundStepEffect |
| Session.AddCompounds | src/bio2bel_chebi/manager.py:84-94 | the compounds loop; CompoundFacts.AddCompoundsOutcome and AddCompoundsEffect relate it to the reference list NewCompounds |
| Session.LoadCompounds | src/bio2bel_chebi/manager.py:84-96 | `_populate_compounds`; CompoundFacts.LoadCompoundsOutcome (an if and only if) and LoadCompoundsEffect give its meaning |
| Session.InchiStep | src/bio2bel_chebi/manager.py:108-110 | one iteration of the InChI loop; AttributeFacts.InchiStepFrame and InchiStepObjects give its effect |
| Session.AddInchis | src/bio2bel_chebi/manager.py:107-110 | the InChI loop; AttributeFacts.AddInchisLastWins relates it to the reference function LastInchi |
| Session.LoadInchis | src/bio2bel_chebi/manager.py:107-112 | `_populate_inchis`; PipelineFacts.LoadInchisOk and StaleCacheConflict say when its commit succeeds |
| Session.NameStep | src/bio2bel_chebi/manager.py:125-132 | one iteration of the names loop; AttributeFacts.NameStepFrame gives its effect |
| Session.AddNames | src/bio2bel_chebi/manager.py:123-132 | the names loop; AttributeFacts.AddNamesEffect relates it to the reference list SynonymsFor |
| Session.LoadNames | src/bio2bel_chebi/manager.py:123-134 | `_populate_names`; PipelineFacts.LoadNamesOk and LoadNamesTwice give its meaning |
| Session.AccessionStep | src/bio2bel_chebi/manager.py:148-154 | one iteration of the accessions loop; AttributeFacts.AccessionStepFrame gives its effect |
| Session.AddAccessions | src/bio2bel_chebi/manager.py:146-154 | the accessions loop; AttributeFacts.AddAccessionsEffect relates it to the reference list AccessionsFor |
| Session.LoadAccessions | src/bio2bel_chebi/manager.py:146-156 | `_populate_accession`; PipelineFacts.LoadAccessionsOk and LoadAccessionsTwice give its meaning |
| Session.Populate | src/bio2bel_chebi/manager.py:158-165 | the four stages in order, stopping at the first failure; PipelineFacts.PopulateOutcome (an if and only if), PopulateStops and PopulatePasses give its meaning |
| Session.Find | src/bio2bel_chebi/manager.py:58-64 | a result if and only if the id is committed; None on a miss |
| SessionFacts.FindExact | src/bio2bel_chebi/manager.py:58-64 | the lookup returns `h` exactly when `h` is the committed chemical with that id |
| Session.FindByName | src/bio2bel_chebi/manager.py:66-72 | None if and only if no committed chemical has the name; MultipleResultsFound if and only if two or more do; otherwise the only one |
| Session.Resolve | src/bio2bel_chebi/manager.py:41-56 | cache hit: the cached object, and nothing changes; else the committed row, now cached; else a new `Chemical(chebi_id)` appended and cached |
| SessionFacts.ResolveValid | src/bio2bel_chebi/manager.py:41-56 | resolution keeps the session invariant, returns an object with the asked-for id, and keeps every existing object |
| SessionFacts.ResolveTwice | src/bio2bel_chebi/manager.py:47-48 | a second call for the same id returns the same object and changes nothing |
| AttributeFacts.ResolveCoherent | src/bio2bel_chebi/manager.py:41-56 | the resolved object's chebi_id is the argument, and cache and table stay coherent |
| SessionFacts.AddValid | src/bio2bel_chebi/manager.py:94 | `session.add` keeps the invariant; a new object becomes pending and gets key `nextKey`, and `nextKey` advances by one; an object already added is left alone; nothing else changes |
| SessionFacts.CommitValid | src/bio2bel_chebi/manager.py:96 | a commit of new distinct ids succeeds, keeps every committed row and commits exactly the pending objects |
| SessionFacts.InsertEffect | src/bio2bel_chebi/manager.py:96 | inserting pending rows keeps old rows, maps each new id to its object and adds nothing else |
| CompoundFacts.ChebiIdOfColon | src/bio2bel_chebi/manager.py:89 | `split(':')[1]` succeeds if and only if the accession contains a colon, and otherwise raises IndexError |
| CompoundFacts.ChebiIdOfPrefixed | src/bio2bel_chebi/manager.py:89 | `"CHEBI:" + id` yields `id` when the id has no colon |
| CompoundFacts.ChebiIdOfAccessionStr | src/bio2bel_chebi/manager.py:89 | a consistency fact, not a code path of the source: the id parser inverts `Accession.__str__` for CHEBI accessions |
| CompoundFacts.NewCompoundsAt | src/bio2bel_chebi/manager.py:87-93 | the i-th new chemical has the i-th row's parsed id, status, parent id, name and definition, no source, and key `k + i` |
| CompoundFacts.CompoundStepEffect | src/bio2bel_chebi/manager.py:87-94 | one row appends one new chemical and adds it to the session, or raises IndexError |
| CompoundFacts.AddCompoundsOutcome | src/bio2bel_chebi/manager.py:84-94 | the loop succeeds if and only if every accession parses; otherwise IndexError |
| CompoundFacts.AddCompoundsEffect | src/bio2bel_chebi/manager.py:84-94 | the loop appends one new chemical per row, in order, all pending, with consecutive keys; the cache is untouched |
| CompoundFacts.AddCompoundsValid | src/bio2bel_chebi/manager.py:84-94 | the loop keeps the session invariant |
| CompoundFacts.AppendedUnique | src/bio2bel_chebi/manager.py:96 | the commit's unique check passes if and only if the parsed ids are new and pairwise distinct |
| CompoundFacts.LoadCompoundsOutcome | src/bio2bel_chebi/manager.py:84-96 | the stage succeeds if and only if every row parses and the ids are new and distinct; otherwise IndexError or IntegrityError |
| CompoundFacts.LoadCompoundsEffect | src/bio2bel_chebi/manager.py:84-96 | on success the new chemicals are appended and committed, old rows are kept, and the cache, synonyms and accessions are unchanged |
| CompoundFacts.LoadedCompoundFound | src/bio2bel_chebi/manager.py:84-96 | after the stage `get_chemical_by_chebi_id` of the i-th row's id returns the i-th new chemical |
| CompoundFacts.LoadedCompoundColumns | src/bio2bel_chebi/manager.py:87-93 | the committed chemical copies status, parent id, name and definition; source and InChI are NULL |
| CompoundFacts.LoadCompoundsValid | src/bio2bel_chebi/manager.py:84-96 | the stage keeps the session invariant |
| AttributeFacts.LastInchiOfLastRow | src/bio2bel_chebi/manager.py:107-110 | a later row for an id overrides every earlier row |
| AttributeFacts.LastInchiMentioned | src/bio2bel_chebi/manager.py:107-110 | an InChI is determined for an id if and only if some row mentions it |
| AttributeFacts.InchiStepFrame | src/bio2bel_chebi/manager.py:107-110 | one row leaves the committed table, synonyms and accessions unchanged, caches its id, and never shrinks the object table |
| AttributeFacts.InchiStepObjects | src/bio2bel_chebi/manager.py:108-110 | one row sets the InChI of the resolved chemical and changes no other chemical |
| AttributeFacts.AddInchisCache | src/bio2bel_chebi/manager.py:107-110 | the loop keeps existing cache entries, caches exactly the mentioned ids, and does not touch the table, synonyms or accessions |
| AttributeFacts.AddInchisUntouched | src/bio2bel_chebi/manager.py:107-110 | chemicals whose id no row mentions are unchanged |
| AttributeFacts.AddInchisShape | src/bio2bel_chebi/manager.py:107-110 | existing chemicals change only in InChI and key |
| AttributeFacts.AddInchisLastWins | src/bio2bel_chebi/manager.py:107-110 | the chemical cached for each mentioned id holds the last InChI given for it |
| AttributeFacts.SynonymsFor | src/bio2bel_chebi/manager.py:125-131 | one synonym per row, owned by the chemical cached for the row's id, with the row's type, source, name and language |
| AttributeFacts.NameStepFrame | src/bio2bel_chebi/manager.py:125-132 | one row appends exactly one synonym for the resolved chemical and caches its id |
| AttributeFacts.NameStepObjects | src/bio2bel_chebi/manager.py:125-132 | one row changes no chemical except for its key |
| AttributeFacts.AddNamesCache | src/bio2bel_chebi/manager.py:123-132 | the loop keeps existing cache entries, caches exactly the mentioned ids, and does not touch the table or accessions |
| AttributeFacts.AddNamesEffect | src/bio2bel_chebi/manager.py:123-132 | the loop appends exactly one synonym per row, in order, without deduplication |
| AttributeFacts.AddNamesOwner | src/bio2bel_chebi/manager.py:126 | the synonym from row i belongs to the cached chemical whose chebi_id is the row's id |
| AttributeFacts.AddNamesUntouched | src/bio2bel_chebi/manager.py:123-132 | existing chemicals change only in their key |
| AttributeFacts.AddNamesKnown | src/bio2bel_chebi/manager.py:47-48 | when every id is already cached, the cache is unchanged |
| AttributeFacts.NamesTwice | src/bio2bel_chebi/manager.py:123-132 | running the loop twice appends the same synonyms twice: 2 * rows more records |
| AttributeFacts.AccessionsFor | src/bio2bel_chebi/manager.py:148-153 | one accession per row, owned by the chemical cached for the row's id, with the row's source, type and accession |
| AttributeFacts.AccessionStepFrame | src/bio2bel_chebi/manager.py:148-154 | one row appends exactly one accession for the resolved chemical and caches its id |
| AttributeFacts.AccessionStepObjects | src/bio2bel_chebi/manager.py:148-154 | one row changes no chemical except for its key |
| AttributeFacts.AddAccessionsCache | src/bio2bel_chebi/manager.py:146-154 | the loop keeps existing cache entries, caches exactly the mentioned ids, and does not touch the table or synonyms |
| AttributeFacts.AddAccessionsEffect | src/bio2bel_chebi/manager.py:146-154 | the loop appends exactly one accession per row, in order, without deduplication |
| AttributeFacts.AddAccessionsOwner | src/bio2bel_chebi/manager.py:149 | the accession from row i belongs to the cached chemical whose chebi_id is the row's id |
| AttributeFacts.AddAccessionsUntouched | src/bio2bel_chebi/manager.py:146-154 | existing chemicals change only in their key |
| AttributeFacts.AddAccessionsKnown | src/bio2bel_chebi/manager.py:47-48 | when every id is already cached, the cache is unchanged |
| AttributeFacts.AccessionsTwice | src/bio2bel_chebi/manager.py:146-154 | running the loop twice appends the same accessions twice |
| PipelineFacts.ReadyUnique | src/bio2bel_chebi/manager.py:112 | inside a loader, the pending chemicals have new and distinct ids |
| PipelineFacts.ReadyCommit | src/bio2bel_chebi/manager.py:112 | such a commit succeeds, keeps everything else, and leaves every cached chemical committed |
| PipelineFacts.StepReady | src/bio2bel_chebi/manager.py:108-110 | resolve, change columns other than chebi_id, then add: this keeps every cached chemical committed or pending, and every pending one cached and new |
| PipelineFacts.InchiStepValid | src/bio2bel_chebi/manager.py:108-110 | one InChI row keeps the session invariant |
| PipelineFacts.NameStepValid | src/bio2bel_chebi/manager.py:125-132 | one names row keeps the session invariant |
| PipelineFacts.AccessionStepValid | src/bio2bel_chebi/manager.py:148-154 | one accessions row keeps the session invariant |
| PipelineFacts.LoadInchisOk | src/bio2bel_chebi/manager.py:107-112 | from a state whose cache holds committed chemicals only, the InChI stage never fails and keeps that property |
| PipelineFacts.LoadNamesOk | src/bio2bel_chebi/manager.py:123-134 | the names stage never fails from such a state; its synonyms are the loop's |
| PipelineFacts.LoadAccessionsOk | src/bio2bel_chebi/manager.py:146-156 | the accessions stage never fails from such a state |
| PipelineFacts.LoadCompoundsStored | src/bio2bel_chebi/manager.py:84-96 | a successful compounds stage keeps the invariant and every cached chemical committed |
| PipelineFacts.LoadNamesTwice | src/bio2bel_chebi/manager.py:123-134 | loading the same names twice commits both times and doubles the synonym count |
| PipelineFacts.LoadAccessionsTwice | src/bio2bel_chebi/manager.py:146-156 | loading the same accessions twice commits both times and doubles the accession count |
| PipelineFacts.PopulateStops | src/bio2bel_chebi/manager.py:162 | a failing compounds stage stops `populate` with the state unchanged |
| PipelineFacts.PopulatePasses | src/bio2bel_chebi/manager.py:162-165 | after a successful compounds stage, the InChI, names and accessions stages each commit, in that order |
| PipelineFacts.PopulateOutcome | src/bio2bel_chebi/manager.py:162-165 | from such a state `populate` passes if and only if every compounds row parses and the ids are new and distinct; when it fails nothing has changed |
| PipelineFacts.StaleCacheConflict | src/bio2bel_chebi/manager.py:107-112 | a cached chemical never added for an id now committed makes the InChI stage fail with IntegrityError |
| PipelineFacts.StaleCacheReachable | src/bio2bel_chebi/manager.py:41-56 | `get_or_create_chemical` on a new manager followed by the compounds stage produces that stale state |
| PipelineFacts.GetOrCreateThenPopulate | src/bio2bel_chebi/manager.py:162-163 | so `populate` after such a call fails at the InChI stage, when the caller's id equals the key the InChI rows carry |
| Fixture.OneCompound | src/bio2bel_chebi/manager.py:84-96 | one compounds row with a new id is committed as the next chemical, findable by its id, with its name |
| Fixture.FixtureInchis | src/bio2bel_chebi/manager.py:107-112 | the InChI row for 38545 sets that chemical's InChI and keeps its name |
| Fixture.FixtureRosuvastatin | tests/test_parse.py:16-24 | after populating with the fixture rows, 38545 is found and is rosuvastatin with the expected InChI |
| ChebiManager.Manager.constructor | src/bio2bel_chebi/manager.py:23-29 | a new manager on a new database has the empty state |
| ChebiManager.Manager.Open | src/bio2bel_chebi/manager.py:23-29 | a manager on an existing database holds its committed rows, with an empty session and an empty cache |
| ChebiManager.Manager.GetChemicalByChebiId | src/bio2bel_chebi/manager.py:58-64 | the result is the committed lookup of the id |
| ChebiManager.Manager.GetChemicalByChebiName | src/bio2bel_chebi/manager.py:66-72 | the result is the `one_or_none()` outcome over the name column |
| ChebiManager.Manager.GetOrCreateChemical | src/bio2bel_chebi/manager.py:41-56 | the new state and the returned object are those of the cache, then table, then create resolution |
| ChebiManager.Manager.AddToSession | src/bio2bel_chebi/manager.py:94 | the new state is that of `session.add` |
| ChebiManager.Manager.CommitSession | src/bio2bel_chebi/manager.py:96 | commits, or reports IntegrityError and writes nothing |
| ChebiManager.Manager.LoadInchiRow | src/bio2bel_chebi/manager.py:108-110 | one iteration of the InChI loop |
| ChebiManager.Manager.LoadNameRow | src/bio2bel_chebi/manager.py:125-132 | one iteration of the names loop |
| ChebiManager.Manager.LoadAccessionRow | src/bio2bel_chebi/manager.py:148-154 | one iteration of the accessions loop |
| ChebiManager.Manager.PopulateCompounds | src/bio2bel_chebi/manager.py:84-96 | the loop (with a fold invariant) and commit produce the compounds stage's state; on failure the state is restored |
| ChebiManager.Manager.PopulateInchis | src/bio2bel_chebi/manager.py:107-112 | the loop and commit produce the InChI stage's state; on failure the state is restored |
| ChebiManager.Manager.PopulateNames | src/bio2bel_chebi/manager.py:123-134 | the loop and commit produce the names stage's state; on failure the state is restored |
| ChebiManager.Manager.PopulateAccessions | src/bio2bel_chebi/manager.py:146-156 | the loop and commit produce the accessions stage's state; on failure the state is restored |
| ChebiManager.Manager.Populate | src/bio2bel_chebi/manager.py:158-165 | the four stages in order, stopping at the first failure |

## Left out

- Database engine, connection string, `create_all` and `drop_all`: the committed table is a map, and SQL itself is not modelled.
- Downloads and the `parser/` modules: the loaders take their rows as sequences. Only the columns each loop unpacks are kept.
- pandas value handling: NaN is taken to be None, and ids are strings. The coercion between pandas integers and the `String(32)` chebi_id column is not modelled.
- Session.CompoundRow and Session.InchiRow: the compounds accession column and the InChI column are assumed present (plain strings). A NaN accession, on which `split` raises AttributeError (manager.py:89), and a NaN InChI cannot be expressed.
- PipelineFacts.GetOrCreateThenPopulate: ids have one type in the model. In Python the InChI file's ids are integers (parser/inchis.py:41-44 reads them with default type inference), while `get_or_create_chemical` documents a string argument. A caller passing `'38545'` therefore keys the cache differently from the InChI rows, misses the stale entry, and `populate` succeeds. The lemma covers the caller whose argument equals the InChI rows' key.
- Session.FindByName: the name is a string, so `get_chemical_by_chebi_name(None)`, which the query turns into `name IS NULL`, is not modelled.
- Column widths (`String(32)`, `String(3071)`, ...): these are not enforced.
- Logging, tqdm progress bars and `populate`'s timing: there is no state to model.
- The `**kwargs` of `get_or_create_chemical`: no caller passes any.
- Primary keys of synonyms and accessions, and their foreign-key columns: the owner is kept as a handle.
- Parent linking, relations and hierarchy traversal: `manager.py` has none. `parent_id` is copied, and the relationship is modelled only as the set of chemicals the foreign key can denote.
- The `count_*` methods, `web.py`, `cli.py`, `run.py` and `enrich.py`: these are outside the modelled core.
- The `__main__` block of `manager.py`: it deletes a file and runs `populate`.
- ChebiManager.Manager.constructor: the constructor models a new, empty database. A database file left by an earlier run is opened with `ChebiManager.Manager.Open`, whose state is given as a parameter. Reading that file is not modelled.
- ChebiManager.Manager.PopulateCompounds, ChebiManager.Manager.PopulateInchis, ChebiManager.Manager.PopulateNames, ChebiManager.Manager.PopulateAccessions: after a failed stage, each of these loaders restores the whole pre-stage state, cache included. Python leaves the exception raised, the session needing a rollback, and the new cache entries in place. That partial state is not modelled.
- Primary-key timing: keys are given at `session.add` rather than at flush. The order is the same, since nothing flushes before the commit.
- Fixture.FixtureRosuvastatin: the test's fixture files are not part of this model. The lemma uses one compounds row and one InChI row carrying the values the test checks. The test's own setup (tests/constants.py:23-26) calls `_load_inchis` before `_populate_compounds` and then `_populate_relations`; neither of those two methods exists in manager.py, so the lemma follows the order of `populate` instead.

/**
 * The chemical the repository's test suite looks up after populating its
 * fixture database (tests/test_parse.py): ChEBI id 38545 is rosuvastatin and
 * carries its InChI. Here the fixture is cut down to that one compounds row
 * and that one InChI row.
 */
module Fixture {
  import opened Wrappers
  import opened Models
  import opened Session
  import opened SessionFacts
  import opened CompoundFacts
  import opened AttributeFacts
  import opened PipelineFacts

  const RosuvastatinInchi: string :=
    "InChI=1S/C22H28FN3O6S/c1-13(2)20-18(10-9-16(27)11-17(28)12-19(29)"
    + "30)21(14-5-7-15(23)8-6-14)25-22(24-20)26(3)33(4,31)32/h5-10,13,16-"
    + "17,27-28H,11-12H2,1-4H3,(H,29,30)/b10-9+/t16-,17-/m1/s1"

  const RosuvastatinRow: CompoundRow :=
    CompoundRow(Some("C"), "CHEBI:38545", Some("ChEBI"), None, Some("rosuvastatin"), None)

  const RosuvastatinInchiRow: InchiRow := InchiRow("38545", RosuvastatinInchi)

  /** The row's accession parses to 38545. */
  lemma FixtureParses()
    ensures ChebiIdOf(RosuvastatinRow.chebiAccession) == Ok("38545")
  {
    assert ':' !in "38545";
    ChebiIdOfPrefixed("38545");
    assert "CHEBI:38545" == "CHEBI:" + "38545";
  }

  /** Loading one compounds row whose id is new commits it as the next chemical, found under its id. */
  lemma OneCompound(db: Db, row: CompoundRow, chebiId: string)
    requires Valid(db) && CacheStored(db) && db.pending == []
    requires ChebiIdOf(row.chebiAccession) == Ok(chebiId) && chebiId !in db.store
    ensures LoadCompounds(db, [row]).Ok?
    ensures var db1 := LoadCompounds(db, [row]).value;
      && Valid(db1) && CacheStored(db1) && db1.pending == []
      && Find(db1, chebiId) == Some(|db.objects|) && |db.objects| < |db1.objects|
      && db1.objects[|db.objects|].name == row.name
  {
    var rows := [row];
    assert rows[0] == row;
    assert AllParse(rows) && ParsedId(rows[0]) == chebiId;
    LoadCompoundsOutcome(db, rows);
    LoadCompoundsStored(db, rows);
    LoadedCompoundFound(db, rows, 0);
    LoadedCompoundColumns(db, rows, 0);
  }

  /** The compounds stage on a new manager commits the row as chemical 0, found under id 38545. */
  lemma FixtureCompounds()
    ensures LoadCompounds(Empty, [RosuvastatinRow]).Ok?
    ensures var db1 := LoadCompounds(Empty, [RosuvastatinRow]).value;
      && Valid(db1) && CacheStored(db1) && db1.pending == []
      && Find(db1, "38545") == Some(0) && db1.objects[0].name == Some("rosuvastatin")
  {
    EmptyValid();
    FixtureParses();
    OneCompound(Empty, RosuvastatinRow, "38545");
  }

  /** A chemical the cache holds in a session with committed cached chemicals is the committed row for its id. */
  lemma CachedIsFound(db: Db, chebiId: string)
    requires Valid(db) && CacheStored(db) && chebiId in db.cache
    ensures Find(db, chebiId) == Some(db.cache[chebiId])
  {
  }

  /** The InChI stage sets the InChI of chemical 0 and keeps its name. */
  lemma FixtureInchis(db1: Db)
    requires Valid(db1) && CacheStored(db1) && db1.pending == []
    requires Find(db1, "38545") == Some(0) && db1.objects[0].name == Some("rosuvastatin")
    ensures LoadInchis(db1, [RosuvastatinInchiRow]).Ok?
    ensures var db2 := LoadInchis(db1, [RosuvastatinInchiRow]).value;
      && Valid(db2) && CacheStored(db2) && db2.pending == []
      && Find(db2, "38545") == Some(0)
      && db2.objects[0].name == Some("rosuvastatin") && db2.objects[0].inchi == Some(RosuvastatinInchi)
  {
    var rows := [RosuvastatinInchiRow];
    LoadInchisOk(db1, rows);
    var db2 := LoadInchis(db1, rows).value;
    ValidCoherent(db1);
    AddInchisLastWins(db1, rows);
    AddInchisShape(db1, rows);
    assert "38545" in InchiIds(rows);
    assert LastInchi(rows, "38545") == Some(RosuvastatinInchi);
    CachedIsFound(db2, "38545");
  }

  /** Populating a new manager with the fixture rows: 38545 resolves to rosuvastatin with its InChI. */
  lemma FixtureRosuvastatin()
    ensures var p := Populate(Empty, [RosuvastatinRow], [RosuvastatinInchiRow], [], []);
      && p.1 == Pass
      && Find(p.0, "38545").Some?
      && var c := p.0.objects[Find(p.0, "38545").value];
      && c.chebiId == "38545" && c.name == Some("rosuvastatin") && c.inchi == Some(RosuvastatinInchi)
  {
    FixtureCompounds();
    var db1 := LoadCompounds(Empty, [RosuvastatinRow]).value;
    FixtureInchis(db1);
    var db2 := LoadInchis(db1, [RosuvastatinInchiRow]).value;
    assert LoadNames(db2, []) == Ok(db2);
    assert LoadAccessions(db2, []) == Ok(db2);
    FindExact(db2, "38545", 0);
  }
}

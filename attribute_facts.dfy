/**
 * What `_populate_inchis`, `_populate_names` and `_populate_accession` do:
 * every row goes through `get_or_create_chemical`, so the rows for one
 * ChEBI id all reach the same object, the last InChI for an id wins, and
 * every names or accessions row becomes one new record.
 */
module AttributeFacts {
  import opened Wrappers
  import opened Models
  import opened Session
  import opened SessionFacts

  /** The part of the session invariant the attribute loaders rely on: lookups return objects with the asked-for id. */
  ghost predicate Coherent(db: Db)
  {
    && InRange(db)
    && (forall k | k in db.store :: db.objects[db.store[k]].chebiId == k)
    && (forall k | k in db.cache :: db.objects[db.cache[k]].chebiId == k)
  }

  lemma ValidCoherent(db: Db)
    requires Valid(db)
    ensures Coherent(db)
  {
  }

  /** `get_or_create_chemical` returns an object with the asked-for chebi_id and keeps lookups coherent. */
  lemma ResolveCoherent(db: Db, chebiId: string)
    requires Coherent(db)
    ensures Coherent(Resolve(db, chebiId).0)
    ensures Resolve(db, chebiId).0.objects[Resolve(db, chebiId).1].chebiId == chebiId
  {
  }

  /** `session.add` changes a key only, so lookups stay coherent. */
  lemma AddCoherent(db: Db, h: Handle)
    requires Coherent(db) && h < |db.objects|
    ensures Coherent(Add(db, h))
  {
    AddFrame(db, h);
  }

  /** Setting a column other than chebi_id keeps lookups coherent. */
  lemma UpdateCoherent(db: Db, h: Handle, c: Chemical)
    requires Coherent(db) && h < |db.objects| && c.chebiId == db.objects[h].chebiId
    ensures Coherent(db.(objects := db.objects[h := c]))
  {
  }

  // ---------------------------------------------------------------------------
  // InChIs

  /** The ids the InChI rows mention. */
  function InchiIds(rows: seq<InchiRow>): set<string>
    decreases |rows|
  {
    if rows == [] then {} else {rows[0].chebiId} + InchiIds(rows[1..])
  }

  /** The InChI of the last row for `chebiId`, if any row mentions it. */
  function LastInchi(rows: seq<InchiRow>, chebiId: string): Option<string>
    decreases |rows|
  {
    if rows == [] then None
    else match LastInchi(rows[1..], chebiId)
      case Some(inchi) => Some(inchi)
      case None => if rows[0].chebiId == chebiId then Some(rows[0].inchi) else None
  }

  /** Some row gives an InChI for `chebiId` exactly when a row mentions it. */
  lemma {:induction false} LastInchiMentioned(rows: seq<InchiRow>, chebiId: string)
    ensures LastInchi(rows, chebiId).Some? <==> chebiId in InchiIds(rows)
    decreases |rows|
  {
    if rows != [] {
      LastInchiMentioned(rows[1..], chebiId);
    }
  }

  /** A row appended at the end overrides every earlier row for its id. */
  lemma {:induction false} LastInchiOfLastRow(rows: seq<InchiRow>, row: InchiRow)
    ensures LastInchi(rows + [row], row.chebiId) == Some(row.inchi)
    decreases |rows|
  {
    if rows == [] {
      assert [row][1..] == [];
    } else {
      assert (rows + [row])[1..] == rows[1..] + [row];
      LastInchiOfLastRow(rows[1..], row);
    }
  }

  /** One iteration of `_populate_inchis`: only the cache and the chemicals change. */
  lemma InchiStepFrame(db: Db, row: InchiRow)
    requires InRange(db)
    ensures var h, r := Resolve(db, row.chebiId).1, InchiStep(db, row);
      && r.store == db.store && r.synonyms == db.synonyms && r.accessions == db.accessions
      && r.cache == db.cache[row.chebiId := h]
      && |db.objects| <= |r.objects|
  {
    var res := Resolve(db, row.chebiId);
    var db1, h := res.0, res.1;
    AddFrame(db1.(objects := db1.objects[h := db1.objects[h].(inchi := Some(row.inchi))]), h);
  }

  /** One iteration of `_populate_inchis` keeps lookups coherent. */
  lemma InchiStepCoherent(db: Db, row: InchiRow)
    requires Coherent(db)
    ensures Coherent(InchiStep(db, row))
    ensures InchiStep(db, row).objects[Resolve(db, row.chebiId).1].chebiId == row.chebiId
  {
    ResolveCoherent(db, row.chebiId);
    var res := Resolve(db, row.chebiId);
    var db1, h := res.0, res.1;
    UpdateCoherent(db1, h, db1.objects[h].(inchi := Some(row.inchi)));
    var db2 := db1.(objects := db1.objects[h := db1.objects[h].(inchi := Some(row.inchi))]);
    AddCoherent(db2, h);
    AddFrame(db2, h);
  }

  /** One iteration of `_populate_inchis`: the resolved chemical gets the row's InChI, no other chemical changes. */
  lemma InchiStepObjects(db: Db, row: InchiRow)
    requires InRange(db)
    ensures var h, r := Resolve(db, row.chebiId).1, InchiStep(db, row);
      && h < |r.objects| && r.objects[h].inchi == Some(row.inchi)
      && (forall g | 0 <= g < |db.objects| :: r.objects[g].(inchi := db.objects[g].inchi, key := db.objects[g].key) == db.objects[g])
      && (forall g | 0 <= g < |r.objects| && g != h :: g < |db.objects| && r.objects[g] == db.objects[g])
  {
    var res := Resolve(db, row.chebiId);
    var db1, h := res.0, res.1;
    var db2 := db1.(objects := db1.objects[h := db1.objects[h].(inchi := Some(row.inchi))]);
    AddFrame(db2, h);
  }

  /** The cache grows by the mentioned ids only, existing entries never change, and nothing else but the chemicals changes. */
  lemma {:induction false} AddInchisCache(db: Db, rows: seq<InchiRow>)
    requires InRange(db)
    ensures var r := AddInchis(db, rows);
      && r.store == db.store && r.synonyms == db.synonyms && r.accessions == db.accessions
      && |db.objects| <= |r.objects|
      && (forall k | k in db.cache :: k in r.cache && r.cache[k] == db.cache[k])
      && (forall k | k in r.cache :: k in db.cache || k in InchiIds(rows))
      && InchiIds(rows) <= r.cache.Keys
    decreases |rows|
  {
    if rows != [] {
      InchiStepFrame(db, rows[0]);
      AddInchisCache(InchiStep(db, rows[0]), rows[1..]);
    }
  }

  lemma {:induction false} AddInchisCoherent(db: Db, rows: seq<InchiRow>)
    requires Coherent(db)
    ensures Coherent(AddInchis(db, rows))
    decreases |rows|
  {
    if rows != [] {
      InchiStepCoherent(db, rows[0]);
      AddInchisCoherent(InchiStep(db, rows[0]), rows[1..]);
    }
  }

  /** Chemicals whose id no row mentions are left exactly as they were. */
  lemma {:induction false} AddInchisUntouched(db: Db, rows: seq<InchiRow>)
    requires Coherent(db)
    ensures var r := AddInchis(db, rows);
      && |db.objects| <= |r.objects|
      && (forall g | 0 <= g < |db.objects| && db.objects[g].chebiId !in InchiIds(rows) :: r.objects[g] == db.objects[g])
    decreases |rows|
  {
    if rows != [] {
      var db1 := InchiStep(db, rows[0]);
      InchiStepObjects(db, rows[0]);
      InchiStepCoherent(db, rows[0]);
      AddInchisUntouched(db1, rows[1..]);
    }
  }

  /** `_populate_inchis` changes existing chemicals in their InChI and key only. */
  lemma {:induction false} AddInchisShape(db: Db, rows: seq<InchiRow>)
    requires InRange(db)
    ensures var r := AddInchis(db, rows);
      && |db.objects| <= |r.objects|
      && (forall g | 0 <= g < |db.objects| :: r.objects[g].(inchi := db.objects[g].inchi, key := db.objects[g].key) == db.objects[g])
    decreases |rows|
  {
    if rows != [] {
      InchiStepObjects(db, rows[0]);
      AddInchisShape(InchiStep(db, rows[0]), rows[1..]);
    }
  }

  /** After `_populate_inchis`, the chemical cached for each mentioned id holds the last InChI given for it. */
  lemma {:induction false} AddInchisLastWins(db: Db, rows: seq<InchiRow>)
    requires Coherent(db)
    ensures var r := AddInchis(db, rows);
      forall k | k in InchiIds(rows) :: k in r.cache && r.objects[r.cache[k]].inchi == LastInchi(rows, k)
    decreases |rows|
  {
    if rows != [] {
      var db1 := InchiStep(db, rows[0]);
      var r := AddInchis(db, rows);
      InchiStepFrame(db, rows[0]);
      InchiStepCoherent(db, rows[0]);
      InchiStepObjects(db, rows[0]);
      AddInchisLastWins(db1, rows[1..]);
      AddInchisCache(db1, rows[1..]);
      AddInchisUntouched(db1, rows[1..]);
      forall k | k in InchiIds(rows) ensures k in r.cache && r.objects[r.cache[k]].inchi == LastInchi(rows, k) {
        LastInchiMentioned(rows[1..], k);
      }
    }
  }

  // ---------------------------------------------------------------------------
  // Names

  /** The ids the names rows mention. */
  function NameIds(rows: seq<NameRow>): set<string>
    decreases |rows|
  {
    if rows == [] then {} else {rows[0].chebiId} + NameIds(rows[1..])
  }

  /** One synonym per row, each belonging to the chemical `cache` holds for the row's id. */
  function SynonymsFor(cache: map<string, Handle>, rows: seq<NameRow>): (r: seq<Synonym>)
    requires NameIds(rows) <= cache.Keys
    ensures |r| == |rows|
    ensures forall i | 0 <= i < |rows| :: rows[i].chebiId in cache && r[i] == NewSynonym(cache[rows[i].chebiId], rows[i])
    decreases |rows|
  {
    if rows == [] then [] else [NewSynonym(cache[rows[0].chebiId], rows[0])] + SynonymsFor(cache, rows[1..])
  }

  /** One iteration of `_populate_names`: one synonym appended for the resolved chemical. */
  lemma NameStepFrame(db: Db, row: NameRow)
    requires InRange(db)
    ensures var h, r := Resolve(db, row.chebiId).1, NameStep(db, row);
      && r.store == db.store && r.accessions == db.accessions
      && r.cache == db.cache[row.chebiId := h]
      && r.synonyms == db.synonyms + [NewSynonym(h, row)]
  {
    var res := Resolve(db, row.chebiId);
    var db1, h := res.0, res.1;
    AddFrame(db1.(synonyms := db1.synonyms + [NewSynonym(h, row)]), h);
  }

  /** One iteration of `_populate_names` keeps lookups coherent. */
  lemma NameStepCoherent(db: Db, row: NameRow)
    requires Coherent(db)
    ensures Coherent(NameStep(db, row))
  {
    ResolveCoherent(db, row.chebiId);
    var res := Resolve(db, row.chebiId);
    var db1, h := res.0, res.1;
    AddCoherent(db1.(synonyms := db1.synonyms + [NewSynonym(h, row)]), h);
  }

  /** One iteration of `_populate_names` changes no chemical but in its key. */
  lemma NameStepObjects(db: Db, row: NameRow)
    requires InRange(db)
    ensures var r := NameStep(db, row);
      && |db.objects| <= |r.objects|
      && (forall g | 0 <= g < |db.objects| :: r.objects[g].(key := db.objects[g].key) == db.objects[g])
  {
    var res := Resolve(db, row.chebiId);
    var db1, h := res.0, res.1;
    AddFrame(db1.(synonyms := db1.synonyms + [NewSynonym(h, row)]), h);
  }

  /** The cache grows by the mentioned ids only, existing entries never change, and the store and accessions stay. */
  lemma {:induction false} AddNamesCache(db: Db, rows: seq<NameRow>)
    requires InRange(db)
    ensures var r := AddNames(db, rows);
      && r.store == db.store && r.accessions == db.accessions
      && (forall k | k in db.cache :: k in r.cache && r.cache[k] == db.cache[k])
      && (forall k | k in r.cache :: k in db.cache || k in NameIds(rows))
      && NameIds(rows) <= r.cache.Keys
    decreases |rows|
  {
    if rows != [] {
      NameStepFrame(db, rows[0]);
      AddNamesCache(NameStep(db, rows[0]), rows[1..]);
    }
  }

  lemma {:induction false} AddNamesCoherent(db: Db, rows: seq<NameRow>)
    requires Coherent(db)
    ensures Coherent(AddNames(db, rows))
    decreases |rows|
  {
    if rows != [] {
      NameStepCoherent(db, rows[0]);
      AddNamesCoherent(NameStep(db, rows[0]), rows[1..]);
    }
  }

  /**
   * `_populate_names` appends exactly one synonym per row, in row order, each
   * belonging to the chemical the manager caches for the row's id; nothing
   * is deduplicated.
   */
  lemma {:induction false} AddNamesEffect(db: Db, rows: seq<NameRow>)
    requires InRange(db)
    ensures var r := AddNames(db, rows);
      && NameIds(rows) <= r.cache.Keys
      && r.synonyms == db.synonyms + SynonymsFor(r.cache, rows)
    decreases |rows|
  {
    AddNamesCache(db, rows);
    if rows != [] {
      var db1 := NameStep(db, rows[0]);
      var r := AddNames(db, rows);
      NameStepFrame(db, rows[0]);
      AddNamesCache(db1, rows[1..]);
      AddNamesEffect(db1, rows[1..]);
      assert r.cache[rows[0].chebiId] == db1.cache[rows[0].chebiId];
      AppendAssoc(db.synonyms, [NewSynonym(r.cache[rows[0].chebiId], rows[0])], SynonymsFor(r.cache, rows[1..]));
    }
  }

  /** The owner of the synonym built from row `i` is a chemical with that row's chebi_id. */
  lemma AddNamesOwner(db: Db, rows: seq<NameRow>, i: nat)
    requires Coherent(db) && i < |rows|
    ensures var r := AddNames(db, rows);
      && |db.synonyms| + i < |r.synonyms|
      && var s := r.synonyms[|db.synonyms| + i];
         rows[i].chebiId in r.cache && s.chemical == r.cache[rows[i].chebiId]
         && s.chemical < |r.objects| && r.objects[s.chemical].chebiId == rows[i].chebiId
  {
    AddNamesEffect(db, rows);
    AddNamesCoherent(db, rows);
    var r := AddNames(db, rows);
    assert r.synonyms[|db.synonyms| + i] == SynonymsFor(r.cache, rows)[i];
  }

  /** `_populate_names` changes no existing chemical but in its key. */
  lemma {:induction false} AddNamesUntouched(db: Db, rows: seq<NameRow>)
    requires InRange(db)
    ensures var r := AddNames(db, rows);
      && |db.objects| <= |r.objects|
      && (forall g | 0 <= g < |db.objects| :: r.objects[g].(key := db.objects[g].key) == db.objects[g])
    decreases |rows|
  {
    if rows != [] {
      NameStepObjects(db, rows[0]);
      AddNamesUntouched(NameStep(db, rows[0]), rows[1..]);
    }
  }

  /** When every mentioned id is already cached, the cache does not change. */
  lemma AddNamesKnown(db: Db, rows: seq<NameRow>)
    requires InRange(db) && NameIds(rows) <= db.cache.Keys
    ensures AddNames(db, rows).cache == db.cache
  {
    AddNamesCache(db, rows);
  }

  /**
   * Loading the same names twice stores every synonym twice: the second pass
   * finds every id in the cache and appends the same records again.
   */
  lemma NamesTwice(db: Db, rows: seq<NameRow>)
    requires InRange(db)
    ensures var r1 := AddNames(db, rows);
      && NameIds(rows) <= r1.cache.Keys
      && AddNames(r1, rows).synonyms == db.synonyms + SynonymsFor(r1.cache, rows) + SynonymsFor(r1.cache, rows)
      && |AddNames(r1, rows).synonyms| == |db.synonyms| + 2 * |rows|
  {
    var r1 := AddNames(db, rows);
    AddNamesEffect(db, rows);
    AddNamesKnown(r1, rows);
    AddNamesEffect(r1, rows);
  }

  // ---------------------------------------------------------------------------
  // Accessions

  /** The ids the accession rows mention. */
  function AccessionIds(rows: seq<AccessionRow>): set<string>
    decreases |rows|
  {
    if rows == [] then {} else {rows[0].chebiId} + AccessionIds(rows[1..])
  }

  /** One accession per row, each belonging to the chemical `cache` holds for the row's id. */
  function AccessionsFor(cache: map<string, Handle>, rows: seq<AccessionRow>): (r: seq<Accession>)
    requires AccessionIds(rows) <= cache.Keys
    ensures |r| == |rows|
    ensures forall i | 0 <= i < |rows| :: rows[i].chebiId in cache && r[i] == NewAccession(cache[rows[i].chebiId], rows[i])
    decreases |rows|
  {
    if rows == [] then [] else [NewAccession(cache[rows[0].chebiId], rows[0])] + AccessionsFor(cache, rows[1..])
  }

  /** One iteration of `_populate_accession`: one accession appended for the resolved chemical. */
  lemma AccessionStepFrame(db: Db, row: AccessionRow)
    requires InRange(db)
    ensures var h, r := Resolve(db, row.chebiId).1, AccessionStep(db, row);
      && r.store == db.store && r.synonyms == db.synonyms 
      && r.cache == db.cache[row.chebiId := h]
      && r.accessions == db.accessions + [NewAccession(h, row)]
  {
    var res := Resolve(db, row.chebiId);
    var db1, h := res.0, res.1;
    AddFrame(db1.(accessions := db1.accessions + [NewAccession(h, row)]), h);
  }

  /** One iteration of `_populate_accession` keeps lookups coherent. */
  lemma AccessionStepCoherent(db: Db, row: AccessionRow)
    requires Coherent(db)
    ensures Coherent(AccessionStep(db, row))
  {
    ResolveCoherent(db, row.chebiId);
    var res := Resolve(db, row.chebiId);
    var db1, h := res.0, res.1;
    AddCoherent(db1.(accessions := db1.accessions + [NewAccession(h, row)]), h);
  }

  /** One iteration of `_populate_accession` changes no chemical but in its key. */
  lemma AccessionStepObjects(db: Db, row: AccessionRow)
    requires InRange(db)
    ensures var r := AccessionStep(db, row);
      && |db.objects| <= |r.objects|
      && (forall g | 0 <= g < |db.objects| :: r.objects[g].(key := db.objects[g].key) == db.objects[g])
  {
    var res := Resolve(db, row.chebiId);
    var db1, h := res.0, res.1;
    AddFrame(db1.(accessions := db1.accessions + [NewAccession(h, row)]), h);
  }

  /** The cache grows by the mentioned ids only, existing entries never change, and the store and synonyms stay. */
  lemma {:induction false} AddAccessionsCache(db: Db, rows: seq<AccessionRow>)
    requires InRange(db)
    ensures var r := AddAccessions(db, rows);
      && r.store == db.store && r.synonyms == db.synonyms 
      && (forall k | k in db.cache :: k in r.cache && r.cache[k] == db.cache[k])
      && (forall k | k in r.cache :: k in db.cache || k in AccessionIds(rows))
      && AccessionIds(rows) <= r.cache.Keys
    decreases |rows|
  {
    if rows != [] {
      AccessionStepFrame(db, rows[0]);
      AddAccessionsCache(AccessionStep(db, rows[0]), rows[1..]);
    }
  }

  lemma {:induction false} AddAccessionsCoherent(db: Db, rows: seq<AccessionRow>)
    requires Coherent(db)
    ensures Coherent(AddAccessions(db, rows))
    decreases |rows|
  {
    if rows != [] {
      AccessionStepCoherent(db, rows[0]);
      AddAccessionsCoherent(AccessionStep(db, rows[0]), rows[1..]);
    }
  }

  /**
   * `_populate_accession` appends exactly one accession per row, in row order,
   * belonging to the chemical the manager caches for the row's id; nothing
   * is deduplicated.
   */
  lemma {:induction false} AddAccessionsEffect(db: Db, rows: seq<AccessionRow>)
    requires InRange(db)
    ensures var r := AddAccessions(db, rows);
      && AccessionIds(rows) <= r.cache.Keys
      && r.accessions == db.accessions + AccessionsFor(r.cache, rows)
    decreases |rows|
  {
    AddAccessionsCache(db, rows);
    if rows != [] {
      var db1 := AccessionStep(db, rows[0]);
      var r := AddAccessions(db, rows);
      AccessionStepFrame(db, rows[0]);
      AddAccessionsCache(db1, rows[1..]);
      AddAccessionsEffect(db1, rows[1..]);
      assert r.cache[rows[0].chebiId] == db1.cache[rows[0].chebiId];
      AppendAssoc(db.accessions, [NewAccession(r.cache[rows[0].chebiId], rows[0])], AccessionsFor(r.cache, rows[1..]));
    }
  }

  /** The owner of the accession built from row `i` is a chemical with that row's chebi_id. */
  lemma AddAccessionsOwner(db: Db, rows: seq<AccessionRow>, i: nat)
    requires Coherent(db) && i < |rows|
    ensures var r := AddAccessions(db, rows);
      && |db.accessions| + i < |r.accessions|
      && var s := r.accessions[|db.accessions| + i];
         rows[i].chebiId in r.cache && s.chemical == r.cache[rows[i].chebiId]
         && s.chemical < |r.objects| && r.objects[s.chemical].chebiId == rows[i].chebiId
  {
    AddAccessionsEffect(db, rows);
    AddAccessionsCoherent(db, rows);
    var r := AddAccessions(db, rows);
    assert r.accessions[|db.accessions| + i] == AccessionsFor(r.cache, rows)[i];
  }

  /** `_populate_accession` changes no existing chemical but in its key. */
  lemma {:induction false} AddAccessionsUntouched(db: Db, rows: seq<AccessionRow>)
    requires InRange(db)
    ensures var r := AddAccessions(db, rows);
      && |db.objects| <= |r.objects|
      && (forall g | 0 <= g < |db.objects| :: r.objects[g].(key := db.objects[g].key) == db.objects[g])
    decreases |rows|
  {
    if rows != [] {
      AccessionStepObjects(db, rows[0]);
      AddAccessionsUntouched(AccessionStep(db, rows[0]), rows[1..]);
    }
  }

  /** When every mentioned id is already cached, the cache does not change. */
  lemma AddAccessionsKnown(db: Db, rows: seq<AccessionRow>)
    requires InRange(db) && AccessionIds(rows) <= db.cache.Keys
    ensures AddAccessions(db, rows).cache == db.cache
  {
    AddAccessionsCache(db, rows);
  }

  /**
   * Loading the same accessions twice stores every accession twice: the second
   * finds every id in the cache and appends the same records again.
   */
  lemma AccessionsTwice(db: Db, rows: seq<AccessionRow>)
    requires InRange(db)
    ensures var r1 := AddAccessions(db, rows);
      && AccessionIds(rows) <= r1.cache.Keys
      && AddAccessions(r1, rows).accessions == db.accessions + AccessionsFor(r1.cache, rows) + AccessionsFor(r1.cache, rows)
      && |AddAccessions(r1, rows).accessions| == |db.accessions| + 2 * |rows|
  {
    var r1 := AddAccessions(db, rows);
    AddAccessionsEffect(db, rows);
    AddAccessionsKnown(r1, rows);
    AddAccessionsEffect(r1, rows);
  }
}

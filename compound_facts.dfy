/** What `_populate_compounds` does: one new chemical per row, or an error and no change. */
module CompoundFacts {
  import opened Wrappers
  import opened Models
  import opened Session
  import opened SessionFacts
  import PyStrings

  /** `split(':')[1]` succeeds exactly when the accession contains a colon. */
  lemma ChebiIdOfColon(accession: string)
    ensures ChebiIdOf(accession).Ok? <==> ':' in accession
  {
    PyStrings.SplitHasSecondField(accession, ':');
  }

  /** A qualified accession `CHEBI:<id>` yields `<id>` (`"CHEBI:38545"` gives `"38545"`). */
  lemma ChebiIdOfPrefixed(chebiId: string)
    requires ':' !in chebiId
    ensures ChebiIdOf("CHEBI:" + chebiId) == Ok(chebiId)
  {
    assert "CHEBI:" + chebiId == "CHEBI" + [':'] + chebiId;
    PyStrings.SplitAfterHead("CHEBI", ':', chebiId);
    PyStrings.SplitNoSeparator(chebiId, ':');
  }

  /** The compounds loader strips what `Accession.__str__` writes: source, ':', accession number. */
  lemma ChebiIdOfAccessionStr(a: Accession)
    requires a.source == Some("CHEBI") && a.accession.Some? && ':' !in a.accession.value
    ensures ChebiIdOf(a.Str()) == Ok(a.accession.value)
  {
    assert a.Str() == "CHEBI:" + a.accession.value;
    ChebiIdOfPrefixed(a.accession.value);
  }

  predicate AllParse(rows: seq<CompoundRow>)
  {
    forall i | 0 <= i < |rows| :: ChebiIdOf(rows[i].chebiAccession).Ok?
  }

  function ParsedId(row: CompoundRow): string
    requires ChebiIdOf(row.chebiAccession).Ok?
  {
    ChebiIdOf(row.chebiAccession).value
  }

  /** The chemical a parsed row becomes once it has been given primary key `key`. */
  function CompoundAt(row: CompoundRow, key: int): Chemical
    requires ChebiIdOf(row.chebiAccession).Ok?
  {
    NewCompound(row, ParsedId(row)).(key := Some(key))
  }

  /** The chemicals built from `rows`, keyed consecutively from `key`. */
  function NewCompounds(rows: seq<CompoundRow>, key: int): (r: seq<Chemical>)
    requires AllParse(rows)
    ensures |r| == |rows|
    decreases |rows|
  {
    if rows == [] then [] else [CompoundAt(rows[0], key)] + NewCompounds(rows[1..], key + 1)
  }

  lemma {:induction false} NewCompoundsAt(rows: seq<CompoundRow>, key: int, i: nat)
    requires AllParse(rows) && i < |rows|
    ensures NewCompounds(rows, key)[i] == CompoundAt(rows[i], key + i)
    decreases |rows|
  {
    if i > 0 {
      NewCompoundsAt(rows[1..], key + 1, i - 1);
    }
  }

  /** The handles `lo`, `lo + 1`, ..., `lo + n - 1`. */
  function Handles(lo: nat, n: nat): (r: seq<Handle>)
    ensures |r| == n
    ensures forall i | 0 <= i < n :: r[i] == lo + i
    decreases n
  {
    if n == 0 then [] else [lo] + Handles(lo + 1, n - 1)
  }

  /** The parsed ids are new to the committed table and pairwise distinct. */
  ghost predicate FreshDistinct(db: Db, rows: seq<CompoundRow>)
    requires AllParse(rows)
  {
    && (forall i | 0 <= i < |rows| :: ParsedId(rows[i]) !in db.store)
    && (forall i, j | 0 <= i < j < |rows| :: ParsedId(rows[i]) != ParsedId(rows[j]))
  }

  /** One iteration of `_populate_compounds`. */
  lemma CompoundStepEffect(db: Db, row: CompoundRow)
    ensures CompoundStep(db, row) ==
      if ChebiIdOf(row.chebiAccession).Ok? then
        Ok(db.(objects := db.objects + [CompoundAt(row, db.nextKey)],
               pending := db.pending + [|db.objects|],
               nextKey := db.nextKey + 1))
      else Err(IndexError)
  {
    if ChebiIdOf(row.chebiAccession).Ok? {
      var db0 := db.(objects := db.objects + [NewCompound(row, ParsedId(row))]);
      assert db0.objects[|db.objects| := CompoundAt(row, db.nextKey)] == db.objects + [CompoundAt(row, db.nextKey)];
    }
  }

  /** The loop of `_populate_compounds` fails, with IndexError, exactly when some accession has no colon. */
  lemma {:induction false} AddCompoundsOutcome(db: Db, rows: seq<CompoundRow>)
    ensures AddCompounds(db, rows).Ok? <==> AllParse(rows)
    ensures AddCompounds(db, rows).Err? ==> AddCompounds(db, rows).error == IndexError
    decreases |rows|
  {
    if rows != [] {
      CompoundStepEffect(db, rows[0]);
      if ChebiIdOf(rows[0].chebiAccession).Ok? {
        AddCompoundsOutcome(CompoundStep(db, rows[0]).value, rows[1..]);
        assert AllParse(rows) <==> AllParse(rows[1..]) by {
          assert forall i | 0 <= i < |rows[1..]| :: rows[1..][i] == rows[i + 1];
        }
      }
    }
  }

  /** The session after the loop of `_populate_compounds` has read parsed `rows`. */
  function Appended(db: Db, rows: seq<CompoundRow>): Db
    requires AllParse(rows)
  {
    db.(objects := db.objects + NewCompounds(rows, db.nextKey),
        pending := db.pending + Handles(|db.objects|, |rows|),
        nextKey := db.nextKey + |rows|)
  }

  /**
   * When every accession parses, the loop of `_populate_compounds` appends one
   * keyed chemical per row, in row order, and adds it to the session. The
   * cache, the committed table and the other tables are untouched.
   */
  lemma {:induction false} AddCompoundsEffect(db: Db, rows: seq<CompoundRow>)
    requires AllParse(rows)
    ensures AddCompounds(db, rows) == Ok(Appended(db, rows))
    decreases |rows|
  {
    if rows != [] {
      AppendedStep(db, rows);
      AddCompoundsEffect(CompoundStep(db, rows[0]).value, rows[1..]);
    } else {
      assert db.objects + NewCompounds(rows, db.nextKey) == db.objects;
      assert db.pending + Handles(|db.objects|, 0) == db.pending;
    }
  }

  /** Reading one more parsed row is one more step of the loop. */
  lemma AppendedStep(db: Db, rows: seq<CompoundRow>)
    requires AllParse(rows) && rows != []
    ensures AllParse(rows[1..])
    ensures CompoundStep(db, rows[0]).Ok?
    ensures AddCompounds(db, rows) == AddCompounds(CompoundStep(db, rows[0]).value, rows[1..])
    ensures Appended(db, rows) == Appended(CompoundStep(db, rows[0]).value, rows[1..])
  {
    assert forall i | 0 <= i < |rows[1..]| :: rows[1..][i] == rows[i + 1];
    CompoundStepEffect(db, rows[0]);
    AppendedCons(db, rows);
  }

  lemma AppendedCons(db: Db, rows: seq<CompoundRow>)
    requires AllParse(rows) && rows != [] && AllParse(rows[1..])
    ensures Appended(db, rows) == Appended(
      db.(objects := db.objects + [CompoundAt(rows[0], db.nextKey)],
          pending := db.pending + [|db.objects|],
          nextKey := db.nextKey + 1),
      rows[1..])
  {
    var head, tail, k := rows[0], rows[1..], db.nextKey;
    assert NewCompounds(rows, k) == [CompoundAt(head, k)] + NewCompounds(tail, k + 1);
    AppendAssoc(db.objects, [CompoundAt(head, k)], NewCompounds(tail, k + 1));
    assert Handles(|db.objects|, |rows|) == [|db.objects|] + Handles(|db.objects| + 1, |tail|);
    AppendAssoc(db.pending, [|db.objects|], Handles(|db.objects| + 1, |tail|));
  }

  /** The loop of `_populate_compounds` keeps the session invariant. */
  lemma {:induction false} AddCompoundsValid(db: Db, rows: seq<CompoundRow>)
    requires Valid(db)
    ensures AddCompounds(db, rows).Ok? ==> Valid(AddCompounds(db, rows).value)
    decreases |rows|
  {
    if rows != [] {
      match ChebiIdOf(rows[0].chebiAccession)
      case Err(_) =>
      case Ok(chebiId) =>
        var db0 := db.(objects := db.objects + [NewCompound(rows[0], chebiId)]);
        AppendValid(db, NewCompound(rows[0], chebiId));
        AddValid(db0, |db.objects|);
        AddCompoundsValid(Add(db0, |db.objects|), rows[1..]);
    }
  }

  /** The `i`-th chemical the loop adds is the `i`-th pending one, built from the `i`-th row. */
  lemma AppendedAt(db: Db, rows: seq<CompoundRow>, i: nat)
    requires AllParse(rows) && i < |rows|
    ensures var t := Appended(db, rows);
      && |t.pending| == |db.pending| + |rows| && t.pending[|db.pending| + i] == |db.objects| + i
      && |t.objects| == |db.objects| + |rows|
      && t.objects[|db.objects| + i] == CompoundAt(rows[i], db.nextKey + i)
  {
    NewCompoundsAt(rows, db.nextKey, i);
  }

  /** The loop's pending chemicals can be inserted exactly when their parsed ids are fresh and distinct. */
  lemma AppendedUnique(db: Db, rows: seq<CompoundRow>)
    requires db.pending == [] && AllParse(rows) && InRange(Appended(db, rows))
    ensures UniqueInserts(Appended(db, rows)) <==> FreshDistinct(db, rows)
  {
    var t := Appended(db, rows);
    forall i | 0 <= i < |rows| ensures t.objects[t.pending[i]].chebiId == ParsedId(rows[i]) {
      AppendedAt(db, rows, i);
    }
  }

  /**
   * `_populate_compounds` on a settled session fails with IndexError exactly
   * when some accession has no colon, and otherwise with IntegrityError
   * exactly when a parsed id is already committed or repeated among the rows.
   * Whether parent ids name existing chemicals plays no part.
   */
  lemma LoadCompoundsOutcome(db: Db, rows: seq<CompoundRow>)
    requires InRange(db) && db.pending == []
    ensures !AllParse(rows) ==> LoadCompounds(db, rows) == Err(IndexError)
    ensures AllParse(rows) ==> (LoadCompounds(db, rows).Ok? <==> FreshDistinct(db, rows))
    ensures AllParse(rows) && !FreshDistinct(db, rows) ==> LoadCompounds(db, rows) == Err(IntegrityError)
  {
    AddCompoundsOutcome(db, rows);
    if AllParse(rows) {
      AddCompoundsEffect(db, rows);
      AppendedUnique(db, rows);
    }
  }

  /** A successful `_populate_compounds` is the loop followed by inserting every new chemical. */
  lemma LoadCompoundsCommitted(db: Db, rows: seq<CompoundRow>)
    requires InRange(db) && LoadCompounds(db, rows).Ok?
    ensures AllParse(rows)
    ensures var t := Appended(db, rows);
      && InRange(t) && UniqueInserts(t)
      && LoadCompounds(db, rows).value == t.(store := Insert(t.store, t.objects, t.pending), pending := [])
  {
    AddCompoundsOutcome(db, rows);
    AddCompoundsEffect(db, rows);
  }

  /**
   * A successful `_populate_compounds` on a settled session commits one new
   * chemical per row, in row order; previously committed ids keep their rows,
   * every newly committed id belongs to one of the new chemicals, and the
   * cache and the other tables do not change.
   */
  lemma LoadCompoundsEffect(db: Db, rows: seq<CompoundRow>)
    requires InRange(db) && db.pending == [] && LoadCompounds(db, rows).Ok?
    ensures AllParse(rows)
    ensures var r := LoadCompounds(db, rows).value;
      && r.pending == [] && r.nextKey == db.nextKey + |rows|
      && r.objects == db.objects + NewCompounds(rows, db.nextKey)
      && (forall k | k in db.store :: k in r.store && r.store[k] == db.store[k])
      && (forall k | k in r.store && k !in db.store :: r.store[k] >= |db.objects|)
      && r.cache == db.cache && r.synonyms == db.synonyms && r.accessions == db.accessions
  {
    LoadCompoundsCommitted(db, rows);
    var t := Appended(db, rows);
    InsertEffect(t.store, t.objects, t.pending);
  }

  /** The table that committing the loop's chemicals produces maps the `i`-th parsed id to the `i`-th new chemical. */
  lemma CommittedAt(db: Db, rows: seq<CompoundRow>, i: nat)
    requires db.pending == [] && AllParse(rows) && i < |rows|
    requires InRange(Appended(db, rows)) && UniqueInserts(Appended(db, rows))
    ensures var t := Appended(db, rows);
      Find(t.(store := Insert(t.store, t.objects, t.pending), pending := []), ParsedId(rows[i])) == Some(|db.objects| + i)
  {
    var t := Appended(db, rows);
    AppendedAt(db, rows, i);
    InsertedAt(t.store, t.objects, t.pending, i);
  }

  /** After a successful `_populate_compounds`, `get_chemical_by_chebi_id` finds the `i`-th row's chemical. */
  lemma LoadedCompoundFound(db: Db, rows: seq<CompoundRow>, i: nat)
    requires InRange(db) && db.pending == [] && LoadCompounds(db, rows).Ok? && i < |rows|
    ensures AllParse(rows)
    ensures Find(LoadCompounds(db, rows).value, ParsedId(rows[i])) == Some(|db.objects| + i)
  {
    LoadCompoundsCommitted(db, rows);
    CommittedAt(db, rows, i);
  }

  /** `_populate_compounds` keeps the session invariant. */
  lemma LoadCompoundsValid(db: Db, rows: seq<CompoundRow>)
    requires Valid(db) && LoadCompounds(db, rows).Ok?
    ensures Valid(LoadCompounds(db, rows).value)
  {
    AddCompoundsValid(db, rows);
    CommitValid(AddCompounds(db, rows).value);
  }

  /** A row's committed chemical carries the row's columns, the source column excepted. */
  lemma LoadedCompoundColumns(db: Db, rows: seq<CompoundRow>, i: nat)
    requires InRange(db) && LoadCompounds(db, rows).Ok? && i < |rows|
    ensures AllParse(rows)
    ensures var r := LoadCompounds(db, rows).value;
      && |db.objects| + i < |r.objects|
      && var c := r.objects[|db.objects| + i];
      && c.chebiId == ParsedId(rows[i]) && c.status == rows[i].status && c.parentId == rows[i].parentId
      && c.name == rows[i].name && c.definition == rows[i].definition
      && c.source.None? && c.inchi.None? && c.key == Some(db.nextKey + i)
  {
    LoadCompoundsCommitted(db, rows);
    AppendedAt(db, rows, i);
  }
}

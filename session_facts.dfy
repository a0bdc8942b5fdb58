/**
 * Properties of the session operations: the session invariant is kept by
 * every operation, the identity resolver's precedence and idempotence, and
 * what a commit does to the committed table.
 */
module SessionFacts {
  import opened Wrappers
  import opened Models
  import opened Session

  /** The empty database satisfies the session invariant. */
  lemma EmptyValid()
    ensures Valid(Empty) && Empty.pending == []
  {
  }

  /**
   * The committed table holds at most one chemical per chebi_id: two
   * committed objects with the same chebi_id are the same object.
   */
  lemma UniqueChebiId(db: Db, g: Handle, h: Handle)
    requires Valid(db)
    requires g < |db.objects| && h < |db.objects| && Stored(db, g) && Stored(db, h)
    requires db.objects[g].chebiId == db.objects[h].chebiId
    ensures g == h
  {
  }

  /**
   * `get_chemical_by_chebi_id` returns an object exactly when it is the
   * committed row with that chebi_id; otherwise None.
   */
  lemma FindExact(db: Db, chebiId: string, h: Handle)
    requires Valid(db)
    ensures Find(db, chebiId) == Some(h) <==>
      h < |db.objects| && Stored(db, h) && db.objects[h].chebiId == chebiId
  {
  }

  /**
   * The chemicals a chemical's `parent` relationship can denote: committed
   * rows whose primary key equals its parent_id.
   */
  ghost function Parents(db: Db, h: Handle): set<Handle>
    requires h < |db.objects|
  {
    set g | 0 <= g < |db.objects| && Stored(db, g) && db.objects[h].parentId.Some?
                && db.objects[g].key == db.objects[h].parentId
  }

  /** Primary keys are distinct, so the parent relationship denotes at most one chemical. */
  lemma AtMostOneParent(db: Db, h: Handle)
    requires Valid(db) && h < |db.objects|
    ensures |Parents(db, h)| <= 1
  {
    var ps := Parents(db, h);
    if ps != {} {
      var a :| a in ps;
      assert ps == {a};
    }
  }

  /** `session.add` keeps the session invariant and leaves the object in the session. */
  lemma AddValid(db: Db, h: Handle)
    requires Valid(db) && h < |db.objects|
    ensures Valid(Add(db, h))
    ensures Add(db, h).store == db.store && Add(db, h).cache == db.cache
    ensures Add(db, h).synonyms == db.synonyms && Add(db, h).accessions == db.accessions
    ensures db.objects[h].key.None? ==> Add(db, h).pending == db.pending + [h]
    ensures db.objects[h].key.None? ==> Add(db, h).objects[h].key == Some(db.nextKey) && Add(db, h).nextKey == db.nextKey + 1
    ensures db.objects[h].key.Some? ==> Add(db, h) == db
    ensures forall g | 0 <= g < |db.objects| && g != h :: Add(db, h).objects[g] == db.objects[g]
    ensures Add(db, h).objects[h].(key := db.objects[h].key) == db.objects[h]
  {
    if db.objects[h].key.None? {
      AddNewValid(db, h);
    }
  }

  /** `session.add` touches nothing but the key of the added object and the pending list. */
  lemma AddFrame(db: Db, h: Handle)
    requires h < |db.objects|
    ensures var r := Add(db, h);
      && r.store == db.store && r.cache == db.cache
      && r.synonyms == db.synonyms && r.accessions == db.accessions
      && |r.objects| == |db.objects|
      && (forall g | 0 <= g < |db.objects| && g != h :: r.objects[g] == db.objects[g])
      && r.objects[h].(key := db.objects[h].key) == db.objects[h]
  {
  }

  /** Adding an object that is not yet in the session keeps the session invariant. */
  lemma AddNewValid(db: Db, h: Handle)
    requires Valid(db) && h < |db.objects| && db.objects[h].key.None?
    ensures Valid(Add(db, h))
  {
    var r := Add(db, h);
    AddStored(db, h);
    assert !Stored(db, h) && h !in db.pending;
    forall g | 0 <= g < |r.objects|
      ensures r.objects[g].key.Some? <==> Stored(r, g) || g in r.pending
    {
      assert Stored(r, g) == Stored(db, g);
    }
    forall i | 0 <= i < |r.pending|
      ensures !Stored(r, r.pending[i])
    {
      if i < |db.pending| {
        assert r.pending[i] == db.pending[i];
      }
    }
  }

  /** `session.add` changes no chebi_id, so it changes which objects are committed in no way. */
  lemma AddStored(db: Db, h: Handle)
    requires InRange(db) && h < |db.objects|
    ensures forall g | 0 <= g < |db.objects| :: Add(db, h).objects[g].chebiId == db.objects[g].chebiId
    ensures forall g | 0 <= g < |db.objects| :: Stored(Add(db, h), g) == Stored(db, g)
  {
  }

  /** Appending a new object that is not in the session keeps the session invariant. */
  lemma AppendValid(db: Db, c: Chemical)
    requires Valid(db) && c.key.None?
    ensures Valid(db.(objects := db.objects + [c]))
  {
    var db1 := db.(objects := db.objects + [c]);
    AppendStored(db, c);
    forall g | 0 <= g < |db1.objects|
      ensures db1.objects[g].key.Some? <==> Stored(db1, g) || g in db1.pending
    {
      if g < |db.objects| {
        assert Stored(db1, g) == Stored(db, g);
      }
    }
  }

  /** Appending an object leaves the existing objects, and which of them are committed, as they were. */
  lemma AppendStored(db: Db, c: Chemical)
    requires InRange(db)
    ensures InRange(db.(objects := db.objects + [c]))
    ensures forall g | 0 <= g < |db.objects| :: (db.objects + [c])[g] == db.objects[g]
    ensures forall g | 0 <= g < |db.objects| :: Stored(db.(objects := db.objects + [c]), g) == Stored(db, g)
    ensures !Stored(db.(objects := db.objects + [c]), |db.objects|)
  {
  }

  /** Caching an object under its own chebi_id keeps the session invariant. */
  lemma CacheValid(db: Db, chebiId: string, h: Handle)
    requires Valid(db) && h < |db.objects| && db.objects[h].chebiId == chebiId
    ensures Valid(db.(cache := db.cache[chebiId := h]))
  {
  }

  /** Changing a column other than chebi_id and the key keeps the session invariant. */
  lemma UpdateValid(db: Db, h: Handle, c: Chemical)
    requires Valid(db) && h < |db.objects|
    requires c.chebiId == db.objects[h].chebiId && c.key == db.objects[h].key
    ensures Valid(db.(objects := db.objects[h := c]))
  {
    UpdateStored(db, h, c);
  }

  /** Such a change keeps every chebi_id and key, so which objects are committed stays the same. */
  lemma UpdateStored(db: Db, h: Handle, c: Chemical)
    requires InRange(db) && h < |db.objects|
    requires c.chebiId == db.objects[h].chebiId && c.key == db.objects[h].key
    ensures InRange(db.(objects := db.objects[h := c]))
    ensures forall g | 0 <= g < |db.objects| :: db.objects[h := c][g].chebiId == db.objects[g].chebiId
    ensures forall g | 0 <= g < |db.objects| :: db.objects[h := c][g].key == db.objects[g].key
    ensures forall g | 0 <= g < |db.objects| :: Stored(db.(objects := db.objects[h := c]), g) == Stored(db, g)
  {
  }

  /**
   * `get_or_create_chemical` keeps the session invariant, returns an object
   * whose chebi_id is the argument, and never touches the committed table,
   * the pending list or the keys.
   */
  lemma ResolveValid(db: Db, chebiId: string)
    requires Valid(db)
    ensures Valid(Resolve(db, chebiId).0)
    ensures Resolve(db, chebiId).0.objects[Resolve(db, chebiId).1].chebiId == chebiId
    ensures Resolve(db, chebiId).0.objects[..|db.objects|] == db.objects
  {
    if chebiId !in db.cache && chebiId !in db.store {
      var db1 := db.(objects := db.objects + [NewChemical(chebiId)]);
      AppendValid(db, NewChemical(chebiId));
      CacheValid(db1, chebiId, |db.objects|);
    } else if chebiId !in db.cache {
      CacheValid(db, chebiId, db.store[chebiId]);
    }
  }

  /** A second `get_or_create_chemical` for the same id returns the same object and changes nothing. */
  lemma ResolveTwice(db: Db, chebiId: string)
    requires InRange(db)
    ensures Resolve(Resolve(db, chebiId).0, chebiId) == Resolve(db, chebiId)
  {
  }

  /** What inserting the pending rows does to the committed table. */
  lemma {:induction false} InsertEffect(store: map<string, Handle>, objects: seq<Chemical>, hs: seq<Handle>)
    requires forall i | 0 <= i < |hs| :: hs[i] < |objects|
    requires forall i | 0 <= i < |hs| :: objects[hs[i]].chebiId !in store
    requires forall i, j | 0 <= i < j < |hs| :: objects[hs[i]].chebiId != objects[hs[j]].chebiId
    ensures forall k | k in store :: k in Insert(store, objects, hs) && Insert(store, objects, hs)[k] == store[k]
    ensures forall i | 0 <= i < |hs| ::
      objects[hs[i]].chebiId in Insert(store, objects, hs) && Insert(store, objects, hs)[objects[hs[i]].chebiId] == hs[i]
    ensures forall k | k in Insert(store, objects, hs) && k !in store ::
      Insert(store, objects, hs)[k] in hs && objects[Insert(store, objects, hs)[k]].chebiId == k
    decreases |hs|
  {
    if hs != [] {
      var store1 := store[objects[hs[0]].chebiId := hs[0]];
      var rest := hs[1..];
      forall i | 0 <= i < |rest| ensures objects[rest[i]].chebiId !in store1 {
        assert rest[i] == hs[i + 1];
      }
      forall i, j | 0 <= i < j < |rest| ensures objects[rest[i]].chebiId != objects[rest[j]].chebiId {
        assert rest[i] == hs[i + 1] && rest[j] == hs[j + 1];
      }
      InsertEffect(store1, objects, rest);
      var r := Insert(store, objects, hs);
      assert r == Insert(store1, objects, rest);
      forall i | 0 <= i < |hs| ensures objects[hs[i]].chebiId in r && r[objects[hs[i]].chebiId] == hs[i] {
        if i > 0 {
          assert hs[i] == rest[i - 1];
        }
      }
      forall k | k in r && k !in store ensures r[k] in hs && objects[r[k]].chebiId == k {
        if k !in store1 {
          var h := r[k];
          assert h in rest;
          var i :| 0 <= i < |rest| && rest[i] == h;
          assert hs[i + 1] == h;
        }
      }
    }
  }

  /** The `i`-th inserted row is found under its chebi_id. */
  lemma InsertedAt(store: map<string, Handle>, objects: seq<Chemical>, hs: seq<Handle>, i: nat)
    requires forall i | 0 <= i < |hs| :: hs[i] < |objects|
    requires forall i | 0 <= i < |hs| :: objects[hs[i]].chebiId !in store
    requires forall i, j | 0 <= i < j < |hs| :: objects[hs[i]].chebiId != objects[hs[j]].chebiId
    requires i < |hs|
    ensures objects[hs[i]].chebiId in Insert(store, objects, hs)
    ensures Insert(store, objects, hs)[objects[hs[i]].chebiId] == hs[i]
  {
    InsertEffect(store, objects, hs);
  }

  /**
   * A commit that passes the unique check keeps the session invariant and
   * makes exactly the previously committed and the pending objects committed.
   */
  lemma CommitValid(db: Db)
    requires Valid(db) && UniqueInserts(db)
    ensures Commit(db).Ok? && Valid(Commit(db).value) && Commit(db).value.pending == []
    ensures Commit(db).value == db.(store := Commit(db).value.store, pending := [])
    ensures forall k | k in db.store :: k in Commit(db).value.store && Commit(db).value.store[k] == db.store[k]
    ensures forall h | 0 <= h < |db.objects| :: Stored(Commit(db).value, h) <==> Stored(db, h) || h in db.pending
  {
    CommitStored(db);
  }

  /** Which objects a commit leaves committed, and that the table stays coherent. */
  lemma CommitStored(db: Db)
    requires InRange(db) && UniqueInserts(db)
    requires forall k | k in db.store :: db.objects[db.store[k]].chebiId == k
    ensures Commit(db).Ok?
    ensures forall k | k in db.store :: k in Commit(db).value.store && Commit(db).value.store[k] == db.store[k]
    ensures forall h | 0 <= h < |db.objects| :: Stored(Commit(db).value, h) <==> Stored(db, h) || h in db.pending
    ensures forall k | k in Commit(db).value.store :: db.objects[Commit(db).value.store[k]].chebiId == k
  {
    InsertEffect(db.store, db.objects, db.pending);
    var r := Commit(db).value;
    forall h | 0 <= h < |db.objects| ensures Stored(r, h) <==> Stored(db, h) || h in db.pending {
      var k := db.objects[h].chebiId;
      if Stored(r, h) && !Stored(db, h) && k !in db.store {
        assert r.store[k] in db.pending;
      }
      if h in db.pending {
        var i :| 0 <= i < |db.pending| && db.pending[i] == h;
        assert r.store[k] == h;
      }
    }
  }

  /** Sequence concatenation is associative; stated once so that proofs can name it instead of unfolding sequences. */
  lemma AppendAssoc<T>(a: seq<T>, b: seq<T>, c: seq<T>)
    ensures (a + b) + c == a + (b + c)
  {
  }
}

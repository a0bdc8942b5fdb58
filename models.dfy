/**
 * The three record types of the ChEBI database model (chemical, synonym,
 * accession) and their rendering functions. A column value that may be SQL
 * NULL (Python None) is an `Option`. A synonym or an accession refers to its
 * owning chemical by handle: the position of that chemical object in the
 * session's object table (see module Session).
 */
module Models {
  import opened Wrappers
  import PyStrings

  /** Python's `str(v)` for a nullable text column: None renders as "None". */
  function PyStr(v: Option<string>): string
  {
    match v
    case None => "None"
    case Some(s) => s
  }

  /** The JSON values `to_json` produces: a string, an integer or null. */
  datatype Json = JNull | JString(s: string) | JInt(n: int)

  function StringJson(v: Option<string>): Json
  {
    match v
    case None => JNull
    case Some(s) => JString(s)
  }

  function IntJson(v: Option<int>): Json
  {
    match v
    case None => JNull
    case Some(n) => JInt(n)
  }

  /** The keys `to_json` always writes. */
  const ChemicalJsonKeys: set<string> := {"chebi_id", "name", "definition", "source", "inchi"}

  /** The namespace `to_bel` tags every chemical with. */
  const ChebiNamespace: string := "CHEBI"

  /** A BEL abundance node: namespace, name and identifier. */
  datatype Abundance = Abundance(namespace: string, name: string, identifier: string)

  /**
   * A row of the chemical table. `key` is the surrogate primary key `id`,
   * None until the row has been added to the session; `parentId` is the
   * nullable integer foreign key into the same table, so a chemical has at
   * most one parent reference.
   */
  datatype Chemical = Chemical(
    key: Option<int>,
    chebiId: string,
    parentId: Option<int>,
    name: Option<string>,
    definition: Option<string>,
    source: Option<string>,
    status: Option<string>,
    inchi: Option<string>)
  {
    /** `__repr__`. */
    function Repr(): (r: string)
      ensures |r| == |chebiId| + 17
      ensures r[..16] == "<Chemical CHEBI:" && r[16..|r| - 1] == chebiId && r[|r| - 1] == '>'
    {
      "<Chemical CHEBI:" + chebiId + ">"
    }

    /** `__str__`: the name, or "None" when there is none. */
    function Str(): (r: string)
      ensures name.Some? ==> r == name.value
      ensures name.None? ==> r == "None"
    {
      PyStr(name)
    }

    /** `to_json(include_id)`. */
    function ToJson(includeId: bool): (r: map<string, Json>)
      ensures r.Keys == ChemicalJsonKeys + (if includeId then {"id"} else {})
      ensures "id" in r <==> includeId
      ensures r["chebi_id"] == JString(chebiId) && r["name"] == StringJson(name)
      ensures r["definition"] == StringJson(definition) && r["source"] == StringJson(source)
      ensures r["inchi"] == StringJson(inchi)
      ensures includeId ==> r["id"] == IntJson(key)
    {
      var rv := map[
        "chebi_id" := JString(chebiId),
        "name" := StringJson(name),
        "definition" := StringJson(definition),
        "source" := StringJson(source),
        "inchi" := StringJson(inchi)];
      if includeId then rv["id" := IntJson(key)] else rv
    }

    /** `to_bel`: an abundance in the CHEBI namespace named by `str(name)`. */
    function ToBel(): (r: Abundance)
      ensures r.namespace == ChebiNamespace
      ensures r.name == Str() && r.identifier == chebiId
    {
      Abundance(ChebiNamespace, PyStr(name), chebiId)
    }
  }

  /** A fresh `Chemical(chebi_id=...)`: every other column NULL. */
  function NewChemical(chebiId: string): (c: Chemical)
    ensures c.chebiId == chebiId && c.key.None? && c.inchi.None?
    ensures c.parentId.None? && c.name.None? && c.definition.None?
    ensures c.source.None? && c.status.None?
  {
    Chemical(None, chebiId, None, None, None, None, None, None)
  }

  /** A row of the synonym table, owned by the chemical at handle `chemical`. */
  datatype Synonym = Synonym(
    chemical: nat,
    kind: Option<string>,
    source: Option<string>,
    name: Option<string>,
    adapted: Option<string>,
    language: Option<string>)
  {
    /**
     * `__str__` returns the name column; when that is NULL Python's `str()`
     * raises TypeError, modelled as None.
     */
    function Str(): (r: Option<string>)
      ensures r.Some? <==> name.Some?
      ensures r.Some? ==> r.value == name.value
    {
      name
    }
  }

  /** A row of the accession (cross-reference) table, owned by the chemical at handle `chemical`. */
  datatype Accession = Accession(
    chemical: nat,
    source: Option<string>,
    kind: Option<string>,
    accession: Option<string>)
  {
    /** `__str__`: "source:accession". */
    function Str(): (r: string)
      ensures |r| == |PyStr(source)| + 1 + |PyStr(accession)|
      ensures r[..|PyStr(source)|] == PyStr(source) && r[|PyStr(source)|] == ':'
      ensures r[|PyStr(source)| + 1..] == PyStr(accession)
    {
      PyStr(source) + ":" + PyStr(accession)
    }
  }

  /**
   * `to_json` exports exactly chebi_id, name, definition, source and inchi
   * (and the key when asked): two chemicals get the same JSON if and only if
   * they agree on those columns. Status and parent are never exported.
   */
  lemma ToJsonDeterminedBy(a: Chemical, b: Chemical, includeId: bool)
    ensures a.ToJson(includeId) == b.ToJson(includeId) <==>
      && a.chebiId == b.chebiId && a.name == b.name && a.definition == b.definition
      && a.source == b.source && a.inchi == b.inchi
      && (includeId ==> a.key == b.key)
  {
    if a.ToJson(includeId) == b.ToJson(includeId) {
      var ja, jb := a.ToJson(includeId), b.ToJson(includeId);
      assert ja["chebi_id"] == jb["chebi_id"];
      assert StringJson(a.name) == StringJson(b.name);
      assert StringJson(a.definition) == StringJson(b.definition);
      assert StringJson(a.source) == StringJson(b.source);
      assert StringJson(a.inchi) == StringJson(b.inchi);
      if includeId {
        assert IntJson(a.key) == IntJson(b.key);
      }
    }
  }

  /** Adding the key is the only difference `include_id` makes. */
  lemma ToJsonIncludeId(c: Chemical)
    ensures c.ToJson(true) == c.ToJson(false)["id" := IntJson(c.key)]
    ensures c.ToJson(true) - {"id"} == c.ToJson(false)
  {
    assert "id" !in c.ToJson(false);
  }

  /** `__repr__` is `<Chemical NAMESPACE:IDENTIFIER>` over the identifier `to_bel` uses. */
  lemma ReprMatchesBel(c: Chemical)
    ensures c.Repr() == "<Chemical " + c.ToBel().namespace + ":" + c.ToBel().identifier + ">"
  {
  }

  /**
   * Splitting `__repr__` at ':' recovers the identifier (followed by '>')
   * whenever the identifier itself has no colon.
   */
  lemma ReprSplit(c: Chemical)
    requires ':' !in c.chebiId
    ensures PyStrings.Split(c.Repr(), ':') == ["<Chemical CHEBI", c.chebiId + ">"]
  {
    var head := "<Chemical CHEBI";
    assert c.Repr() == head + [':'] + (c.chebiId + ">");
    PyStrings.SplitAfterHead(head, ':', c.chebiId + ">");
    PyStrings.SplitNoSeparator(c.chebiId + ">", ':');
  }

  /**
   * An accession rendered by `__str__` splits back into its source and the
   * fields of its accession number when the source has no colon.
   */
  lemma AccessionStrSplit(a: Accession)
    requires ':' !in PyStr(a.source)
    ensures PyStrings.Split(a.Str(), ':') == [PyStr(a.source)] + PyStrings.Split(PyStr(a.accession), ':')
  {
    assert a.Str() == PyStr(a.source) + [':'] + PyStr(a.accession);
    PyStrings.SplitAfterHead(PyStr(a.source), ':', PyStr(a.accession));
  }
}

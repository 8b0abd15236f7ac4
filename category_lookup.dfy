/**
 * The dashboard's category lookup (`categoryMap`): category record id to
 * display name, and the resolution of an expense's category reference to
 * a name through it.
 */
module CategoryLookup {
  import opened Records
  import opened OrderedMap
  import RecordRef

  const UnknownName: string := "Unbekannt"

  /** `kat.fields.kategoriename || 'Unbekannt'`: an absent or empty name reads as "Unbekannt". */
  function DisplayName(k: Kategorie): (name: string)
    ensures name != ""
    ensures name == UnknownName || Some(name) == k.fields.kategoriename
    ensures k.fields.kategoriename.Some? && k.fields.kategoriename.value != "" ==>
      name == k.fields.kategoriename.value
  {
    match k.fields.kategoriename
    case Some(n) => if n != "" then n else UnknownName
    case None => UnknownName
  }

  /** The category at `i` is the last one in `kategorien` with its record id. */
  predicate LastWithId(kategorien: seq<Kategorie>, i: nat)
    requires i < |kategorien|
  {
    forall j :: i < j < |kategorien| ==> kategorien[j].recordId != kategorien[i].recordId
  }

  /** The lookup as a left fold of `map.set` over the categories. */
  function CategoryMapOf(kategorien: seq<Kategorie>): Entries<string> {
    if kategorien == [] then []
    else
      var last := kategorien[|kategorien| - 1];
      Put(CategoryMapOf(kategorien[..|kategorien| - 1]), last.recordId, DisplayName(last))
  }

  lemma {:induction false} CategoryMapUnique(kategorien: seq<Kategorie>)
    ensures UniqueKeys(CategoryMapOf(kategorien))
  {
    if kategorien != [] {
      var n := |kategorien| - 1;
      CategoryMapUnique(kategorien[..n]);
      PutUnique(CategoryMapOf(kategorien[..n]), kategorien[n].recordId, DisplayName(kategorien[n]));
    }
  }

  /** Every category's record id is a key of the lookup. */
  lemma {:induction false} CategoryMapHasId(kategorien: seq<Kategorie>, i: nat)
    requires i < |kategorien|
    ensures Get(CategoryMapOf(kategorien), kategorien[i].recordId).Some?
  {
    var n := |kategorien| - 1;
    var init := kategorien[..n];
    PutGet(CategoryMapOf(init), kategorien[n].recordId, DisplayName(kategorien[n]), kategorien[i].recordId);
    if i < n {
      assert init[i] == kategorien[i];
      CategoryMapHasId(init, i);
    }
  }

  /** Only record ids of categories are keys of the lookup. */
  lemma {:induction false} CategoryMapOnlyIds(kategorien: seq<Kategorie>, id: string)
    requires Get(CategoryMapOf(kategorien), id).Some?
    ensures exists i :: 0 <= i < |kategorien| && kategorien[i].recordId == id
  {
    var n := |kategorien| - 1;
    var init := kategorien[..n];
    if kategorien[n].recordId != id {
      PutGet(CategoryMapOf(init), kategorien[n].recordId, DisplayName(kategorien[n]), id);
      CategoryMapOnlyIds(init, id);
      var i :| 0 <= i < |init| && init[i].recordId == id;
      assert kategorien[i] == init[i];
    }
  }

  /** A later duplicate id overwrites an earlier one: each id maps to the name of its last category. */
  lemma {:induction false} CategoryMapLastWins(kategorien: seq<Kategorie>, i: nat)
    requires i < |kategorien| && LastWithId(kategorien, i)
    ensures Get(CategoryMapOf(kategorien), kategorien[i].recordId) == Some(DisplayName(kategorien[i]))
  {
    var n := |kategorien| - 1;
    var init := kategorien[..n];
    var id := kategorien[i].recordId;
    assert CategoryMapOf(kategorien) == Put(CategoryMapOf(init), kategorien[n].recordId, DisplayName(kategorien[n]));
    PutGet(CategoryMapOf(init), kategorien[n].recordId, DisplayName(kategorien[n]), id);
    if i < n {
      assert init[i] == kategorien[i];
      assert LastWithId(init, i);
      CategoryMapLastWins(init, i);
    }
  }

  /** Builds the lookup as the source does: one `set` per category, in order. */
  method BuildCategoryMap(kategorien: seq<Kategorie>) returns (m: Entries<string>)
    ensures m == CategoryMapOf(kategorien)
  {
    m := [];
    for i := 0 to |kategorien|
      invariant m == CategoryMapOf(kategorien[..i])
    {
      assert kategorien[..i + 1][..i] == kategorien[..i];
      m := Put(m, kategorien[i].recordId, DisplayName(kategorien[i]));
    }
    assert kategorien[..|kategorien|] == kategorien;
  }

  /**
   * `categoryId ? categoryMap.get(categoryId) || fallback : fallback`: the
   * name a category reference resolves to. The id extracted from a URL is
   * never empty, so the first test only rules out a missing id.
   */
  function ResolveName(kategorie: Option<string>, categoryMap: Entries<string>, fallback: string): string {
    match RecordRef.ExtractRecordId(kategorie)
    case None => fallback
    case Some(id) =>
      match Get(categoryMap, id)
      case Some(n) => if n != "" then n else fallback
      case None => fallback
  }

  /**
   * A reference resolves to the fallback when it is missing or carries no
   * record id, or when the id is not in the lookup; otherwise to the name
   * the lookup holds for the id (the fallback again if that name is empty).
   */
  lemma ResolveNameCases(kategorie: Option<string>, categoryMap: Entries<string>, fallback: string)
    ensures RecordRef.ExtractRecordId(kategorie).None? ==> ResolveName(kategorie, categoryMap, fallback) == fallback
    ensures forall id :: RecordRef.ExtractRecordId(kategorie) == Some(id) ==>
      (Get(categoryMap, id).None? ==> ResolveName(kategorie, categoryMap, fallback) == fallback) &&
      (Get(categoryMap, id).Some? && Get(categoryMap, id).value != "" ==>
        ResolveName(kategorie, categoryMap, fallback) == Get(categoryMap, id).value)
    ensures ResolveName(kategorie, categoryMap, fallback) == fallback ||
      exists id :: RecordRef.ExtractRecordId(kategorie) == Some(id) &&
        Get(categoryMap, id) == Some(ResolveName(kategorie, categoryMap, fallback))
  {
  }

  /** The category column of the recent-expenses table falls back to "N/A". */
  function TableCategoryName(a: Ausgabe, categoryMap: Entries<string>): string {
    ResolveName(a.fields.kategorie, categoryMap, "N/A")
  }

  /** A reference to a category that is not in the lookup shows "N/A". */
  lemma TableNameOfUnknown(a: Ausgabe, kategorien: seq<Kategorie>)
    requires RecordRef.ExtractRecordId(a.fields.kategorie).Some?
    requires forall k :: k in kategorien ==> k.recordId != RecordRef.ExtractRecordId(a.fields.kategorie).value
    ensures TableCategoryName(a, CategoryMapOf(kategorien)) == "N/A"
  {
    var id := RecordRef.ExtractRecordId(a.fields.kategorie).value;
    if Get(CategoryMapOf(kategorien), id).Some? {
      CategoryMapOnlyIds(kategorien, id);
    }
    ResolveNameCases(a.fields.kategorie, CategoryMapOf(kategorien), "N/A");
  }
}

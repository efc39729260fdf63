/** The data catalog page of the web UI: the filter over the loaded assets
    (search text, selected classifications, selected asset types), the list of
    asset types offered as filters, and the handlers that change the selections. */
module DataCatalog {
  import opened Wrappers
  import opened Text
  import opened Seqs

  datatype Column = Column(name: string, dataType: string, classification: Option<string>)

  /** `schema?.columns?`: both levels may be missing. */
  datatype Schema = Schema(columns: Option<seq<Column>>)

  datatype Asset = Asset(id: string, name: string, namespace: string, sourceSystem: string,
                         assetType: string, schema: Option<Schema>)

  /** The search: empty, or a case-insensitive substring of name, namespace or source system. */
  predicate MatchesSearch(a: Asset, term: string) {
    var t := ToLower(term);
    term == "" || Contains(ToLower(a.name), t) || Contains(ToLower(a.namespace), t)
    || Contains(ToLower(a.sourceSystem), t)
  }

  /** `col.classification && selected.includes(col.classification)`. */
  predicate ColumnSelected(c: Column, selected: seq<string>) {
    c.classification.Some? && c.classification.value != "" && c.classification.value in selected
  }

  predicate MatchesClassification(a: Asset, selected: seq<string>) {
    selected == []
    || (a.schema.Some? && a.schema.value.columns.Some?
        && exists i :: 0 <= i < |a.schema.value.columns.value|
                       && ColumnSelected(a.schema.value.columns.value[i], selected))
  }

  predicate MatchesAssetType(a: Asset, selected: seq<string>) {
    selected == [] || a.assetType in selected
  }

  predicate Matches(a: Asset, term: string, classifications: seq<string>, assetTypes: seq<string>) {
    MatchesSearch(a, term) && MatchesClassification(a, classifications) && MatchesAssetType(a, assetTypes)
  }

  /** `filteredAssets`. */
  function Filtered(assets: seq<Asset>, term: string, classifications: seq<string>,
                    assetTypes: seq<string>): seq<Asset> {
    Filter(assets, a => Matches(a, term, classifications, assetTypes))
  }

  /** An asset is shown exactly when it is loaded and passes all three filters. */
  lemma FilteredMembers(assets: seq<Asset>, term: string, classifications: seq<string>,
                        assetTypes: seq<string>, a: Asset)
    ensures a in Filtered(assets, term, classifications, assetTypes)
            <==> a in assets && Matches(a, term, classifications, assetTypes)
  {
    FilterKeeps(assets, a => Matches(a, term, classifications, assetTypes), a);
  }

  /** The shown assets keep the loaded order. */
  lemma FilteredIsSubsequence(assets: seq<Asset>, term: string, classifications: seq<string>,
                              assetTypes: seq<string>)
    ensures Subsequence(Filtered(assets, term, classifications, assetTypes), assets)
  {
    FilterSubsequence(assets, a => Matches(a, term, classifications, assetTypes));
  }

  /** With no search and no selections every asset is shown. */
  lemma NoFiltersShowsAll(assets: seq<Asset>)
    ensures Filtered(assets, "", [], []) == assets
  {
    FilterAll(assets, a => Matches(a, "", [], []));
  }

  /** Search terms that differ only in letter case select the same assets. */
  lemma SearchIgnoresCase(a: Asset, t1: string, t2: string)
    requires ToLower(t1) == ToLower(t2)
    ensures MatchesSearch(a, t1) <==> MatchesSearch(a, t2)
  {
    assert |t1| == |ToLower(t1)| == |ToLower(t2)| == |t2|;
  }

  /** The search finds an asset whose name contains the term, whatever the case of either. */
  lemma SearchFindsName(a: Asset, term: string, i: nat)
    requires term != "" && i + |term| <= |a.name| && ToLower(a.name[i..i + |term|]) == ToLower(term)
    ensures MatchesSearch(a, term)
  {
    LowerContains(a.name, term, i);
  }

  lemma LowerContains(s: string, term: string, i: nat)
    requires i + |term| <= |s| && ToLower(s[i..i + |term|]) == ToLower(term)
    ensures Contains(ToLower(s), ToLower(term))
  {
    var name, t := ToLower(s), ToLower(term);
    LowerSlice(s, i, i + |term|);
    assert |t| == |term| && name[i..i + |t|] == t;
    assert OccursAt(name, t, i);
  }

  lemma LowerSlice(s: string, i: nat, j: nat)
    requires i <= j <= |s|
    ensures ToLower(s)[i..j] == ToLower(s[i..j])
  {
    assert forall k :: 0 <= k < j - i ==> ToLower(s)[i..j][k] == LowerChar(s[i + k]) == ToLower(s[i..j])[k];
  }

  /** With a classification selected, a shown asset has a column carrying one of
      the selected classifications. */
  lemma ShownHasSelectedColumn(assets: seq<Asset>, term: string, classifications: seq<string>,
                               assetTypes: seq<string>, a: Asset)
    requires classifications != [] && a in Filtered(assets, term, classifications, assetTypes)
    ensures a.schema.Some? && a.schema.value.columns.Some?
    ensures exists c :: c in a.schema.value.columns.value && c.classification.Some?
                        && c.classification.value in classifications
  {
    FilteredMembers(assets, term, classifications, assetTypes, a);
    var cols := a.schema.value.columns.value;
    var i :| 0 <= i < |cols| && ColumnSelected(cols[i], classifications);
    assert cols[i] in cols;
  }

  /** `Array.from(new Set(assets.map(a => a.assetType)))`. */
  function AssetTypesOf(assets: seq<Asset>): seq<string> {
    Distinct(seq(|assets|, i requires 0 <= i < |assets| => assets[i].assetType))
  }

  /** The asset types offered are distinct and are exactly those of the loaded assets. */
  lemma AssetTypesDistinct(assets: seq<Asset>, t: string)
    ensures NoDup(AssetTypesOf(assets))
    ensures t in AssetTypesOf(assets) <==> exists i :: 0 <= i < |assets| && assets[i].assetType == t
  {
    var types := seq(|assets|, i requires 0 <= i < |assets| => assets[i].assetType);
    DistinctNoDup(types);
    DistinctElements(types, t);
    assert forall i :: 0 <= i < |assets| ==> types[i] == assets[i].assetType;
  }

  /** A selection toggle: a selected value is removed everywhere it occurs, an
      unselected one is appended. */
  function Toggle(prev: seq<string>, v: string): (r: seq<string>)
    ensures v in r <==> v !in prev
    ensures forall w :: w != v ==> (w in r <==> w in prev)
  {
    if v in prev then RemoveAll(prev, v) else prev + [v]
  }

  /** Toggling a value twice, starting from unselected, restores the selection. */
  lemma ToggleTwiceRestores(prev: seq<string>, v: string)
    requires v !in prev
    ensures Toggle(Toggle(prev, v), v) == prev
  {
    RemoveAllSnoc(prev, v);
  }

  lemma {:induction false} RemoveAllSnoc(xs: seq<string>, v: string)
    requires v !in xs
    ensures RemoveAll(xs + [v], v) == xs
  {
    if xs == [] {
      assert RemoveAll([v], v) == [] + RemoveAll([], v);
    } else {
      assert (xs + [v])[1..] == xs[1..] + [v];
      assert v !in xs[1..];
      RemoveAllSnoc(xs[1..], v);
      assert xs == [xs[0]] + xs[1..];
    }
  }

  /** The page's filter state, and the handlers that change it. */
  class CatalogFilters {
    var searchTerm: string
    var selectedClassifications: seq<string>
    var selectedAssetTypes: seq<string>

    constructor()
      ensures searchTerm == "" && selectedClassifications == [] && selectedAssetTypes == []
    {
      searchTerm := "";
      selectedClassifications := [];
      selectedAssetTypes := [];
    }

    /** What the page shows for the loaded assets. */
    function Shown(assets: seq<Asset>): seq<Asset>
      reads this
    {
      Filtered(assets, searchTerm, selectedClassifications, selectedAssetTypes)
    }

    /** `handleClassificationChange`. */
    method ClassificationChange(classification: string)
      modifies this
      ensures selectedClassifications == Toggle(old(selectedClassifications), classification)
      ensures searchTerm == old(searchTerm) && selectedAssetTypes == old(selectedAssetTypes)
    {
      selectedClassifications := Toggle(selectedClassifications, classification);
    }

    /** `handleAssetTypeChange`. */
    method AssetTypeChange(assetType: string)
      modifies this
      ensures selectedAssetTypes == Toggle(old(selectedAssetTypes), assetType)
      ensures searchTerm == old(searchTerm) && selectedClassifications == old(selectedClassifications)
    {
      selectedAssetTypes := Toggle(selectedAssetTypes, assetType);
    }

    /** `clearFilters`: afterwards every loaded asset is shown. */
    method ClearFilters(ghost assets: seq<Asset>)
      modifies this
      ensures searchTerm == "" && selectedClassifications == [] && selectedAssetTypes == []
      ensures Shown(assets) == assets
    {
      searchTerm := "";
      selectedClassifications := [];
      selectedAssetTypes := [];
      NoFiltersShowsAll(assets);
    }
  }
}

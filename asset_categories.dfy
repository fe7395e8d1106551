/**
 * The category list: search, deletion guarded by use, all-or-nothing bulk deletion, creation with
 * the next numeric id, editing by id, duplication, usage counts and selection.
 */
module AssetCategories {
  import opened Wrappers
  import opened Strings
  import opened Seqs
  import opened Types
  import opened AssetContext
  import opened CategoryModal

  function CategoryIds(categories: seq<AssetCategory>): seq<string> {
    Map(categories, CategoryKey)
  }

  // ---------------------------------------------------------------- search

  /** The name, or the description when there is one, contains the query ignoring case. */
  predicate MatchesCategoryQuery(c: AssetCategory, q: string) {
    ContainsIgnoringCase(c.name, q) || (c.description.Some? && ContainsIgnoringCase(c.description.value, q))
  }

  function ByCategoryQuery(q: string): AssetCategory -> bool {
    (c: AssetCategory) => MatchesCategoryQuery(c, q)
  }

  /** `filteredCategories`: all of them for an empty query, otherwise the matching ones in order. */
  function FilteredCategories(categories: seq<AssetCategory>, q: string): (r: seq<AssetCategory>)
    ensures q == "" ==> r == categories
    ensures forall c :: c in r <==> c in categories && (q == "" || MatchesCategoryQuery(c, q))
  {
    if q == "" then categories else Filter(categories, ByCategoryQuery(q))
  }

  // ---------------------------------------------------------------- use by assets

  /** `assets.some(asset => asset.categoryId === id)`. */
  predicate CategoryInUse(assets: seq<Asset>, id: string) {
    exists i :: 0 <= i < |assets| && assets[i].categoryId == id
  }

  function HasCategory(id: string): Asset -> bool {
    (a: Asset) => a.categoryId == id
  }

  /** `getUsageCount`: the number of assets of the category. */
  function UsageCount(assets: seq<Asset>, id: string): (r: nat)
    ensures r <= |assets|
  {
    Count(assets, HasCategory(id))
  }

  /** A category is in use exactly when its usage count is positive. */
  lemma UsageCountInUse(assets: seq<Asset>, id: string)
    ensures UsageCount(assets, id) > 0 <==> CategoryInUse(assets, id)
  {
    FilterEmpty(assets, HasCategory(id));
  }

  /** The selected ids some asset still uses. */
  function SelectedInUse(selected: seq<string>, assets: seq<Asset>): (r: seq<string>)
    ensures |r| == 0 <==> forall i :: 0 <= i < |selected| ==> !CategoryInUse(assets, selected[i])
  {
    FilterEmpty(selected, (id: string) => CategoryInUse(assets, id));
    Filter(selected, (id: string) => CategoryInUse(assets, id))
  }

  function NotIn(ids: seq<string>): AssetCategory -> bool {
    (c: AssetCategory) => c.id !in ids
  }

  // ---------------------------------------------------------------- creation and duplication

  /** `handleDuplicateCategory`'s copy: the next id and " (Copy)" after the name and the description. */
  function DuplicatedCategory(categories: seq<AssetCategory>, c: AssetCategory): (r: AssetCategory)
    ensures r.id == NextId(ParseInt, CategoryIds(categories))
    ensures r.name == c.name + " (Copy)"
    ensures r.description == Some(OrEmpty(c.description) + " (Copy)")
  {
    AssetCategory(NextId(ParseInt, CategoryIds(categories)), c.name + " (Copy)", Some(OrEmpty(c.description) + " (Copy)"))
  }

  /** With numeric ids the new id (of a created or duplicated category) belongs to no existing category. */
  lemma NewCategoryIdFresh(categories: seq<AssetCategory>)
    requires AllNumeric(ParseInt, CategoryIds(categories))
    ensures forall i :: 0 <= i < |categories| ==> categories[i].id != NextId(ParseInt, CategoryIds(categories))
  {
    ParseIntReadsBack();
    IdAfterFresh(ParseInt, CategoryIds(categories), 0);
    forall i | 0 <= i < |categories| ensures categories[i].id != NextId(ParseInt, CategoryIds(categories)) {
      assert CategoryIds(categories)[i] == categories[i].id;
    }
  }

  /**
   * `saveCategory`'s list: editing puts the saved category in place of every entry with its id
   * and keeps the rest; creating keeps every entry and appends the saved name and description
   * under the next id.
   */
  function SavedCategories(categories: seq<AssetCategory>, editing: bool, c: AssetCategory): (r: seq<AssetCategory>)
    ensures editing ==> |r| == |categories|
    ensures editing ==> forall i :: 0 <= i < |categories| ==> r[i] == if categories[i].id == c.id then c else categories[i]
    ensures !editing ==> |r| == |categories| + 1 && r[..|categories|] == categories
    ensures !editing ==> r[|categories|].name == c.name && r[|categories|].description == c.description
    ensures !editing ==> r[|categories|].id == NextId(ParseInt, CategoryIds(categories))
  {
    if editing then ReplaceById(categories, CategoryKey, c)
    else categories + [c.(id := NextId(ParseInt, CategoryIds(categories)))]
  }

  // ---------------------------------------------------------------- names stay unique

  predicate UniqueNames(categories: seq<AssetCategory>) {
    forall i, j :: 0 <= i < j < |categories| ==> categories[i].name != categories[j].name
  }

  predicate UniqueIds(categories: seq<AssetCategory>) {
    forall i, j :: 0 <= i < j < |categories| ==> categories[i].id != categories[j].id
  }

  /**
   * Creating through the dialog keeps category names unique: the dialog only saves a name no
   * category has, and the list appends it.
   */
  lemma CreateKeepsNamesUnique(categories: seq<AssetCategory>, v: CategoryForm)
    requires UniqueNames(categories)
    requires Submit(v, categories, None).Saved?
    ensures UniqueNames(SavedCategories(categories, false, Submit(v, categories, None).category))
  {
    SavedNameIsFree(v, categories, None);
  }

  /**
   * Editing a listed category through the dialog keeps names unique, provided ids are unique:
   * only the edited entry can carry the name, and it is the entry replaced.
   */
  lemma EditKeepsNamesUnique(categories: seq<AssetCategory>, v: CategoryForm, k: nat)
    requires UniqueNames(categories) && UniqueIds(categories)
    requires k < |categories| && categories[k].id != ""
    requires Submit(v, categories, Some(categories[k])).Saved?
    ensures UniqueNames(SavedCategories(categories, true, Submit(v, categories, Some(categories[k])).category))
  {
    var c := Submit(v, categories, Some(categories[k])).category;
    assert c.id == categories[k].id;
    SavedNameIsFree(v, categories, Some(categories[k]));
    var r := SavedCategories(categories, true, c);
    forall i, j | 0 <= i < j < |r| ensures r[i].name != r[j].name {
      if categories[i].id == c.id {
        assert i == k;
      } else if categories[j].id == c.id {
        assert j == k;
      }
    }
  }

  // ---------------------------------------------------------------- the component

  class AssetCategoriesPage {
    var categories: seq<AssetCategory>
    var currentCategory: Option<AssetCategory>
    var isModalOpen: bool
    var isDeleteModalOpen: bool
    var searchQuery: string
    var selectedCategories: seq<string>

    constructor (categories0: seq<AssetCategory>)
      ensures categories == categories0 && currentCategory == None && !isModalOpen && !isDeleteModalOpen
      ensures searchQuery == "" && selectedCategories == []
    {
      categories := categories0;
      currentCategory := None;
      isModalOpen := false;
      isDeleteModalOpen := false;
      searchQuery := "";
      selectedCategories := [];
    }

    /** `handleDuplicateCategory`: appends the copy. */
    method DuplicateCategory(c: AssetCategory)
      modifies this`categories
      ensures categories == old(categories) + [DuplicatedCategory(old(categories), c)]
    {
      categories := categories + [DuplicatedCategory(categories, c)];
    }

    /**
     * `handleBulkDelete`: nothing without a selection; nothing either, selection included, when a
     * selected category is in use; otherwise every selected category goes and the selection clears.
     */
    method BulkDelete(assets: seq<Asset>)
      modifies this`categories, this`selectedCategories
      ensures old(selectedCategories) == [] ==> categories == old(categories) && selectedCategories == []
      ensures (exists i :: 0 <= i < |old(selectedCategories)| && CategoryInUse(assets, old(selectedCategories)[i])) ==>
        categories == old(categories) && selectedCategories == old(selectedCategories)
      ensures old(selectedCategories) != [] && (forall i :: 0 <= i < |old(selectedCategories)| ==> !CategoryInUse(assets, old(selectedCategories)[i])) ==>
        categories == Filter(old(categories), NotIn(old(selectedCategories))) && selectedCategories == []
      ensures forall c :: c in categories ==> c in old(categories)
    {
      if |selectedCategories| == 0 {
        return;
      }
      var inUse := SelectedInUse(selectedCategories, assets);
      if |inUse| > 0 {
        return;
      }
      categories := Filter(categories, NotIn(selectedCategories));
      selectedCategories := [];
    }

    /** `confirmDelete`: a category in use stays; an unused one is removed; the dialog closes either way. */
    method ConfirmDelete(assets: seq<Asset>)
      modifies this`categories, this`isDeleteModalOpen
      ensures currentCategory.None? ==> categories == old(categories) && isDeleteModalOpen == old(isDeleteModalOpen)
      ensures currentCategory.Some? && CategoryInUse(assets, currentCategory.value.id) ==>
        categories == old(categories) && !isDeleteModalOpen
      ensures currentCategory.Some? && !CategoryInUse(assets, currentCategory.value.id) ==>
        categories == DeleteById(old(categories), CategoryKey, currentCategory.value.id) && !isDeleteModalOpen
    {
      if currentCategory.None? {
        return;
      }
      if !CategoryInUse(assets, currentCategory.value.id) {
        categories := DeleteById(categories, CategoryKey, currentCategory.value.id);
      }
      isDeleteModalOpen := false;
    }

    /** `saveCategory`: editing when a category is under edit, creating otherwise; the dialog closes. */
    method SaveCategory(c: AssetCategory)
      modifies this`categories, this`isModalOpen
      ensures categories == SavedCategories(old(categories), currentCategory.Some?, c)
      ensures !isModalOpen
    {
      categories := SavedCategories(categories, currentCategory.Some?, c);
      isModalOpen := false;
    }

    /** `handleSelectAll`: the ids of the categories on show, or nothing. */
    method SelectAll(checked: bool)
      modifies this`selectedCategories
      ensures checked ==> selectedCategories == CategoryIds(FilteredCategories(categories, searchQuery))
      ensures !checked ==> selectedCategories == []
    {
      if checked {
        selectedCategories := CategoryIds(FilteredCategories(categories, searchQuery));
      } else {
        selectedCategories := [];
      }
    }

    /** `handleSelectCategory`: ticking appends the id; unticking removes every occurrence of it. */
    method SelectCategory(id: string, checked: bool)
      modifies this`selectedCategories
      ensures checked ==> selectedCategories == old(selectedCategories) + [id]
      ensures !checked ==> selectedCategories == Filter(old(selectedCategories), Other(id))
      ensures !checked ==> forall x :: x in selectedCategories <==> x in old(selectedCategories) && x != id
    {
      if checked {
        selectedCategories := selectedCategories + [id];
      } else {
        selectedCategories := Filter(selectedCategories, Other(id));
      }
    }
  }
}

/**
 * The library of master assets (asset types): deletion refused while an asset in use refers to
 * the type, creation with the next numeric id, editing by id, the category name shown for a type,
 * and the icon chosen from the category name.
 */
module AssetLibrary {
  import opened Wrappers
  import opened Strings
  import opened Seqs
  import opened Types
  import opened AssetContext

  function MasterIds(masters: seq<MasterAsset>): seq<string> {
    Map(masters, MasterKey)
  }

  /** `assets.some(asset => asset.masterAssetId === id)`. */
  predicate MasterInUse(assets: seq<Asset>, id: string) {
    exists i :: 0 <= i < |assets| && assets[i].masterAssetId == Some(id)
  }

  /**
   * `saveAsset`'s list: editing puts the saved type in place of every entry with its id and keeps
   * the rest; creating keeps every entry and appends the saved type, all of its fields but the id
   * as given, under the next id.
   */
  function SavedMasters(masters: seq<MasterAsset>, editing: bool, m: MasterAsset): (r: seq<MasterAsset>)
    ensures editing ==> |r| == |masters|
    ensures editing ==> forall i :: 0 <= i < |masters| ==> r[i] == if masters[i].id == m.id then m else masters[i]
    ensures !editing ==> |r| == |masters| + 1 && r[..|masters|] == masters
    ensures !editing ==> r[|masters|].(id := m.id) == m
    ensures !editing ==> r[|masters|].id == NextId(ParseInt, MasterIds(masters))
  {
    if editing then ReplaceById(masters, MasterKey, m)
    else masters + [m.(id := NextId(ParseInt, MasterIds(masters)))]
  }

  /** With numeric ids a created master asset gets an id no existing one has. */
  lemma NewMasterIdFresh(masters: seq<MasterAsset>)
    requires AllNumeric(ParseInt, MasterIds(masters))
    ensures forall i :: 0 <= i < |masters| ==> masters[i].id != NextId(ParseInt, MasterIds(masters))
  {
    ParseIntReadsBack();
    IdAfterFresh(ParseInt, MasterIds(masters), 0);
    forall i | 0 <= i < |masters| ensures masters[i].id != NextId(ParseInt, MasterIds(masters)) {
      assert MasterIds(masters)[i] == masters[i].id;
    }
  }

  /** `getCategoryName`: the name of the first category with the id, or "Unknown". */
  function CategoryName(categories: seq<AssetCategory>, id: string): (r: string)
    ensures (forall i :: 0 <= i < |categories| ==> categories[i].id != id) ==> r == "Unknown"
    ensures forall i :: 0 <= i < |categories| && categories[i].id == id && (forall j :: 0 <= j < i ==> categories[j].id != id) ==>
      r == categories[i].name
  {
    var c := Find(categories, (c: AssetCategory) => c.id == id);
    if c.Some? then c.value.name else "Unknown"
  }

  /** The icon of a type's row. */
  datatype AssetTypeIcon = DisplayIcon | PlayerIcon | AccessoryIcon | DefaultIcon

  predicate NamesDisplay(name: string) {
    Contains(name, "display") || Contains(name, "screen") || Contains(name, "led") || Contains(name, "lcd")
  }

  predicate NamesPlayer(name: string) {
    Contains(name, "player") || Contains(name, "media")
  }

  /**
   * `getAssetTypeIcon`: the lower-cased category name is searched for display words first, then
   * player words, then "accessory"; anything else gets the default icon.
   */
  function IconFor(categoryName: string): (r: AssetTypeIcon)
    ensures r == DisplayIcon <==> NamesDisplay(Lower(categoryName))
    ensures r == PlayerIcon <==> !NamesDisplay(Lower(categoryName)) && NamesPlayer(Lower(categoryName))
    ensures r == AccessoryIcon <==> !NamesDisplay(Lower(categoryName)) && !NamesPlayer(Lower(categoryName)) && Contains(Lower(categoryName), "accessory")
  {
    var name := Lower(categoryName);
    if NamesDisplay(name) then DisplayIcon
    else if NamesPlayer(name) then PlayerIcon
    else if Contains(name, "accessory") then AccessoryIcon
    else DefaultIcon
  }

  /** The choice ignores case: an upper-cased name gets the same icon. */
  lemma IconIgnoresCase(categoryName: string)
    ensures IconFor(Upper(categoryName)) == IconFor(categoryName)
  {
    LowerOfUpper(categoryName);
  }

  class AssetLibraryPage {
    var masterAssets: seq<MasterAsset>
    var currentAsset: Option<MasterAsset>
    var isModalOpen: bool
    var isDeleteModalOpen: bool

    constructor (masters0: seq<MasterAsset>)
      ensures masterAssets == masters0 && currentAsset == None && !isModalOpen && !isDeleteModalOpen
    {
      masterAssets := masters0;
      currentAsset := None;
      isModalOpen := false;
      isDeleteModalOpen := false;
    }

    /** `confirmDelete`: a type in use stays; an unused one is removed; the dialog closes either way. */
    method ConfirmDelete(assets: seq<Asset>)
      modifies this`masterAssets, this`isDeleteModalOpen
      ensures currentAsset.None? ==> masterAssets == old(masterAssets) && isDeleteModalOpen == old(isDeleteModalOpen)
      ensures currentAsset.Some? && MasterInUse(assets, currentAsset.value.id) ==>
        masterAssets == old(masterAssets) && !isDeleteModalOpen
      ensures currentAsset.Some? && !MasterInUse(assets, currentAsset.value.id) ==>
        masterAssets == DeleteById(old(masterAssets), MasterKey, currentAsset.value.id) && !isDeleteModalOpen
    {
      if currentAsset.None? {
        return;
      }
      if !MasterInUse(assets, currentAsset.value.id) {
        masterAssets := DeleteById(masterAssets, MasterKey, currentAsset.value.id);
      }
      isDeleteModalOpen := false;
    }

    /** `saveAsset`: editing when a type is under edit, creating otherwise; the dialog closes. */
    method SaveAsset(m: MasterAsset)
      modifies this`masterAssets, this`isModalOpen
      ensures masterAssets == SavedMasters(old(masterAssets), currentAsset.Some?, m)
      ensures !isModalOpen
    {
      masterAssets := SavedMasters(masterAssets, currentAsset.Some?, m);
      isModalOpen := false;
    }
  }
}

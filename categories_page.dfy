/**
 * The page pairing asset categories with their master assets: the list of master assets of the
 * chosen category, whether the chosen master asset has a service scheme, and the navigation to the
 * service-scheme form.
 */
module CategoriesPage {
  import opened Wrappers
  import opened Seqs
  import opened Types

  function InCategory(id: string): MasterAsset -> bool {
    (m: MasterAsset) => m.categoryId == id
  }

  /** `filteredMasterAssets`: every master asset without a chosen category, else those of the category. */
  function FilteredMasterAssets(masters: seq<MasterAsset>, selectedCategory: Option<string>): (r: seq<MasterAsset>)
    ensures !Truthy(selectedCategory) ==> r == masters
    ensures Truthy(selectedCategory) ==> forall m :: m in r <==> m in masters && m.categoryId == selectedCategory.value
  {
    if Truthy(selectedCategory) then Filter(masters, InCategory(selectedCategory.value)) else masters
  }

  /** `masterAssetDetails`: the first master asset with the chosen id. */
  function MasterDetails(masters: seq<MasterAsset>, selected: Option<string>): (r: Option<MasterAsset>)
    ensures !Truthy(selected) ==> r.None?
    ensures r.Some? ==> r.value in masters && r.value.id == selected.value
    ensures Truthy(selected) ==> (r.None? <==> forall i :: 0 <= i < |masters| ==> masters[i].id != selected.value)
    ensures r.Some? ==> IsFirst(masters, (m: MasterAsset) => m.id == selected.value, r.value)
  {
    if Truthy(selected) then Find(masters, (m: MasterAsset) => m.id == selected.value) else None
  }

  /** `maintenanceSchedules.some(schedule => schedule.id === id)`, never true for a missing id. */
  predicate ScheduleExists(schedules: seq<MaintenanceSchedule>, id: Option<string>) {
    exists i :: 0 <= i < |schedules| && Some(schedules[i].id) == id
  }

  /**
   * `hasServiceScheme`: false without a chosen master asset; otherwise whether a schedule has the
   * id the master asset names.
   */
  function HasServiceScheme(masters: seq<MasterAsset>, schedules: seq<MaintenanceSchedule>, selected: Option<string>): (r: bool)
    ensures !Truthy(selected) ==> !r
    ensures r <==> MasterDetails(masters, selected).Some? && ScheduleExists(schedules, MasterDetails(masters, selected).value.maintenanceScheduleId)
    ensures r ==> exists j, i ::
      0 <= j < |masters| && 0 <= i < |schedules| && masters[j].id == selected.value && masters[j].maintenanceScheduleId == Some(schedules[i].id)
  {
    var d := MasterDetails(masters, selected);
    d.Some? && ScheduleExists(schedules, d.value.maintenanceScheduleId)
  }

  /** A master asset that names no schedule has no service scheme, whatever the schedules are. */
  lemma NoScheduleIdNoScheme(masters: seq<MasterAsset>, schedules: seq<MaintenanceSchedule>, selected: Option<string>)
    requires MasterDetails(masters, selected).Some? && MasterDetails(masters, selected).value.maintenanceScheduleId.None?
    ensures !HasServiceScheme(masters, schedules, selected)
  {
  }

  class CategoriesPageState {
    var selectedCategory: Option<string>
    var selectedMasterAsset: Option<string>

    constructor ()
      ensures selectedCategory == None && selectedMasterAsset == None
    {
      selectedCategory := None;
      selectedMasterAsset := None;
    }

    /** `handleViewCategory`: choosing a category forgets the chosen master asset. */
    method ViewCategory(id: string)
      modifies this
      ensures selectedCategory == Some(id) && selectedMasterAsset == None
    {
      selectedCategory := Some(id);
      selectedMasterAsset := None;
    }

    /** `handleViewMasterAsset`. */
    method ViewMasterAsset(id: string)
      modifies this
      ensures selectedMasterAsset == Some(id) && selectedCategory == old(selectedCategory)
    {
      selectedMasterAsset := Some(id);
    }

    /**
     * `handleCreateServiceScheme`: the route pushed, which carries the chosen master asset's id as
     * the masterAssetId parameter; no navigation without a chosen master asset.
     */
    method CreateServiceScheme() returns (route: Option<string>)
      ensures route.Some? <==> Truthy(selectedMasterAsset)
      ensures route.Some? ==> route.value == "/service-schemes/create?masterAssetId=" + selectedMasterAsset.value
    {
      if Truthy(selectedMasterAsset) {
        route := Some("/service-schemes/create?masterAssetId=" + selectedMasterAsset.value);
      } else {
        route := None;
      }
    }
  }
}

/**
 * The page that creates a service scheme (a maintenance schedule template) for an asset or an
 * asset type: which asset type the page is about, the pre-filled name, the check before saving,
 * the schedule built and the page shown afterwards.
 */
module ServiceSchemeCreate {
  import opened Wrappers
  import opened Strings
  import opened Seqs
  import opened Types
  import opened AssetContext
  import opened MaintenanceSchedules
  import opened ScheduleEditModal

  /** The asset type the page is about: the `masterAssetId` parameter wins over the type of the `assetId` asset. */
  function ResolveMaster(assetId: Option<string>, masterAssetId: Option<string>, assets: seq<Asset>, masters: seq<MasterAsset>): (r: Option<MasterAsset>)
    ensures Truthy(masterAssetId) && r.Some? ==> r.value in masters && r.value.id == masterAssetId.value
    ensures Truthy(masterAssetId) && r.None? ==> forall i :: 0 <= i < |masters| ==> masters[i].id != masterAssetId.value
    ensures !Truthy(masterAssetId) && r.Some? ==>
      r.value in masters && exists i :: 0 <= i < |assets| && Some(assets[i].id) == assetId && assets[i].masterAssetId == Some(r.value.id)
    ensures !Truthy(masterAssetId) && !Truthy(assetId) ==> r.None?
    ensures Truthy(masterAssetId) && r.Some? ==> IsFirst(masters, (m: MasterAsset) => m.id == masterAssetId.value, r.value)
    ensures (!Truthy(masterAssetId) && Truthy(assetId) && forall i :: 0 <= i < |assets| ==> assets[i].id != assetId.value) ==>
      r.None?
    ensures forall a, m :: (!Truthy(masterAssetId) && Truthy(assetId) && IsFirst(assets, (x: Asset) => x.id == assetId.value, a) &&
      IsFirst(masters, (m: MasterAsset) => a.masterAssetId == Some(m.id), m)) ==>
      r == Some(m)
    ensures forall a :: (!Truthy(masterAssetId) && Truthy(assetId) && IsFirst(assets, (x: Asset) => x.id == assetId.value, a) &&
      forall j :: 0 <= j < |masters| ==> a.masterAssetId != Some(masters[j].id)) ==>
      r.None?
  {
    if Truthy(masterAssetId) then Find(masters, (m: MasterAsset) => m.id == masterAssetId.value)
    else if Truthy(assetId) then
      var a := Find(assets, (a: Asset) => a.id == assetId.value);
      if a.Some? then Find(masters, (m: MasterAsset) => a.value.masterAssetId == Some(m.id)) else None
    else None
  }

  /** With a `masterAssetId` parameter the `assetId` parameter plays no part. */
  lemma MasterParameterWins(a1: Option<string>, a2: Option<string>, masterAssetId: Option<string>, assets: seq<Asset>, masters: seq<MasterAsset>)
    requires Truthy(masterAssetId)
    ensures ResolveMaster(a1, masterAssetId, assets, masters) == ResolveMaster(a2, masterAssetId, assets, masters)
  {
  }

  /** The name the effect fills in: "<type name> Maintenance", or the empty start value without a type. */
  function PrefilledName(master: Option<MasterAsset>): (r: string)
    ensures master.Some? ==> r == master.value.name + " Maintenance"
    ensures master.None? ==> r == ""
  {
    if master.Some? then master.value.name + " Maintenance" else ""
  }

  /** The check of `handleSave`: name, service type and interval value must all be non-empty. */
  predicate CanSaveScheme(name: string, serviceType: string, intervalValue: string) {
    name != "" && serviceType != "" && intervalValue != ""
  }

  /**
   * The schedule built: the clock's milliseconds as id and `parseInt` of the interval text; an
   * interval text with no leading number (NaN) is modelled as 0.
   */
  function NewScheme(name: string, serviceType: string, intervalValue: string, intervalUnit: string, clock: nat): (r: MaintenanceSchedule)
    ensures ParseInt(r.id) == Some(clock)
    ensures r.name == name && r.serviceType == serviceType
    ensures r.intervalValue == ParseInt(intervalValue).GetOr(0)
    ensures UnitText(r.intervalUnit) == intervalUnit
  {
    ParseIntOfNat(clock);
    MaintenanceSchedule(NatToString(clock), name, ParseInt(intervalValue).GetOr(0), UnitOf(intervalUnit), serviceType)
  }

  /** The page shown after saving: the asset's, the category list for a type, else the home page. */
  function NavigationTarget(assetId: Option<string>, masterAssetId: Option<string>): (r: string)
    ensures Truthy(assetId) ==> |r| > 8 && r[..8] == "/assets/" && r[8..] == assetId.value
    ensures !Truthy(assetId) && Truthy(masterAssetId) ==> r == "/asset-categories"
    ensures !Truthy(assetId) && !Truthy(masterAssetId) ==> r == "/"
  {
    if Truthy(assetId) then "/assets/" + assetId.value
    else if Truthy(masterAssetId) then "/asset-categories"
    else "/"
  }

  /** The defaults (interval text "1", unit "month") build a schedule of one month. */
  lemma DefaultSchemeIsOneMonth(name: string, serviceType: string, clock: nat)
    ensures NewScheme(name, serviceType, "1", "month", clock).intervalValue == 1
    ensures NewScheme(name, serviceType, "1", "month", clock).intervalUnit == Months
  {
    assert NatToString(1) == "1";
    ParseIntOfNat(1);
  }

  /** The interval typed as a number's text is the schedule's interval. */
  lemma TypedIntervalKept(name: string, serviceType: string, n: nat, unit: string, clock: nat)
    ensures NewScheme(name, serviceType, NatToString(n), unit, clock).intervalValue == n
  {
    ParseIntOfNat(n);
  }

  /** The store renumbers what it adds, so the clock's id never reaches the stored schedule. */
  lemma ClockIdDiscarded(schedules: seq<MaintenanceSchedule>, name: string, serviceType: string, intervalValue: string,
                         intervalUnit: string, c1: nat, c2: nat)
    ensures AddedSchedule(schedules, NewScheme(name, serviceType, intervalValue, intervalUnit, c1)) ==
            AddedSchedule(schedules, NewScheme(name, serviceType, intervalValue, intervalUnit, c2))
  {
  }

  class CreateServiceSchemePage {
    const assetId: Option<string>
    const masterAssetId: Option<string>
    var name: string
    var serviceType: string
    var intervalValue: string
    var intervalUnit: string

    /** The page as it opens, after the effect has filled in the name. */
    constructor (assetId0: Option<string>, masterAssetId0: Option<string>, assets: seq<Asset>, masters: seq<MasterAsset>)
      ensures assetId == assetId0 && masterAssetId == masterAssetId0
      ensures name == PrefilledName(ResolveMaster(assetId0, masterAssetId0, assets, masters))
      ensures serviceType == "" && intervalValue == "1" && intervalUnit == "month"
    {
      assetId := assetId0;
      masterAssetId := masterAssetId0;
      name := PrefilledName(ResolveMaster(assetId0, masterAssetId0, assets, masters));
      serviceType := "";
      intervalValue := "1";
      intervalUnit := "month";
    }

    /**
     * `handleSave`: with a field missing nothing is added and the page stays (None); otherwise the
     * schedule is added to the shared store and the page to show next is returned.
     */
    method Save(store: AssetProvider, clock: nat) returns (route: Option<string>)
      modifies store
      ensures !CanSaveScheme(name, serviceType, intervalValue) ==> route.None? && store.maintenanceSchedules == old(store.maintenanceSchedules)
      ensures CanSaveScheme(name, serviceType, intervalValue) ==>
        store.maintenanceSchedules == AddedSchedule(old(store.maintenanceSchedules), NewScheme(name, serviceType, intervalValue, intervalUnit, clock))
        && route == Some(NavigationTarget(assetId, masterAssetId))
      ensures store.assets == old(store.assets) && store.masterAssets == old(store.masterAssets) && store.categories == old(store.categories)
    {
      if name == "" || serviceType == "" || intervalValue == "" {
        return None;
      }
      store.AddMaintenanceSchedule(NewScheme(name, serviceType, intervalValue, intervalUnit, clock));
      route := Some(NavigationTarget(assetId, masterAssetId));
    }
  }
}

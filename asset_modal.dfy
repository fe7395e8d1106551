/**
 * The dialog that places an asset: the form schema, the values the form starts from, the cascade
 * of the location pickers (a new location clears the section, sub-section and zone; a new section
 * clears the sub-section and zone; a new sub-section clears the zone) and the record handed to
 * the parent on save.
 */
module AssetModal {
  import opened Wrappers
  import opened Calendar
  import opened Types
  import opened AssetFilters

  /**
   * The form values. A date is None when it is missing or not a valid date; the time spent is
   * None for the empty text, which the schema turns into 0.
   */
  datatype AssetForm = AssetForm(
    masterAssetId: string,
    locationId: string,
    sectionId: string,
    subSectionId: string,
    zoneId: string,
    serialNumber: string,
    barcode: Option<string>,
    purchaseDate: Option<int>,
    installationDate: Option<int>,
    warrantyStartDate: Option<int>,
    warrantyEndDate: Option<int>,
    description: Option<string>,
    timeSpentMinutes: Option<int>,
    ipAddress: Option<string>,
    macAddress: Option<string>,
    contentManagementSystem: Option<string>,
    displayOrientation: Option<string>,
    brightnessLevel: Option<int>,
    latitude: Option<int>,
    longitude: Option<int>)

  /** The form schema. */
  predicate ValidAssetForm(v: AssetForm) {
    && |v.masterAssetId| >= 1 && |v.locationId| >= 1 && |v.sectionId| >= 1
    && |v.subSectionId| >= 1 && |v.zoneId| >= 1 && |v.serialNumber| >= 1
    && v.purchaseDate.Some? && v.installationDate.Some? && v.warrantyStartDate.Some? && v.warrantyEndDate.Some?
    && (v.timeSpentMinutes.None? || v.timeSpentMinutes.value >= 0)
    && (v.displayOrientation.None? || v.displayOrientation.value == "Landscape" || v.displayOrientation.value == "Portrait")
    && (v.brightnessLevel.None? || 0 <= v.brightnessLevel.value <= 100)
  }

  /** `n || d` for an optional number. */
  function NumOr(n: Option<int>, d: int): (r: int)
    ensures TruthyNum(n) ==> r == n.value
    ensures !TruthyNum(n) ==> r == d
  {
    if n.Some? && n.value != 0 then n.value else d
  }

  /** The values the form starts from for an asset under edit. */
  function FormOf(a: Asset): (r: AssetForm)
    ensures r.masterAssetId == OrEmpty(a.masterAssetId) && r.locationId == OrEmpty(a.locationId)
    ensures r.sectionId == OrEmpty(a.sectionId) && r.subSectionId == OrEmpty(a.subSectionId)
    ensures r.zoneId == OrEmpty(a.zoneId) && r.serialNumber == OrEmpty(a.serialNumber)
    ensures r.purchaseDate == a.purchaseDate && r.installationDate == a.installationDate
    ensures r.warrantyStartDate == a.warrantyStartDate && r.warrantyEndDate == a.warrantyEndDate
    ensures r.timeSpentMinutes == Some(NumOr(a.timeSpentMinutes, 0))
    ensures r.displayOrientation == Some(if a.displayOrientation != "" then a.displayOrientation else "Landscape")
    ensures r.brightnessLevel == Some(NumOr(a.brightnessLevel, 75))
    ensures a.coordinates.Some? ==> r.latitude == Some(a.coordinates.value.latitude) && r.longitude == Some(a.coordinates.value.longitude)
    ensures a.coordinates.None? ==> r.latitude == Some(0) && r.longitude == Some(0)
  {
    AssetForm(
      OrEmpty(a.masterAssetId), OrEmpty(a.locationId), OrEmpty(a.sectionId), OrEmpty(a.subSectionId),
      OrEmpty(a.zoneId), OrEmpty(a.serialNumber), Some(OrEmpty(a.barcode)),
      a.purchaseDate, a.installationDate, a.warrantyStartDate, a.warrantyEndDate,
      Some(a.description), Some(NumOr(a.timeSpentMinutes, 0)),
      Some(OrEmpty(a.ipAddress)), Some(a.macAddress), Some(a.contentManagementSystem),
      Some(if a.displayOrientation != "" then a.displayOrientation else "Landscape"),
      Some(NumOr(a.brightnessLevel, 75)),
      Some(if a.coordinates.Some? then a.coordinates.value.latitude else 0),
      Some(if a.coordinates.Some? then a.coordinates.value.longitude else 0))
  }

  /** The values a new asset starts from; the four dates are the moment the dialog opens. */
  function NewForm(now: int): (r: AssetForm)
    ensures !ValidAssetForm(r)
    ensures r.purchaseDate == Some(now) && r.warrantyEndDate == Some(now)
    ensures r.brightnessLevel == Some(75) && r.displayOrientation == Some("Landscape") && r.timeSpentMinutes == Some(0)
  {
    AssetForm("", "", "", "", "", "", Some(""), Some(now), Some(now), Some(now), Some(now), Some(""), Some(0),
      Some(""), Some(""), Some(""), Some("Landscape"), Some(75), Some(0), Some(0))
  }

  /** The form's starting values: the asset's when there is one. */
  function DefaultValues(asset: Option<Asset>, now: int): AssetForm {
    if asset.Some? then FormOf(asset.value) else NewForm(now)
  }

  // ---------------------------------------------------------------- the record saved

  /** `asset?.id || "0"`. */
  function KeptId(asset: Option<Asset>): (r: string)
    ensures r != ""
    ensures asset.Some? && asset.value.id != "" ==> r == asset.value.id
  {
    if asset.Some? && asset.value.id != "" then asset.value.id else "0"
  }

  /** `values.latitude && values.longitude ? {...} : undefined`: a zero coordinate drops both. */
  function CoordinatesOf(latitude: Option<int>, longitude: Option<int>): (r: Option<Coordinates>)
    ensures r.Some? <==> TruthyNum(latitude) && TruthyNum(longitude)
    ensures r.Some? ==> r.value == Coordinates(latitude.value, longitude.value)
  {
    if latitude.Some? && latitude.value != 0 && longitude.Some? && longitude.value != 0 then
      Some(Coordinates(latitude.value, longitude.value))
    else None
  }

  /**
   * The record `onSubmit` hands the parent. Dates are saved as day texts, which read back as the
   * start of the day; the maintenance fields of the asset under edit are carried over, or null.
   */
  function SubmittedAsset(v: AssetForm, asset: Option<Asset>): (r: Asset)
    requires ValidAssetForm(v)
    ensures r.id == KeptId(asset)
    ensures r.masterAssetId == Some(v.masterAssetId) && r.locationId == Some(v.locationId)
    ensures r.sectionId == Some(v.sectionId) && r.subSectionId == Some(v.subSectionId) && r.zoneId == Some(v.zoneId)
    ensures r.serialNumber == Some(v.serialNumber)
    ensures r.purchaseDate == Some(StartOfDay(v.purchaseDate.value)) && r.warrantyEndDate == Some(StartOfDay(v.warrantyEndDate.value))
    ensures r.installationDate == Some(StartOfDay(v.installationDate.value)) && r.warrantyStartDate == Some(StartOfDay(v.warrantyStartDate.value))
    ensures r.timeSpentMinutes.Some? && r.timeSpentMinutes.value >= 0
    ensures r.coordinates == CoordinatesOf(v.latitude, v.longitude)
    ensures asset.None? ==> r.lastMaintenanceDate.None? && r.maintenanceScheduleId.None? && r.nextMaintenanceDate.None?
    ensures asset.Some? ==> r.lastMaintenanceDate == asset.value.lastMaintenanceDate && r.nextMaintenanceDate == asset.value.nextMaintenanceDate
    ensures asset.Some? ==> r.maintenanceScheduleId == if Truthy(asset.value.maintenanceScheduleId) then asset.value.maintenanceScheduleId else None
  {
    BlankAsset.(
      id := KeptId(asset),
      masterAssetId := Some(v.masterAssetId),
      locationId := Some(v.locationId),
      sectionId := Some(v.sectionId),
      subSectionId := Some(v.subSectionId),
      zoneId := Some(v.zoneId),
      serialNumber := Some(v.serialNumber),
      barcode := v.barcode,
      purchaseDate := Some(StartOfDay(v.purchaseDate.value)),
      installationDate := Some(StartOfDay(v.installationDate.value)),
      warrantyStartDate := Some(StartOfDay(v.warrantyStartDate.value)),
      warrantyEndDate := Some(StartOfDay(v.warrantyEndDate.value)),
      description := OrEmpty(v.description),
      timeSpentMinutes := Some(if v.timeSpentMinutes.Some? then v.timeSpentMinutes.value else 0),
      lastMaintenanceDate := if asset.Some? then asset.value.lastMaintenanceDate else None,
      maintenanceScheduleId := if asset.Some? && Truthy(asset.value.maintenanceScheduleId) then asset.value.maintenanceScheduleId else None,
      nextMaintenanceDate := if asset.Some? then asset.value.nextMaintenanceDate else None,
      ipAddress := v.ipAddress,
      macAddress := OrEmpty(v.macAddress),
      contentManagementSystem := OrEmpty(v.contentManagementSystem),
      displayOrientation := OrEmpty(v.displayOrientation),
      brightnessLevel := v.brightnessLevel,
      coordinates := CoordinatesOf(v.latitude, v.longitude))
  }

  /** `form.handleSubmit(onSubmit)`: nothing reaches the parent unless the schema passes. */
  function Submit(v: AssetForm, asset: Option<Asset>): (r: Option<Asset>)
    ensures r.None? <==> !ValidAssetForm(v)
    ensures r.Some? ==> r.value == SubmittedAsset(v, asset)
  {
    if ValidAssetForm(v) then Some(SubmittedAsset(v, asset)) else None
  }

  /** An asset whose placement, serial number and dates are filled in, and whose settings the schema accepts. */
  predicate Placed(a: Asset) {
    && Truthy(a.masterAssetId) && Truthy(a.locationId) && Truthy(a.sectionId) && Truthy(a.subSectionId)
    && Truthy(a.zoneId) && Truthy(a.serialNumber)
    && a.purchaseDate.Some? && a.installationDate.Some? && a.warrantyStartDate.Some? && a.warrantyEndDate.Some?
    && (a.timeSpentMinutes.None? || a.timeSpentMinutes.value >= 0)
    && (a.displayOrientation == "" || a.displayOrientation == "Landscape" || a.displayOrientation == "Portrait")
    && (a.brightnessLevel.None? || 0 <= a.brightnessLevel.value <= 100)
  }

  /**
   * The asset's own values, once its section, sub-section and zone are picked again after the
   * dialog opens (see `AfterPickerEffects`), are accepted and give back its id, placement, serial
   * number, maintenance dates and coordinates (when neither is zero); the dates come back as the
   * start of their days.
   */
  lemma EditRoundTrip(a: Asset)
    requires Placed(a) && a.id != ""
    requires a.coordinates.Some? ==> a.coordinates.value.latitude != 0 && a.coordinates.value.longitude != 0
    ensures Submit(FormOf(a), Some(a)).Some?
    ensures var r := Submit(FormOf(a), Some(a)).value;
      && r.id == a.id && r.masterAssetId == a.masterAssetId && r.locationId == a.locationId
      && r.sectionId == a.sectionId && r.subSectionId == a.subSectionId && r.zoneId == a.zoneId
      && r.serialNumber == a.serialNumber && r.coordinates == a.coordinates
      && r.lastMaintenanceDate == a.lastMaintenanceDate && r.nextMaintenanceDate == a.nextMaintenanceDate
      && r.purchaseDate == Some(StartOfDay(a.purchaseDate.value))
  {
    var v := FormOf(a);
    assert ValidAssetForm(v);
  }

  /** Saving twice in a row changes nothing more: the day of a saved date is already its start. */
  lemma ResaveKeepsDates(a: Asset)
    requires Placed(a) && a.purchaseDate.Some?
    ensures Submit(FormOf(a), Some(a)).Some?
    ensures var r := Submit(FormOf(a), Some(a)).value; Placed(r) ==>
      Submit(FormOf(r), Some(r)).Some? && Submit(FormOf(r), Some(r)).value.purchaseDate == r.purchaseDate
  {
    var r := Submit(FormOf(a), Some(a)).value;
    var t := StartOfDay(a.purchaseDate.value);
    assert r.purchaseDate == Some(t);
    assert StartOfDay(t) == t by {
      assert Day(t) == Day(a.purchaseDate.value);
    }
  }

  // ---------------------------------------------------------------- the cascade

  /**
   * The three picker effects in their first run, each reading the value the form was rendered
   * with: a location clears the section, sub-section and zone; a section clears the sub-section
   * and zone; a sub-section clears the zone. Nothing else changes.
   */
  function AfterPickerEffects(v: AssetForm): (r: AssetForm)
    ensures r.locationId == v.locationId
    ensures r.sectionId == if v.locationId != "" then "" else v.sectionId
    ensures r.subSectionId == if v.locationId != "" || v.sectionId != "" then "" else v.subSectionId
    ensures r.zoneId == if v.locationId != "" || v.sectionId != "" || v.subSectionId != "" then "" else v.zoneId
    ensures r.(sectionId := v.sectionId, subSectionId := v.subSectionId, zoneId := v.zoneId) == v
  {
    var v1 := if v.locationId != "" then v.(sectionId := "", subSectionId := "", zoneId := "") else v;
    var v2 := if v.sectionId != "" then v1.(subSectionId := "", zoneId := "") else v1;
    if v.subSectionId != "" then v2.(zoneId := "") else v2
  }

  /**
   * Opening the dialog on an asset with any of location, section or sub-section set clears at
   * least the zone, so saving straight away is refused by the schema.
   */
  lemma OpenedEditRefused(a: Asset)
    requires Truthy(a.locationId) || Truthy(a.sectionId) || Truthy(a.subSectionId)
    ensures Submit(AfterPickerEffects(FormOf(a)), Some(a)).None?
  {
    assert AfterPickerEffects(FormOf(a)).zoneId == "";
  }

  /**
   * The pickers agree with each other: every chosen entry is one the picker offers, and every
   * offered entry is a child of the chosen parent, taken from the full lists.
   */
  predicate Chained(v: AssetForm, sections: seq<Section>, subSections: seq<SubSection>, zones: seq<Zone>,
                    offeredSections: seq<Section>, offeredSubSections: seq<SubSection>, offeredZones: seq<Zone>) {
    && (v.locationId != "" ==> forall s :: s in offeredSections ==> s in sections && s.locationId == v.locationId)
    && (v.sectionId != "" ==> exists i :: 0 <= i < |offeredSections| && offeredSections[i].id == v.sectionId)
    && (v.sectionId != "" ==> forall s :: s in offeredSubSections ==> s in subSections && s.sectionId == v.sectionId)
    && (v.subSectionId != "" ==> exists i :: 0 <= i < |offeredSubSections| && offeredSubSections[i].id == v.subSectionId)
    && (v.subSectionId != "" ==> forall z :: z in offeredZones ==> z in zones && z.subSectionId == v.subSectionId)
    && (v.zoneId != "" ==> exists i :: 0 <= i < |offeredZones| && offeredZones[i].id == v.zoneId)
  }

  /** With consistent pickers, a chosen zone lies in the chosen sub-section, section and location. */
  lemma ChainedNests(v: AssetForm, sections: seq<Section>, subSections: seq<SubSection>, zones: seq<Zone>,
                     offeredSections: seq<Section>, offeredSubSections: seq<SubSection>, offeredZones: seq<Zone>)
    requires Chained(v, sections, subSections, zones, offeredSections, offeredSubSections, offeredZones)
    requires v.locationId != "" && v.sectionId != "" && v.subSectionId != "" && v.zoneId != ""
    ensures exists s :: s in sections && s.id == v.sectionId && s.locationId == v.locationId
    ensures exists s :: s in subSections && s.id == v.subSectionId && s.sectionId == v.sectionId
    ensures exists z :: z in zones && z.id == v.zoneId && z.subSectionId == v.subSectionId
  {
    var i :| 0 <= i < |offeredSections| && offeredSections[i].id == v.sectionId;
    assert offeredSections[i] in offeredSections;
    var j :| 0 <= j < |offeredSubSections| && offeredSubSections[j].id == v.subSectionId;
    assert offeredSubSections[j] in offeredSubSections;
    var k :| 0 <= k < |offeredZones| && offeredZones[k].id == v.zoneId;
    assert offeredZones[k] in offeredZones;
  }

  class AssetModalForm {
    var values: AssetForm
    const asset: Option<Asset>
    const sections: seq<Section>
    const subSections: seq<SubSection>
    const zones: seq<Zone>
    var filteredSections: seq<Section>
    var filteredSubSections: seq<SubSection>
    var filteredZones: seq<Zone>

    predicate Chain()
      reads this
    {
      Chained(values, sections, subSections, zones, filteredSections, filteredSubSections, filteredZones)
    }

    constructor (asset0: Option<Asset>, now: int, sections0: seq<Section>, subSections0: seq<SubSection>, zones0: seq<Zone>)
      ensures values == DefaultValues(asset0, now) && asset == asset0
      ensures sections == sections0 && subSections == subSections0 && zones == zones0
      ensures filteredSections == [] && filteredSubSections == [] && filteredZones == []
      ensures asset0.None? ==> Chain()
    {
      values := DefaultValues(asset0, now);
      asset := asset0;
      sections := sections0;
      subSections := subSections0;
      zones := zones0;
      filteredSections := [];
      filteredSubSections := [];
      filteredZones := [];
    }

    /**
     * The effects that run when the dialog opens on an asset: the form takes the asset's values and
     * the pickers offer its children; then the picker effects, seeing the asset's location, section
     * and sub-section as new values, clear what lies below them.
     */
    method Reset(a: Asset)
      modifies this
      ensures values == AfterPickerEffects(FormOf(a))
      ensures filteredSections == SectionsOf(sections, OrEmpty(a.locationId))
      ensures filteredSubSections == SubSectionsOf(subSections, OrEmpty(a.sectionId))
      ensures filteredZones == ZonesOf(zones, OrEmpty(a.subSectionId))
      ensures Truthy(a.locationId) ==> Chain()
    {
      var watched := FormOf(a);
      values := watched;
      filteredSections := SectionsOf(sections, watched.locationId);
      filteredSubSections := SubSectionsOf(subSections, watched.sectionId);
      filteredZones := ZonesOf(zones, watched.subSectionId);
      if watched.locationId != "" {
        filteredSections := SectionsOf(sections, watched.locationId);
        values := values.(sectionId := "", subSectionId := "", zoneId := "");
      }
      if watched.sectionId != "" {
        filteredSubSections := SubSectionsOf(subSections, watched.sectionId);
        values := values.(subSectionId := "", zoneId := "");
      }
      if watched.subSectionId != "" {
        filteredZones := ZonesOf(zones, watched.subSectionId);
        values := values.(zoneId := "");
      }
    }

    /**
     * Choosing a location. The watched value changes only for a different location; then, when it
     * is non-empty, the effect offers its sections and clears the section, sub-section and zone.
     */
    method ChooseLocation(id: string)
      requires Chain()
      modifies this
      ensures Chain()
      ensures id == old(values.locationId) ==> values == old(values) && filteredSections == old(filteredSections)
      ensures id != old(values.locationId) && id != "" ==>
        values == old(values).(locationId := id, sectionId := "", subSectionId := "", zoneId := "")
        && filteredSections == SectionsOf(sections, id)
      ensures id != old(values.locationId) && id == "" ==> values == old(values).(locationId := id) && filteredSections == old(filteredSections)
      ensures filteredSubSections == old(filteredSubSections) && filteredZones == old(filteredZones)
    {
      if id == values.locationId {
        return;
      }
      values := values.(locationId := id);
      if id != "" {
        filteredSections := SectionsOf(sections, id);
        values := values.(sectionId := "", subSectionId := "", zoneId := "");
      }
    }

    /** Choosing one of the offered sections; a different non-empty one offers its sub-sections and clears the rest. */
    method ChooseSection(id: string)
      requires Chain()
      requires exists i :: 0 <= i < |filteredSections| && filteredSections[i].id == id
      modifies this
      ensures Chain()
      ensures id == old(values.sectionId) ==> values == old(values) && filteredSubSections == old(filteredSubSections)
      ensures id != old(values.sectionId) && id != "" ==>
        values == old(values).(sectionId := id, subSectionId := "", zoneId := "")
        && filteredSubSections == SubSectionsOf(subSections, id)
      ensures id != old(values.sectionId) && id == "" ==> values == old(values).(sectionId := id) && filteredSubSections == old(filteredSubSections)
      ensures filteredSections == old(filteredSections) && filteredZones == old(filteredZones)
    {
      if id == values.sectionId {
        return;
      }
      values := values.(sectionId := id);
      if id != "" {
        filteredSubSections := SubSectionsOf(subSections, id);
        values := values.(subSectionId := "", zoneId := "");
      }
    }

    /** Choosing one of the offered sub-sections; a different non-empty one offers its zones and clears the zone. */
    method ChooseSubSection(id: string)
      requires Chain()
      requires exists i :: 0 <= i < |filteredSubSections| && filteredSubSections[i].id == id
      modifies this
      ensures Chain()
      ensures id == old(values.subSectionId) ==> values == old(values) && filteredZones == old(filteredZones)
      ensures id != old(values.subSectionId) && id != "" ==>
        values == old(values).(subSectionId := id, zoneId := "") && filteredZones == ZonesOf(zones, id)
      ensures id != old(values.subSectionId) && id == "" ==> values == old(values).(subSectionId := id) && filteredZones == old(filteredZones)
      ensures filteredSections == old(filteredSections) && filteredSubSections == old(filteredSubSections)
    {
      if id == values.subSectionId {
        return;
      }
      values := values.(subSectionId := id);
      if id != "" {
        filteredZones := ZonesOf(zones, id);
        values := values.(zoneId := "");
      }
    }

    /** Choosing one of the offered zones, which clears nothing. */
    method ChooseZone(id: string)
      requires Chain()
      requires exists i :: 0 <= i < |filteredZones| && filteredZones[i].id == id
      modifies this
      ensures Chain()
      ensures values == old(values).(zoneId := id)
      ensures filteredSections == old(filteredSections) && filteredSubSections == old(filteredSubSections)
      ensures filteredZones == old(filteredZones)
    {
      values := values.(zoneId := id);
    }
  }
}

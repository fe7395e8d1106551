/**
 * The dialog that records a display asset with its technical details: the form schema, the values
 * a new asset starts from, the "Custom" screen size and resolution, and the record saved.
 */
module UnifiedAssetModal {
  import opened Wrappers
  import opened Strings
  import opened Calendar
  import opened Types
  import opened AssetModal

  /**
   * The form values, numbers already coerced. A date is None when missing or invalid; the custom
   * screen size is None when the form holds no number for it.
   */
  datatype UnifiedForm = UnifiedForm(
    name: string,
    categoryId: string,
    assetLocation: Option<string>,
    googleLocation: Option<string>,
    latitude: Option<int>,
    longitude: Option<int>,
    manufacturer: string,
    modelNumber: string,
    screenSize: string,
    customScreenSize: Option<int>,
    resolution: string,
    customResolution: Option<string>,
    powerConsumption: int,
    operatingSystem: string,
    description: Option<string>,
    purchaseDate: Option<int>,
    installationDate: Option<int>,
    warrantyStartDate: Option<int>,
    warrantyPeriodMonths: int,
    macAddress: string,
    contentManagementSystem: string,
    displayOrientation: string,
    operatingHours: int)

  /** The form schema. */
  predicate ValidUnifiedForm(v: UnifiedForm) {
    && |v.name| >= 1 && |v.categoryId| >= 1 && |v.manufacturer| >= 1 && |v.modelNumber| >= 1
    && |v.screenSize| >= 1 && |v.resolution| >= 1 && |v.operatingSystem| >= 1
    && |v.macAddress| >= 1 && |v.contentManagementSystem| >= 1
    && v.powerConsumption >= 0
    && v.purchaseDate.Some? && v.installationDate.Some? && v.warrantyStartDate.Some?
    && v.warrantyPeriodMonths >= 1
    && (v.displayOrientation == "Landscape" || v.displayOrientation == "Portrait")
    && 1 <= v.operatingHours <= 24
  }

  /** The values a new asset starts from: a 12-month warranty, 24 operating hours, landscape, dates of today. */
  function NewUnifiedForm(now: int): (r: UnifiedForm)
    ensures r.warrantyPeriodMonths == 12 && r.operatingHours == 24 && r.displayOrientation == "Landscape"
    ensures r.purchaseDate == Some(now) && r.installationDate == Some(now) && r.warrantyStartDate == Some(now)
    ensures r.name == "" && !ValidUnifiedForm(r)
  {
    UnifiedForm("", "", Some(""), Some(""), Some(0), Some(0), "", "", "", Some(0), "", Some(""), 0, "", Some(""),
      Some(now), Some(now), Some(now), 12, "", "", "Landscape", 24)
  }

  /** The values the form starts from for an asset under edit. */
  function UnifiedFormOf(a: Asset): (r: UnifiedForm)
    ensures r.name == a.name && r.categoryId == a.categoryId && r.manufacturer == a.manufacturer
    ensures r.modelNumber == a.modelNumber && r.screenSize == a.screenSize && r.resolution == a.resolution
    ensures r.powerConsumption == a.powerConsumption && r.operatingSystem == a.operatingSystem
    ensures r.warrantyPeriodMonths == a.warrantyPeriodMonths && r.operatingHours == a.operatingHours
    ensures r.displayOrientation == a.displayOrientation
    ensures r.latitude == Some(NumOr(a.latitude, 0)) && r.longitude == Some(NumOr(a.longitude, 0))
    ensures r.customScreenSize == Some(NumOr(a.customScreenSize, 0)) && r.customResolution == Some(OrEmpty(a.customResolution))
  {
    UnifiedForm(a.name, a.categoryId, Some(a.assetLocation), Some(OrEmpty(a.googleLocation)),
      Some(NumOr(a.latitude, 0)), Some(NumOr(a.longitude, 0)), a.manufacturer, a.modelNumber, a.screenSize,
      Some(NumOr(a.customScreenSize, 0)), a.resolution, Some(OrEmpty(a.customResolution)), a.powerConsumption,
      a.operatingSystem, Some(a.description), a.purchaseDate, a.installationDate, a.warrantyStartDate,
      a.warrantyPeriodMonths, a.macAddress, a.contentManagementSystem, a.displayOrientation, a.operatingHours)
  }

  function UnifiedDefaultValues(asset: Option<Asset>, now: int): UnifiedForm {
    if asset.Some? then UnifiedFormOf(asset.value) else NewUnifiedForm(now)
  }

  /** The custom-size field shows exactly while the size choice is "Custom"; likewise the custom resolution. */
  predicate ShowCustomScreenSize(v: UnifiedForm) {
    v.screenSize == "Custom"
  }

  predicate ShowCustomResolution(v: UnifiedForm) {
    v.resolution == "Custom"
  }

  /** `` `${customScreenSize} inch` ``: the number's text, or "undefined" without one. */
  function CustomScreenSizeText(custom: Option<int>): (r: string)
    ensures custom.Some? ==> ParseInt(r) == custom
    ensures custom.None? ==> r == "undefined inch"
  {
    if custom.Some? then
      ParseIntOfIntThen(custom.value, " inch");
      IntToString(custom.value) + " inch"
    else "undefined inch"
  }

  /** The saved screen size: the chosen size, or for "Custom" the custom number of inches. */
  function SavedScreenSize(choice: string, custom: Option<int>): (r: string)
    ensures choice != "Custom" ==> r == choice
    ensures choice == "Custom" && custom.Some? ==> ParseInt(r) == custom
    ensures choice == "Custom" ==> r == CustomScreenSizeText(custom)
  {
    if choice == "Custom" then CustomScreenSizeText(custom) else choice
  }

  /** The saved resolution: the chosen one, or for "Custom" the custom text, "" when there is none. */
  function SavedResolution(choice: string, custom: Option<string>): (r: string)
    ensures choice != "Custom" ==> r == choice
    ensures choice == "Custom" && Truthy(custom) ==> r == custom.value
    ensures choice == "Custom" && !Truthy(custom) ==> r == ""
  {
    if choice == "Custom" then OrEmpty(custom) else choice
  }

  /** The record `onSubmit` hands the parent; the dates are saved as day texts. */
  function UnifiedSubmittedAsset(v: UnifiedForm, asset: Option<Asset>): (r: Asset)
    requires ValidUnifiedForm(v)
    ensures r.id == KeptId(asset)
    ensures r.name == v.name && r.categoryId == v.categoryId && r.manufacturer == v.manufacturer
    ensures r.modelNumber == v.modelNumber && r.operatingSystem == v.operatingSystem
    ensures r.screenSize == SavedScreenSize(v.screenSize, v.customScreenSize)
    ensures r.resolution == SavedResolution(v.resolution, v.customResolution)
    ensures r.powerConsumption >= 0 && r.warrantyPeriodMonths >= 1 && 1 <= r.operatingHours <= 24
    ensures r.powerConsumption == v.powerConsumption && r.warrantyPeriodMonths == v.warrantyPeriodMonths
    ensures r.operatingHours == v.operatingHours && r.displayOrientation == v.displayOrientation
    ensures r.purchaseDate == Some(StartOfDay(v.purchaseDate.value))
    ensures r.installationDate == Some(StartOfDay(v.installationDate.value))
    ensures r.warrantyStartDate == Some(StartOfDay(v.warrantyStartDate.value))
  {
    BlankAsset.(
      id := KeptId(asset),
      name := v.name,
      categoryId := v.categoryId,
      assetLocation := OrEmpty(v.assetLocation),
      googleLocation := v.googleLocation,
      latitude := v.latitude,
      longitude := v.longitude,
      manufacturer := v.manufacturer,
      modelNumber := v.modelNumber,
      screenSize := SavedScreenSize(v.screenSize, v.customScreenSize),
      customScreenSize := v.customScreenSize,
      resolution := SavedResolution(v.resolution, v.customResolution),
      customResolution := v.customResolution,
      powerConsumption := v.powerConsumption,
      operatingSystem := v.operatingSystem,
      description := OrEmpty(v.description),
      purchaseDate := Some(StartOfDay(v.purchaseDate.value)),
      installationDate := Some(StartOfDay(v.installationDate.value)),
      warrantyStartDate := Some(StartOfDay(v.warrantyStartDate.value)),
      warrantyPeriodMonths := v.warrantyPeriodMonths,
      macAddress := v.macAddress,
      contentManagementSystem := v.contentManagementSystem,
      displayOrientation := v.displayOrientation,
      operatingHours := v.operatingHours)
  }

  /** `form.handleSubmit(onSubmit)`. */
  function UnifiedSubmit(v: UnifiedForm, asset: Option<Asset>): (r: Option<Asset>)
    ensures r.None? <==> !ValidUnifiedForm(v)
    ensures r.Some? ==> r.value == UnifiedSubmittedAsset(v, asset)
  {
    if ValidUnifiedForm(v) then Some(UnifiedSubmittedAsset(v, asset)) else None
  }

  /** An asset whose details the schema accepts, with a listed (not "Custom") size and resolution. */
  predicate Described(a: Asset) {
    && a.name != "" && a.categoryId != "" && a.manufacturer != "" && a.modelNumber != ""
    && a.screenSize != "" && a.screenSize != "Custom" && a.resolution != "" && a.resolution != "Custom"
    && a.operatingSystem != "" && a.macAddress != "" && a.contentManagementSystem != ""
    && a.powerConsumption >= 0
    && a.purchaseDate.Some? && a.installationDate.Some? && a.warrantyStartDate.Some?
    && a.warrantyPeriodMonths >= 1
    && (a.displayOrientation == "Landscape" || a.displayOrientation == "Portrait")
    && 1 <= a.operatingHours <= 24
  }

  /** Opening a described asset and saving it unchanged is accepted and keeps its id and details. */
  lemma UnifiedEditRoundTrip(a: Asset)
    requires Described(a) && a.id != ""
    ensures UnifiedSubmit(UnifiedFormOf(a), Some(a)).Some?
    ensures var r := UnifiedSubmit(UnifiedFormOf(a), Some(a)).value;
      && r.id == a.id && r.name == a.name && r.categoryId == a.categoryId
      && r.manufacturer == a.manufacturer && r.modelNumber == a.modelNumber
      && r.screenSize == a.screenSize && r.resolution == a.resolution
      && r.powerConsumption == a.powerConsumption && r.operatingSystem == a.operatingSystem
      && r.warrantyPeriodMonths == a.warrantyPeriodMonths && r.operatingHours == a.operatingHours
      && r.displayOrientation == a.displayOrientation
      && r.warrantyStartDate == Some(StartOfDay(a.warrantyStartDate.value))
  {
    assert ValidUnifiedForm(UnifiedFormOf(a));
  }

  /** A custom size saved as text reads back, with `parseInt`, as the number of inches entered. */
  lemma CustomSizeReadsBack(v: UnifiedForm, asset: Option<Asset>, n: int)
    requires ValidUnifiedForm(v) && v.screenSize == "Custom" && v.customScreenSize == Some(n)
    ensures ParseInt(UnifiedSubmit(v, asset).value.screenSize) == Some(n)
  {
  }
}

/**
 * The records of the asset-management application (a digital-signage inventory): asset
 * categories, master assets (asset types), assets in use, the location hierarchy
 * (location > section > sub-section > zone) and maintenance schedules.
 *
 * Representation choices that hold throughout the model:
 * - a date kept as text on a record is an `Option<int>` instant in milliseconds; None stands for a
 *   missing or empty text, which JavaScript treats as false and `new Date` as an invalid date;
 * - numbers are whole numbers: power in watts, coordinates in hundredths of a degree;
 * - an optional string is `Option<string>`, and "truthy" means present and non-empty.
 */
module Types {
  import opened Wrappers

  /** JavaScript truthiness of an optional string. */
  predicate Truthy(s: Option<string>) {
    s.Some? && s.value != ""
  }

  /** JavaScript truthiness of an optional number (0 is false). */
  predicate TruthyNum(n: Option<int>) {
    n.Some? && n.value != 0
  }

  /** `s || ""`. */
  function OrEmpty(s: Option<string>): (r: string)
    ensures Truthy(s) ==> r == s.value
    ensures !Truthy(s) ==> r == ""
  {
    if s.Some? then s.value else ""
  }

  datatype AssetCategory = AssetCategory(id: string, name: string, description: Option<string>)

  datatype Coordinates = Coordinates(latitude: int, longitude: int)

  datatype Asset = Asset(
    id: string,
    name: string,
    categoryId: string,
    assetLocation: string,
    googleLocation: Option<string>,
    latitude: Option<int>,
    longitude: Option<int>,
    manufacturer: string,
    modelNumber: string,
    screenSize: string,
    customScreenSize: Option<int>,
    resolution: string,
    customResolution: Option<string>,
    powerConsumption: int,
    operatingSystem: string,
    description: string,
    purchaseDate: Option<int>,
    installationDate: Option<int>,
    warrantyStartDate: Option<int>,
    warrantyPeriodMonths: int,
    macAddress: string,
    contentManagementSystem: string,
    displayOrientation: string,
    operatingHours: int,
    locationId: Option<string>,
    sectionId: Option<string>,
    subSectionId: Option<string>,
    zoneId: Option<string>,
    serialNumber: Option<string>,
    barcode: Option<string>,
    warrantyEndDate: Option<int>,
    timeSpentMinutes: Option<int>,
    lastMaintenanceDate: Option<int>,
    maintenanceScheduleId: Option<string>,
    nextMaintenanceDate: Option<int>,
    ipAddress: Option<string>,
    brightnessLevel: Option<int>,
    coordinates: Option<Coordinates>,
    // fields the components read although the shared record type does not declare them
    masterAssetId: Option<string>,
    location: Option<string>,
    status: Option<string>
  )

  /** An asset type from the library, which assets in use refer to by `masterAssetId`. */
  datatype MasterAsset = MasterAsset(
    id: string,
    name: string,
    categoryId: string,
    manufacturer: string,
    modelNumber: string,
    description: string,
    estimatedMaintenanceTime: int,
    screenSize: Option<string>,
    resolution: Option<string>,
    connectivity: seq<string>,
    powerConsumption: Option<int>,
    operatingSystem: Option<string>,
    mountType: Option<string>,
    maintenanceScheduleId: Option<string>
  )

  datatype Location = Location(id: string, name: string)
  datatype Section = Section(id: string, name: string, locationId: string)
  datatype SubSection = SubSection(id: string, name: string, sectionId: string)
  datatype Zone = Zone(id: string, name: string, subSectionId: string)

  /** The interval unit of a schedule; `OtherUnit` is any text outside the five declared units. */
  datatype IntervalUnit = Hours | Days | Weeks | Months | Years | OtherUnit(text: string)

  datatype MaintenanceSchedule = MaintenanceSchedule(
    id: string,
    name: string,
    intervalValue: int,
    intervalUnit: IntervalUnit,
    serviceType: string
  )

  datatype MaintenanceStatus =
    | Overdue
    | DueToday
    | DueThisWeek
    | DueThisMonth
    | DueNext30Days
    | Upcoming
    | NoMaintenance

  /** The asset with every field empty, the shape a blank form starts from. */
  const BlankAsset: Asset := Asset(
    "", "", "", "", None, None, None, "", "", "", None, "", None, 0, "", "",
    None, None, None, 0, "", "", "", 0,
    None, None, None, None, None, None, None, None, None, None, None, None, None, None,
    None, None, None)
}

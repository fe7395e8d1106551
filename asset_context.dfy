/**
 * The shared application state (the asset context provider): the lists of categories, master
 * assets, assets and maintenance schedules, the signed-in user, and the operations that update
 * them. Backend calls are modelled by their outcome: a stored row or a failure.
 */
module AssetContext {
  import opened Wrappers
  import opened Strings
  import opened Seqs
  import opened Types

  /** What a backend insert or update answers: the row it stored, or an error. */
  datatype Backend<T> = Stored(row: T) | Failed(message: string)

  /** How an asynchronous operation ends: normally, or by throwing an error with a message. */
  datatype Outcome = Done | Thrown(message: string)

  // ---------------------------------------------------------------- record keys

  function AssetKey(a: Asset): string { a.id }
  function CategoryKey(c: AssetCategory): string { c.id }
  function MasterKey(m: MasterAsset): string { m.id }
  function ScheduleKey(s: MaintenanceSchedule): string { s.id }

  function ScheduleIds(s: seq<MaintenanceSchedule>): (r: seq<string>)
    ensures |r| == |s| && forall i :: 0 <= i < |s| ==> r[i] == s[i].id
  {
    seq(|s|, i requires 0 <= i < |s| => s[i].id)
  }

  // ---------------------------------------------------------------- list updates by id

  /**
   * `list.map(x => x.id === y.id ? y : x)`: the entries with y's id become y, every other entry
   * stays where it was, and the length is preserved.
   */
  function ReplaceById<T>(s: seq<T>, key: T -> string, y: T): (r: seq<T>)
    ensures |r| == |s|
    ensures forall i :: 0 <= i < |s| && key(s[i]) != key(y) ==> r[i] == s[i]
    ensures forall i :: 0 <= i < |s| && key(s[i]) == key(y) ==> r[i] == y
  {
    ReplaceWhere(s, key, key(y), y)
  }

  /** After a replacement, looking the id up finds the new record, provided the id was present. */
  lemma ReplaceByIdFinds<T>(s: seq<T>, key: T -> string, y: T)
    requires exists i :: 0 <= i < |s| && key(s[i]) == key(y)
    ensures Find(ReplaceById(s, key, y), x => key(x) == key(y)) == Some(y)
  {
    var r := ReplaceById(s, key, y);
    var f := Find(r, x => key(x) == key(y));
    var i :| 0 <= i < |s| && key(s[i]) == key(y);
    assert key(r[i]) == key(y);
  }

  /** A replacement leaves the sub-list of records with other ids exactly as it was. */
  lemma {:induction false} ReplaceByIdKeepsOthers<T(!new)>(s: seq<T>, key: T -> string, y: T)
    ensures Filter(ReplaceById(s, key, y), x => key(x) != key(y)) == Filter(s, x => key(x) != key(y))
    decreases |s|
  {
    if |s| > 0 {
      var r := ReplaceById(s, key, y);
      ReplaceByIdKeepsOthers(s[1..], key, y);
      assert r[1..] == ReplaceById(s[1..], key, y);
    }
  }

  /** `list.filter(x => x.id !== id)`. */
  function DeleteById<T(!new)>(s: seq<T>, key: T -> string, id: string): (r: seq<T>)
    ensures forall x :: x in r <==> x in s && key(x) != id
    ensures |r| + Count(s, x => key(x) == id) == |s|
  {
    FilterPartition(s, x => key(x) != id, x => key(x) == id);
    Filter(s, x => key(x) != id)
  }

  // ---------------------------------------------------------------- pure parts of the operations

  /**
   * The columns `addAsset` and `updateAsset` send: 23 fields of the asset under their column names,
   * and the status. The id, the location hierarchy, the maintenance fields and the other fields of
   * the record are not sent.
   */
  datatype AssetColumns = AssetColumns(
    name: string,
    categoryId: string,
    assetLocation: string,
    googleLocation: Option<string>,
    latitude: Option<int>,
    longitude: Option<int>,
    manufacturer: string,
    modelNumber: string,
    screenSize: string,
    customScreenSize: Option<int>,
    resolution: string,
    customResolution: Option<string>,
    powerConsumption: int,
    operatingSystem: string,
    description: string,
    purchaseDate: Option<int>,
    installationDate: Option<int>,
    warrantyStartDate: Option<int>,
    warrantyPeriodMonths: int,
    macAddress: string,
    contentManagementSystem: string,
    displayOrientation: string,
    operatingHours: int,
    status: Option<string>
  )

  /** The row `addAsset` inserts: the columns and the signed-in user's id. */
  datatype InsertRow = InsertRow(columns: AssetColumns, userId: string)

  /** The row `addCategory` inserts: the category's name and description and the user's id; its id is not sent. */
  datatype CategoryRow = CategoryRow(name: string, description: Option<string>, userId: string)

  function CategoryPayload(c: AssetCategory, userId: string): (r: CategoryRow)
    ensures r.name == c.name && r.description == c.description && r.userId == userId
  {
    CategoryRow(c.name, c.description, userId)
  }

  /** Two categories send the same row exactly when their names and descriptions agree: the id is not sent. */
  lemma CategoryIdNotSent(c: AssetCategory, d: AssetCategory, userId: string)
    ensures CategoryPayload(c, userId) == CategoryPayload(d, userId) <==> c.name == d.name && c.description == d.description
  {
  }

  /** The columns of an asset, as `updateAsset` sends them (the status as it is). */
  function Columns(a: Asset): AssetColumns {
    AssetColumns(a.name, a.categoryId, a.assetLocation, a.googleLocation, a.latitude, a.longitude,
      a.manufacturer, a.modelNumber, a.screenSize, a.customScreenSize, a.resolution, a.customResolution,
      a.powerConsumption, a.operatingSystem, a.description, a.purchaseDate, a.installationDate,
      a.warrantyStartDate, a.warrantyPeriodMonths, a.macAddress, a.contentManagementSystem,
      a.displayOrientation, a.operatingHours, a.status)
  }

  /** The asset `base` with its sent fields overwritten by the columns. */
  function WithColumns(base: Asset, c: AssetColumns): Asset {
    base.(name := c.name, categoryId := c.categoryId, assetLocation := c.assetLocation,
      googleLocation := c.googleLocation, latitude := c.latitude, longitude := c.longitude,
      manufacturer := c.manufacturer, modelNumber := c.modelNumber, screenSize := c.screenSize,
      customScreenSize := c.customScreenSize, resolution := c.resolution, customResolution := c.customResolution,
      powerConsumption := c.powerConsumption, operatingSystem := c.operatingSystem, description := c.description,
      purchaseDate := c.purchaseDate, installationDate := c.installationDate,
      warrantyStartDate := c.warrantyStartDate, warrantyPeriodMonths := c.warrantyPeriodMonths,
      macAddress := c.macAddress, contentManagementSystem := c.contentManagementSystem,
      displayOrientation := c.displayOrientation, operatingHours := c.operatingHours, status := c.status)
  }

  /** Writing an asset's own columns back changes nothing, and the columns written are read back. */
  lemma ColumnsRoundTrip(a: Asset, base: Asset, c: AssetColumns)
    ensures WithColumns(a, Columns(a)) == a
    ensures Columns(WithColumns(base, c)) == c
  {
  }

  /**
   * Only the sent fields reach the backend: an asset that differs from another only in fields
   * outside the columns (its id, its place in the location hierarchy, its maintenance fields, ...)
   * sends the same columns.
   */
  lemma UnsentFieldsIgnored(a: Asset, b: Asset)
    ensures Columns(WithColumns(b, Columns(a))) == Columns(a)
    ensures Columns(a) == Columns(b) <==> WithColumns(b, Columns(a)) == b
  {
  }

  /** The row sent for insertion: the asset's columns with the status defaulting to "active", and the user's id. */
  function InsertPayload(a: Asset, userId: string): (r: InsertRow)
    ensures r.userId == userId
    ensures r.columns.status == Some(if Truthy(a.status) then a.status.value else "active") && Truthy(r.columns.status)
    ensures WithColumns(a, r.columns) == a.(status := r.columns.status)
    ensures r.columns.(status := a.status) == Columns(a)
  {
    InsertRow(Columns(a).(status := Some(if Truthy(a.status) then a.status.value else "active")), userId)
  }

  /**
   * `addMaintenanceSchedule`'s new list: the schedule is appended with id
   * `max(Number(ids), 0) + 1`, whatever id it came with.
   */
  function AddedSchedule(schedules: seq<MaintenanceSchedule>, s: MaintenanceSchedule): (r: seq<MaintenanceSchedule>)
    ensures |r| == |schedules| + 1 && r[..|schedules|] == schedules
    ensures r[|schedules|] == s.(id := NextId(NumberOf, ScheduleIds(schedules)))
  {
    schedules + [s.(id := NextId(NumberOf, ScheduleIds(schedules)))]
  }

  /** When every existing id is numeric, the appended schedule's id is new. */
  lemma AddedScheduleFresh(schedules: seq<MaintenanceSchedule>, s: MaintenanceSchedule)
    requires AllNumeric(NumberOf, ScheduleIds(schedules))
    ensures forall i :: 0 <= i < |schedules| ==> schedules[i].id != AddedSchedule(schedules, s)[|schedules|].id
  {
    NumberOfReadsBack();
    IdAfterFresh(NumberOf, ScheduleIds(schedules), 0);
    var ids := ScheduleIds(schedules);
    forall i | 0 <= i < |schedules| ensures schedules[i].id != NextId(NumberOf, ids) {
      assert ids[i] == schedules[i].id;
    }
  }

  // ---------------------------------------------------------------- the provider

  class AssetProvider {
    var categories: seq<AssetCategory>
    var masterAssets: seq<MasterAsset>
    var assets: seq<Asset>
    // the location hierarchy has no setter in the provider: it keeps its initial (empty) value
    const locations: seq<Location>
    const sections: seq<Section>
    const subSections: seq<SubSection>
    const zones: seq<Zone>
    var maintenanceSchedules: seq<MaintenanceSchedule>
    var loading: bool
    var user: Option<string>

    /** Initially everything is empty, nobody is signed in, and the data is loading. */
    constructor ()
      ensures categories == [] && masterAssets == [] && assets == [] && maintenanceSchedules == []
      ensures locations == [] && sections == [] && subSections == [] && zones == []
      ensures loading && user == None
    {
      categories := [];
      masterAssets := [];
      assets := [];
      locations := [];
      sections := [];
      subSections := [];
      zones := [];
      maintenanceSchedules := [];
      loading := true;
      user := None;
    }

    /** `setAssets`. */
    method SetAssets(s: seq<Asset>)
      modifies this
      ensures assets == s
      ensures categories == old(categories) && masterAssets == old(masterAssets)
      ensures maintenanceSchedules == old(maintenanceSchedules) && user == old(user) && loading == old(loading)
    {
      assets := s;
    }

    /** `setCategories`. */
    method SetCategories(s: seq<AssetCategory>)
      modifies this
      ensures categories == s
      ensures assets == old(assets) && masterAssets == old(masterAssets)
      ensures maintenanceSchedules == old(maintenanceSchedules) && user == old(user) && loading == old(loading)
    {
      categories := s;
    }

    /** `setMasterAssets`. */
    method SetMasterAssets(s: seq<MasterAsset>)
      modifies this
      ensures masterAssets == s
      ensures assets == old(assets) && categories == old(categories)
      ensures maintenanceSchedules == old(maintenanceSchedules) && user == old(user) && loading == old(loading)
    {
      masterAssets := s;
    }

    /**
     * The authentication listener: a session without a user empties categories and assets and
     * stops loading; a session with a user keeps the lists until `LoadData` fills them.
     */
    method SessionChanged(u: Option<string>)
      modifies this
      ensures user == u
      ensures u.None? ==> categories == [] && assets == [] && !loading
      ensures u.Some? ==> categories == old(categories) && assets == old(assets) && loading == old(loading)
      ensures masterAssets == old(masterAssets) && maintenanceSchedules == old(maintenanceSchedules)
    {
      user := u;
      if u.None? {
        categories := [];
        assets := [];
        loading := false;
      }
    }

    /** `loadData`: each list that loaded replaces the old one (a missing answer is an empty list); a failed load keeps it. */
    method LoadData(cats: Backend<seq<AssetCategory>>, rows: Backend<seq<Asset>>)
      modifies this
      ensures categories == (if cats.Stored? then cats.row else old(categories))
      ensures assets == (if rows.Stored? then rows.row else old(assets))
      ensures !loading
      ensures masterAssets == old(masterAssets) && maintenanceSchedules == old(maintenanceSchedules) && user == old(user)
    {
      loading := true;
      if cats.Stored? {
        categories := cats.row;
      }
      if rows.Stored? {
        assets := rows.row;
      }
      loading := false;
    }

    /**
     * `addAsset`: without a user, throw before anything else; otherwise insert the payload; a
     * failure is rethrown and changes nothing, a stored row is put in front of the list.
     */
    method AddAsset(a: Asset, backend: InsertRow -> Backend<Asset>) returns (outcome: Outcome)
      modifies this
      ensures user.None? ==> outcome == Thrown("User must be authenticated to add assets") && assets == old(assets)
      ensures user.Some? && backend(InsertPayload(a, user.value)).Failed? ==>
        outcome == Thrown(backend(InsertPayload(a, user.value)).message) && assets == old(assets)
      ensures user.Some? && backend(InsertPayload(a, user.value)).Stored? ==>
        outcome == Done && assets == [backend(InsertPayload(a, user.value)).row] + old(assets)
      ensures categories == old(categories) && masterAssets == old(masterAssets)
      ensures maintenanceSchedules == old(maintenanceSchedules) && user == old(user) && loading == old(loading)
    {
      if user.None? {
        return Thrown("User must be authenticated to add assets");
      }
      var answer := backend(InsertPayload(a, user.value));
      if answer.Failed? {
        return Thrown(answer.message);
      }
      assets := [answer.row] + assets;
      return Done;
    }

    /**
     * `updateAsset`: the same guards; the asset's columns are sent for the row with its id, and a
     * stored row replaces every asset with that id.
     */
    method UpdateAsset(a: Asset, backend: (string, AssetColumns) -> Backend<Asset>) returns (outcome: Outcome)
      modifies this
      ensures user.None? ==> outcome == Thrown("User must be authenticated to update assets") && assets == old(assets)
      ensures user.Some? && backend(a.id, Columns(a)).Failed? ==>
        outcome == Thrown(backend(a.id, Columns(a)).message) && assets == old(assets)
      ensures user.Some? && backend(a.id, Columns(a)).Stored? ==>
        outcome == Done && assets == ReplaceWhere(old(assets), AssetKey, a.id, backend(a.id, Columns(a)).row)
      ensures categories == old(categories) && masterAssets == old(masterAssets)
      ensures maintenanceSchedules == old(maintenanceSchedules) && user == old(user) && loading == old(loading)
    {
      if user.None? {
        return Thrown("User must be authenticated to update assets");
      }
      var answer := backend(a.id, Columns(a));
      if answer.Failed? {
        return Thrown(answer.message);
      }
      assets := ReplaceWhere(assets, AssetKey, a.id, answer.row);
      return Done;
    }

    /** `addCategory`: the same guards; the name, description and user id are sent, and a stored row is appended. */
    method AddCategory(c: AssetCategory, backend: CategoryRow -> Backend<AssetCategory>) returns (outcome: Outcome)
      modifies this
      ensures user.None? ==> outcome == Thrown("User must be authenticated to add categories") && categories == old(categories)
      ensures user.Some? && backend(CategoryPayload(c, user.value)).Failed? ==>
        outcome == Thrown(backend(CategoryPayload(c, user.value)).message) && categories == old(categories)
      ensures user.Some? && backend(CategoryPayload(c, user.value)).Stored? ==>
        outcome == Done && categories == old(categories) + [backend(CategoryPayload(c, user.value)).row]
      ensures assets == old(assets) && masterAssets == old(masterAssets)
      ensures maintenanceSchedules == old(maintenanceSchedules) && user == old(user) && loading == old(loading)
    {
      if user.None? {
        return Thrown("User must be authenticated to add categories");
      }
      var answer := backend(CategoryPayload(c, user.value));
      if answer.Failed? {
        return Thrown(answer.message);
      }
      categories := categories + [answer.row];
      return Done;
    }

    /** `updateMasterAsset`: replace the master assets with the same id. */
    method UpdateMasterAsset(m: MasterAsset)
      modifies this
      ensures masterAssets == ReplaceById(old(masterAssets), MasterKey, m)
      ensures assets == old(assets) && categories == old(categories)
      ensures maintenanceSchedules == old(maintenanceSchedules) && user == old(user) && loading == old(loading)
    {
      masterAssets := ReplaceById(masterAssets, MasterKey, m);
    }

    /** `addMaintenanceSchedule`: append under a freshly numbered id. */
    method AddMaintenanceSchedule(s: MaintenanceSchedule)
      modifies this
      ensures maintenanceSchedules == AddedSchedule(old(maintenanceSchedules), s)
      ensures assets == old(assets) && categories == old(categories)
      ensures masterAssets == old(masterAssets) && user == old(user) && loading == old(loading)
    {
      maintenanceSchedules := AddedSchedule(maintenanceSchedules, s);
    }

    /** `updateMaintenanceSchedule`: replace the schedules with the same id. */
    method UpdateMaintenanceSchedule(s: MaintenanceSchedule)
      modifies this
      ensures maintenanceSchedules == ReplaceById(old(maintenanceSchedules), ScheduleKey, s)
      ensures assets == old(assets) && categories == old(categories)
      ensures masterAssets == old(masterAssets) && user == old(user) && loading == old(loading)
    {
      maintenanceSchedules := ReplaceById(maintenanceSchedules, ScheduleKey, s);
    }

    /** `deleteMaintenanceSchedule`: drop the schedules with that id, keeping the others in order. */
    method DeleteMaintenanceSchedule(id: string)
      modifies this
      ensures maintenanceSchedules == DeleteById(old(maintenanceSchedules), ScheduleKey, id)
      ensures assets == old(assets) && categories == old(categories)
      ensures masterAssets == old(masterAssets) && user == old(user) && loading == old(loading)
    {
      maintenanceSchedules := DeleteById(maintenanceSchedules, ScheduleKey, id);
    }
  }
}

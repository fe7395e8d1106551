/**
 * The maintenance-schedules page: the next due date of an asset from its last maintenance and
 * its schedule, the seven-way status classification, the page's filters, and saving a schedule
 * on an asset.
 */
module MaintenanceSchedules {
  import opened Wrappers
  import opened Strings
  import opened Seqs
  import opened Calendar
  import opened Types
  import opened AssetContext

  // ---------------------------------------------------------------- next date

  /** JavaScript's `x % 12`: the remainder takes the sign of the dividend. */
  function JsRem12(a: int): (r: int)
    ensures -12 < r < 12
    ensures a >= 0 ==> r == a % 12
    ensures a < 0 ==> r == (if a % 12 == 0 then 0 else a % 12 - 12)
  {
    if a >= 0 then a % 12 else -((-a) % 12)
  }

  /**
   * The month step as written: month index `m + v` is split into
   * `year + Math.floor((m + v) / 12)` and `(m + v) % 12` with JavaScript's truncating `%`, and
   * passed to `new Date(year, month, date)`.
   */
  function MonthStepAsWritten(last: int, v: int): (r: int)
    ensures TimeOfDay(r) == 0
  {
    AsWrittenIndexDate(FullYear(last), Month0(last) + v, DateOfMonth(last))
  }

  /** The same computation for month index nm counted from January of year y0. */
  function AsWrittenIndexDate(y0: int, nm: int, d: int): int {
    NewDate(y0 + nm / 12, JsRem12(nm), d)
  }

  /**
   * The month step with the month index reduced into 0..11, as the floor division of the year
   * intends; it is `new Date(year, month + v, date)` with the month index left to `new Date`.
   */
  function MonthStep(last: int, v: int): (r: int)
    ensures r == NewDate(FullYear(last), Month0(last) + v, DateOfMonth(last))
  {
    var nm := Month0(last) + v;
    assert (nm % 12) / 12 == 0 && (nm % 12) % 12 == nm % 12;
    MonthIndexDate(FullYear(last), nm, DateOfMonth(last))
  }

  /** For every interval that does not reach back before January of the current year the two agree. */
  lemma MonthStepAgrees(last: int, v: int)
    requires Month0(last) + v >= 0
    ensures MonthStepAsWritten(last, v) == MonthStep(last, v)
  {
    var y0, nm, d := FullYear(last), Month0(last) + v, DateOfMonth(last);
    assert AsWrittenIndexDate(y0, nm, d) == MonthIndexDate(y0, nm, d);
  }

  /**
   * A negative month index that is not a multiple of 12 is reduced twice as written: the year
   * is floored once by the code and once again by `new Date`, so the date lands a whole year
   * before the intended one.
   */
  lemma MonthStepAsWrittenYearEarly(last: int, v: int)
    requires Month0(last) + v < 0 && (Month0(last) + v) % 12 != 0
    ensures MonthStepAsWritten(last, v) == MonthStep(last, v - 12)
    ensures MonthStepAsWritten(last, v) < MonthStep(last, v)
  {
    var y0, nm, d := FullYear(last), Month0(last) + v, DateOfMonth(last);
    assert Month0(last) + (v - 12) == nm - 12;
    IndexYearEarly(y0, nm, d);
  }

  lemma IndexYearEarly(y0: int, nm: int, d: int)
    requires nm < 0 && nm % 12 != 0
    ensures AsWrittenIndexDate(y0, nm, d) == MonthIndexDate(y0, nm - 12, d)
    ensures AsWrittenIndexDate(y0, nm, d) < MonthIndexDate(y0, nm, d)
  {
    var y := y0 + nm / 12;
    var m := nm % 12;
    var w := JsRem12(nm);
    assert w + 12 == m && -12 <= w < 0;
    assert (nm - 12) / 12 == nm / 12 - 1 && (nm - 12) % 12 == m;
    MakeDayNegativeMonth(y, w, d);
    assert NewDate(y, w, d) == NewDate(y - 1, m, d);
    MakeDayYearEarlier(y, m, d);
  }

  /** `new Date(year + v, month, date)`: a midnight, and for v = 0 the midnight of the same day. */
  function YearStep(last: int, v: int): (r: int)
    ensures TimeOfDay(r) == 0
    ensures v == 0 ==> r == StartOfDay(last)
  {
    MakeDayOfValid(CivilFromDays(Day(last)));
    NewDate(FullYear(last) + v, Month0(last), DateOfMonth(last))
  }

  /**
   * The candidate next date of one schedule step from `last`; an unknown unit gives `now`. Month
   * and year steps fall on a midnight, and a zero interval of a known unit stays on the same day.
   * Months step with the corrected `MonthStep`, which is the written step for every month index
   * that stays at or after January of the last date's year (so for every interval v >= 0).
   */
  function StepDate(last: int, v: int, unit: IntervalUnit, now: int): (r: int)
    ensures unit.Months? || unit.Years? ==> TimeOfDay(r) == 0
    ensures v == 0 && !unit.OtherUnit? ==> Day(r) == Day(last)
    ensures unit.OtherUnit? ==> r == now
    ensures unit.Months? && Month0(last) + v >= 0 ==> r == MonthStepAsWritten(last, v)
  {
    MakeDayOfValid(CivilFromDays(Day(last)));
    match unit
    case Hours => last + v * HourMs
    case Days => AddDays(last, v)
    case Weeks => AddDays(last, v * 7)
    case Months =>
      if Month0(last) + v >= 0 then MonthStepAgrees(last, v); MonthStep(last, v) else MonthStep(last, v)
    case Years => YearStep(last, v)
    case OtherUnit(_) => now
  }

  /** Hours, days and weeks move by exactly v hours, v days or 7v days, keeping the time of day for days and weeks; unknown units give `now`. */
  lemma StepDateFixedUnits(last: int, v: int, now: int)
    ensures StepDate(last, v, Hours, now) - last == v * 3600000
    ensures Day(StepDate(last, v, Days, now)) == Day(last) + v && TimeOfDay(StepDate(last, v, Days, now)) == TimeOfDay(last)
    ensures Day(StepDate(last, v, Weeks, now)) == Day(last) + 7 * v && TimeOfDay(StepDate(last, v, Weeks, now)) == TimeOfDay(last)
    ensures forall t :: StepDate(last, v, OtherUnit(t), now) == now
  {
  }

  /**
   * A month step keeps the date of month (when it exists in every month), advances the month
   * index by v across year boundaries, and falls on midnight.
   */
  lemma MonthStepKeepsDate(last: int, v: int)
    requires DateOfMonth(last) <= 28
    ensures DateOfMonth(MonthStep(last, v)) == DateOfMonth(last)
    ensures 12 * FullYear(MonthStep(last, v)) + Month0(MonthStep(last, v)) == 12 * FullYear(last) + Month0(last) + v
    ensures TimeOfDay(MonthStep(last, v)) == 0
  {
    var y0, nm, d := FullYear(last), Month0(last) + v, DateOfMonth(last);
    assert 1 <= d by {
      assert ValidCivil(CivilFromDays(Day(last)));
    }
    MonthIndexDateFields(y0, nm, d);
  }

  /** A year step keeps month and date whenever that date exists in the target year. */
  lemma YearStepKeepsDate(last: int, v: int)
    requires DateOfMonth(last) <= MonthLength(FullYear(last) + v, Month0(last) + 1)
    ensures FullYear(YearStep(last, v)) == FullYear(last) + v
    ensures Month0(YearStep(last, v)) == Month0(last)
    ensures DateOfMonth(YearStep(last, v)) == DateOfMonth(last)
    ensures TimeOfDay(YearStep(last, v)) == 0
  {
    var m := Month0(last);
    var d := DateOfMonth(last);
    var r := YearStep(last, v);
    assert r == NewDate(FullYear(last) + v, m, d);
    assert m / 12 == 0 && m % 12 == m;
    NewDateFields(FullYear(last) + v, m, d);
  }

  /**
   * A date past the end of the target month overflows into the next one (31 January + 1 month is
   * early March); y0, nm and d name the year, the month index reached and the date of month.
   */
  lemma MonthStepOverflow(last: int, v: int, y0: int, nm: int, d: int)
    requires y0 == FullYear(last) && nm == Month0(last) + v && d == DateOfMonth(last)
    requires d > MonthLength(y0 + nm / 12, nm % 12 + 1)
    ensures Day(MonthStep(last, v)) == MakeDay(y0 + nm / 12, nm % 12 + 1, d - MonthLength(y0 + nm / 12, nm % 12 + 1))
  {
    assert MonthStep(last, v) == MonthIndexDate(y0, nm, d);
    MonthIndexDateOverflow(y0, nm, d);
  }

  /** The schedule an id refers to (`schedules.find(s => s.id === id)`): the first with that id. */
  function ScheduleById(schedules: seq<MaintenanceSchedule>, id: string): (r: Option<MaintenanceSchedule>)
    ensures r.None? <==> forall i :: 0 <= i < |schedules| ==> schedules[i].id != id
    ensures r.Some? ==> IsFirst(schedules, (s: MaintenanceSchedule) => s.id == id, r.value)
  {
    Find(schedules, (s: MaintenanceSchedule) => s.id == id)
  }

  /** `calculateNextMaintenanceDate`. */
  function CalculateNextDate(a: Asset, schedules: seq<MaintenanceSchedule>, now: int): (r: int)
    ensures a.lastMaintenanceDate.None? || !Truthy(a.maintenanceScheduleId) ==> r == now
    ensures Truthy(a.maintenanceScheduleId) && ScheduleById(schedules, a.maintenanceScheduleId.value).None? ==> r == now
    ensures a.lastMaintenanceDate.Some? && Truthy(a.maintenanceScheduleId) && ScheduleById(schedules, a.maintenanceScheduleId.value).Some? ==>
      var s := ScheduleById(schedules, a.maintenanceScheduleId.value).value;
      s.id == a.maintenanceScheduleId.value && s in schedules && r == StepDate(a.lastMaintenanceDate.value, s.intervalValue, s.intervalUnit, now)
  {
    if a.lastMaintenanceDate.None? || !Truthy(a.maintenanceScheduleId) then now
    else
      match ScheduleById(schedules, a.maintenanceScheduleId.value)
      case None => now
      case Some(s) => StepDate(a.lastMaintenanceDate.value, s.intervalValue, s.intervalUnit, now)
  }

  // ---------------------------------------------------------------- status

  /** The first-match cascade of `getMaintenanceStatus` for a due date at instant now. */
  function Classify(next: int, now: int): (r: MaintenanceStatus)
    ensures r != NoMaintenance
    ensures r == Overdue <==> Day(next) < Day(now)
    ensures r == DueToday <==> Day(next) == Day(now)
    ensures r == DueThisWeek <==> Day(next) > Day(now) && IsThisWeek(next, now)
    ensures r == DueThisWeek ==> 0 < Day(next) - Day(now) < 7
    ensures r == DueThisMonth <==> Day(next) > Day(now) && !IsThisWeek(next, now) && IsThisMonth(next, now)
    ensures r == DueNext30Days <==>
      Day(next) > Day(now) && !IsThisWeek(next, now) && !IsThisMonth(next, now) && next < AddDays(now, 30)
    ensures r == Upcoming <==>
      Day(next) > Day(now) && !IsThisWeek(next, now) && !IsThisMonth(next, now) && next >= AddDays(now, 30)
  {
    if next < now && !IsToday(next, now) then Overdue
    else if IsToday(next, now) then DueToday
    else if IsThisWeek(next, now) then (SameWeekNear(Day(next), Day(now)); DueThisWeek)
    else if IsThisMonth(next, now) then DueThisMonth
    else if next < AddDays(now, 30) then DueNext30Days
    else Upcoming
  }

  /**
   * Independently of the week numbering: a due date is due this week exactly when it falls on a
   * later day before the coming Sunday, that is fewer than 7 - weekday days after today.
   */
  lemma DueThisWeekBeforeSunday(next: int, now: int)
    ensures Classify(next, now) == DueThisWeek <==> 0 < Day(next) - Day(now) < 7 - Weekday(Day(now))
  {
    var z, d := Day(now), Day(next);
    var wz, wd := Weekday(z), Weekday(d);
    assert z + 4 == 7 * WeekOfDay(z) + wz && d + 4 == 7 * WeekOfDay(d) + wd;
    if 0 < d - z && d - z < 7 - wz {
      assert WeekOfDay(d) == WeekOfDay(z);
    }
  }

  /** The due date the page uses: the stored next date when there is one, otherwise the computed one. */
  function EffectiveNextDate(a: Asset, schedules: seq<MaintenanceSchedule>, now: int): (r: int)
    ensures a.nextMaintenanceDate.Some? ==> r == a.nextMaintenanceDate.value
    ensures a.nextMaintenanceDate.None? ==> r == CalculateNextDate(a, schedules, now)
  {
    if a.nextMaintenanceDate.Some? then a.nextMaintenanceDate.value else CalculateNextDate(a, schedules, now)
  }

  /** `getMaintenanceStatus`. */
  function Status(a: Asset, schedules: seq<MaintenanceSchedule>, now: int): (r: MaintenanceStatus)
    ensures r == NoMaintenance <==> a.lastMaintenanceDate.None? || !Truthy(a.maintenanceScheduleId)
    ensures r != NoMaintenance ==> r == Classify(EffectiveNextDate(a, schedules, now), now)
  {
    if a.lastMaintenanceDate.None? || !Truthy(a.maintenanceScheduleId) then NoMaintenance
    else Classify(EffectiveNextDate(a, schedules, now), now)
  }

  /** A stored next date decides the status on its own: the schedules are not consulted. */
  lemma StoredDateDecides(a: Asset, s1: seq<MaintenanceSchedule>, s2: seq<MaintenanceSchedule>, now: int)
    requires a.nextMaintenanceDate.Some?
    ensures Status(a, s1, now) == Status(a, s2, now)
  {
  }

  /** An asset whose schedule id matches no schedule is due "now", that is, due today. */
  lemma MissingScheduleDueToday(a: Asset, schedules: seq<MaintenanceSchedule>, now: int)
    requires a.lastMaintenanceDate.Some? && Truthy(a.maintenanceScheduleId) && a.nextMaintenanceDate.None?
    requires ScheduleById(schedules, a.maintenanceScheduleId.value).None?
    ensures Status(a, schedules, now) == DueToday
  {
  }

  // ---------------------------------------------------------------- schedule descriptions

  /** The unit's name as stored on a schedule; the schedule's own text for an unknown unit. */
  function UnitText(u: IntervalUnit): (r: string)
    ensures !u.OtherUnit? ==> |r| >= 3 && r[|r| - 1] != 's'
    ensures u.OtherUnit? ==> r == u.text
  {
    match u
    case Hours => "hour"
    case Days => "day"
    case Weeks => "week"
    case Months => "month"
    case Years => "year"
    case OtherUnit(t) => t
  }

  /**
   * `getIntervalDisplay`: "None" without an id, "Unknown" for an id no schedule has, otherwise
   * the value, a space and the unit, with a plural "s" after a value above 1.
   */
  function IntervalDisplay(schedules: seq<MaintenanceSchedule>, id: Option<string>): (r: string)
    ensures !Truthy(id) <==> r == "None"
    ensures Truthy(id) && ScheduleById(schedules, id.value).None? <==> r == "Unknown"
    ensures Truthy(id) && ScheduleById(schedules, id.value).Some? ==>
      var s := ScheduleById(schedules, id.value).value;
      var head := IntToString(s.intervalValue) + " " + UnitText(s.intervalUnit);
      head <= r && (s.intervalValue > 1 <==> |r| == |head| + 1) && (s.intervalValue > 1 ==> r[|r| - 1] == 's')
  {
    if !Truthy(id) then "None"
    else
      match ScheduleById(schedules, id.value)
      case None => "Unknown"
      case Some(s) =>
        var head := IntToString(s.intervalValue) + " " + UnitText(s.intervalUnit);
        var r := head + (if s.intervalValue > 1 then "s" else "");
        assert r[0] == head[0] && (head[0] == '-' || IsDigit(head[0]));
        r
  }

  /** `getScheduleName` (name) and `getServiceType` (service type): "None" without an id, "Unknown" for an unknown one. */
  function ServiceTypeOf(schedules: seq<MaintenanceSchedule>, id: Option<string>): (r: string)
    ensures !Truthy(id) ==> r == "None"
    ensures Truthy(id) && ScheduleById(schedules, id.value).None? ==> r == "Unknown"
    ensures Truthy(id) && ScheduleById(schedules, id.value).Some? ==> r == ScheduleById(schedules, id.value).value.serviceType
  {
    if !Truthy(id) then "None"
    else
      match ScheduleById(schedules, id.value)
      case None => "Unknown"
      case Some(s) => s.serviceType
  }

  /** `getAssetName`: the master asset's name of the first asset with that id, or "Unknown". */
  function AssetName(assets: seq<Asset>, masters: seq<MasterAsset>, id: string): (r: string)
    ensures (forall i :: 0 <= i < |assets| ==> assets[i].id != id) ==> r == "Unknown"
    ensures forall a, m ::
      (IsFirst(assets, (a: Asset) => a.id == id, a) && IsFirst(masters, (m: MasterAsset) => a.masterAssetId == Some(m.id), m))
      ==> r == m.name
    ensures forall a ::
      (IsFirst(assets, (a: Asset) => a.id == id, a) && forall j :: 0 <= j < |masters| ==> a.masterAssetId != Some(masters[j].id))
      ==> r == "Unknown"
  {
    match Find(assets, (a: Asset) => a.id == id)
    case None => "Unknown"
    case Some(a) =>
      match Find(masters, (m: MasterAsset) => a.masterAssetId == Some(m.id))
      case None => "Unknown"
      case Some(m) => m.name
  }

  // ---------------------------------------------------------------- filters

  /** The page's filter controls; "all" (or None for the status) switches a filter off. */
  datatype ScheduleFilters = ScheduleFilters(
    searchQuery: string,
    statusFilter: Option<MaintenanceStatus>,
    serviceTypeFilter: string,
    locationFilter: string,
    timeRangeFilter: string)

  const ClearedFilters := ScheduleFilters("", None, "all", "all", "all")

  /**
   * The search: the lowercased query occurs in the asset's name or its serial number. The empty
   * query matches every asset.
   */
  predicate MatchesSearch(a: Asset, assets: seq<Asset>, masters: seq<MasterAsset>, q: string)
    ensures q == "" ==> MatchesSearch(a, assets, masters, q)
    ensures ContainsIgnoringCase(OrEmpty(a.serialNumber), q) ==> MatchesSearch(a, assets, masters, q)
  {
    ContainsIgnoringCase(AssetName(assets, masters, a.id), q) || ContainsIgnoringCase(OrEmpty(a.serialNumber), q)
  }

  predicate MatchesServiceType(a: Asset, schedules: seq<MaintenanceSchedule>, t: string) {
    Truthy(a.maintenanceScheduleId)
    && var s := ScheduleById(schedules, a.maintenanceScheduleId.value); s.Some? && s.value.serviceType == t
  }

  /** The time-range filter on the stored next date; an unrecognised range keeps every dated asset. */
  predicate MatchesTimeRange(a: Asset, range: string, now: int) {
    a.nextMaintenanceDate.Some?
    && var next := a.nextMaintenanceDate.value;
    if range == "today" then IsToday(next, now)
    else if range == "this_week" then IsThisWeek(next, now)
    else if range == "this_month" then IsThisMonth(next, now)
    else if range == "next_30_days" then next < AddDays(now, 30)
    else if range == "overdue" then next < now && !IsToday(next, now)
    else true
  }

  // Each filter as a test that passes everything while the filter is off.
  function BySearch(f: ScheduleFilters, assets: seq<Asset>, masters: seq<MasterAsset>): Asset -> bool {
    (a: Asset) => f.searchQuery == "" || MatchesSearch(a, assets, masters, f.searchQuery)
  }
  function ByStatus(f: ScheduleFilters, schedules: seq<MaintenanceSchedule>, now: int): Asset -> bool {
    (a: Asset) => f.statusFilter.None? || Status(a, schedules, now) == f.statusFilter.value
  }
  function ByServiceType(f: ScheduleFilters, schedules: seq<MaintenanceSchedule>): Asset -> bool {
    (a: Asset) => f.serviceTypeFilter == "all" || MatchesServiceType(a, schedules, f.serviceTypeFilter)
  }
  function ByLocation(f: ScheduleFilters): Asset -> bool {
    (a: Asset) => f.locationFilter == "all" || a.locationId == Some(f.locationFilter)
  }
  function ByTimeRange(f: ScheduleFilters, now: int): Asset -> bool {
    (a: Asset) => f.timeRangeFilter == "all" || MatchesTimeRange(a, f.timeRangeFilter, now)
  }

  /** All active filters at once. */
  predicate Matches(a: Asset, f: ScheduleFilters, assets: seq<Asset>, masters: seq<MasterAsset>,
                    schedules: seq<MaintenanceSchedule>, now: int) {
    BySearch(f, assets, masters)(a) && ByStatus(f, schedules, now)(a) && ByServiceType(f, schedules)(a)
    && ByLocation(f)(a) && ByTimeRange(f, now)(a)
  }

  /** The filtered list: the five filters applied in turn; an asset stays exactly when it meets every active filter. */
  function FilteredAssets(assets: seq<Asset>, f: ScheduleFilters, masters: seq<MasterAsset>,
                          schedules: seq<MaintenanceSchedule>, now: int): (r: seq<Asset>)
    ensures forall a :: a in r <==> a in assets && Matches(a, f, assets, masters, schedules, now)
    ensures |r| <= |assets|
  {
    Filter(Filter(Filter(Filter(Filter(assets, BySearch(f, assets, masters)), ByStatus(f, schedules, now)),
      ByServiceType(f, schedules)), ByLocation(f)), ByTimeRange(f, now))
  }

  /** The time-range "overdue" filter agrees with the "overdue" status for an asset with a schedule and a stored date. */
  lemma OverdueRangeIsOverdueStatus(a: Asset, schedules: seq<MaintenanceSchedule>, now: int)
    requires a.lastMaintenanceDate.Some? && Truthy(a.maintenanceScheduleId) && a.nextMaintenanceDate.Some?
    ensures MatchesTimeRange(a, "overdue", now) <==> Status(a, schedules, now) == Overdue
  {
  }

  /** With every filter cleared, the page lists every asset. */
  lemma ClearedShowsAll(assets: seq<Asset>, masters: seq<MasterAsset>, schedules: seq<MaintenanceSchedule>, now: int)
    ensures FilteredAssets(assets, ClearedFilters, masters, schedules, now) == assets
  {
    var f := ClearedFilters;
    FilterAll(assets, BySearch(f, assets, masters));
    FilterAll(assets, ByStatus(f, schedules, now));
    FilterAll(assets, ByServiceType(f, schedules));
    FilterAll(assets, ByLocation(f));
    FilterAll(assets, ByTimeRange(f, now));
  }

  /** `activeFilterCount`: how many of the five controls are not at their cleared value. */
  function ActiveFilterCount(f: ScheduleFilters): (r: nat)
    ensures r <= 5
    ensures r == 0 <==> f == ClearedFilters
  {
    (if f.statusFilter.Some? then 1 else 0) + (if f.serviceTypeFilter != "all" then 1 else 0)
    + (if f.locationFilter != "all" then 1 else 0) + (if f.timeRangeFilter != "all" then 1 else 0)
    + (if f.searchQuery != "" then 1 else 0)
  }

  // ---------------------------------------------------------------- saving a schedule

  /**
   * The next date computed on save: `now` unless the schedule exists and a last date is given.
   * For a non-empty schedule id it is the date the page's own calculation gives for any asset
   * carrying that schedule id and that last date.
   */
  function SaveNextDate(schedules: seq<MaintenanceSchedule>, scheduleId: string, last: Option<int>, now: int): (r: int)
    ensures ScheduleById(schedules, scheduleId).None? || last.None? ==> r == now
    ensures scheduleId != "" ==>
      forall a: Asset :: (a.maintenanceScheduleId == Some(scheduleId) && a.lastMaintenanceDate == last) ==> r == CalculateNextDate(a, schedules, now)
  {
    match ScheduleById(schedules, scheduleId)
    case None => now
    case Some(s) => if last.None? then now else StepDate(last.value, s.intervalValue, s.intervalUnit, now)
  }

  /**
   * The asset `handleSaveMaintenanceSchedule` sends: the schedule id, the last date and the next
   * date truncated to its day (it is formatted as "yyyy-MM-dd"); nothing else changes.
   */
  function ScheduledAsset(a: Asset, schedules: seq<MaintenanceSchedule>, scheduleId: string, last: Option<int>, now: int): (r: Asset)
    ensures r.maintenanceScheduleId == Some(scheduleId) && r.lastMaintenanceDate == last
    ensures r.nextMaintenanceDate == Some(StartOfDay(SaveNextDate(schedules, scheduleId, last, now)))
    ensures r.(maintenanceScheduleId := a.maintenanceScheduleId, lastMaintenanceDate := a.lastMaintenanceDate,
               nextMaintenanceDate := a.nextMaintenanceDate) == a
  {
    a.(maintenanceScheduleId := Some(scheduleId), lastMaintenanceDate := last,
       nextMaintenanceDate := Some(StartOfDay(SaveNextDate(schedules, scheduleId, last, now))))
  }

  /**
   * The maintenance fields the save sets are not among the columns the provider's update sends:
   * the backend receives exactly the columns of the asset as it was.
   */
  lemma ScheduleSaveSendsOldColumns(a: Asset, schedules: seq<MaintenanceSchedule>, scheduleId: string, last: Option<int>, now: int)
    ensures Columns(ScheduledAsset(a, schedules, scheduleId, last, now)) == Columns(a)
  {
  }

  /**
   * The save path repeats the calculation of the page: for a non-empty schedule id, the stored
   * next date is the start of the day of the date the calculation gives for the saved asset,
   * and the saved asset's status is the classification of that day.
   */
  lemma SaveAgreesWithCalculation(a: Asset, schedules: seq<MaintenanceSchedule>, scheduleId: string, last: Option<int>, now: int)
    requires scheduleId != ""
    ensures var r := ScheduledAsset(a, schedules, scheduleId, last, now);
      r.nextMaintenanceDate == Some(StartOfDay(CalculateNextDate(r, schedules, now)))
      && (last.Some? ==> Status(r, schedules, now) == Classify(StartOfDay(CalculateNextDate(r, schedules, now)), now))
  {
  }

  /** The body of the filter effect: narrows a copy of the assets one active filter at a time. */
  method NarrowAssets(assets: seq<Asset>, f: ScheduleFilters, masters: seq<MasterAsset>, schedules: seq<MaintenanceSchedule>, now: int) returns (filtered: seq<Asset>)
    ensures filtered == FilteredAssets(assets, f, masters, schedules, now)
  {
    var p1, p2, p3, p4, p5 := BySearch(f, assets, masters), ByStatus(f, schedules, now),
      ByServiceType(f, schedules), ByLocation(f), ByTimeRange(f, now);
    filtered := assets;
    if f.searchQuery != "" {
      filtered := Filter(filtered, p1);
    } else {
      FilterAll(filtered, p1);
    }
    if f.statusFilter.Some? {
      filtered := Filter(filtered, p2);
    } else {
      FilterAll(filtered, p2);
    }
    if f.serviceTypeFilter != "all" {
      filtered := Filter(filtered, p3);
    } else {
      FilterAll(filtered, p3);
    }
    if f.locationFilter != "all" {
      filtered := Filter(filtered, p4);
    } else {
      FilterAll(filtered, p4);
    }
    if f.timeRangeFilter != "all" {
      filtered := Filter(filtered, p5);
    } else {
      FilterAll(filtered, p5);
    }
  }

  /** The page's own state. */
  class MaintenanceSchedulesPage {
    var filteredAssets: seq<Asset>
    var filters: ScheduleFilters
    var isModalOpen: bool
    var currentAsset: Option<Asset>

    constructor ()
      ensures filteredAssets == [] && filters == ClearedFilters && !isModalOpen && currentAsset == None
    {
      filteredAssets := [];
      filters := ClearedFilters;
      isModalOpen := false;
      currentAsset := None;
    }

    /** The filter effect: recomputes the list the page shows from the current filters. */
    method ApplyFilters(assets: seq<Asset>, masters: seq<MasterAsset>, schedules: seq<MaintenanceSchedule>, now: int)
      modifies this
      ensures filteredAssets == FilteredAssets(assets, filters, masters, schedules, now)
      ensures filters == old(filters) && isModalOpen == old(isModalOpen) && currentAsset == old(currentAsset)
    {
      filteredAssets := NarrowAssets(assets, filters, masters, schedules, now);
    }

    /** `clearFilters`. */
    method ClearFilters()
      modifies this
      ensures filters == ClearedFilters && ActiveFilterCount(filters) == 0
      ensures filteredAssets == old(filteredAssets) && isModalOpen == old(isModalOpen) && currentAsset == old(currentAsset)
    {
      filters := ClearedFilters;
    }

    /** `handleSaveMaintenanceSchedule`: sends the updated asset to the provider and closes the dialog. */
    method SaveMaintenanceSchedule(ctx: AssetProvider, a: Asset, scheduleId: string, last: Option<int>, now: int,
                                   backend: (string, AssetColumns) -> Backend<Asset>)
      modifies this, ctx
      ensures var r := ScheduledAsset(a, old(ctx.maintenanceSchedules), scheduleId, last, now);
        ctx.assets == (if old(ctx.user).Some? && backend(a.id, Columns(r)).Stored?
                       then ReplaceWhere(old(ctx.assets), AssetKey, a.id, backend(a.id, Columns(r)).row) else old(ctx.assets))
      ensures ctx.categories == old(ctx.categories) && ctx.masterAssets == old(ctx.masterAssets)
      ensures ctx.maintenanceSchedules == old(ctx.maintenanceSchedules) && ctx.user == old(ctx.user) && ctx.loading == old(ctx.loading)
      ensures !isModalOpen
      ensures filteredAssets == old(filteredAssets) && filters == old(filters) && currentAsset == old(currentAsset)
    {
      var updated := ScheduledAsset(a, ctx.maintenanceSchedules, scheduleId, last, now);
      var _ := ctx.UpdateAsset(updated, backend);
      isModalOpen := false;
    }
  }
}

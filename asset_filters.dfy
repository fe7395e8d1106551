/**
 * The filter panel of the assets-in-use screen: the location hierarchy offers only the children of
 * the chosen parent, the time-spent slider is translated into optional bounds, and the
 * maintenance-due choice clears the custom date range unless it is "custom".
 */
module AssetFilters {
  import opened Wrappers
  import opened Seqs
  import opened Types

  /** The panel's filter values; dates are instants and None is an unset (null) date. */
  datatype FilterState = FilterState(
    locationId: string,
    sectionId: string,
    subSectionId: string,
    zoneId: string,
    categoryId: string,
    assetNameSearch: string,
    serialNumberSearch: string,
    installationDateStart: Option<int>,
    installationDateEnd: Option<int>,
    warrantyStatus: string,
    timeSpentMin: Option<int>,
    timeSpentMax: Option<int>,
    quickSearch: string,
    maintenanceDueFilter: string,
    maintenanceDueDateStart: Option<int>,
    maintenanceDueDateEnd: Option<int>)

  // ---------------------------------------------------------------- the location hierarchy

  /** `sections.filter(section => section.locationId === locationId)`, in list order. */
  function SectionsOf(sections: seq<Section>, locationId: string): (r: seq<Section>)
    ensures |r| <= |sections|
    ensures forall s :: s in r <==> s in sections && s.locationId == locationId
  {
    Filter(sections, (s: Section) => s.locationId == locationId)
  }

  /** `subSections.filter(subSection => subSection.sectionId === sectionId)`, in list order. */
  function SubSectionsOf(subSections: seq<SubSection>, sectionId: string): (r: seq<SubSection>)
    ensures |r| <= |subSections|
    ensures forall s :: s in r <==> s in subSections && s.sectionId == sectionId
  {
    Filter(subSections, (s: SubSection) => s.sectionId == sectionId)
  }

  /** `zones.filter(zone => zone.subSectionId === subSectionId)`, in list order. */
  function ZonesOf(zones: seq<Zone>, subSectionId: string): (r: seq<Zone>)
    ensures |r| <= |zones|
    ensures forall z :: z in r <==> z in zones && z.subSectionId == subSectionId
  {
    Filter(zones, (z: Zone) => z.subSectionId == subSectionId)
  }

  /** The sections the panel offers: none without a location, else the location's own. */
  function OfferedSections(sections: seq<Section>, locationId: string): (r: seq<Section>)
    ensures locationId == "" ==> r == []
    ensures forall s :: s in r <==> locationId != "" && s in sections && s.locationId == locationId
  {
    if locationId != "" then SectionsOf(sections, locationId) else []
  }

  /** The sub-sections the panel offers: none without a section, else the section's own. */
  function OfferedSubSections(subSections: seq<SubSection>, sectionId: string): (r: seq<SubSection>)
    ensures sectionId == "" ==> r == []
    ensures forall s :: s in r <==> sectionId != "" && s in subSections && s.sectionId == sectionId
  {
    if sectionId != "" then SubSectionsOf(subSections, sectionId) else []
  }

  /** The zones the panel offers: none without a sub-section, else the sub-section's own. */
  function OfferedZones(zones: seq<Zone>, subSectionId: string): (r: seq<Zone>)
    ensures subSectionId == "" ==> r == []
    ensures forall z :: z in r <==> subSectionId != "" && z in zones && z.subSectionId == subSectionId
  {
    if subSectionId != "" then ZonesOf(zones, subSectionId) else []
  }

  /**
   * The "All Locations" choice is the text "all", which is truthy: the panel then offers the
   * sections of a location called "all", which is none unless some section names that location.
   */
  lemma AllLocationsOffersNoSections(sections: seq<Section>)
    requires forall i :: 0 <= i < |sections| ==> sections[i].locationId != "all"
    ensures OfferedSections(sections, "all") == []
  {
    FilterNone(sections, (s: Section) => s.locationId == "all");
  }

  // ---------------------------------------------------------------- time spent

  /** The slider's start, `[timeSpentMin || 0, timeSpentMax || 1000]`. */
  function SliderStart(min: Option<int>, max: Option<int>): (r: (int, int))
    ensures r.0 == if TruthyNum(min) then min.value else 0
    ensures r.1 == if TruthyNum(max) then max.value else 1000
  {
    (if min.Some? && min.value != 0 then min.value else 0, if max.Some? && max.value != 0 then max.value else 1000)
  }

  /** The bounds the slider writes back: a low end of 0 and a high end of 1000 mean no bound. */
  function TimeSpentBounds(range: (int, int)): (r: (Option<int>, Option<int>))
    ensures r.0.None? <==> range.0 <= 0
    ensures r.0.Some? ==> r.0.value == range.0
    ensures r.1.None? <==> range.1 >= 1000
    ensures r.1.Some? ==> r.1.value == range.1
  {
    (if range.0 > 0 then Some(range.0) else None, if range.1 < 1000 then Some(range.1) else None)
  }

  /** Bounds the slider writes come back as the same slider position, for any position on the 0..1000 scale but a high end of 0. */
  lemma SliderRoundTrip(lo: int, hi: int)
    requires 0 <= lo && 0 < hi <= 1000
    ensures SliderStart(TimeSpentBounds((lo, hi)).0, TimeSpentBounds((lo, hi)).1) == (lo, hi)
  {
  }

  /** A slider started from bounds writes the same bounds back, when they are ones the slider could write. */
  lemma BoundsRoundTrip(min: Option<int>, max: Option<int>)
    requires min.None? || min.value > 0
    requires max.None? || 0 < max.value < 1000
    ensures TimeSpentBounds(SliderStart(min, max)) == (min, max)
  {
  }

  // ---------------------------------------------------------------- maintenance due

  /** `handleMaintenanceDueFilterChange`'s update: any choice but "custom" also clears both custom dates. */
  function DueFilterChanged(f: FilterState, value: string): (r: FilterState)
    ensures r.maintenanceDueFilter == value
    ensures value != "custom" ==> r.maintenanceDueDateStart.None? && r.maintenanceDueDateEnd.None?
    ensures value == "custom" ==> r.maintenanceDueDateStart == f.maintenanceDueDateStart && r.maintenanceDueDateEnd == f.maintenanceDueDateEnd
    ensures r == f.(maintenanceDueFilter := value, maintenanceDueDateStart := r.maintenanceDueDateStart, maintenanceDueDateEnd := r.maintenanceDueDateEnd)
  {
    if value != "custom" then f.(maintenanceDueFilter := value, maintenanceDueDateStart := None, maintenanceDueDateEnd := None)
    else f.(maintenanceDueFilter := value)
  }

  // ---------------------------------------------------------------- the component

  class AssetFiltersPanel {
    var filters: FilterState
    var filteredSections: seq<Section>
    var filteredSubSections: seq<SubSection>
    var filteredZones: seq<Zone>
    var timeSpentRange: (int, int)
    var showCustomDateRange: bool

    constructor (filters0: FilterState)
      ensures filters == filters0 && filteredSections == [] && filteredSubSections == [] && filteredZones == []
      ensures timeSpentRange == SliderStart(filters0.timeSpentMin, filters0.timeSpentMax)
      ensures showCustomDateRange <==> filters0.maintenanceDueFilter == "custom"
    {
      filters := filters0;
      filteredSections := [];
      filteredSubSections := [];
      filteredZones := [];
      timeSpentRange := SliderStart(filters0.timeSpentMin, filters0.timeSpentMax);
      showCustomDateRange := filters0.maintenanceDueFilter == "custom";
    }

    /** Picking a location changes that filter alone: the chosen section, sub-section and zone stay. */
    method ChooseLocation(value: string)
      modifies this`filters
      ensures filters == old(filters).(locationId := value)
    {
      filters := filters.(locationId := value);
    }

    /** Picking a section changes that filter alone. */
    method ChooseSection(value: string)
      modifies this`filters
      ensures filters == old(filters).(sectionId := value)
    {
      filters := filters.(sectionId := value);
    }

    /** Picking a sub-section changes that filter alone. */
    method ChooseSubSection(value: string)
      modifies this`filters
      ensures filters == old(filters).(subSectionId := value)
    {
      filters := filters.(subSectionId := value);
    }

    /** The effect on the location: the offered sections are the location's. */
    method RefreshSections(sections: seq<Section>)
      modifies this`filteredSections
      ensures filteredSections == OfferedSections(sections, filters.locationId)
    {
      if filters.locationId != "" {
        filteredSections := SectionsOf(sections, filters.locationId);
      } else {
        filteredSections := [];
      }
    }

    /** The effect on the section: the offered sub-sections are the section's. */
    method RefreshSubSections(subSections: seq<SubSection>)
      modifies this`filteredSubSections
      ensures filteredSubSections == OfferedSubSections(subSections, filters.sectionId)
    {
      if filters.sectionId != "" {
        filteredSubSections := SubSectionsOf(subSections, filters.sectionId);
      } else {
        filteredSubSections := [];
      }
    }

    /** The effect on the sub-section: the offered zones are the sub-section's. */
    method RefreshZones(zones: seq<Zone>)
      modifies this`filteredZones
      ensures filteredZones == OfferedZones(zones, filters.subSectionId)
    {
      if filters.subSectionId != "" {
        filteredZones := ZonesOf(zones, filters.subSectionId);
      } else {
        filteredZones := [];
      }
    }

    /** Moving the slider, and the effect that writes its position into the filters as bounds. */
    method MoveSlider(lo: int, hi: int)
      modifies this`timeSpentRange, this`filters
      ensures timeSpentRange == (lo, hi)
      ensures filters == old(filters).(timeSpentMin := TimeSpentBounds((lo, hi)).0, timeSpentMax := TimeSpentBounds((lo, hi)).1)
    {
      timeSpentRange := (lo, hi);
      var bounds := TimeSpentBounds(timeSpentRange);
      filters := filters.(timeSpentMin := bounds.0, timeSpentMax := bounds.1);
    }

    /** `handleMaintenanceDueFilterChange`. */
    method ChangeMaintenanceDueFilter(value: string)
      modifies this`filters
      ensures filters == DueFilterChanged(old(filters), value)
    {
      filters := DueFilterChanged(filters, value);
    }

    /** The effect on the maintenance-due choice: the custom range shows exactly for "custom". */
    method RefreshCustomDateRange()
      modifies this`showCustomDateRange
      ensures showCustomDateRange <==> filters.maintenanceDueFilter == "custom"
    {
      showCustomDateRange := filters.maintenanceDueFilter == "custom";
    }
  }
}

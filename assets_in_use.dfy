/**
 * The assets-in-use list: search and filters, sorting, page slicing, the create/edit/duplicate
 * and bulk handlers, the CSV row import and the badge status of one asset.
 */
module AssetsInUse {
  import opened Wrappers
  import opened Strings
  import opened Seqs
  import opened Sorting
  import opened Calendar
  import opened Types
  import opened AssetContext

  function AssetIds(assets: seq<Asset>): (r: seq<string>)
    ensures |r| == |assets| && forall i :: 0 <= i < |assets| ==> r[i] == assets[i].id
  {
    Map(assets, AssetKey)
  }

  // ---------------------------------------------------------------- search and filters

  /** `asset.name || "Unknown"`. */
  function DisplayName(a: Asset): (r: string)
    ensures r != ""
    ensures a.name != "" ==> r == a.name
  {
    if a.name != "" then a.name else "Unknown"
  }

  /** The warranty selector of the advanced filters. */
  datatype WarrantyFilter = AnyWarranty | ActiveWarranty | ExpiringWarranty | ExpiredWarranty

  /**
   * The advanced filters the list applies. An unselected location or category is "", and picking
   * "All" in either selector stores the literal text "all", which the list then compares as an id.
   */
  datatype ListFilters = ListFilters(locationId: string, categoryId: string, warrantyStatus: WarrantyFilter)

  const NoListFilters := ListFilters("", "", AnyWarranty)

  /** The case-insensitive search over display name, serial number, id and IP address. */
  predicate MatchesQuery(a: Asset, q: string)
    ensures q == "" ==> MatchesQuery(a, q)
    ensures Contains(DisplayName(a), q) || Contains(a.id, q) ==> MatchesQuery(a, q)
    ensures a.serialNumber.Some? && Contains(a.serialNumber.value, q) ==> MatchesQuery(a, q)
    ensures a.ipAddress.Some? && Contains(a.ipAddress.value, q) ==> MatchesQuery(a, q)
  {
    ContainsIgnoringCase(DisplayName(a), q) || ContainsIgnoringCase(OrEmpty(a.serialNumber), q)
    || ContainsIgnoringCase(a.id, q) || ContainsIgnoringCase(OrEmpty(a.ipAddress), q)
  }

  /** The warranty filter on `new Date(warrantyEndDate)`; an unreadable end date fails every comparison. */
  predicate MatchesWarranty(a: Asset, w: WarrantyFilter, now: int)
    ensures w.AnyWarranty? ==> MatchesWarranty(a, w, now)
    ensures MatchesWarranty(a, w, now) && !w.AnyWarranty? ==> a.warrantyEndDate.Some? && a.warrantyEndDate.value != now
  {
    match w
    case AnyWarranty => true
    case ActiveWarranty => a.warrantyEndDate.Some? && a.warrantyEndDate.value > now
    case ExpiringWarranty =>
      a.warrantyEndDate.Some? && a.warrantyEndDate.value > now && a.warrantyEndDate.value < AddMonths(now, 3)
    case ExpiredWarranty => a.warrantyEndDate.Some? && a.warrantyEndDate.value < now
  }

  /**
   * An expiring warranty is an active one; no warranty is both active and expired; and one that
   * ends at a readable moment other than now is one of the two.
   */
  lemma WarrantyFiltersSplit(a: Asset, now: int)
    ensures MatchesWarranty(a, ExpiringWarranty, now) ==> MatchesWarranty(a, ActiveWarranty, now)
    ensures !(MatchesWarranty(a, ActiveWarranty, now) && MatchesWarranty(a, ExpiredWarranty, now))
    ensures a.warrantyEndDate.Some? && a.warrantyEndDate.value != now <==>
      MatchesWarranty(a, ActiveWarranty, now) || MatchesWarranty(a, ExpiredWarranty, now)
  {
  }

  function ByQuery(q: string): Asset -> bool {
    (a: Asset) => q == "" || MatchesQuery(a, q)
  }
  function ByLocationId(f: ListFilters): Asset -> bool {
    (a: Asset) => f.locationId == "" || a.locationId == Some(f.locationId)
  }
  function ByCategoryId(f: ListFilters): Asset -> bool {
    (a: Asset) => f.categoryId == "" || a.categoryId == f.categoryId
  }
  function ByWarranty(f: ListFilters, now: int): Asset -> bool {
    (a: Asset) => MatchesWarranty(a, f.warrantyStatus, now)
  }

  predicate ListMatches(a: Asset, q: string, f: ListFilters, now: int) {
    ByQuery(q)(a) && ByLocationId(f)(a) && ByCategoryId(f)(a) && ByWarranty(f, now)(a)
  }

  /** The assets the search and the filters let through, in list order; every criterion must hold. */
  function Listed(assets: seq<Asset>, q: string, f: ListFilters, now: int): (r: seq<Asset>)
    ensures forall a :: a in r <==> a in assets && ListMatches(a, q, f, now)
    ensures |r| <= |assets|
  {
    Filter(Filter(Filter(Filter(assets, ByQuery(q)), ByLocationId(f)), ByCategoryId(f)), ByWarranty(f, now))
  }

  /** With no query and no filter the list shows every asset. */
  lemma ListedUnfiltered(assets: seq<Asset>, now: int)
    ensures Listed(assets, "", NoListFilters, now) == assets
  {
    FilterAll(assets, ByQuery(""));
    FilterAll(assets, ByLocationId(NoListFilters));
    FilterAll(assets, ByCategoryId(NoListFilters));
    FilterAll(assets, ByWarranty(NoListFilters, now));
  }

  /** The quirk of the "All" options: the text "all" is compared as an id, so it keeps only assets whose id field is "all". */
  lemma AllLocationIsAnId(assets: seq<Asset>, now: int)
    ensures forall a :: a in Listed(assets, "", ListFilters("all", "", AnyWarranty), now) <==> a in assets && a.locationId == Some("all")
  {
  }

  // ---------------------------------------------------------------- sorting

  /** The sortable columns: "id" (the initial one) and "name" (the header). */
  datatype SortField = SortById | SortByName

  /** The lowercased text the comparator compares. */
  function SortKey(field: SortField): (r: Asset -> string)
    ensures forall a :: |r(a)| == |if field.SortById? then a.id else DisplayName(a)|
    ensures forall a, i :: 0 <= i < |r(a)| ==> !('A' <= r(a)[i] <= 'Z')
  {
    (a: Asset) => match field
      case SortById => Lower(a.id)
      case SortByName => Lower(DisplayName(a))
  }

  function SortOrder(field: SortField, descending: bool): (Asset, Asset) -> bool {
    KeyOrder(SortKey(field), descending)
  }

  /** The list on show: the listed assets, sorted on the chosen column in the chosen direction. */
  function Visible(assets: seq<Asset>, q: string, f: ListFilters, field: SortField, descending: bool, now: int): (r: seq<Asset>)
    ensures |r| == |Listed(assets, q, f, now)| <= |assets|
    ensures forall a :: a in r <==> a in Listed(assets, q, f, now)
  {
    KeyOrderTotalPreorder(SortKey(field), descending);
    SortByMembers(Listed(assets, q, f, now), SortOrder(field, descending));
    SortBy(Listed(assets, q, f, now), SortOrder(field, descending))
  }

  /**
   * The list shown is a permutation of the filtered assets, ordered by the lowercased sort key:
   * ascending puts no key after a smaller one; descending the other way round.
   */
  lemma VisibleIsSortedListing(assets: seq<Asset>, q: string, f: ListFilters, field: SortField, descending: bool, now: int)
    ensures multiset(Visible(assets, q, f, field, descending, now)) == multiset(Listed(assets, q, f, now))
    ensures forall a :: a in Visible(assets, q, f, field, descending, now) <==> a in assets && ListMatches(a, q, f, now)
    ensures var r := Visible(assets, q, f, field, descending, now);
      forall i, j :: 0 <= i < j < |r| ==>
        if descending then !StrLess(SortKey(field)(r[i]), SortKey(field)(r[j]))
        else !StrLess(SortKey(field)(r[j]), SortKey(field)(r[i]))
  {
    KeyOrderTotalPreorder(SortKey(field), descending);
    SortByMembers(Listed(assets, q, f, now), SortOrder(field, descending));
  }

  /** The memoised list: narrows a copy of the assets filter by filter, then sorts it. */
  method FilterAndSort(assets: seq<Asset>, q: string, f: ListFilters, field: SortField, descending: bool, now: int)
    returns (filtered: seq<Asset>)
    ensures filtered == Visible(assets, q, f, field, descending, now)
  {
    filtered := NarrowListing(assets, q, f, now);
    KeyOrderTotalPreorder(SortKey(field), descending);
    filtered := SortBy(filtered, SortOrder(field, descending));
  }

  /** The filtering half of the memoised list: each criterion narrows the list only when it is set. */
  method NarrowListing(assets: seq<Asset>, q: string, f: ListFilters, now: int) returns (filtered: seq<Asset>)
    ensures filtered == Listed(assets, q, f, now)
  {
    filtered := assets;
    if q != "" {
      filtered := Filter(filtered, ByQuery(q));
    } else {
      FilterAll(filtered, ByQuery(q));
    }
    if f.locationId != "" {
      filtered := Filter(filtered, ByLocationId(f));
    } else {
      FilterAll(filtered, ByLocationId(f));
    }
    if f.categoryId != "" {
      filtered := Filter(filtered, ByCategoryId(f));
    } else {
      FilterAll(filtered, ByCategoryId(f));
    }
    if f.warrantyStatus != AnyWarranty {
      filtered := Filter(filtered, ByWarranty(f, now));
    } else {
      FilterAll(filtered, ByWarranty(f, now));
    }
  }

  // ---------------------------------------------------------------- pages

  /** `list.slice((page - 1) * size, (page - 1) * size + size)`. */
  function Page<T>(s: seq<T>, page: int, size: int): (r: seq<T>)
    ensures |r| <= |s|
    ensures size >= 0 ==> |r| <= size
    ensures page >= 1 && size >= 0 && page * size <= |s| ==> r == s[(page - 1) * size..page * size]
  {
    Slice(s, (page - 1) * size, (page - 1) * size + size)
  }

  /** `Math.ceil(n / size)`. */
  function TotalPages(n: nat, size: int): (r: nat)
    requires size >= 1
    ensures (r - 1) * size < n <= r * size || (n == 0 && r == 0)
  {
    (n + size - 1) / size
  }

  /** Pages 1..k one after another. */
  function PagesUpTo<T>(s: seq<T>, size: int, k: nat): seq<T> {
    if k == 0 then [] else PagesUpTo(s, size, k - 1) + Page(s, k, size)
  }

  /** How much of a list of n items pages 1..k cover: k * size, or all of it. */
  function PrefixEnd(n: nat, size: int, k: nat): (r: nat)
    requires size >= 1
    ensures r <= n
    ensures r == n || r == k * size
  {
    if k * size <= n then k * size else n
  }

  /** Page k runs from where pages 1..k-1 end to where pages 1..k end. */
  lemma PageBetween<T>(s: seq<T>, size: int, k: nat)
    requires size >= 1 && k >= 1
    ensures PrefixEnd(|s|, size, k - 1) <= PrefixEnd(|s|, size, k)
    ensures Page(s, k, size) == s[PrefixEnd(|s|, size, k - 1)..PrefixEnd(|s|, size, k)]
  {
    var a, c := (k - 1) * size, k * size;
    assert 0 <= a && c == a + size;
  }

  lemma {:induction false} PagesUpToPrefix<T>(s: seq<T>, size: int, k: nat)
    requires size >= 1
    ensures PagesUpTo(s, size, k) == s[..PrefixEnd(|s|, size, k)]
  {
    if k > 0 {
      var lo, hi := PrefixEnd(|s|, size, k - 1), PrefixEnd(|s|, size, k);
      var prev, page := PagesUpTo(s, size, k - 1), Page(s, k, size);
      PagesUpToPrefix(s, size, k - 1);
      PageBetween(s, size, k);
      assert PagesUpTo(s, size, k) == prev + page;
      assert prev + page == s[..lo] + s[lo..hi] == s[..hi];
    }
  }

  /** Pages 1 to totalPages together are the whole list, in order. */
  lemma PagesCover<T>(s: seq<T>, size: int)
    requires size >= 1
    ensures PagesUpTo(s, size, TotalPages(|s|, size)) == s
  {
    var n := TotalPages(|s|, size);
    PagesUpToPrefix(s, size, n);
    assert n * size >= |s|;
  }

  /** Every page in range holds between one and `size` assets: the slice starting at (page - 1) * size. */
  lemma PageInRange<T>(s: seq<T>, size: int, page: int)
    requires size >= 1 && 1 <= page <= TotalPages(|s|, size)
    ensures 1 <= |Page(s, page, size)| <= size
    ensures var start := (page - 1) * size;
      0 <= start < |s| && Page(s, page, size) == s[start..if start + size <= |s| then start + size else |s|]
  {
    var n := TotalPages(|s|, size);
    var start := (page - 1) * size;
    assert 0 <= start <= (n - 1) * size by {
      MulMonotone(page - 1, n - 1, size);
    }
  }

  lemma MulMonotone(a: int, b: int, m: int)
    requires 0 <= a <= b && m >= 0
    ensures 0 <= a * m <= b * m
  {
    assert b * m - a * m == (b - a) * m;
  }

  // ---------------------------------------------------------------- badge status

  /** `getAssetStatus`: overdue maintenance first, then an expired warranty, else active. */
  function AssetStatus(a: Asset, now: int): (r: string)
    ensures r == "Maintenance Overdue" <==> a.nextMaintenanceDate.Some? && a.nextMaintenanceDate.value < now
    ensures r == "Warranty Expired" <==>
      !(a.nextMaintenanceDate.Some? && a.nextMaintenanceDate.value < now) && a.warrantyEndDate.Some? && a.warrantyEndDate.value < now
    ensures r in {"Maintenance Overdue", "Warranty Expired", "Active"}
  {
    if a.nextMaintenanceDate.Some? && a.nextMaintenanceDate.value < now then "Maintenance Overdue"
    else if a.warrantyEndDate.Some? && a.warrantyEndDate.value < now then "Warranty Expired"
    else "Active"
  }

  // ---------------------------------------------------------------- list updates

  /** `${x}` of an optional text: a missing one renders as "undefined". */
  function TemplateText(s: Option<string>): string {
    if s.Some? then s.value else "undefined"
  }

  /** The copy `handleDuplicateAsset` appends. */
  function Duplicate(assets: seq<Asset>, a: Asset): (r: Asset)
    ensures r.id == NextId(ParseInt, AssetIds(assets))
    ensures r.serialNumber == Some(TemplateText(a.serialNumber) + "-COPY") && r.barcode == Some(TemplateText(a.barcode) + "-COPY")
    ensures r.description == a.description + " (Copy)"
    ensures r.(id := a.id, serialNumber := a.serialNumber, barcode := a.barcode, description := a.description) == a
  {
    a.(id := NextId(ParseInt, AssetIds(assets)), serialNumber := Some(TemplateText(a.serialNumber) + "-COPY"),
       barcode := Some(TemplateText(a.barcode) + "-COPY"), description := a.description + " (Copy)")
  }

  /** A created or duplicated asset gets an id no existing asset has, provided every id is a number. */
  lemma NewIdFresh(assets: seq<Asset>)
    requires AllNumeric(ParseInt, AssetIds(assets))
    ensures forall i :: 0 <= i < |assets| ==> assets[i].id != NextId(ParseInt, AssetIds(assets))
  {
    ParseIntReadsBack();
    IdAfterFresh(ParseInt, AssetIds(assets), 0);
    forall i | 0 <= i < |assets| ensures assets[i].id != NextId(ParseInt, AssetIds(assets)) {
      assert AssetIds(assets)[i] == assets[i].id;
    }
  }

  /** `handleBulkStatusUpdate`'s list: the selected assets get the new status, the others are untouched. */
  function WithStatus(assets: seq<Asset>, selected: seq<string>, status: string): (r: seq<Asset>)
    ensures |r| == |assets|
    ensures forall i :: 0 <= i < |assets| && assets[i].id in selected ==> r[i] == assets[i].(status := Some(status))
    ensures forall i :: 0 <= i < |assets| && assets[i].id !in selected ==> r[i] == assets[i]
  {
    Map(assets, (a: Asset) => if a.id in selected then a.(status := Some(status)) else a)
  }

  /** `!selectedAssets.includes(asset.id)`. */
  function NotSelected(selected: seq<string>): Asset -> bool {
    (a: Asset) => a.id !in selected
  }

  // ---------------------------------------------------------------- CSV import

  /** One line of the file: split on commas, quotes removed and each cell trimmed. */
  function RowCells(line: string): (r: seq<string>)
    ensures |r| == |Split(line, ',')|
  {
    Map(Split(line, ','), CleanCell)
  }

  /** A data row is imported when it has at least 23 cells and a first cell. */
  predicate AcceptedRow(cells: seq<string>) {
    |cells| >= 23 && cells[0] != ""
  }

  function IsComma(c: char): bool {
    c == ','
  }

  /** Splitting on commas gives one piece more than there are commas. */
  lemma {:induction false} SplitCommas(line: string)
    ensures |Split(line, ',')| == Count(line, IsComma) + 1
    decreases |line|
  {
    if |line| > 0 {
      SplitCommas(line[1..]);
      assert Count(line, IsComma) == (if line[0] == ',' then 1 else 0) + Count(line[1..], IsComma);
    }
  }

  /**
   * A line is imported exactly when it has at least 22 commas and its first piece, cleaned, is not
   * empty; a line without a comma, such as the empty one after a final newline, never is.
   */
  lemma AcceptedLine(line: string)
    ensures AcceptedRow(RowCells(line)) <==> Count(line, IsComma) >= 22 && CleanCell(Split(line, ',')[0]) != ""
    ensures ',' !in line ==> !AcceptedRow(RowCells(line))
  {
    SplitCommas(line);
    SplitSingle(line, ',');
  }

  /** The cells of the accepted lines, in file order. */
  function AcceptedRows(lines: seq<string>): (r: seq<seq<string>>)
    ensures |r| <= |lines|
    ensures forall k :: 0 <= k < |r| ==> AcceptedRow(r[k])
  {
    if |lines| == 0 then []
    else
      var cells := RowCells(lines[|lines| - 1]);
      AcceptedRows(lines[..|lines| - 1]) + (if AcceptedRow(cells) then [cells] else [])
  }

  /** The first location whose name includes the text, or "". */
  function LocationIdFor(locations: seq<Location>, text: string): (r: string)
    ensures r == "" || exists i :: 0 <= i < |locations| && locations[i].id == r && Contains(locations[i].name, text)
    ensures (forall i :: 0 <= i < |locations| ==> !Contains(locations[i].name, text)) ==> r == ""
    ensures forall l :: IsFirst(locations, (l: Location) => Contains(l.name, text), l) ==> r == l.id
  {
    var l := Find(locations, (l: Location) => Contains(l.name, text));
    if l.Some? then l.value.id else ""
  }

  /** The id of the first category with exactly this name, or "". */
  function CategoryIdFor(categories: seq<AssetCategory>, name: string): (r: string)
    ensures r == "" || exists i :: 0 <= i < |categories| && categories[i].id == r && categories[i].name == name
    ensures (forall i :: 0 <= i < |categories| ==> categories[i].name != name) ==> r == ""
    ensures forall c :: IsFirst(categories, (c: AssetCategory) => c.name == name, c) ==> r == c.id
  {
    var c := Find(categories, (c: AssetCategory) => c.name == name);
    if c.Some? then c.value.id else ""
  }

  /**
   * The asset built from one accepted row. `parseFloat` and `parseDate` stand for the platform's
   * `Number.parseFloat` and the later `new Date(text)`, which this model does not define. A
   * non-empty cell the parser cannot read is NaN in the source; here a number cell becomes 0 (as
   * falsy as NaN) and an optional one becomes None.
   */
  function AssetFromRow(v: seq<string>, id: string, categories: seq<AssetCategory>, locations: seq<Location>,
                        parseFloat: string -> Option<int>, parseDate: string -> Option<int>): (r: Asset)
    requires |v| >= 23
    ensures r.id == id && r.name == v[0]
    ensures r.serialNumber == Some("SN-" + id) && r.barcode == Some("BC-" + id)
    ensures v[18] == "" ==> r.warrantyPeriodMonths == 12
    ensures v[18] != "" && ParseInt(v[18]).Some? ==> r.warrantyPeriodMonths == ParseInt(v[18]).value
    ensures v[21] == "" ==> r.displayOrientation == "Landscape"
    ensures v[21] != "" ==> r.displayOrientation == v[21]
    ensures v[22] == "" ==> r.operatingHours == 8
    ensures v[22] != "" && ParseInt(v[22]).Some? ==> r.operatingHours == ParseInt(v[22]).value
    ensures r.latitude == (if v[4] == "" then None else parseFloat(v[4]))
    ensures r.longitude == (if v[5] == "" then None else parseFloat(v[5]))
    ensures r.customScreenSize == (if v[9] == "" then None else parseFloat(v[9]))
    ensures v[12] == "" ==> r.powerConsumption == 0
    ensures v[12] != "" && parseFloat(v[12]).Some? ==> r.powerConsumption == parseFloat(v[12]).value
    ensures r.categoryId == CategoryIdFor(categories, v[1]) && r.locationId == Some(LocationIdFor(locations, v[2]))
  {
    Asset(
      id, v[0], CategoryIdFor(categories, v[1]), v[2], Some(v[3]),
      if v[4] != "" then parseFloat(v[4]) else None,
      if v[5] != "" then parseFloat(v[5]) else None,
      v[6], v[7], v[8],
      if v[9] != "" then parseFloat(v[9]) else None,
      v[10], Some(v[11]),
      if v[12] != "" then parseFloat(v[12]).GetOr(0) else 0,
      v[13], v[14], parseDate(v[15]), parseDate(v[16]), parseDate(v[17]),
      if v[18] != "" then ParseInt(v[18]).GetOr(0) else 12,
      v[19], v[20],
      if v[21] != "" then v[21] else "Landscape",
      if v[22] != "" then ParseInt(v[22]).GetOr(0) else 8,
      Some(LocationIdFor(locations, v[2])), Some(""), Some(""), Some(""),
      Some("SN-" + id), Some("BC-" + id),
      None, None, None, None, None, None, None, None,
      None, None, None)
  }

  /** `(max + k + 1).toString()` for the k-th imported row, the maximum m of the current ids (None for NaN). */
  function ImportId(m: Option<nat>): nat -> string {
    (k: nat) => IdFrom(m, k)
  }

  /**
   * The asset the k-th accepted row becomes, with id idOf(k). Accepted rows have at least 23
   * cells; a shorter row is never built, and gives the blank record here.
   */
  function RowAsset(idOf: nat -> string, categories: seq<AssetCategory>, locations: seq<Location>,
                    parseFloat: string -> Option<int>, parseDate: string -> Option<int>): (r: (seq<string>, nat) -> Asset)
    ensures forall v: seq<string>, k: nat :: |v| >= 23 ==> r(v, k).id == idOf(k) && r(v, k).name == v[0]
  {
    (v: seq<string>, k: nat) => if |v| >= 23 then AssetFromRow(v, idOf(k), categories, locations, parseFloat, parseDate) else BlankAsset
  }

  /** The k-th accepted row becomes make(row, k). */
  function ImportedAssets(rows: seq<seq<string>>, make: (seq<string>, nat) -> Asset): (r: seq<Asset>)
    ensures |r| == |rows|
    ensures forall k :: 0 <= k < |rows| ==> r[k] == make(rows[k], k)
  {
    seq(|rows|, (k: int) requires 0 <= k < |rows| => make(rows[k], k))
  }

  /** Imported assets get consecutive ids after the current maximum: all different and all new, when every id is a number. */
  lemma ImportedIdsFresh(rows: seq<seq<string>>, ids: seq<string>, categories: seq<AssetCategory>, locations: seq<Location>,
                         parseFloat: string -> Option<int>, parseDate: string -> Option<int>)
    requires forall k :: 0 <= k < |rows| ==> |rows[k]| >= 23
    requires AllNumeric(ParseInt, ids)
    ensures var r := ImportedAssets(rows, RowAsset(ImportId(MaxOrNaN(ParseInt, ids)), categories, locations, parseFloat, parseDate));
      (forall k :: 0 <= k < |r| ==> r[k].id !in ids)
      && (forall j, k :: 0 <= j < k < |r| ==> r[j].id != r[k].id)
  {
    var idOf := ImportId(MaxOrNaN(ParseInt, ids));
    var r := ImportedAssets(rows, RowAsset(idOf, categories, locations, parseFloat, parseDate));
    forall k | 0 <= k < |r| ensures r[k].id == IdAfter(ParseInt, ids, k) {
      assert r[k] == AssetFromRow(rows[k], idOf(k), categories, locations, parseFloat, parseDate);
    }
    forall k | 0 <= k < |r| ensures r[k].id !in ids {
      ParseIntReadsBack();
      IdAfterFresh(ParseInt, ids, k);
    }
    forall j, k | 0 <= j < k < |r| ensures r[j].id != r[k].id {
      IdAfterDistinct(ParseInt, ids, j, k);
    }
  }

  lemma AcceptedRowsStep(lines: seq<string>, i: nat)
    requires 1 <= i < |lines|
    ensures AcceptedRows(lines[1..i + 1]) ==
      AcceptedRows(lines[1..i]) + (if AcceptedRow(RowCells(lines[i])) then [RowCells(lines[i])] else [])
  {
    var s := lines[1..i + 1];
    assert s[..|s| - 1] == lines[1..i];
    assert s[|s| - 1] == lines[i];
  }

  lemma ImportedAssetsStep(rows: seq<seq<string>>, v: seq<string>, make: (seq<string>, nat) -> Asset)
    ensures ImportedAssets(rows + [v], make) == ImportedAssets(rows, make) + [make(v, |rows|)]
  {
    var r, q := ImportedAssets(rows + [v], make), ImportedAssets(rows, make) + [make(v, |rows|)];
    assert |r| == |q|;
    forall k | 0 <= k < |r| ensures r[k] == q[k] {
      if k < |rows| {
        assert (rows + [v])[k] == rows[k];
      }
    }
  }

  lemma AcceptedRowsAfterHeader(lines: seq<string>)
    requires |lines| >= 1
    ensures AcceptedRows(lines[1..|lines|]) == AcceptedRows(lines[1..])
  {
    assert lines[1..|lines|] == lines[1..];
  }

  /** The body of the `forEach` over the data lines: an accepted row adds its asset at the end. */
  function ImportRow(imported: seq<Asset>, values: seq<string>, make: (seq<string>, nat) -> Asset): (r: seq<Asset>)
    ensures AcceptedRow(values) ==> r == imported + [make(values, |imported|)]
    ensures !AcceptedRow(values) ==> r == imported
  {
    if |values| >= 23 && values[0] != "" then imported + [make(values, |imported|)] else imported
  }

  /** One turn of the import loop keeps its invariant. */
  lemma ImportLineStep(lines: seq<string>, i: nat, imported: seq<Asset>, make: (seq<string>, nat) -> Asset)
    requires 1 <= i < |lines|
    requires imported == ImportedAssets(AcceptedRows(lines[1..i]), make)
    ensures ImportedAssets(AcceptedRows(lines[1..i + 1]), make) == ImportRow(imported, RowCells(lines[i]), make)
  {
    var values := RowCells(lines[i]);
    var rows := AcceptedRows(lines[1..i]);
    AcceptedRowsStep(lines, i);
    if AcceptedRow(values) {
      ImportedAssetsStep(rows, values, make);
    }
  }

  /** The import loop: collects, with make, the assets of the accepted lines after the header. */
  method ImportLines(lines: seq<string>, make: (seq<string>, nat) -> Asset) returns (imported: seq<Asset>)
    requires |lines| >= 1
    ensures imported == ImportedAssets(AcceptedRows(lines[1..]), make)
  {
    imported := [];
    var i := 1;
    while i < |lines|
      invariant 1 <= i <= |lines|
      invariant imported == ImportedAssets(AcceptedRows(lines[1..i]), make)
    {
      ImportLineStep(lines, i, imported, make);
      imported := ImportRow(imported, RowCells(lines[i]), make);
      i := i + 1;
    }
    AcceptedRowsAfterHeader(lines);
  }

  // ---------------------------------------------------------------- the component

  class AssetsInUsePage {
    var assets: seq<Asset>
    var selectedAssets: seq<string>
    var currentAsset: Option<Asset>
    var isModalOpen: bool
    var isDeleteModalOpen: bool
    var searchQuery: string
    var filters: ListFilters
    var sortField: SortField
    var sortDescending: bool
    var currentPage: int
    var itemsPerPage: int

    /** The initial state over the assets the parent passes in. */
    constructor (assets0: seq<Asset>)
      ensures assets == assets0 && selectedAssets == [] && currentAsset == None
      ensures !isModalOpen && !isDeleteModalOpen && searchQuery == "" && filters == NoListFilters
      ensures sortField == SortById && !sortDescending && currentPage == 1 && itemsPerPage == 10
    {
      assets := assets0;
      selectedAssets := [];
      currentAsset := None;
      isModalOpen := false;
      isDeleteModalOpen := false;
      searchQuery := "";
      filters := NoListFilters;
      sortField := SortById;
      sortDescending := false;
      currentPage := 1;
      itemsPerPage := 10;
    }

    /** `handleSort`: the same column flips the direction; another column is sorted ascending. */
    method HandleSort(field: SortField)
      modifies this`sortField, this`sortDescending
      ensures sortField == field
      ensures sortDescending == (old(sortField) == field && !old(sortDescending))
      ensures assets == old(assets) && selectedAssets == old(selectedAssets) && currentPage == old(currentPage)
    {
      if sortField == field {
        sortDescending := !sortDescending;
      } else {
        sortField := field;
        sortDescending := false;
      }
    }

    /** `handlePageChange`. */
    method PageChange(page: int)
      modifies this`currentPage
      ensures currentPage == page
    {
      currentPage := page;
    }

    /** `handleBulkDelete`: nothing without a selection; otherwise exactly the selected assets go and the selection clears. */
    method BulkDelete()
      modifies this`assets, this`selectedAssets
      ensures old(selectedAssets) == [] ==> assets == old(assets) && selectedAssets == []
      ensures old(selectedAssets) != [] ==> assets == Filter(old(assets), NotSelected(old(selectedAssets))) && selectedAssets == []
      ensures forall a :: a in assets <==> a in old(assets) && (old(selectedAssets) == [] || a.id !in old(selectedAssets))
    {
      if |selectedAssets| == 0 {
        return;
      }
      assets := Filter(assets, NotSelected(selectedAssets));
      selectedAssets := [];
    }

    /** `handleBulkStatusUpdate`: nothing without a selection; otherwise the selected assets get the status and the selection clears. */
    method BulkStatusUpdate(status: string)
      modifies this`assets, this`selectedAssets
      ensures old(selectedAssets) == [] ==> assets == old(assets) && selectedAssets == []
      ensures old(selectedAssets) != [] ==> assets == WithStatus(old(assets), old(selectedAssets), status) && selectedAssets == []
    {
      if |selectedAssets| == 0 {
        return;
      }
      assets := WithStatus(assets, selectedAssets, status);
      selectedAssets := [];
    }

    /** `handleDuplicateAsset`: appends the copy. */
    method DuplicateAsset(a: Asset)
      modifies this`assets
      ensures assets == old(assets) + [Duplicate(old(assets), a)]
    {
      assets := assets + [Duplicate(assets, a)];
    }

    /** `confirmDelete`: removes the asset being deleted and closes the dialog; does nothing when there is none. */
    method ConfirmDelete()
      modifies this`assets, this`isDeleteModalOpen
      ensures currentAsset.None? ==> assets == old(assets) && isDeleteModalOpen == old(isDeleteModalOpen)
      ensures currentAsset.Some? ==> assets == DeleteById(old(assets), AssetKey, currentAsset.value.id) && !isDeleteModalOpen
    {
      if currentAsset.None? {
        return;
      }
      assets := DeleteById(assets, AssetKey, currentAsset.value.id);
      isDeleteModalOpen := false;
    }

    /** `saveAsset`: editing replaces by id, creating appends with the next id; the dialog closes. */
    method SaveAsset(a: Asset)
      modifies this`assets, this`isModalOpen
      ensures currentAsset.Some? ==> assets == ReplaceById(old(assets), AssetKey, a)
      ensures currentAsset.None? ==> assets == old(assets) + [a.(id := NextId(ParseInt, AssetIds(old(assets))))]
      ensures !isModalOpen
    {
      if currentAsset.Some? {
        assets := ReplaceById(assets, AssetKey, a);
      } else {
        assets := assets + [a.(id := NextId(ParseInt, AssetIds(assets)))];
      }
      isModalOpen := false;
    }

    /**
     * `handleImportData` once the file is read: every accepted line after the header becomes an
     * asset, and the imported assets are appended together. Without a file nothing happens.
     */
    method ImportCsv(file: Option<string>, categories: seq<AssetCategory>, locations: seq<Location>,
                     parseFloat: string -> Option<int>, parseDate: string -> Option<int>)
      modifies this`assets
      ensures file.None? ==> assets == old(assets)
      ensures file.Some? ==> var lines := Split(file.value, '\n');
        assets == old(assets) + ImportedAssets(AcceptedRows(lines[1..]), RowAsset(ImportId(MaxOrNaN(ParseInt, AssetIds(old(assets)))), categories, locations, parseFloat, parseDate))
    {
      if file.None? {
        return;
      }
      var lines := Split(file.value, '\n');
      var make := RowAsset(ImportId(MaxOrNaN(ParseInt, AssetIds(assets))), categories, locations, parseFloat, parseDate);
      var imported := ImportLines(lines, make);
      if |imported| > 0 {
        assets := assets + imported;
      }
    }

    /** `handleSelectAll`: the ids of the page on show, or nothing. */
    method SelectAll(checked: bool, now: int)
      modifies this`selectedAssets
      ensures checked ==> selectedAssets == AssetIds(Page(Visible(assets, searchQuery, filters, sortField, sortDescending, now), currentPage, itemsPerPage))
      ensures !checked ==> selectedAssets == []
    {
      if checked {
        var shown := FilterAndSort(assets, searchQuery, filters, sortField, sortDescending, now);
        selectedAssets := AssetIds(Page(shown, currentPage, itemsPerPage));
      } else {
        selectedAssets := [];
      }
    }

    /** `handleSelectAsset`: ticking appends the id; unticking removes every occurrence of it. */
    method SelectAsset(id: string, checked: bool)
      modifies this`selectedAssets
      ensures checked ==> selectedAssets == old(selectedAssets) + [id]
      ensures !checked ==> selectedAssets == Filter(old(selectedAssets), Other(id))
      ensures !checked ==> forall x :: x in selectedAssets <==> x in old(selectedAssets) && x != id
    {
      if checked {
        selectedAssets := selectedAssets + [id];
      } else {
        selectedAssets := Filter(selectedAssets, Other(id));
      }
    }
  }
}

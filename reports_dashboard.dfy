/**
 * The figures of the reports screen over the assets the location and category filters keep:
 * connectivity, screens and media players, the age buckets, warranty and maintenance status,
 * the category and location shares, and the power and utilisation rankings.
 */
module ReportsDashboard {
  import opened Wrappers
  import opened Strings
  import opened Seqs
  import opened Calendar
  import opened Types
  import opened Sorting
  import Dashboard

  /** The filters that take part in the figures; "all" switches a filter off. */
  datatype ReportFilters = ReportFilters(location: string, category: string)

  function Min(a: int, b: int): int {
    if a <= b then a else b
  }

  // ---------------------------------------------------------------- filtering

  /** `masterAssets.find(ma => ma.id === asset.masterAssetId)`. */
  function MasterOf(masters: seq<MasterAsset>, a: Asset): (r: Option<MasterAsset>)
    ensures r.Some? ==> r.value in masters && Some(r.value.id) == a.masterAssetId
    ensures r.None? <==> forall i :: 0 <= i < |masters| ==> Some(masters[i].id) != a.masterAssetId
    ensures r.Some? ==> IsFirst(masters, (m: MasterAsset) => Some(m.id) == a.masterAssetId, r.value)
  {
    Find(masters, (m: MasterAsset) => Some(m.id) == a.masterAssetId)
  }

  predicate AtLocation(a: Asset, location: string) {
    a.locationId == Some(location)
  }

  /** `masterAsset?.categoryId === category`: an asset without a known asset type is in no category. */
  predicate OfCategory(masters: seq<MasterAsset>, a: Asset, category: string) {
    var m := MasterOf(masters, a);
    m.Some? && m.value.categoryId == category
  }

  /** Both filters at once. */
  function Kept(masters: seq<MasterAsset>, f: ReportFilters): Asset -> bool {
    (a: Asset) => (f.location == "all" || AtLocation(a, f.location)) && (f.category == "all" || OfCategory(masters, a, f.category))
  }

  /** The location filter, then the category filter, each applied unless it is "all". */
  function FilteredAssets(assets: seq<Asset>, masters: seq<MasterAsset>, f: ReportFilters): (r: seq<Asset>)
    ensures f.location == "all" && f.category == "all" ==> r == assets
    ensures forall a :: a in r <==> a in assets && Kept(masters, f)(a)
    ensures |r| <= |assets|
  {
    var byLocation := if f.location != "all" then Filter(assets, (a: Asset) => AtLocation(a, f.location)) else assets;
    if f.category != "all" then Filter(byLocation, (a: Asset) => OfCategory(masters, a, f.category)) else byLocation
  }

  /** The two filters in a row keep the same assets, in the same order, as the one combined filter. */
  lemma FilteredIsOneFilter(assets: seq<Asset>, masters: seq<MasterAsset>, f: ReportFilters)
    ensures FilteredAssets(assets, masters, f) == Filter(assets, Kept(masters, f))
  {
    var byLocation := (a: Asset) => AtLocation(a, f.location);
    var byCategory := (a: Asset) => OfCategory(masters, a, f.category);
    if f.location != "all" && f.category != "all" {
      FilterFilter(assets, byLocation, byCategory, Kept(masters, f));
    } else if f.location != "all" {
      FilterCongruent(assets, byLocation, Kept(masters, f));
    } else if f.category != "all" {
      FilterCongruent(assets, byCategory, Kept(masters, f));
    } else {
      FilterAll(assets, Kept(masters, f));
    }
  }

  // ---------------------------------------------------------------- connectivity and kinds of asset

  predicate Connected(a: Asset) {
    Truthy(a.ipAddress)
  }

  predicate NotConnected(a: Asset) {
    !Truthy(a.ipAddress)
  }

  datatype Connectivity = Connectivity(connected: nat, notConnected: nat)

  /** `connectivityData`: assets with an IP address are connected, the rest are not. */
  function ConnectivityData(assets: seq<Asset>): (r: Connectivity)
    ensures r.connected == Count(assets, Connected) && r.notConnected == Count(assets, NotConnected)
    ensures r.connected + r.notConnected == |assets|
    ensures r.connected == 0 <==> forall i :: 0 <= i < |assets| ==> !Truthy(assets[i].ipAddress)
  {
    FilterPartition(assets, Connected, NotConnected);
    FilterEmpty(assets, Connected);
    Connectivity(Count(assets, Connected), Count(assets, NotConnected))
  }

  /** `categories.find(cat => cat.id === masterAsset?.categoryId)`. */
  function CategoryOf(categories: seq<AssetCategory>, masters: seq<MasterAsset>, a: Asset): (r: Option<AssetCategory>)
    ensures MasterOf(masters, a).None? ==> r.None?
    ensures r.Some? ==> r.value in categories && r.value.id == MasterOf(masters, a).value.categoryId
    ensures MasterOf(masters, a).Some? ==>
      (r.None? <==> forall i :: 0 <= i < |categories| ==> categories[i].id != MasterOf(masters, a).value.categoryId)
    ensures r.Some? ==> IsFirst(categories, (c: AssetCategory) => c.id == MasterOf(masters, a).value.categoryId, r.value)
  {
    var m := MasterOf(masters, a);
    if m.Some? then Find(categories, (c: AssetCategory) => c.id == m.value.categoryId) else None
  }

  /** A category name that mentions "display" or "screen", in any case, marks a screen. */
  predicate IsScreen(categories: seq<AssetCategory>, masters: seq<MasterAsset>, a: Asset)
    ensures MasterOf(masters, a).None? ==> !IsScreen(categories, masters, a)
  {
    var c := CategoryOf(categories, masters, a);
    c.Some? && (Contains(Lower(c.value.name), "display") || Contains(Lower(c.value.name), "screen"))
  }

  /** A category name that mentions "player" or "media", in any case, marks a media player. */
  predicate IsMediaPlayer(categories: seq<AssetCategory>, masters: seq<MasterAsset>, a: Asset)
    ensures MasterOf(masters, a).None? ==> !IsMediaPlayer(categories, masters, a)
  {
    var c := CategoryOf(categories, masters, a);
    c.Some? && (Contains(Lower(c.value.name), "player") || Contains(Lower(c.value.name), "media"))
  }

  /** `totalScreens` and `totalMediaPlayers`. */
  function KindCounts(categories: seq<AssetCategory>, masters: seq<MasterAsset>, assets: seq<Asset>): (r: (nat, nat))
    ensures r.0 <= |assets| && r.1 <= |assets|
    ensures (forall i :: 0 <= i < |assets| ==> MasterOf(masters, assets[i]).None?) ==> r == (0, 0)
    ensures r.0 == Count(assets, (a: Asset) => IsScreen(categories, masters, a))
    ensures r.1 == Count(assets, (a: Asset) => IsMediaPlayer(categories, masters, a))
  {
    var screens := (a: Asset) => IsScreen(categories, masters, a);
    var players := (a: Asset) => IsMediaPlayer(categories, masters, a);
    FilterEmpty(assets, screens);
    FilterEmpty(assets, players);
    (Count(assets, screens), Count(assets, players))
  }

  /** One more asset adds one screen exactly when it is a screen, and one media player exactly when it is a media player. */
  lemma KindCountsLast(categories: seq<AssetCategory>, masters: seq<MasterAsset>, assets: seq<Asset>)
    requires |assets| > 0
    ensures var a := assets[|assets| - 1];
      var before := KindCounts(categories, masters, assets[..|assets| - 1]);
      KindCounts(categories, masters, assets) ==
      (before.0 + (if IsScreen(categories, masters, a) then 1 else 0), before.1 + (if IsMediaPlayer(categories, masters, a) then 1 else 0))
  {
    CountLast(assets, (a: Asset) => IsScreen(categories, masters, a));
    CountLast(assets, (a: Asset) => IsMediaPlayer(categories, masters, a));
  }

  // ---------------------------------------------------------------- age

  /** 365 days, the report's year. */
  const YearMs: int := 365 * DayMs

  /**
   * The age bucket of an asset: 0 up to one year, 1 up to three, 2 up to five and 3 beyond. An
   * unparseable purchase date gives an age of NaN, which fails every comparison: the last bucket.
   */
  function AgeBucket(a: Asset, now: int): (r: nat)
    ensures r <= 3
    ensures a.purchaseDate.None? ==> r == 3
    ensures a.purchaseDate.Some? && a.purchaseDate.value >= now ==> r == 0
  {
    if a.purchaseDate.None? then 3
    else
      var age := now - a.purchaseDate.value;
      if age <= YearMs then 0 else if age <= 3 * YearMs then 1 else if age <= 5 * YearMs then 2 else 3
  }

  function AgeBucketAt(now: int): Asset -> nat {
    (a: Asset) => AgeBucket(a, now)
  }

  function InBucket(bucket: Asset -> nat, k: nat): Asset -> bool {
    (a: Asset) => bucket(a) == k
  }

  /** The assets of age bucket k. */
  function InAgeBucket(k: nat, now: int): Asset -> bool {
    InBucket(AgeBucketAt(now), k)
  }

  /** An asset bought earlier is in the same bucket or an older one. */
  lemma AgeBucketOlder(a: Asset, b: Asset, now: int)
    requires a.purchaseDate.Some? && b.purchaseDate.Some? && a.purchaseDate.value <= b.purchaseDate.value
    ensures AgeBucket(a, now) >= AgeBucket(b, now)
  {
  }

  /**
   * The `forEach` that counts the assets into the four age buckets: each count is the number of
   * assets of that bucket, and the four counts add up to the number of assets.
   */
  method AgeDistribution(assets: seq<Asset>, now: int) returns (counts: seq<nat>)
    ensures |counts| == 4
    ensures forall k :: 0 <= k < 4 ==> counts[k] == Count(assets, InAgeBucket(k, now))
    ensures counts[0] + counts[1] + counts[2] + counts[3] == |assets|
  {
    counts := [0, 0, 0, 0];
    var i := 0;
    while i < |assets|
      invariant 0 <= i <= |assets|
      invariant counts == Tally4(assets[..i], AgeBucketAt(now))
    {
      assert AgeBucketAt(now)(assets[i]) == AgeBucket(assets[i], now) < 4;
      Tally4Step(assets, i, AgeBucketAt(now));
      if assets[i].purchaseDate.None? {
        counts := counts[3 := counts[3] + 1];
      } else {
        var age := now - assets[i].purchaseDate.value;
        if age <= YearMs {
          counts := counts[0 := counts[0] + 1];
        } else if age <= 3 * YearMs {
          counts := counts[1 := counts[1] + 1];
        } else if age <= 5 * YearMs {
          counts := counts[2 := counts[2] + 1];
        } else {
          counts := counts[3 := counts[3] + 1];
        }
      }
      i := i + 1;
    }
    assert assets[..|assets|] == assets;
    Tally4Counts(assets, AgeBucketAt(now));
    Tally4Sum(assets, AgeBucketAt(now));
  }

  /** Four bucket counts, one asset after another; a bucket number outside 0..3 counts nowhere. */
  function Tally4(assets: seq<Asset>, bucket: Asset -> nat): (r: seq<nat>)
    ensures |r| == 4
    decreases |assets|
  {
    if |assets| == 0 then [0, 0, 0, 0]
    else
      var c := Tally4(assets[..|assets| - 1], bucket);
      var b := bucket(assets[|assets| - 1]);
      if b < 4 then c[b := c[b] + 1] else c
  }

  lemma Tally4Step(assets: seq<Asset>, i: nat, bucket: Asset -> nat)
    requires i < |assets| && bucket(assets[i]) < 4
    ensures var c := Tally4(assets[..i], bucket); var b := bucket(assets[i]);
      Tally4(assets[..i + 1], bucket) == c[b := c[b] + 1]
  {
    assert assets[..i + 1][..i] == assets[..i];
  }

  /** One bucket's tallied count is the number of assets of that bucket. */
  lemma {:induction false} Tally4Count(assets: seq<Asset>, bucket: Asset -> nat, k: nat)
    requires k < 4
    ensures Tally4(assets, bucket)[k] == Count(assets, InBucket(bucket, k))
    decreases |assets|
  {
    if |assets| > 0 {
      var n := |assets| - 1;
      var c := Tally4(assets[..n], bucket);
      var b := bucket(assets[n]);
      Tally4Count(assets[..n], bucket, k);
      CountLast(assets, InBucket(bucket, k));
      assert InBucket(bucket, k)(assets[n]) == (b == k);
      Tally4Last(assets, bucket, k);
    }
  }

  /** The last asset adds one to bucket k exactly when it falls in it. */
  lemma Tally4Last(assets: seq<Asset>, bucket: Asset -> nat, k: nat)
    requires |assets| > 0 && k < 4
    ensures Tally4(assets, bucket)[k] ==
      Tally4(assets[..|assets| - 1], bucket)[k] + (if bucket(assets[|assets| - 1]) == k then 1 else 0)
  {
  }

  /** Each tallied count is the number of assets of that bucket. */
  lemma Tally4Counts(assets: seq<Asset>, bucket: Asset -> nat)
    ensures forall k :: 0 <= k < 4 ==> Tally4(assets, bucket)[k] == Count(assets, InBucket(bucket, k))
  {
    forall k | 0 <= k < 4
      ensures Tally4(assets, bucket)[k] == Count(assets, InBucket(bucket, k))
    {
      Tally4Count(assets, bucket, k);
    }
  }

  /** When every bucket number is below 4, the four counts add up to the number of assets. */
  lemma {:induction false} Tally4Sum(assets: seq<Asset>, bucket: Asset -> nat)
    requires forall i :: 0 <= i < |assets| ==> bucket(assets[i]) < 4
    ensures var c := Tally4(assets, bucket); c[0] + c[1] + c[2] + c[3] == |assets|
    decreases |assets|
  {
    if |assets| > 0 {
      Tally4Sum(assets[..|assets| - 1], bucket);
    }
  }

  // ---------------------------------------------------------------- warranty and maintenance status

  predicate HasEndDate(a: Asset) {
    a.warrantyEndDate.Some?
  }

  predicate EndActive(a: Asset, now: int) {
    a.warrantyEndDate.Some? && a.warrantyEndDate.value > now
  }

  predicate EndExpiringSoon(a: Asset, now: int) {
    a.warrantyEndDate.Some? && now < a.warrantyEndDate.value <= AddMonths(now, 3)
  }

  predicate EndExpired(a: Asset, now: int) {
    a.warrantyEndDate.Some? && a.warrantyEndDate.value <= now
  }

  /**
   * `warrantyAnalysis` by the recorded end date. An unparseable end date is neither active nor
   * expired; when every end date parses, active and expired together are all the assets.
   */
  function EndActiveAt(now: int): Asset -> bool {
    (a: Asset) => EndActive(a, now)
  }

  function EndExpiringSoonAt(now: int): Asset -> bool {
    (a: Asset) => EndExpiringSoon(a, now)
  }

  function EndExpiredAt(now: int): Asset -> bool {
    (a: Asset) => EndExpired(a, now)
  }

  function WarrantyAnalysis(assets: seq<Asset>, now: int): (r: Dashboard.WarrantyCounts)
    ensures r.active == Count(assets, EndActiveAt(now))
    ensures r.expiringSoon == Count(assets, EndExpiringSoonAt(now))
    ensures r.expired == Count(assets, EndExpiredAt(now))
    ensures r.active + r.expired == Count(assets, HasEndDate)
    ensures r.expiringSoon <= r.active
    ensures (forall i :: 0 <= i < |assets| ==> assets[i].warrantyEndDate.Some?) ==> r.active + r.expired == |assets|
  {
    CountSplit(assets, HasEndDate, EndActiveAt(now), EndExpiredAt(now));
    FilterMonotone(assets, EndExpiringSoonAt(now), EndActiveAt(now));
    AllEndDates(assets);
    Dashboard.WarrantyCounts(Count(assets, EndActiveAt(now)), Count(assets, EndExpiringSoonAt(now)), Count(assets, EndExpiredAt(now)))
  }

  lemma AllEndDates(assets: seq<Asset>)
    ensures (forall i :: 0 <= i < |assets| ==> assets[i].warrantyEndDate.Some?) ==> Count(assets, HasEndDate) == |assets|
  {
    if forall i :: 0 <= i < |assets| ==> assets[i].warrantyEndDate.Some? {
      FilterAll(assets, HasEndDate);
    }
  }

  predicate NotOverdue(a: Asset, now: int) {
    !Dashboard.IsOverdue(a, now)
  }

  /** Due between now and one calendar month from now, both ends included. */
  predicate DueSoon(a: Asset, now: int) {
    a.nextMaintenanceDate.Some? && now <= a.nextMaintenanceDate.value <= AddMonths(now, 1)
  }

  /** No next maintenance date, or one more than a month away. */
  predicate UpToDate(a: Asset, now: int) {
    a.nextMaintenanceDate.None? || a.nextMaintenanceDate.value > AddMonths(now, 1)
  }

  datatype MaintenanceCounts = MaintenanceCounts(overdue: nat, dueSoon: nat, upToDate: nat)

  /**
   * `maintenanceAnalysis`: overdue, due soon and up to date split the assets, each asset in exactly
   * one, and the overdue count is the dashboard's.
   */
  function DueSoonAt(now: int): Asset -> bool {
    (a: Asset) => DueSoon(a, now)
  }

  function UpToDateAt(now: int): Asset -> bool {
    (a: Asset) => UpToDate(a, now)
  }

  function MaintenanceAnalysis(assets: seq<Asset>, now: int): (r: MaintenanceCounts)
    ensures r.overdue == Dashboard.OverdueCount(assets, now)
    ensures r.dueSoon == Count(assets, DueSoonAt(now))
    ensures r.upToDate == Count(assets, UpToDateAt(now))
    ensures r.overdue + r.dueSoon + r.upToDate == |assets|
  {
    var notOverdue := (a: Asset) => NotOverdue(a, now);
    AddMonthsForward(now, 1);
    FilterPartition(assets, Dashboard.Overdue(now), notOverdue);
    CountSplit(assets, notOverdue, DueSoonAt(now), UpToDateAt(now));
    MaintenanceCounts(Count(assets, Dashboard.Overdue(now)), Count(assets, DueSoonAt(now)), Count(assets, UpToDateAt(now)))
  }

  // ---------------------------------------------------------------- shares

  function InCategoryOf(masters: seq<MasterAsset>, id: string): Asset -> bool {
    (a: Asset) => OfCategory(masters, a, id)
  }

  function CategorySlice(masters: seq<MasterAsset>, assets: seq<Asset>, c: AssetCategory): (r: Dashboard.Slice)
    ensures r.name == c.name && r.value == Count(assets, InCategoryOf(masters, c.id)) <= |assets|
    ensures 0 <= r.percentage <= 100
  {
    var n := Count(assets, InCategoryOf(masters, c.id));
    Dashboard.Slice(c.name, n, Dashboard.Percent(n, |assets|))
  }

  /** `categoryDistribution`, by the category of each asset's type, leaving out empty categories. */
  function CategoryDistribution(categories: seq<AssetCategory>, masters: seq<MasterAsset>, assets: seq<Asset>): (r: seq<Dashboard.Slice>)
    ensures forall e :: e in r <==> e.value > 0 && exists i :: 0 <= i < |categories| && e == CategorySlice(masters, assets, categories[i])
    ensures |r| <= |categories|
  {
    var all := Map(categories, (c: AssetCategory) => CategorySlice(masters, assets, c));
    assert forall e :: e in all <==> exists i :: 0 <= i < |categories| && e == CategorySlice(masters, assets, categories[i]);
    Filter(all, Dashboard.NonEmptySlice)
  }

  function AtLocationOf(id: string): Asset -> bool {
    (a: Asset) => AtLocation(a, id)
  }

  function LocationSlice(assets: seq<Asset>, l: Location): (r: Dashboard.Slice)
    ensures r.name == l.name && r.value == Count(assets, AtLocationOf(l.id)) <= |assets|
    ensures 0 <= r.percentage <= 100
  {
    var n := Count(assets, AtLocationOf(l.id));
    Dashboard.Slice(l.name, n, Dashboard.Percent(n, |assets|))
  }

  /** `locationDistribution`: a slice per location in list order, leaving out empty locations. */
  function LocationDistribution(locations: seq<Location>, assets: seq<Asset>): (r: seq<Dashboard.Slice>)
    ensures forall e :: e in r <==> e.value > 0 && exists i :: 0 <= i < |locations| && e == LocationSlice(assets, locations[i])
    ensures |r| <= |locations|
  {
    var all := Map(locations, (l: Location) => LocationSlice(assets, l));
    assert forall e :: e in all <==> exists i :: 0 <= i < |locations| && e == LocationSlice(assets, locations[i]);
    Filter(all, Dashboard.NonEmptySlice)
  }

  // ---------------------------------------------------------------- rankings

  /** A sorted list cut to its first n entries keeps every entry ranked above all that were cut. */
  lemma TopCovers<T(!new)>(s: seq<T>, rank: T -> int, n: nat, x: T)
    requires n > 0 && SortedBy(s, RankDescending(rank)) && x in s
    ensures x in s[..Min(n, |s|)] || (|s| > n && rank(s[n - 1]) >= rank(x))
  {
    var j :| 0 <= j < |s| && s[j] == x;
    if j < Min(n, |s|) {
      assert s[..Min(n, |s|)][j] == x;
    } else {
      assert RankDescending(rank)(s[n - 1], s[j]);
    }
  }

  /**
   * The first n entries of a list sorted by a descending rank, and what they promise: a
   * sub-multiset of the list, in rank order, with nothing left out ranking above the last kept.
   */
  function Top<T(!new)>(s: seq<T>, rank: T -> int, n: nat): (r: seq<T>)
    requires n > 0
    ensures |r| == Min(n, |s|)
    ensures multiset(r) <= multiset(s)
    ensures SortedBy(r, RankDescending(rank))
    ensures forall x :: x in r ==> x in s
    ensures forall x :: x in s ==> x in r || (|r| == n && rank(r[n - 1]) >= rank(x))
  {
    RankDescendingTotalPreorder(rank);
    var sorted := SortBy(s, RankDescending(rank));
    TopOfSorted(s, sorted, rank, n);
    sorted[..Min(n, |sorted|)]
  }

  /** The facts Top promises, for the first n entries of any sorted rearrangement of s. */
  lemma TopOfSorted<T(!new)>(s: seq<T>, sorted: seq<T>, rank: T -> int, n: nat)
    requires n > 0 && SortedBy(sorted, RankDescending(rank)) && multiset(sorted) == multiset(s)
    ensures var r := sorted[..Min(n, |sorted|)];
      multiset(r) <= multiset(s) && SortedBy(r, RankDescending(rank)) &&
      (forall x :: x in r ==> x in s) &&
      (forall x :: x in s ==> x in r || (|r| == n && rank(r[n - 1]) >= rank(x)))
  {
    var m := Min(n, |sorted|);
    var r := sorted[..m];
    assert sorted == r + sorted[m..];
    assert multiset(sorted) == multiset(r) + multiset(sorted[m..]);
    forall x | x in s ensures x in r || (|sorted| > n && rank(sorted[n - 1]) >= rank(x)) {
      assert x in multiset(s);
      TopCovers(sorted, rank, n, x);
    }
    forall x | x in r ensures x in s {
      assert x in multiset(r);
      assert x in multiset(s);
    }
  }

  datatype PowerRow = PowerRow(name: string, powerPerUnit: int, totalPower: int, count: nat)

  /** `ma.powerConsumption` is truthy. */
  predicate HasPower(m: MasterAsset) {
    m.powerConsumption.Some? && m.powerConsumption.value != 0
  }

  function OfType(m: MasterAsset): Asset -> bool {
    (a: Asset) => a.masterAssetId == Some(m.id)
  }

  /** A type's row: its watts per unit, the number of filtered assets of the type and their product. */
  function PowerRowOf(assets: seq<Asset>, m: MasterAsset): (r: PowerRow)
    ensures r.name == m.name && r.count == Count(assets, OfType(m))
    ensures HasPower(m) ==> r.powerPerUnit == m.powerConsumption.value
    ensures r.totalPower == r.powerPerUnit * r.count
  {
    var p := if m.powerConsumption.Some? then m.powerConsumption.value else 0;
    var n := Count(assets, OfType(m));
    PowerRow(m.name, p, p * n, n)
  }

  predicate Counted(row: PowerRow) {
    row.count > 0
  }

  function PowerOf(row: PowerRow): int {
    row.totalPower
  }

  /** The rows before sorting: one per type with a power figure and at least one asset, in list order. */
  function PowerRows(assets: seq<Asset>, masters: seq<MasterAsset>): (r: seq<PowerRow>)
    ensures forall x :: x in r <==> x.count > 0 && exists m :: m in masters && HasPower(m) && x == PowerRowOf(assets, m)
  {
    var powered := Filter(masters, HasPower);
    var rows := Map(powered, (m: MasterAsset) => PowerRowOf(assets, m));
    assert forall x :: x in rows <==> exists m :: m in powered && x == PowerRowOf(assets, m) by {
      forall x | x in rows ensures exists m :: m in powered && x == PowerRowOf(assets, m) {
        var i :| 0 <= i < |rows| && rows[i] == x;
        assert powered[i] in powered;
      }
    }
    Filter(rows, Counted)
  }

  /**
   * `powerConsumptionData`: the rows sorted by total power, highest first, cut to eight; a row
   * left out has no more total power than the eighth.
   */
  function PowerRanking(assets: seq<Asset>, masters: seq<MasterAsset>): (r: seq<PowerRow>)
    ensures |r| == Min(8, |PowerRows(assets, masters)|)
    ensures multiset(r) <= multiset(PowerRows(assets, masters))
    ensures SortedBy(r, RankDescending(PowerOf))
    ensures forall x :: x in r ==> x in PowerRows(assets, masters)
    ensures forall x :: x in PowerRows(assets, masters) ==> x in r || (|r| == 8 && r[7].totalPower >= x.totalPower)
  {
    Top(PowerRows(assets, masters), PowerOf, 8)
  }

  /** The minutes of a 30-day month, the period utilisation is measured against. */
  const MonthMinutes: int := 30 * 24 * 60

  /**
   * `Math.min(100, timeSpent / (30 * 24 * 60) * 100)` kept exactly: the result is the percentage
   * times MonthMinutes.
   */
  function ScaledUtilisation(timeSpent: int): (r: int)
    ensures r <= 100 * MonthMinutes
    ensures r == 100 * MonthMinutes <==> timeSpent >= MonthMinutes
    ensures timeSpent <= MonthMinutes ==> r == 100 * timeSpent
  {
    if 100 * timeSpent < 100 * MonthMinutes then 100 * timeSpent else 100 * MonthMinutes
  }

  datatype UtilisationRow = UtilisationRow(id: string, name: string, location: string, timeSpent: int, utilisation: int)

  /** `x?.name || "Unknown"`. */
  function NameOr(name: Option<string>): (r: string)
    ensures r != ""
    ensures Truthy(name) ==> r == name.value
  {
    if Truthy(name) then name.value else "Unknown"
  }

  function UtilisationRowOf(masters: seq<MasterAsset>, locations: seq<Location>, a: Asset): (r: UtilisationRow)
    ensures r.id == a.id && r.timeSpent == Dashboard.TimeOf(a) && r.utilisation == ScaledUtilisation(r.timeSpent)
    ensures r.name != "" && r.location != ""
  {
    var m := MasterOf(masters, a);
    var l := Find(locations, (l: Location) => Some(l.id) == a.locationId);
    var t := Dashboard.TimeOf(a);
    UtilisationRow(a.id, NameOr(if m.Some? then Some(m.value.name) else None),
      NameOr(if l.Some? then Some(l.value.name) else None), t, ScaledUtilisation(t))
  }

  function UtilisationOf(row: UtilisationRow): int {
    row.utilisation
  }

  /** A row per asset, in list order, before sorting. */
  function UtilisationRows(assets: seq<Asset>, masters: seq<MasterAsset>, locations: seq<Location>): (r: seq<UtilisationRow>)
    ensures |r| == |assets| && forall i :: 0 <= i < |assets| ==> r[i] == UtilisationRowOf(masters, locations, assets[i])
  {
    Map(assets, (a: Asset) => UtilisationRowOf(masters, locations, a))
  }

  /**
   * `utilizationData.slice(0, 10)`: the rows sorted by utilisation, highest first, cut to ten; a
   * row left out has no more utilisation than the tenth.
   */
  function UtilisationRanking(assets: seq<Asset>, masters: seq<MasterAsset>, locations: seq<Location>): (r: seq<UtilisationRow>)
    ensures |r| == Min(10, |assets|)
    ensures multiset(r) <= multiset(UtilisationRows(assets, masters, locations))
    ensures SortedBy(r, RankDescending(UtilisationOf))
    ensures forall x :: x in r ==> x in UtilisationRows(assets, masters, locations)
    ensures forall x :: x in UtilisationRows(assets, masters, locations) ==> x in r || (|r| == 10 && r[9].utilisation >= x.utilisation)
  {
    Top(UtilisationRows(assets, masters, locations), UtilisationOf, 10)
  }

  /** Every ranked utilisation is at most 100 percent. */
  lemma UtilisationCapped(assets: seq<Asset>, masters: seq<MasterAsset>, locations: seq<Location>)
    ensures forall x :: x in UtilisationRanking(assets, masters, locations) ==> x.utilisation <= 100 * MonthMinutes
  {
    var rows := UtilisationRows(assets, masters, locations);
    forall x | x in UtilisationRanking(assets, masters, locations) ensures x.utilisation <= 100 * MonthMinutes {
      var i :| 0 <= i < |rows| && rows[i] == x;
    }
  }
}

/**
 * The dashboard's figures: the user's initials, overdue maintenance, the average maintenance
 * time, the distribution of assets over categories and over places, and the warranty buckets.
 */
module Dashboard {
  import opened Wrappers
  import opened Strings
  import opened Seqs
  import opened Calendar
  import opened Types

  // ---------------------------------------------------------------- initials

  /** The part of an e-mail address before the first "@". */
  function LocalPart(email: string): string {
    Split(email, '@')[0]
  }

  /** `s[0]` inside a string concatenation: the first character, or the text "undefined". */
  function FirstOrUndefined(s: string): (r: string)
    ensures |s| > 0 ==> r == [s[0]]
  {
    if |s| > 0 then [s[0]] else "undefined"
  }

  /**
   * `getUserInitials`. "U" without an e-mail; with a dot in the local part, the first letters of
   * its first two pieces; otherwise the address's first letter; all upper-cased. When both
   * pieces are empty the sum is NaN and the upper-casing throws, modelled as None.
   */
  function UserInitials(email: Option<string>): (r: Option<string>)
    ensures !Truthy(email) ==> r == Some("U")
    ensures Truthy(email) && '.' !in LocalPart(email.value) ==> r == Some(Upper([email.value[0]]))
    ensures Truthy(email) && '.' in LocalPart(email.value) ==>
      var parts := Split(LocalPart(email.value), '.');
      |parts| >= 2
      && (r.None? <==> parts[0] == "" && parts[1] == "")
      && (parts[0] != "" && parts[1] != "" ==> r == Some(Upper([parts[0][0], parts[1][0]])))
  {
    if !Truthy(email) then Some("U")
    else
      var parts := Split(LocalPart(email.value), '.');
      SplitSingle(LocalPart(email.value), '.');
      TwoFirsts(parts);
      if |parts| >= 2 then
        if parts[0] == "" && parts[1] == "" then None
        else Some(Upper(FirstOrUndefined(parts[0]) + FirstOrUndefined(parts[1])))
      else Some(Upper([email.value[0]]))
  }

  lemma TwoFirsts(parts: seq<string>)
    ensures |parts| >= 2 && parts[0] != "" && parts[1] != "" ==>
      FirstOrUndefined(parts[0]) + FirstOrUndefined(parts[1]) == [parts[0][0], parts[1][0]]
  {
  }

  /** An address whose local part has two non-empty dotted pieces gives exactly two letters, else one. */
  lemma InitialsLength(email: string)
    requires email != ""
    ensures '.' !in LocalPart(email) ==> |UserInitials(Some(email)).value| == 1
    ensures '.' in LocalPart(email) ==> |Split(LocalPart(email), '.')| >= 2
    ensures var parts := Split(LocalPart(email), '.');
      '.' in LocalPart(email) && parts[0] != "" && parts[1] != "" ==> |UserInitials(Some(email)).value| == 2
  {
    SplitSingle(LocalPart(email), '.');
  }

  // ---------------------------------------------------------------- maintenance figures

  predicate IsOverdue(a: Asset, now: int) {
    a.nextMaintenanceDate.Some? && a.nextMaintenanceDate.value < now
  }

  function Overdue(now: int): Asset -> bool {
    (a: Asset) => IsOverdue(a, now)
  }

  /** `overdueAssets`: the assets whose next maintenance lies before now. */
  function OverdueCount(assets: seq<Asset>, now: int): (r: nat)
    ensures r == Count(assets, Overdue(now)) && r <= |assets|
    ensures r == 0 <==> forall i :: 0 <= i < |assets| ==> !IsOverdue(assets[i], now)
  {
    FilterEmpty(assets, Overdue(now));
    Count(assets, Overdue(now))
  }

  function Maintained(a: Asset): bool {
    a.lastMaintenanceDate.Some?
  }

  /** `assetsWithMaintenance`: the assets with a last maintenance date; all of them when every asset has one. */
  function MaintainedCount(assets: seq<Asset>): (r: nat)
    ensures r == Count(assets, Maintained) && r <= |assets|
    ensures r == 0 <==> forall i :: 0 <= i < |assets| ==> assets[i].lastMaintenanceDate.None?
    ensures (forall i :: 0 <= i < |assets| ==> assets[i].lastMaintenanceDate.Some?) ==> r == |assets|
  {
    FilterEmpty(assets, Maintained);
    MaintainedAll(assets);
    Count(assets, Maintained)
  }

  lemma MaintainedAll(assets: seq<Asset>)
    ensures (forall i :: 0 <= i < |assets| ==> assets[i].lastMaintenanceDate.Some?) ==> Count(assets, Maintained) == |assets|
  {
    if forall i :: 0 <= i < |assets| ==> assets[i].lastMaintenanceDate.Some? {
      FilterAll(assets, Maintained);
    }
  }

  /** Later, no fewer assets are overdue. */
  lemma OverdueGrows(assets: seq<Asset>, t1: int, t2: int)
    requires t1 <= t2
    ensures OverdueCount(assets, t1) <= OverdueCount(assets, t2)
  {
    FilterMonotone(assets, Overdue(t1), Overdue(t2));
  }

  /** `asset.timeSpentMinutes || 0`. */
  function TimeOf(a: Asset): int {
    if a.timeSpentMinutes.Some? then a.timeSpentMinutes.value else 0
  }

  /** `assets.reduce((sum, asset) => sum + (asset.timeSpentMinutes || 0), 0)`. */
  function TotalTime(assets: seq<Asset>): (r: int)
    ensures (forall a :: a in assets ==> a.timeSpentMinutes.None?) ==> r == 0
    decreases |assets|
  {
    if |assets| == 0 then 0 else TotalTime(assets[..|assets| - 1]) + TimeOf(assets[|assets| - 1])
  }

  /** `Math.round(a / n)`: halves round up. */
  function RoundDiv(a: int, n: int): (r: int)
    requires n > 0
    ensures 2 * n * r <= 2 * a + n < 2 * n * (r + 1)
  {
    (2 * a + n) / (2 * n)
  }

  /** `avgMaintenanceTime`: 0 without assets, otherwise the rounded mean time. */
  function AverageTime(assets: seq<Asset>): (r: int)
    ensures |assets| == 0 ==> r == 0
    ensures (forall a :: a in assets ==> a.timeSpentMinutes.None?) ==> r == 0
  {
    if |assets| > 0 then RoundDiv(TotalTime(assets), |assets|) else 0
  }

  /** Times between lo and hi add up to between n·lo and n·hi. */
  lemma {:induction false} TotalTimeBetween(assets: seq<Asset>, lo: int, hi: int)
    requires forall i :: 0 <= i < |assets| ==> lo <= TimeOf(assets[i]) <= hi
    ensures |assets| * lo <= TotalTime(assets) <= |assets| * hi
    decreases |assets|
  {
    if |assets| > 0 {
      var init := assets[..|assets| - 1];
      var n := |init|;
      var t := TimeOf(assets[n]);
      assert forall i :: 0 <= i < n ==> init[i] == assets[i];
      TotalTimeBetween(init, lo, hi);
      assert TotalTime(assets) == TotalTime(init) + t;
      BoundsStep(n, lo, hi, TotalTime(init), t);
    }
  }

  lemma BoundsStep(n: int, lo: int, hi: int, s: int, t: int)
    requires n * lo <= s <= n * hi && lo <= t <= hi
    ensures (n + 1) * lo <= s + t <= (n + 1) * hi
  {
    assert (n + 1) * lo == n * lo + lo && (n + 1) * hi == n * hi + hi;
  }

  /** A rounded quotient of a value between n·lo and n·hi lies between lo and hi. */
  lemma RoundDivBetween(a: int, n: int, lo: int, hi: int)
    requires n > 0 && n * lo <= a <= n * hi
    ensures lo <= RoundDiv(a, n) <= hi
  {
    var r := RoundDiv(a, n);
    var m := 2 * n;
    assert m * lo <= 2 * a;
    MulStrict(m, lo, r + 1);
    assert 2 * a + n <= m * hi + n < m * (hi + 1);
    MulStrict(m, r, hi + 1);
  }

  /** A positive factor keeps a strict order between products. */
  lemma MulStrict(m: int, x: int, y: int)
    requires m > 0
    ensures m * x < m * y ==> x < y
  {
    assert m * x - m * y == m * (x - y);
    MulNonNegative(m, x - y);
  }

  lemma MulNonNegative(m: int, d: int)
    requires m > 0
    ensures d >= 0 ==> m * d >= 0
  {
  }

  /** The average lies between the least and the greatest time. */
  lemma AverageBetween(assets: seq<Asset>, lo: int, hi: int)
    requires |assets| > 0
    requires forall i :: 0 <= i < |assets| ==> lo <= TimeOf(assets[i]) <= hi
    ensures lo <= AverageTime(assets) <= hi
  {
    TotalTimeBetween(assets, lo, hi);
    RoundDivBetween(TotalTime(assets), |assets|, lo, hi);
  }

  /** Equal times average to that time. */
  lemma AverageOfEqual(assets: seq<Asset>, t: int)
    requires |assets| > 0
    requires forall i :: 0 <= i < |assets| ==> TimeOf(assets[i]) == t
    ensures AverageTime(assets) == t
  {
    AverageBetween(assets, t, t);
  }

  // ---------------------------------------------------------------- distributions

  /** A slice of a pie chart: a name, a count and its rounded share of all assets in percent. */
  datatype Slice = Slice(name: string, value: int, percentage: int)

  /** `Math.round(value / total * 100)`, or 0 without assets. */
  function Percent(value: int, total: int): (r: int)
    ensures total > 0 ==> 2 * total * r <= 200 * value + total < 2 * total * (r + 1)
    ensures total > 0 && 0 <= value <= total ==> 0 <= r <= 100
    ensures total <= 0 ==> r == 0
  {
    if total > 0 then
      PercentBetween(value, total);
      RoundDiv(value * 100, total)
    else 0
  }

  lemma PercentBetween(value: int, total: int)
    requires total > 0
    ensures 0 <= value <= total ==> 0 <= RoundDiv(value * 100, total) <= 100
  {
    if 0 <= value <= total {
      assert total * 0 <= value * 100 <= total * 100;
      RoundDivBetween(value * 100, total, 0, 100);
    }
  }

  function InCategory(id: string): Asset -> bool {
    (a: Asset) => a.categoryId == id
  }

  function CategorySlice(c: AssetCategory, assets: seq<Asset>): (r: Slice)
    ensures r.name == c.name && r.value == Count(assets, InCategory(c.id)) && 0 <= r.value <= |assets|
    ensures 0 <= r.percentage <= 100
  {
    var n := Count(assets, InCategory(c.id));
    Slice(c.name, n, Percent(n, |assets|))
  }

  function NonEmptySlice(s: Slice): bool {
    s.value > 0
  }

  /** `categoryDistribution`: a slice per category in list order, leaving out categories without assets. */
  function CategoryDistribution(categories: seq<AssetCategory>, assets: seq<Asset>): (r: seq<Slice>)
    ensures forall e :: e in r <==> e.value > 0 && exists i :: 0 <= i < |categories| && e == CategorySlice(categories[i], assets)
    ensures forall i :: 0 <= i < |r| ==> 0 < r[i].value <= |assets| && 0 <= r[i].percentage <= 100
    ensures |r| <= |categories|
  {
    var all := Map(categories, (c: AssetCategory) => CategorySlice(c, assets));
    assert forall e :: e in all <==> exists i :: 0 <= i < |categories| && e == CategorySlice(categories[i], assets);
    Filter(all, NonEmptySlice)
  }

  // ---------------------------------------------------------------- places

  /** Under which member names the dashboard reads an asset's coordinates. */
  datatype CoordinateNames = DeclaredNames | LatLngNames

  /**
   * The test `asset.coordinates && asset.coordinates.lat && asset.coordinates.lng`. A coordinates
   * record has the members latitude and longitude only; read as lat and lng both are undefined.
   */
  predicate HasPlace(a: Asset, names: CoordinateNames) {
    a.coordinates.Some? && names == DeclaredNames && a.coordinates.value.latitude != 0 && a.coordinates.value.longitude != 0
  }

  /** `x.toFixed(2)` of a coordinate kept in hundredths of a degree. */
  function Fixed2(c: int): (r: string)
    ensures |r| >= 4 && r[|r| - 3] == '.' && IsDigit(r[|r| - 2]) && IsDigit(r[|r| - 1])
    ensures c < 0 <==> r[0] == '-'
  {
    var n: nat := if c < 0 then -c else c;
    var text := NatToString(n / 100) + "." + [DigitChar(n / 10 % 10), DigitChar(n % 10)];
    if c < 0 then "-" + text else text
  }

  /** The slice an asset counts in: its location text, or else its coordinates to two decimals. */
  function PlaceKey(a: Asset): (r: string)
    requires a.coordinates.Some?
    ensures Truthy(a.location) ==> r == a.location.value
    ensures !Truthy(a.location) ==> Fixed2(a.coordinates.value.latitude) + ", " <= r
  {
    if Truthy(a.location) then a.location.value
    else Fixed2(a.coordinates.value.latitude) + ", " + Fixed2(a.coordinates.value.longitude)
  }

  /** `acc.find(item => item.name === key)`, as a position. */
  function IndexOfName(acc: seq<Slice>, k: string): (r: Option<nat>)
    ensures r.None? <==> forall i :: 0 <= i < |acc| ==> acc[i].name != k
    ensures r.Some? ==> r.value < |acc| && acc[r.value].name == k
    decreases |acc|
  {
    if |acc| == 0 then None
    else if acc[|acc| - 1].name == k && IndexOfName(acc[..|acc| - 1], k).None? then Some(|acc| - 1)
    else
      var j := IndexOfName(acc[..|acc| - 1], k);
      if j.Some? then j
      else assert acc[|acc| - 1].name != k; None
  }

  /** One asset counted under key k: its slice grows, or a slice of one is added at the end. */
  function Bump(acc: seq<Slice>, k: string): (r: seq<Slice>)
    ensures IndexOfName(acc, k).None? ==> r == acc + [Slice(k, 1, 0)]
    ensures IndexOfName(acc, k).Some? ==> |r| == |acc| && forall i :: 0 <= i < |acc| ==> r[i].name == acc[i].name
    ensures SumValues(r) == SumValues(acc) + 1
  {
    var j := IndexOfName(acc, k);
    if j.Some? then
      var x := acc[j.value].(value := acc[j.value].value + 1);
      SumValuesUpdate(acc, j.value, x);
      assert acc[j.value := x][j.value].name == k;
      acc[j.value := x]
    else
      var b := acc + [Slice(k, 1, 0)];
      assert b[..|b| - 1] == acc && b[|b| - 1].name == k;
      b
  }

  /** The reduce over the assets, one after another, before the percentages are filled in. */
  function Tally(assets: seq<Asset>, names: CoordinateNames): (r: seq<Slice>)
    ensures |r| <= |assets|
    ensures (forall i :: 0 <= i < |assets| ==> !HasPlace(assets[i], names)) ==> r == []
    decreases |assets|
  {
    if |assets| == 0 then []
    else
      var acc := Tally(assets[..|assets| - 1], names);
      var a := assets[|assets| - 1];
      if HasPlace(a, names) then Bump(acc, PlaceKey(a)) else acc
  }

  function SumValues(acc: seq<Slice>): int
    decreases |acc|
  {
    if |acc| == 0 then 0 else SumValues(acc[..|acc| - 1]) + acc[|acc| - 1].value
  }

  predicate DistinctNames(acc: seq<Slice>) {
    forall i, j :: 0 <= i < j < |acc| ==> acc[i].name != acc[j].name
  }

  function Placed(names: CoordinateNames): Asset -> bool {
    (a: Asset) => HasPlace(a, names)
  }

  lemma {:induction false} SumValuesUpdate(acc: seq<Slice>, j: nat, x: Slice)
    requires j < |acc|
    ensures SumValues(acc[j := x]) == SumValues(acc) - acc[j].value + x.value
    decreases |acc|
  {
    var u := acc[j := x];
    if j < |acc| - 1 {
      assert u[..|u| - 1] == acc[..|acc| - 1][j := x];
      SumValuesUpdate(acc[..|acc| - 1], j, x);
    } else {
      assert u[..|u| - 1] == acc[..|acc| - 1];
    }
  }

  /** Counting under a key already present keeps the names and raises that one slice. */
  lemma BumpPresent(acc: seq<Slice>, k: string, j: nat)
    requires IndexOfName(acc, k) == Some(j)
    ensures var b := Bump(acc, k);
      |b| == |acc| && SumValues(b) == SumValues(acc) + 1
      && forall i :: 0 <= i < |acc| ==> b[i].name == acc[i].name && b[i].value >= acc[i].value
  {
    var x := acc[j].(value := acc[j].value + 1);
    assert Bump(acc, k) == acc[j := x];
    SumValuesUpdate(acc, j, x);
  }

  /** Counting under a new key adds a slice of one at the end. */
  lemma BumpAbsent(acc: seq<Slice>, k: string)
    requires IndexOfName(acc, k).None?
    ensures var b := Bump(acc, k);
      b == acc + [Slice(k, 1, 0)] && SumValues(b) == SumValues(acc) + 1
  {
    var b := acc + [Slice(k, 1, 0)];
    assert b[..|b| - 1] == acc;
  }

  lemma BumpKeeps(acc: seq<Slice>, k: string)
    requires DistinctNames(acc)
    requires forall i :: 0 <= i < |acc| ==> acc[i].value >= 1
    ensures DistinctNames(Bump(acc, k))
    ensures forall i :: 0 <= i < |Bump(acc, k)| ==> Bump(acc, k)[i].value >= 1
    ensures SumValues(Bump(acc, k)) == SumValues(acc) + 1
  {
    var j := IndexOfName(acc, k);
    if j.Some? {
      BumpPresent(acc, k, j.value);
    } else {
      BumpAbsent(acc, k);
    }
  }

  /** The slices have distinct names and positive values that add up to the number of assets counted. */
  lemma {:induction false} TallyShape(assets: seq<Asset>, names: CoordinateNames)
    ensures DistinctNames(Tally(assets, names))
    ensures forall i :: 0 <= i < |Tally(assets, names)| ==> Tally(assets, names)[i].value >= 1
    ensures SumValues(Tally(assets, names)) == Count(assets, Placed(names))
    decreases |assets|
  {
    if |assets| > 0 {
      var init := assets[..|assets| - 1];
      var a := assets[|assets| - 1];
      var acc := Tally(init, names);
      TallyShape(init, names);
      CountLast(assets, Placed(names));
      assert Placed(names)(a) == HasPlace(a, names);
      if HasPlace(a, names) {
        assert Tally(assets, names) == Bump(acc, PlaceKey(a));
        BumpKeeps(acc, PlaceKey(a));
      } else {
        assert Tally(assets, names) == acc;
      }
    }
  }

  /** As written, with the members read as lat and lng, no asset is ever counted: the chart stays empty. */
  lemma {:induction false} LocationDistributionAsWritten(assets: seq<Asset>)
    ensures Tally(assets, LatLngNames) == []
    decreases |assets|
  {
    if |assets| > 0 {
      LocationDistributionAsWritten(assets[..|assets| - 1]);
    }
  }

  /** An asset placed at (1.00, 2.00) shows as one slice when read by the declared names, and not at all as written. */
  lemma LatLngMissesPlacedAsset()
    ensures var a := BlankAsset.(coordinates := Some(Coordinates(100, 200)));
      Tally([a], LatLngNames) == [] && |Tally([a], DeclaredNames)| == 1
  {
    var a := BlankAsset.(coordinates := Some(Coordinates(100, 200)));
    assert [a][..0] == [];
  }

  /** One more asset of the list extends the tally of its prefix as the reduce's callback does. */
  lemma TallyPrefixStep(assets: seq<Asset>, i: nat, names: CoordinateNames)
    requires i < |assets|
    ensures Tally(assets[..i + 1], names) ==
      if HasPlace(assets[i], names) then Bump(Tally(assets[..i], names), PlaceKey(assets[i])) else Tally(assets[..i], names)
  {
    assert assets[..i + 1][..i] == assets[..i];
  }

  /** The reduce of `locationDistribution`, reading the coordinates by their declared names. */
  method TallyPlaces(assets: seq<Asset>) returns (acc: seq<Slice>)
    ensures acc == Tally(assets, DeclaredNames)
  {
    acc := [];
    var i := 0;
    while i < |assets|
      invariant 0 <= i <= |assets|
      invariant acc == Tally(assets[..i], DeclaredNames)
    {
      var a := assets[i];
      TallyPrefixStep(assets, i, DeclaredNames);
      if HasPlace(a, DeclaredNames) {
        acc := Bump(acc, PlaceKey(a));
      }
      i := i + 1;
    }
    assert assets[..|assets|] == assets;
  }

  /**
   * `locationDistribution`, reading the coordinates by their declared names: the reduce, then the
   * pass that fills in each slice's percentage of all assets.
   */
  method LocationDistribution(assets: seq<Asset>) returns (dist: seq<Slice>)
    ensures |dist| == |Tally(assets, DeclaredNames)|
    ensures forall i :: 0 <= i < |dist| ==>
      dist[i] == Tally(assets, DeclaredNames)[i].(percentage := Percent(Tally(assets, DeclaredNames)[i].value, |assets|))
    ensures DistinctNames(dist)
    ensures forall i :: 0 <= i < |dist| ==> dist[i].value >= 1 && 0 <= dist[i].percentage <= 100
  {
    var acc := TallyPlaces(assets);
    dist := acc;
    var k := 0;
    while k < |dist|
      invariant 0 <= k <= |dist| == |acc|
      invariant forall j :: 0 <= j < k ==> dist[j] == acc[j].(percentage := Percent(acc[j].value, |assets|))
      invariant forall j :: k <= j < |dist| ==> dist[j] == acc[j]
    {
      dist := dist[k := dist[k].(percentage := Percent(dist[k].value, |assets|))];
      k := k + 1;
    }
    PercentsKeepShape(assets, dist);
  }

  /** Setting the percentages of the tally keeps its names distinct, its counts positive and the shares within 0..100. */
  lemma PercentsKeepShape(assets: seq<Asset>, dist: seq<Slice>)
    requires |dist| == |Tally(assets, DeclaredNames)|
    requires forall i :: 0 <= i < |dist| ==>
      dist[i] == Tally(assets, DeclaredNames)[i].(percentage := Percent(Tally(assets, DeclaredNames)[i].value, |assets|))
    ensures DistinctNames(dist)
    ensures forall i :: 0 <= i < |dist| ==> dist[i].value >= 1 && 0 <= dist[i].percentage <= 100
  {
    var t := Tally(assets, DeclaredNames);
    TallyShape(assets, DeclaredNames);
    SlicesBounded(assets, DeclaredNames);
    forall i | 0 <= i < |dist| ensures dist[i].name == t[i].name && 1 <= dist[i].value <= |assets| {
    }
  }

  lemma {:induction false} SumBoundsEach(acc: seq<Slice>, j: nat)
    requires j < |acc|
    requires forall i :: 0 <= i < |acc| ==> acc[i].value >= 0
    ensures acc[j].value <= SumValues(acc)
    decreases |acc|
  {
    if j < |acc| - 1 {
      SumBoundsEach(acc[..|acc| - 1], j);
      SumNonNegative(acc[..|acc| - 1]);
    } else {
      SumNonNegative(acc[..|acc| - 1]);
    }
  }

  lemma {:induction false} SumNonNegative(acc: seq<Slice>)
    requires forall i :: 0 <= i < |acc| ==> acc[i].value >= 0
    ensures SumValues(acc) >= 0
    decreases |acc|
  {
    if |acc| > 0 {
      SumNonNegative(acc[..|acc| - 1]);
    }
  }

  /** No slice holds more assets than there are. */
  lemma SlicesBounded(assets: seq<Asset>, names: CoordinateNames)
    ensures forall j :: 0 <= j < |Tally(assets, names)| ==> Tally(assets, names)[j].value <= |assets|
  {
    TallyShape(assets, names);
    var t := Tally(assets, names);
    forall j | 0 <= j < |t| ensures t[j].value <= |assets| {
      SumBoundsEach(t, j);
    }
  }

  // ---------------------------------------------------------------- warranty

  /** An asset with a warranty start and a non-zero warranty period. */
  predicate HasWarranty(a: Asset) {
    a.warrantyStartDate.Some? && a.warrantyPeriodMonths != 0
  }

  /** The warranty's end: the start date, `warrantyPeriodMonths` calendar months on. */
  function WarrantyEnd(a: Asset): int
    requires HasWarranty(a)
  {
    AddMonths(a.warrantyStartDate.value, a.warrantyPeriodMonths)
  }

  predicate WarrantyActive(a: Asset, now: int) {
    HasWarranty(a) && WarrantyEnd(a) > now
  }

  predicate WarrantyExpiringSoon(a: Asset, now: int) {
    HasWarranty(a) && WarrantyEnd(a) > now && WarrantyEnd(a) <= AddMonths(now, 3)
  }

  predicate WarrantyExpired(a: Asset, now: int) {
    HasWarranty(a) && WarrantyEnd(a) <= now
  }

  datatype WarrantyCounts = WarrantyCounts(active: nat, expiringSoon: nat, expired: nat)

  function ActiveAt(now: int): Asset -> bool {
    (a: Asset) => WarrantyActive(a, now)
  }

  function ExpiringSoonAt(now: int): Asset -> bool {
    (a: Asset) => WarrantyExpiringSoon(a, now)
  }

  function ExpiredAt(now: int): Asset -> bool {
    (a: Asset) => WarrantyExpired(a, now)
  }

  /**
   * `warrantyStatus`: each bucket counts the assets whose warranty end passes its test; assets
   * without both warranty fields fall in no bucket, and every other asset is active or expired.
   */
  function WarrantyBuckets(assets: seq<Asset>, now: int): (r: WarrantyCounts)
    ensures r.active == Count(assets, ActiveAt(now))
    ensures r.expiringSoon == Count(assets, ExpiringSoonAt(now))
    ensures r.expired == Count(assets, ExpiredAt(now))
    ensures r.active + r.expired == Count(assets, HasWarranty)
    ensures r.expiringSoon <= r.active
  {
    CountSplit(assets, HasWarranty, ActiveAt(now), ExpiredAt(now));
    FilterMonotone(assets, ExpiringSoonAt(now), ActiveAt(now));
    WarrantyCounts(Count(assets, ActiveAt(now)), Count(assets, ExpiringSoonAt(now)), Count(assets, ExpiredAt(now)))
  }
}

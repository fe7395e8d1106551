/**
 * The asset detail dialog's warranty badge: unknown without an end date, otherwise the days left
 * (orange within 30 days, green beyond) while the warranty runs, and "Expired" after it.
 */
module AssetDetailModal {
  import opened Wrappers
  import opened Strings
  import opened Calendar

  /** `Math.ceil(x / d)` for whole numbers and a positive divisor. */
  function CeilDiv(x: int, d: int): (r: int)
    requires d > 0
    ensures (r - 1) * d < x <= r * d
  {
    -((-x) / d)
  }

  /** `daysLeft`: whole days from now to the end of the warranty, rounded up. */
  function DaysLeft(end: int, now: int): (r: int)
    ensures (r - 1) * DayMs < end - now <= r * DayMs
  {
    CeilDiv(end - now, DayMs)
  }

  datatype BadgeColor = Gray | Orange | Green | Red

  datatype WarrantyBadge = WarrantyBadge(status: string, color: BadgeColor)

  /** `getWarrantyStatus`, with the warranty end as an instant and None for a missing end date. */
  function WarrantyStatus(end: Option<int>, now: int): (r: WarrantyBadge)
    ensures end.None? <==> r == WarrantyBadge("Unknown", Gray)
    ensures end.Some? && now > end.value <==> r == WarrantyBadge("Expired", Red)
    ensures end.Some? && now <= end.value ==> r.status == IntToString(DaysLeft(end.value, now)) + " days left"
    ensures end.Some? && now <= end.value ==> (r.color == Orange <==> DaysLeft(end.value, now) <= 30)
    ensures end.Some? && now <= end.value ==> (r.color == Green <==> DaysLeft(end.value, now) > 30)
  {
    if end.None? then WarrantyBadge("Unknown", Gray)
    else if now <= end.value then
      var d := DaysLeft(end.value, now);
      assert d >= 0;
      WarrantyBadge(IntToString(d) + " days left", if d <= 30 then Orange else Green)
    else WarrantyBadge("Expired", Red)
  }

  /** A running warranty shows between 0 and the true number of days, and 0 only on its last instant. */
  lemma RunningWarrantyDays(end: int, now: int)
    requires now <= end
    ensures DaysLeft(end, now) >= 0
    ensures DaysLeft(end, now) == 0 <==> end == now
  {
  }

  /** The badge turns orange exactly when at most 30 days (of 86 400 000 ms) remain. */
  lemma OrangeWithinThirtyDays(end: int, now: int)
    requires now <= end
    ensures WarrantyStatus(Some(end), now).color == Orange <==> end - now <= 30 * DayMs
  {
    var d := DaysLeft(end, now);
    if d <= 30 {
      assert d * DayMs <= 30 * DayMs;
    } else {
      assert (d - 1) * DayMs >= 30 * DayMs;
    }
  }

  /** The status read back with `parseInt` is the number of days left. */
  lemma StatusReadsDays(end: int, now: int)
    requires now <= end
    ensures ParseInt(WarrantyStatus(Some(end), now).status) == Some(DaysLeft(end, now))
  {
    ParseIntOfIntThen(DaysLeft(end, now), " days left");
  }
}

/**
 * The dialog that creates or edits a maintenance schedule: the schema, the values the form starts
 * from, and the schedule handed back, which keeps the id of the schedule under edit.
 */
module ScheduleEditModal {
  import opened Wrappers
  import opened Strings
  import opened Types
  import opened MaintenanceSchedules

  /** The form values; the interval value is already coerced to a number. */
  datatype ScheduleForm = ScheduleForm(name: string, serviceType: string, intervalValue: int, intervalUnit: string)

  /** The five unit names the form offers. */
  predicate UnitName(u: string) {
    u == "hour" || u == "day" || u == "week" || u == "month" || u == "year"
  }

  /** The form schema. */
  predicate ValidScheduleForm(v: ScheduleForm) {
    |v.name| >= 1 && |v.serviceType| >= 1 && v.intervalValue >= 1 && UnitName(v.intervalUnit)
  }

  /** The unit a name stands for; any other text is kept as it is. */
  function UnitOf(u: string): (r: IntervalUnit)
    ensures UnitText(r) == u
    ensures UnitName(u) <==> !r.OtherUnit?
  {
    if u == "hour" then Hours
    else if u == "day" then Days
    else if u == "week" then Weeks
    else if u == "month" then Months
    else if u == "year" then Years
    else OtherUnit(u)
  }

  /** Reading a declared unit's name gives the unit back. */
  lemma UnitOfText(u: IntervalUnit)
    requires !u.OtherUnit?
    ensures UnitOf(UnitText(u)) == u
  {
  }

  lemma UnitOfTextIfDeclared(u: IntervalUnit)
    ensures !u.OtherUnit? ==> UnitOf(UnitText(u)) == u
  {
    if !u.OtherUnit? {
      UnitOfText(u);
    }
  }

  /** The form as the effect resets it: the schedule's values, or interval 1 and "month". */
  function ScheduleFormFor(schedule: Option<MaintenanceSchedule>): (r: ScheduleForm)
    ensures schedule.None? ==> r == ScheduleForm("", "", 1, "month")
    ensures schedule.Some? ==> r.name == schedule.value.name && r.serviceType == schedule.value.serviceType
    ensures schedule.Some? ==> r.intervalValue == schedule.value.intervalValue
    ensures schedule.Some? && !schedule.value.intervalUnit.OtherUnit? ==> UnitOf(r.intervalUnit) == schedule.value.intervalUnit
  {
    if schedule.Some? then
      var s := schedule.value;
      UnitOfTextIfDeclared(s.intervalUnit);
      ScheduleForm(s.name, s.serviceType, s.intervalValue, UnitText(s.intervalUnit))
    else ScheduleForm("", "", 1, "month")
  }

  /** The first render's values: the schedule's, each falling back to "", 1 or "month" when empty. */
  function InitialScheduleForm(schedule: Option<MaintenanceSchedule>): (r: ScheduleForm)
    ensures schedule.None? ==> r == ScheduleFormFor(None)
    ensures r.intervalValue != 0 && r.intervalUnit != ""
  {
    if schedule.Some? then
      var s := schedule.value;
      ScheduleForm(s.name, s.serviceType, if s.intervalValue != 0 then s.intervalValue else 1,
        if UnitText(s.intervalUnit) != "" then UnitText(s.intervalUnit) else "month")
    else ScheduleForm("", "", 1, "month")
  }

  /** The id handed back: the schedule's own, or the clock's milliseconds as text for a new one. */
  function ScheduleId(schedule: Option<MaintenanceSchedule>, clock: nat): (r: string)
    ensures schedule.Some? && schedule.value.id != "" ==> r == schedule.value.id
    ensures !(schedule.Some? && schedule.value.id != "") ==> ParseInt(r) == Some(clock)
  {
    ParseIntOfNat(clock);
    if schedule.Some? && schedule.value.id != "" then schedule.value.id else NatToString(clock)
  }

  /** `form.handleSubmit(onSubmit)`: None when the schema fails. */
  function SubmitSchedule(v: ScheduleForm, schedule: Option<MaintenanceSchedule>, clock: nat): (r: Option<MaintenanceSchedule>)
    ensures r.None? <==> !ValidScheduleForm(v)
    ensures r.Some? ==> r.value.id == ScheduleId(schedule, clock)
    ensures r.Some? ==> r.value.name == v.name && r.value.serviceType == v.serviceType
    ensures r.Some? ==> r.value.intervalValue == v.intervalValue && r.value.intervalValue >= 1
    ensures r.Some? ==> UnitText(r.value.intervalUnit) == v.intervalUnit && !r.value.intervalUnit.OtherUnit?
  {
    if ValidScheduleForm(v) then
      Some(MaintenanceSchedule(ScheduleId(schedule, clock), v.name, v.intervalValue, UnitOf(v.intervalUnit), v.serviceType))
    else None
  }

  predicate ValidSchedule(s: MaintenanceSchedule) {
    s.id != "" && s.name != "" && s.serviceType != "" && s.intervalValue >= 1 && !s.intervalUnit.OtherUnit?
  }

  /** Opening a valid schedule and saving it unchanged gives back the very same schedule. */
  lemma EditUnchanged(s: MaintenanceSchedule, clock: nat)
    requires ValidSchedule(s)
    ensures SubmitSchedule(ScheduleFormFor(Some(s)), Some(s), clock) == Some(s)
  {
    UnitOfText(s.intervalUnit);
  }

  /** The empty form is refused until a name and a service type are filled in. */
  lemma NewFormNeedsNames(clock: nat)
    ensures SubmitSchedule(ScheduleFormFor(None), None, clock).None?
    ensures forall n, t :: n != "" && t != "" ==> SubmitSchedule(ScheduleFormFor(None).(name := n, serviceType := t), None, clock).Some?
  {
  }
}

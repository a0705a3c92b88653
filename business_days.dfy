/**
 * Holiday calendars, business day conventions and the resolved adjuster.
 *
 * The calendars and the conventions are collaborators whose own code is not part of this
 * model: a calendar is a named, pure business-day predicate, and a convention is a named,
 * pure rolling rule whose only known property is that it returns a business day unaltered.
 */
module BusinessDays {

  /** A calendar date, as a day number. */
  type Date = int

  /** A holiday calendar: its name and the pure test of whether a date is a business day. */
  datatype HolidayCalendar = HolidayCalendar(name: string, isBusinessDay: Date -> bool)

  /** The calendar with no holidays and no weekends: every date is a business day. */
  const NO_HOLIDAYS: HolidayCalendar := HolidayCalendar("NoHolidays", (date: Date) => true)

  /** A rolling rule: its name and the date the rule moves a date to under a calendar. */
  datatype ConventionRule = ConventionRule(name: string, roll: (Date, HolidayCalendar) -> Date)

  /** The property every business day convention has: a business day is left where it is. */
  ghost predicate KeepsBusinessDays(rule: ConventionRule)
  {
    forall date: Date, calendar: HolidayCalendar ::
      calendar.isBusinessDay(date) ==> rule.roll(date, calendar) == date
  }

  /** A business day convention. */
  type BusinessDayConvention = rule: ConventionRule | KeepsBusinessDays(rule)
    witness ConventionRule("NoAdjust", (date: Date, calendar: HolidayCalendar) => date)

  /** The convention that never moves a date. */
  const NO_ADJUST: BusinessDayConvention :=
    ConventionRule("NoAdjust", (date: Date, calendar: HolidayCalendar) => date)

  /** `convention.adjust(date, calendar)`: apply the convention to the date under the calendar. */
  function ConventionAdjust(convention: BusinessDayConvention, date: Date, calendar: HolidayCalendar): (r: Date)
    ensures calendar.isBusinessDay(date) ==> r == date
  {
    convention.roll(date, calendar)
  }

  /** The no-adjustment convention returns every date unchanged, whatever the calendar. */
  lemma NoAdjustIsIdentity(date: Date, calendar: HolidayCalendar)
    ensures ConventionAdjust(NO_ADJUST, date, calendar) == date
  {
  }

  /** Under the no-holidays calendar, no convention moves any date. */
  lemma NoHolidaysFixesEveryDate(convention: BusinessDayConvention, date: Date)
    ensures ConventionAdjust(convention, date, NO_HOLIDAYS) == date
  {
  }

  /** A convention bound to a concrete calendar, ready to adjust dates with no further lookup. */
  datatype BusinessDayAdjuster = BusinessDayAdjuster(convention: BusinessDayConvention, calendar: HolidayCalendar)
  {
    /** Adjust the date with the bound convention and calendar. */
    function Adjust(date: Date): (r: Date)
      ensures calendar.isBusinessDay(date) ==> r == date
    {
      ConventionAdjust(convention, date, calendar)
    }
  }
}

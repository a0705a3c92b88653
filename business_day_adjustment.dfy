/**
 * The business day adjustment: an immutable pairing of a business day convention with a
 * holiday calendar, its resolved forms, its string form, equality and hash code, and the
 * mutable builder that copies, changes and rebuilds adjustments.
 */
module BusinessDayAdjustments {
  import opened Wrappers
  import opened JavaInt
  import opened BusinessDays

  /** The exceptions thrown by the adjustment and its builder. */
  datatype Failure =
    | IllegalArgument(argument: string)  // a mandatory argument was null
    | NoSuchElement(message: string)     // a property name the bean does not have
    | ClassCast(targetType: string)      // a property value of the wrong type

  /** An adjustment that moves a date off a non-business day. Both fields are mandatory. */
  datatype BusinessDayAdjustment = BusinessDayAdjustment(convention: BusinessDayConvention, calendar: HolidayCalendar)
  {
    /**
     * `adjust(date, refData)`: the convention applied to the date under the calendar.
     * The reference data is not consulted.
     */
    function Adjust<ReferenceData>(date: Date, refData: ReferenceData): (r: Date)
      ensures calendar.isBusinessDay(date) ==> r == date
    {
      ConventionAdjust(convention, date, calendar)
    }

    /** `resolve(refData)`: the adjuster binding this convention and this calendar. */
    function Resolve<ReferenceData>(refData: ReferenceData): (adjuster: BusinessDayAdjuster)
      ensures adjuster.convention == convention && adjuster.calendar == calendar
      ensures forall date: Date :: adjuster.Adjust(date) == Adjust(date, refData)
    {
      BusinessDayAdjuster(convention, calendar)
    }

    /** `toDateAdjuster(refData)`: the same calculation as a plain date-to-date function. */
    function ToDateAdjuster<ReferenceData>(refData: ReferenceData): (adjuster: Date -> Date)
      ensures forall date: Date :: adjuster(date) == Adjust(date, refData)
    {
      (date: Date) => ConventionAdjust(convention, date, calendar)
    }

    /**
     * `equals(obj)`, where `None` stands for null or an object of another class.
     * Conventions and calendars are compared by their names, which identify them.
     */
    predicate Equals(obj: Option<BusinessDayAdjustment>): (r: bool)
      ensures obj.None? ==> !r
      ensures obj == Some(this) ==> r
      ensures r ==> obj.Some? && obj.value.convention.name == convention.name
      ensures r ==> obj.Some? && obj.value.calendar.name == calendar.name
      ensures obj.Some? && obj.value.convention.name == convention.name && obj.value.calendar.name == calendar.name ==> r
    {
      obj.Some? && obj.value.convention.name == convention.name && obj.value.calendar.name == calendar.name
    }

    /**
     * `hashCode()`, given the hash code of the class; all arithmetic is Java `int` arithmetic,
     * so the result is the unwrapped combination modulo 2^32.
     */
    function HashCode(classHash: Int32): (h: Int32)
      ensures (h - (classHash * 961 + StringHash(convention.name) * 31 + StringHash(calendar.name))) % TWO_TO_32 == 0
    {
      var hash := Wrap(classHash * 31 + StringHash(convention.name));
      CongruentScale(hash, classHash * 31 + StringHash(convention.name), 31, StringHash(calendar.name));
      CongruentTransitive(Wrap(hash * 31 + StringHash(calendar.name)), hash * 31 + StringHash(calendar.name),
                          (classHash * 31 + StringHash(convention.name)) * 31 + StringHash(calendar.name));
      Wrap(hash * 31 + StringHash(calendar.name))
    }

    /** `toString()`: the convention alone for NONE, otherwise the convention and the calendar. */
    function ToString(): (s: string)
      ensures |convention.name| <= |s| && s[..|convention.name|] == convention.name
      ensures s == convention.name <==> Equals(Some(NONE))
      ensures !Equals(Some(NONE)) ==> s[|convention.name|..] == " using calendar " + calendar.name
    {
      if Equals(Some(NONE)) then convention.name
      else convention.name + " using calendar " + calendar.name
    }

    /** `toBuilder()`: a fresh builder holding this adjustment's two fields. */
    method ToBuilder() returns (builder: Builder)
      ensures fresh(builder)
      ensures builder.convention == Some(convention) && builder.calendar == Some(calendar)
    {
      builder := new Builder.FromBean(this);
    }
  }

  /** The adjustment that performs no adjustment. */
  const NONE: BusinessDayAdjustment := BusinessDayAdjustment(NO_ADJUST, NO_HOLIDAYS)

  /**
   * `of(convention, calendar)`, through the private constructor: a null convention is
   * reported before a null calendar.
   */
  function Of(convention: Option<BusinessDayConvention>, calendar: Option<HolidayCalendar>): (r: Result<BusinessDayAdjustment, Failure>)
    ensures r.Success? <==> convention.Some? && calendar.Some?
    ensures r.Success? ==> r.value.convention == convention.value && r.value.calendar == calendar.value
    ensures convention.None? ==> r == Failure(IllegalArgument("convention"))
    ensures convention.Some? && calendar.None? ==> r == Failure(IllegalArgument("calendar"))
  {
    if convention.None? then Failure(IllegalArgument("convention"))
    else if calendar.None? then Failure(IllegalArgument("calendar"))
    else Success(BusinessDayAdjustment(convention.value, calendar.value))
  }

  /** An adjustment is rebuilt exactly from its two getters. */
  lemma OfGetters(adjustment: BusinessDayAdjustment)
    ensures Of(Some(adjustment.convention), Some(adjustment.calendar)) == Success(adjustment)
  {
  }

  /** `adjust` is the convention's own adjustment under the adjustment's calendar. */
  lemma AdjustForwardsToConvention<ReferenceData>(adjustment: BusinessDayAdjustment, date: Date, refData: ReferenceData)
    ensures adjustment.Adjust(date, refData) == ConventionAdjust(adjustment.convention, date, adjustment.calendar)
  {
  }

  /** The result of `adjust` is the same whatever reference data is passed. */
  lemma AdjustIgnoresReferenceData<R1, R2>(adjustment: BusinessDayAdjustment, date: Date, refData1: R1, refData2: R2)
    ensures adjustment.Adjust(date, refData1) == adjustment.Adjust(date, refData2)
  {
  }

  /** The resolved adjuster and the date adjuster compute the same date. */
  lemma ResolveAgreesWithDateAdjuster<ReferenceData>(adjustment: BusinessDayAdjustment, refData: ReferenceData, date: Date)
    ensures adjustment.Resolve(refData).Adjust(date) == adjustment.ToDateAdjuster(refData)(date)
  {
  }

  /** NONE leaves every date where it is. */
  lemma NoneAdjustIsIdentity<ReferenceData>(date: Date, refData: ReferenceData)
    ensures NONE.Adjust(date, refData) == date
    ensures NONE.Resolve(refData).Adjust(date) == date
  {
  }

  /** NONE is written as the name of the no-adjustment convention. */
  lemma NoneToString()
    ensures NONE.ToString() == "NoAdjust"
  {
  }

  /** Equality is reflexive and symmetric, and false for null. */
  lemma EqualsReflexiveSymmetric(a: BusinessDayAdjustment, b: BusinessDayAdjustment)
    ensures a.Equals(Some(a))
    ensures a.Equals(Some(b)) <==> b.Equals(Some(a))
    ensures !a.Equals(None)
  {
  }

  /** Equality is transitive. */
  lemma EqualsTransitive(a: BusinessDayAdjustment, b: BusinessDayAdjustment, c: BusinessDayAdjustment)
    requires a.Equals(Some(b)) && b.Equals(Some(c))
    ensures a.Equals(Some(c))
  {
  }

  /** Equal adjustments have equal hash codes. */
  lemma EqualsHaveSameHashCode(a: BusinessDayAdjustment, b: BusinessDayAdjustment, classHash: Int32)
    requires a.Equals(Some(b))
    ensures a.HashCode(classHash) == b.HashCode(classHash)
  {
  }

  /** An untyped property value, as the builder's `get` returns and `set` accepts it. */
  datatype BeanValue =
    | NullValue
    | ConventionValue(convention: BusinessDayConvention)
    | CalendarValue(calendar: HolidayCalendar)
    | OtherValue(typeName: string)

  /** A nullable convention field seen as a property value. */
  function ConventionBean(convention: Option<BusinessDayConvention>): (v: BeanValue)
    ensures v.NullValue? <==> convention.None?
  {
    match convention
    case None => NullValue
    case Some(c) => ConventionValue(c)
  }

  /** A nullable calendar field seen as a property value. */
  function CalendarBean(calendar: Option<HolidayCalendar>): (v: BeanValue)
    ensures v.NullValue? <==> calendar.None?
  {
    match calendar
    case None => NullValue
    case Some(c) => CalendarValue(c)
  }

  /** The cast `(BusinessDayConvention) value`: null passes, another type fails. */
  function CastToConvention(value: BeanValue): (r: Result<Option<BusinessDayConvention>, Failure>)
    ensures r.Success? <==> value.NullValue? || value.ConventionValue?
    ensures r.Failure? ==> r.error == ClassCast("BusinessDayConvention")
  {
    match value
    case NullValue => Success(None)
    case ConventionValue(c) => Success(Some(c))
    case _ => Failure(ClassCast("BusinessDayConvention"))
  }

  /** The cast `(HolidayCalendar) value`: null passes, another type fails. */
  function CastToCalendar(value: BeanValue): (r: Result<Option<HolidayCalendar>, Failure>)
    ensures r.Success? <==> value.NullValue? || value.CalendarValue?
    ensures r.Failure? ==> r.error == ClassCast("HolidayCalendar")
  {
    match value
    case NullValue => Success(None)
    case CalendarValue(c) => Success(Some(c))
    case _ => Failure(ClassCast("HolidayCalendar"))
  }

  /** What `get` returns for a field, `set` takes back unchanged. */
  lemma CastInvertsBean(convention: Option<BusinessDayConvention>, calendar: Option<HolidayCalendar>)
    ensures CastToConvention(ConventionBean(convention)) == Success(convention)
    ensures CastToCalendar(CalendarBean(calendar)) == Success(calendar)
  {
  }

  /** The message of the exception for a property name the bean does not have. */
  function UnknownProperty(propertyName: string): Failure
  {
    NoSuchElement("Unknown property: " + propertyName)
  }

  /**
   * The mutable bean-builder. Its fields may be null; `get` and `set` recognise a property
   * name by its hash code alone, as the generated switch statements do.
   */
  class Builder {
    var convention: Option<BusinessDayConvention>
    var calendar: Option<HolidayCalendar>

    /** `BusinessDayAdjustment.builder()`: both fields null. */
    constructor ()
      ensures convention == None && calendar == None
    {
      convention := None;
      calendar := None;
    }

    /** The copy constructor behind `toBuilder()`. */
    constructor FromBean(bean: BusinessDayAdjustment)
      ensures convention == Some(bean.convention) && calendar == Some(bean.calendar)
    {
      convention := Some(bean.convention);
      calendar := Some(bean.calendar);
    }

    /** `get(propertyName)`: the field whose name has the same hash code, or an exception. */
    method Get(propertyName: string) returns (r: Result<BeanValue, Failure>)
      ensures propertyName == "convention" ==> r == Success(ConventionBean(convention))
      ensures propertyName == "calendar" ==> r == Success(CalendarBean(calendar))
      ensures StringHash(propertyName) == CONVENTION_HASH ==> r == Success(ConventionBean(convention))
      ensures StringHash(propertyName) == CALENDAR_HASH ==> r == Success(CalendarBean(calendar))
      ensures StringHash(propertyName) != CONVENTION_HASH && StringHash(propertyName) != CALENDAR_HASH ==>
                r == Failure(UnknownProperty(propertyName))
    {
      if propertyName == "convention" {
        ConventionNameHash();
      } else if propertyName == "calendar" {
        CalendarNameHash();
      }
      var hash := StringHash(propertyName);
      if hash == CONVENTION_HASH {
        r := Success(ConventionBean(convention));
      } else if hash == CALENDAR_HASH {
        r := Success(CalendarBean(calendar));
      } else {
        r := Failure(UnknownProperty(propertyName));
      }
    }

    /**
     * `set(propertyName, newValue)`: casts the value and stores it in the field whose name has
     * the same hash code. A failed cast or an unknown name changes nothing.
     */
    method Set(propertyName: string, newValue: BeanValue) returns (r: Outcome<Failure>)
      modifies this
      ensures propertyName == "convention" && newValue.ConventionValue? ==>
                r == Pass && convention == Some(newValue.convention) && calendar == old(calendar)
      ensures propertyName == "calendar" && newValue.CalendarValue? ==>
                r == Pass && calendar == Some(newValue.calendar) && convention == old(convention)
      ensures StringHash(propertyName) == CONVENTION_HASH ==>
                match CastToConvention(newValue)
                case Success(c) => r == Pass && convention == c && calendar == old(calendar)
                case Failure(e) => r == Fail(e) && convention == old(convention) && calendar == old(calendar)
      ensures StringHash(propertyName) == CALENDAR_HASH ==>
                match CastToCalendar(newValue)
                case Success(c) => r == Pass && calendar == c && convention == old(convention)
                case Failure(e) => r == Fail(e) && convention == old(convention) && calendar == old(calendar)
      ensures StringHash(propertyName) != CONVENTION_HASH && StringHash(propertyName) != CALENDAR_HASH ==>
                r == Fail(UnknownProperty(propertyName)) && convention == old(convention) && calendar == old(calendar)
    {
      if propertyName == "convention" {
        ConventionNameHash();
      } else if propertyName == "calendar" {
        CalendarNameHash();
      }
      var hash := StringHash(propertyName);
      if hash == CONVENTION_HASH {
        var cast := CastToConvention(newValue);
        match cast
        case Success(c) =>
          convention := c;
          r := Pass;
        case Failure(e) =>
          r := Fail(e);
      } else if hash == CALENDAR_HASH {
        var cast := CastToCalendar(newValue);
        match cast
        case Success(c) =>
          calendar := c;
          r := Pass;
        case Failure(e) =>
          r := Fail(e);
      } else {
        r := Fail(UnknownProperty(propertyName));
      }
    }

    /** `convention(convention)`: sets the convention, which must not be null. */
    method SetConvention(newConvention: Option<BusinessDayConvention>) returns (r: Outcome<Failure>)
      modifies this
      ensures newConvention.None? ==>
                r == Fail(IllegalArgument("convention")) && convention == old(convention) && calendar == old(calendar)
      ensures newConvention.Some? ==> r == Pass && convention == newConvention && calendar == old(calendar)
    {
      if newConvention.None? {
        r := Fail(IllegalArgument("convention"));
      } else {
        convention := newConvention;
        r := Pass;
      }
    }

    /** `calendar(calendar)`: sets the calendar, which must not be null. */
    method SetCalendar(newCalendar: Option<HolidayCalendar>) returns (r: Outcome<Failure>)
      modifies this
      ensures newCalendar.None? ==>
                r == Fail(IllegalArgument("calendar")) && convention == old(convention) && calendar == old(calendar)
      ensures newCalendar.Some? ==> r == Pass && calendar == newCalendar && convention == old(convention)
    {
      if newCalendar.None? {
        r := Fail(IllegalArgument("calendar"));
      } else {
        calendar := newCalendar;
        r := Pass;
      }
    }

    /** `build()`: the adjustment of the two fields, through the same checks as `of`. */
    method Build() returns (r: Result<BusinessDayAdjustment, Failure>)
      ensures r == Of(convention, calendar)
      ensures r.Success? <==> convention.Some? && calendar.Some?
    {
      r := Of(convention, calendar);
    }
  }

  /** `toBuilder().build()` gives back the adjustment it started from. */
  method RebuildUnchanged(bean: BusinessDayAdjustment) returns (r: Result<BusinessDayAdjustment, Failure>)
    ensures r == Success(bean)
  {
    var builder := bean.ToBuilder();
    r := builder.Build();
  }

  /** `toBuilder().set("calendar", calendar).build()` replaces the calendar and keeps the convention. */
  method RebuildWithCalendar(bean: BusinessDayAdjustment, calendar: HolidayCalendar) returns (r: Result<BusinessDayAdjustment, Failure>)
    ensures r == Success(BusinessDayAdjustment(bean.convention, calendar))
  {
    var builder := bean.ToBuilder();
    var outcome := builder.Set("calendar", CalendarValue(calendar));
    r := builder.Build();
  }
}

# Business day adjustment and payment period dispatch

A Dafny model of two pieces of the Strata analytics library.

**Business day adjustment.** `BusinessDayAdjustment` pairs a business day convention with a
holiday calendar. It adjusts a date by applying the convention to the date under the calendar.
`resolve` binds the pair into a reusable `BusinessDayAdjuster`, and `toDateAdjuster` binds it
into a plain date function; both compute what `adjust` computes. `NONE` pairs the no-adjustment
convention with the no-holidays calendar and moves no date. The string form is the convention
alone for a value equal to `NONE`, and `"<convention> using calendar <calendar name>"` otherwise.
Equality and the hash code use only the names of the convention and the calendar, with Java `int`
arithmetic for the hash.
The mutable `Builder` copies an adjustment (`toBuilder`), gets and sets its two properties by name,
and rebuilds an adjustment through the same null checks as `of`.

As in the generated bean code, `get` and `set` recognise a property name by its
`String.hashCode()` alone. The model computes Java's string hash and proves that `"convention"`
and `"calendar"` hash to the two case labels. It also proves that the different name
`"dPnvention"` has the same hash as `"convention"`, so `get` and `set` treat it as `"convention"`.

**Payment period dispatch.** `DispatchingPaymentPeriodPricer` is built from a pricer for rate
payment periods and a pricer for known-amount payment periods. It has eight operations. Each one
forwards a period of a registered variant to that variant's pricer and returns the pricer's
result unchanged. It fails with an illegal-argument failure for a period of any other class.
`explainPresentValue` is the only operation that receives the caller's explanation builder. The
registered pricer appends its entries to that builder, and a failing call leaves it untouched.
The router's own source file is not part of this model; it is modelled from its test.

Files:
- `wrappers.dfy`: Option, Result and Outcome, which stand in for null references and exceptions.
- `java_int.dfy`: Java `int` wrap-around and `String.hashCode()`.
- `business_days.dfy`: dates, calendars, conventions and the resolved adjuster.
- `business_day_adjustment.dfy`: the adjustment, its builder and the lemmas about them.
- `payment_periods.dfy`: the payment period variants.
- `dispatching_pricer.dfy`: the delegate pricers, the router and the explanation builder.

Reference data, rates providers, values, sensitivities and explanation entries are type
parameters. No I/O, clock or randomness is involved.

The doc comments describe `adjust(date, refData)`, `resolve(refData)` and `toDateAdjuster(refData)`
as finding the holiday calendar in the reference data (`BusinessDayAdjustment.java:87`, `98-102`).
In this version the code holds the calendar itself and ignores the reference data
(`BusinessDayAdjustment.java:90-93`, `106-108`, `122-125`). The model follows the code, so no
lookup failure exists.

## Model

| member | source | states |
|---|---|---|
| `BusinessDays.ConventionAdjust` | modules/basics/src/main/java/com/opengamma/strata/basics/date/BusinessDayAdjustment.java:81-84 | a convention returns a business day of the calendar unaltered (the one property every convention has) |
| `BusinessDays.NoAdjustIsIdentity` | modules/basics/src/main/java/com/opengamma/strata/basics/date/BusinessDayAdjustment.java:44-48 | the no-adjustment convention returns every date unchanged under any calendar |
| `BusinessDays.NoHolidaysFixesEveryDate` | modules/basics/src/main/java/com/opengamma/strata/basics/date/BusinessDayAdjustment.java:44-48 | under the no-holidays calendar no convention moves any date |
| `BusinessDays.BusinessDayAdjuster.Adjust` | modules/basics/src/main/java/com/opengamma/strata/basics/date/BusinessDayAdjustment.java:96-100 | the resolved adjuster returns a business day of its bound calendar unaltered |
| `BusinessDayAdjustments.Of` | modules/basics/src/main/java/com/opengamma/strata/basics/date/BusinessDayAdjustment.java:168-175 | `of` (lines 75-77) succeeds exactly when both arguments are non-null, and the result holds exactly those two fields; a null convention fails with an illegal argument naming "convention", before the calendar is checked; a null calendar fails naming "calendar" |
| `BusinessDayAdjustments.OfGetters` | modules/basics/src/main/java/com/opengamma/strata/basics/date/BusinessDayAdjustment.java:199-212 | `of` applied to an adjustment's two getters rebuilds that adjustment |
| `BusinessDayAdjustments.BusinessDayAdjustment.Adjust` | modules/basics/src/main/java/com/opengamma/strata/basics/date/BusinessDayAdjustment.java:80-93 | if the date is a business day of the calendar, `adjust` returns it unaltered |
| `BusinessDayAdjustments.AdjustForwardsToConvention` | modules/basics/src/main/java/com/opengamma/strata/basics/date/BusinessDayAdjustment.java:90-93 | `adjust(date, refData)` equals the convention's adjustment of the date under the calendar |
| `BusinessDayAdjustments.AdjustIgnoresReferenceData` | modules/basics/src/main/java/com/opengamma/strata/basics/date/BusinessDayAdjustment.java:91 | `adjust` gives the same date whatever reference data is passed |
| `BusinessDayAdjustments.BusinessDayAdjustment.Resolve` | modules/basics/src/main/java/com/opengamma/strata/basics/date/BusinessDayAdjustment.java:96-108 | the resolved adjuster holds the same convention and calendar, and adjusts every date to what `adjust(date, refData)` gives |
| `BusinessDayAdjustments.BusinessDayAdjustment.ToDateAdjuster` | modules/basics/src/main/java/com/opengamma/strata/basics/date/BusinessDayAdjustment.java:110-125 | the date adjuster maps every date to what `adjust(date, refData)` gives |
| `BusinessDayAdjustments.ResolveAgreesWithDateAdjuster` | modules/basics/src/main/java/com/opengamma/strata/basics/date/BusinessDayAdjustment.java:117 | `resolve` and `toDateAdjuster` are equivalent: their adjusters agree on every date |
| `BusinessDayAdjustments.NoneAdjustIsIdentity` | modules/basics/src/main/java/com/opengamma/strata/basics/date/BusinessDayAdjustment.java:44-48 | NONE, directly or resolved, returns every date unchanged for any reference data |
| `BusinessDayAdjustments.BusinessDayAdjustment.ToString` | modules/basics/src/main/java/com/opengamma/strata/basics/date/BusinessDayAdjustment.java:133-139 | the string starts with the convention's name; it is exactly that name if and only if the value equals NONE; otherwise the rest is " using calendar " followed by the calendar's name |
| `BusinessDayAdjustments.NoneToString` | modules/basics/src/main/java/com/opengamma/strata/basics/date/BusinessDayAdjustment.java:135-137 | NONE is written "NoAdjust", the name of its convention |
| `BusinessDayAdjustments.BusinessDayAdjustment.Equals` | modules/basics/src/main/java/com/opengamma/strata/basics/date/BusinessDayAdjustment.java:223-234 | `equals` holds exactly when the other object is an adjustment whose convention and calendar names match this one's: a true result implies both names match, and matching names imply a true result; it is false for null and for an object of another class, and true for the object itself |
| `BusinessDayAdjustments.BusinessDayAdjustment.HashCode` | modules/basics/src/main/java/com/opengamma/strata/basics/date/BusinessDayAdjustment.java:236-242 | `hashCode` is `Wrap(Wrap(classHash*31 + h(convention))*31 + h(calendar))` in `int` arithmetic, where `h` is the string hash of a name; the contract states that it is congruent modulo 2^32 to `classHash*961 + 31*h(convention) + h(calendar)` |
| `BusinessDayAdjustments.EqualsReflexiveSymmetric` | modules/basics/src/main/java/com/opengamma/strata/basics/date/BusinessDayAdjustment.java:223-234 | equality is reflexive and symmetric, and no adjustment equals null |
| `BusinessDayAdjustments.EqualsTransitive` | modules/basics/src/main/java/com/opengamma/strata/basics/date/BusinessDayAdjustment.java:228-232 | equality is transitive |
| `BusinessDayAdjustments.EqualsHaveSameHashCode` | modules/basics/src/main/java/com/opengamma/strata/basics/date/BusinessDayAdjustment.java:236-242 | equal adjustments have equal hash codes |
| `BusinessDayAdjustments.BusinessDayAdjustment.ToBuilder` | modules/basics/src/main/java/com/opengamma/strata/basics/date/BusinessDayAdjustment.java:219-221 | `toBuilder` returns a new builder holding the adjustment's convention and calendar |
| `BusinessDayAdjustments.CastToConvention` | modules/basics/src/main/java/com/opengamma/strata/basics/date/BusinessDayAdjustment.java:385 | the cast to a convention succeeds exactly for null and for conventions; any other value raises a class-cast failure |
| `BusinessDayAdjustments.CastToCalendar` | modules/basics/src/main/java/com/opengamma/strata/basics/date/BusinessDayAdjustment.java:388 | the cast to a calendar succeeds exactly for null and for calendars; any other value raises a class-cast failure |
| `BusinessDayAdjustments.CastInvertsBean` | modules/basics/src/main/java/com/opengamma/strata/basics/date/BusinessDayAdjustment.java:369-394 | a field value returned by `get` is accepted by `set` and stores that same field value |
| `BusinessDayAdjustments.Builder.constructor` | modules/basics/src/main/java/com/opengamma/strata/basics/date/BusinessDayAdjustment.java:164-166 | `builder()` starts with both fields null |
| `BusinessDayAdjustments.Builder.FromBean` | modules/basics/src/main/java/com/opengamma/strata/basics/date/BusinessDayAdjustment.java:363-366 | the copy constructor takes both fields from the adjustment |
| `BusinessDayAdjustments.Builder.Get` | modules/basics/src/main/java/com/opengamma/strata/basics/date/BusinessDayAdjustment.java:369-379 | "convention" and "calendar" return their field (null included); any name with the same hash code returns the same field; any other name fails with "Unknown property: " and the name |
| `BusinessDayAdjustments.Builder.Set` | modules/basics/src/main/java/com/opengamma/strata/basics/date/BusinessDayAdjustment.java:381-394 | for a known name, the cast value replaces that field only; a failed cast changes nothing; an unknown name fails with "Unknown property: " and the name and changes nothing |
| `BusinessDayAdjustments.Builder.SetConvention` | modules/basics/src/main/java/com/opengamma/strata/basics/date/BusinessDayAdjustment.java:435-439 | a non-null convention replaces the convention only; a null one fails naming "convention" and changes nothing |
| `BusinessDayAdjustments.Builder.SetCalendar` | modules/basics/src/main/java/com/opengamma/strata/basics/date/BusinessDayAdjustment.java:448-452 | a non-null calendar replaces the calendar only; a null one fails naming "calendar" and changes nothing |
| `BusinessDayAdjustments.Builder.Build` | modules/basics/src/main/java/com/opengamma/strata/basics/date/BusinessDayAdjustment.java:420-425 | `build` gives what `of` gives for the two fields, so it succeeds exactly when neither is null |
| `BusinessDayAdjustments.RebuildUnchanged` | modules/basics/src/main/java/com/opengamma/strata/basics/date/BusinessDayAdjustment.java:219-221 | `toBuilder().build()` gives back the original adjustment |
| `BusinessDayAdjustments.RebuildWithCalendar` | modules/basics/src/main/java/com/opengamma/strata/basics/date/BusinessDayAdjustment.java:387-389 | `toBuilder().set("calendar", c).build()` gives the adjustment with calendar `c` and the original convention |
| `JavaInt.Wrap` | modules/basics/src/main/java/com/opengamma/strata/basics/date/BusinessDayAdjustment.java:238-240 | Java `int` wrap-around: the result is a 32-bit value congruent to the input modulo 2^32, and an in-range input is unchanged |
| `JavaInt.StringHash` | modules/basics/src/main/java/com/opengamma/strata/basics/date/BusinessDayAdjustment.java:371 | `propertyName.hashCode()` (also at line 383): the wrapped hash loop is congruent modulo 2^32 to Java's documented polynomial `s[0]*31^(n-1) + ... + s[n-1]` |
| `JavaInt.HashLoopIsPolynomial` | modules/basics/src/main/java/com/opengamma/strata/basics/date/BusinessDayAdjustment.java:371 | the hash loop `h = 31*h + c` over Java `int` agrees modulo 2^32 with the unwrapped polynomial of the characters |
| `JavaInt.HashFromAppend` | modules/basics/src/main/java/com/opengamma/strata/basics/date/BusinessDayAdjustment.java:371 | the hash of a concatenation continues the hash loop from the hash of its first part |
| `JavaInt.HashCollisionExtends` | modules/basics/src/main/java/com/opengamma/strata/basics/date/BusinessDayAdjustment.java:383 | two strings with equal hash codes keep equal hash codes under any common suffix |
| `JavaInt.ConventionNameHash` | modules/basics/src/main/java/com/opengamma/strata/basics/date/BusinessDayAdjustment.java:372 | "convention" hashes to 2039569265, the case label used for it |
| `JavaInt.CalendarNameHash` | modules/basics/src/main/java/com/opengamma/strata/basics/date/BusinessDayAdjustment.java:374 | "calendar" hashes to -178324674, the case label used for it |
| `JavaInt.ConventionHashCollision` | modules/basics/src/main/java/com/opengamma/strata/basics/date/BusinessDayAdjustment.java:370-378 | "dPnvention" is a different name with the hash of "convention", so the hash switch in `get` and `set` selects the convention for it |
| `DispatchingPaymentPeriodPricers.DispatchingPaymentPeriodPricer.PresentValue` | modules/pricer/src/test/java/com/opengamma/strata/pricer/impl/rate/swap/DispatchingPaymentPeriodPricerTest.java:40-53 | a rate period gets exactly the rate pricer's present value and a known-amount period the known-amount pricer's; any other class fails with an illegal argument |
| `DispatchingPaymentPeriodPricers.DispatchingPaymentPeriodPricer.ForecastValue` | modules/pricer/src/test/java/com/opengamma/strata/pricer/impl/rate/swap/DispatchingPaymentPeriodPricerTest.java:56-69 | the same routing for the forecast value, with the same failure |
| `DispatchingPaymentPeriodPricers.DispatchingPaymentPeriodPricer.Pvbp` | modules/pricer/src/test/java/com/opengamma/strata/pricer/impl/rate/swap/DispatchingPaymentPeriodPricerTest.java:106-108 | the same routing for pvbp, with the same failure |
| `DispatchingPaymentPeriodPricers.DispatchingPaymentPeriodPricer.PresentValueSensitivity` | modules/pricer/src/test/java/com/opengamma/strata/pricer/impl/rate/swap/DispatchingPaymentPeriodPricerTest.java:72-76 | the same routing for the present value sensitivity, with the same failure |
| `DispatchingPaymentPeriodPricers.DispatchingPaymentPeriodPricer.ForecastValueSensitivity` | modules/pricer/src/test/java/com/opengamma/strata/pricer/impl/rate/swap/DispatchingPaymentPeriodPricerTest.java:79-83 | the same routing for the forecast value sensitivity, with the same failure |
| `DispatchingPaymentPeriodPricers.DispatchingPaymentPeriodPricer.PvbpSensitivity` | modules/pricer/src/test/java/com/opengamma/strata/pricer/impl/rate/swap/DispatchingPaymentPeriodPricerTest.java:118-120 | the same routing for the pvbp sensitivity, with the same failure |
| `DispatchingPaymentPeriodPricers.DispatchingPaymentPeriodPricer.AccruedInterest` | modules/pricer/src/test/java/com/opengamma/strata/pricer/impl/rate/swap/DispatchingPaymentPeriodPricerTest.java:122-124 | the same routing for the accrued interest, with the same failure |
| `DispatchingPaymentPeriodPricers.DispatchingPaymentPeriodPricer.ExplainEntries` | modules/pricer/src/test/java/com/opengamma/strata/pricer/impl/rate/swap/DispatchingPaymentPeriodPricerTest.java:126-129 | the entries appended when explaining are exactly those of the pricer registered for the variant; any other class fails with an illegal argument |
| `DispatchingPaymentPeriodPricers.DispatchingPaymentPeriodPricer.ExplainPresentValue` | modules/pricer/src/test/java/com/opengamma/strata/pricer/impl/rate/swap/DispatchingPaymentPeriodPricerTest.java:126-129 | the caller's builder ends with its earlier entries followed by the registered pricer's; any other class fails with an illegal argument and leaves the builder untouched |
| `DispatchingPaymentPeriodPricers.ExplainMapBuilder.constructor` | modules/pricer/src/test/java/com/opengamma/strata/pricer/impl/rate/swap/DispatchingPaymentPeriodPricerTest.java:126 | `ExplainMap.builder()` starts with no entries |
| `DispatchingPaymentPeriodPricers.ExplainMapBuilder.PutAll` | modules/pricer/src/test/java/com/opengamma/strata/pricer/impl/rate/swap/DispatchingPaymentPeriodPricerTest.java:127-129 | a pricer's explanation appends its entries, in order, after the entries already in the builder |
| `DispatchingPaymentPeriodPricers.ExplainRatePeriod` | modules/pricer/src/test/java/com/opengamma/strata/pricer/impl/rate/swap/DispatchingPaymentPeriodPricerTest.java:126-127 | explaining a rate period into a new builder leaves in it exactly the rate pricer's entries |
| `DispatchingPaymentPeriodPricers.FailureIsUniform` | modules/pricer/src/test/java/com/opengamma/strata/pricer/impl/rate/swap/DispatchingPaymentPeriodPricerTest.java:86-129 | each of the eight operations succeeds if and only if a pricer is registered for the period's variant, and on any other class all eight fail with the same failure |
| `DispatchingPaymentPeriodPricers.RateResultsIgnoreKnownAmountPricer` | modules/pricer/src/test/java/com/opengamma/strata/pricer/impl/rate/swap/DispatchingPaymentPeriodPricerTest.java:40-47 | on a rate period, two routers with the same rate pricer give the same result for every operation, whatever their known-amount pricers |
| `DispatchingPaymentPeriodPricers.KnownAmountResultsIgnoreRatePricer` | modules/pricer/src/test/java/com/opengamma/strata/pricer/impl/rate/swap/DispatchingPaymentPeriodPricerTest.java:91-99 | on a known-amount period, two routers with the same known-amount pricer give the same result for every operation, whatever their rate pricers |

## Left out

- `BusinessDays.ConventionAdjust`: the rolling rules of the individual conventions (following, preceding, modified following, …) are not modelled, because their code is not part of this model. A convention is a named pure rule whose only known property is that it leaves business days alone.
- Holiday calendars: a calendar is a name and a pure business-day predicate; its holiday data and weekend rules are not modelled, because its code is not part of this model.
- Reference-data lookup: the code ignores the reference data (see above), so the missing-calendar failure does not exist in this version.
- `BusinessDayAdjustments.BusinessDayAdjustment.Equals`: conventions and calendars are compared by their names, which identify them; their own `equals` is not part of this model. `None` stands for both null and an object of another class. The `obj == this` shortcut gives the same answer as the field comparison. Two conventions with the same name are assumed to be the same convention, so the model cannot prove that equal adjustments adjust dates alike.
- `BusinessDayAdjustments.BusinessDayAdjustment.HashCode`: the class's hash code is a parameter. The hash codes of the convention and the calendar are modelled as the string hash of their names, because their own `hashCode` is not part of this model. Any hash that respects their equality gives the same lemma.
- `JavaInt.StringHash`: Java strings are UTF-16 code units and Dafny characters are Unicode scalar values, so hashes differ for characters outside the Basic Multilingual Plane. Property names are ASCII, where the two agree.
- A convention's `toString()` (`BusinessDayAdjustment.java:136`, `138`) is modelled as its name, and a calendar's name is its identifier; their own classes are not part of this model.
- Bean plumbing is not modelled, because it supports reflection and serialization rather than adjustment: the `Meta` class, meta-properties and their hash switches, `metaBean`, `property`, `propertyNames`, `set(MetaProperty, value)`, `setString`, `setAll`, the builder's `toString`, `serialVersionUID` and `registerMetaBean`.
- Builder chaining: the builder's setters return `this` in Java; in the model they return an outcome, and the caller goes on with the same builder.
- The router's default instance: its standard pricers are not part of this model. The unknown-type tests use it, and the failure lemmas hold for every router, that one included.
- Null periods, providers or pricers given to the router are not modelled, because the router's own source is not part of this model and its test never passes null. The failure's message text (also in that source) is replaced by the period's class name.
- The numeric work of the delegate pricers, rates providers and floating point are not modelled. `PaymentPeriods.Payment` keeps its currency amount as a plain datum that nothing computes with, because the router never looks inside a period. Delegates are total functions, and their results are values compared by equality.
- `DispatchingPaymentPeriodPricers.DispatchingPaymentPeriodPricer.ExplainPresentValue`: a delegate's effect on the builder is modelled as the entries it appends. A delegate that reads the builder is not captured.
- Mock objects and `ignoreThrows` test scaffolding are not modelled, and neither are thread-safety claims: nothing here is concurrent.

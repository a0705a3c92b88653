/**
 * The dispatching payment period pricer: it forwards each of its eight operations to the
 * pricer registered for the period's variant and returns that pricer's result unchanged,
 * and it rejects every other variant with an illegal-argument failure.
 */
module DispatchingPaymentPeriodPricers {
  import opened Wrappers
  import opened PaymentPeriods

  /** The failure of a router operation on a variant without a registered pricer. */
  datatype PricerFailure = IllegalArgument(periodType: string)

  /**
   * A pricer for one payment period variant `P`: its eight operations, over a rates provider
   * `Provider`, with values `V`, sensitivities `S` and explanation entries `E`. The effect of
   * `explainPresentValue` on an explanation builder is given by the entries it appends.
   */
  datatype PaymentPeriodPricer<!P, !Provider, V, S, E> = PaymentPeriodPricer(
    presentValue: (P, Provider) -> V,
    forecastValue: (P, Provider) -> V,
    pvbp: (P, Provider) -> V,
    presentValueSensitivity: (P, Provider) -> S,
    forecastValueSensitivity: (P, Provider) -> S,
    pvbpSensitivity: (P, Provider) -> S,
    accruedInterest: (P, Provider) -> V,
    explainPresentValue: (P, Provider) -> seq<E>)

  /** The caller-owned, append-only explanation builder. */
  class ExplainMapBuilder<E> {
    var entries: seq<E>

    constructor ()
      ensures entries == []
    {
      entries := [];
    }

    /** Appends entries in order. */
    method PutAll(added: seq<E>)
      modifies this
      ensures entries == old(entries) + added
    {
      entries := entries + added;
    }
  }

  /** The router, immutable once built from its rate-period and known-amount-period pricers. */
  datatype DispatchingPaymentPeriodPricer<!Provider, V, S, E> = DispatchingPaymentPeriodPricer(
    ratePricer: PaymentPeriodPricer<RatePaymentPeriod, Provider, V, S, E>,
    knownAmountPricer: PaymentPeriodPricer<KnownAmountPaymentPeriod, Provider, V, S, E>)
  {
    function PresentValue(period: PaymentPeriod, provider: Provider): (r: Result<V, PricerFailure>)
      ensures period.Rate? ==> r == Success(ratePricer.presentValue(period.rate, provider))
      ensures period.KnownAmount? ==> r == Success(knownAmountPricer.presentValue(period.knownAmount, provider))
      ensures period.Other? ==> r == Failure(IllegalArgument(period.typeName))
    {
      match period
      case Rate(p) => Success(ratePricer.presentValue(p, provider))
      case KnownAmount(p) => Success(knownAmountPricer.presentValue(p, provider))
      case Other(typeName, _, _) => Failure(IllegalArgument(typeName))
    }

    function ForecastValue(period: PaymentPeriod, provider: Provider): (r: Result<V, PricerFailure>)
      ensures period.Rate? ==> r == Success(ratePricer.forecastValue(period.rate, provider))
      ensures period.KnownAmount? ==> r == Success(knownAmountPricer.forecastValue(period.knownAmount, provider))
      ensures period.Other? ==> r == Failure(IllegalArgument(period.typeName))
    {
      match period
      case Rate(p) => Success(ratePricer.forecastValue(p, provider))
      case KnownAmount(p) => Success(knownAmountPricer.forecastValue(p, provider))
      case Other(typeName, _, _) => Failure(IllegalArgument(typeName))
    }

    function Pvbp(period: PaymentPeriod, provider: Provider): (r: Result<V, PricerFailure>)
      ensures period.Rate? ==> r == Success(ratePricer.pvbp(period.rate, provider))
      ensures period.KnownAmount? ==> r == Success(knownAmountPricer.pvbp(period.knownAmount, provider))
      ensures period.Other? ==> r == Failure(IllegalArgument(period.typeName))
    {
      match period
      case Rate(p) => Success(ratePricer.pvbp(p, provider))
      case KnownAmount(p) => Success(knownAmountPricer.pvbp(p, provider))
      case Other(typeName, _, _) => Failure(IllegalArgument(typeName))
    }

    function PresentValueSensitivity(period: PaymentPeriod, provider: Provider): (r: Result<S, PricerFailure>)
      ensures period.Rate? ==> r == Success(ratePricer.presentValueSensitivity(period.rate, provider))
      ensures period.KnownAmount? ==> r == Success(knownAmountPricer.presentValueSensitivity(period.knownAmount, provider))
      ensures period.Other? ==> r == Failure(IllegalArgument(period.typeName))
    {
      match period
      case Rate(p) => Success(ratePricer.presentValueSensitivity(p, provider))
      case KnownAmount(p) => Success(knownAmountPricer.presentValueSensitivity(p, provider))
      case Other(typeName, _, _) => Failure(IllegalArgument(typeName))
    }

    function ForecastValueSensitivity(period: PaymentPeriod, provider: Provider): (r: Result<S, PricerFailure>)
      ensures period.Rate? ==> r == Success(ratePricer.forecastValueSensitivity(period.rate, provider))
      ensures period.KnownAmount? ==> r == Success(knownAmountPricer.forecastValueSensitivity(period.knownAmount, provider))
      ensures period.Other? ==> r == Failure(IllegalArgument(period.typeName))
    {
      match period
      case Rate(p) => Success(ratePricer.forecastValueSensitivity(p, provider))
      case KnownAmount(p) => Success(knownAmountPricer.forecastValueSensitivity(p, provider))
      case Other(typeName, _, _) => Failure(IllegalArgument(typeName))
    }

    function PvbpSensitivity(period: PaymentPeriod, provider: Provider): (r: Result<S, PricerFailure>)
      ensures period.Rate? ==> r == Success(ratePricer.pvbpSensitivity(period.rate, provider))
      ensures period.KnownAmount? ==> r == Success(knownAmountPricer.pvbpSensitivity(period.knownAmount, provider))
      ensures period.Other? ==> r == Failure(IllegalArgument(period.typeName))
    {
      match period
      case Rate(p) => Success(ratePricer.pvbpSensitivity(p, provider))
      case KnownAmount(p) => Success(knownAmountPricer.pvbpSensitivity(p, provider))
      case Other(typeName, _, _) => Failure(IllegalArgument(typeName))
    }

    function AccruedInterest(period: PaymentPeriod, provider: Provider): (r: Result<V, PricerFailure>)
      ensures period.Rate? ==> r == Success(ratePricer.accruedInterest(period.rate, provider))
      ensures period.KnownAmount? ==> r == Success(knownAmountPricer.accruedInterest(period.knownAmount, provider))
      ensures period.Other? ==> r == Failure(IllegalArgument(period.typeName))
    {
      match period
      case Rate(p) => Success(ratePricer.accruedInterest(p, provider))
      case KnownAmount(p) => Success(knownAmountPricer.accruedInterest(p, provider))
      case Other(typeName, _, _) => Failure(IllegalArgument(typeName))
    }

    /** The entries the registered pricer appends when explaining the present value. */
    function ExplainEntries(period: PaymentPeriod, provider: Provider): (r: Result<seq<E>, PricerFailure>)
      ensures period.Rate? ==> r == Success(ratePricer.explainPresentValue(period.rate, provider))
      ensures period.KnownAmount? ==> r == Success(knownAmountPricer.explainPresentValue(period.knownAmount, provider))
      ensures period.Other? ==> r == Failure(IllegalArgument(period.typeName))
    {
      match period
      case Rate(p) => Success(ratePricer.explainPresentValue(p, provider))
      case KnownAmount(p) => Success(knownAmountPricer.explainPresentValue(p, provider))
      case Other(typeName, _, _) => Failure(IllegalArgument(typeName))
    }

    /**
     * `explainPresentValue(period, provider, builder)`: the registered pricer appends its
     * entries to the caller's builder; for any other variant the builder is left untouched.
     */
    method ExplainPresentValue(period: PaymentPeriod, provider: Provider, builder: ExplainMapBuilder<E>)
      returns (r: Outcome<PricerFailure>)
      modifies builder
      ensures match ExplainEntries(period, provider)
              case Success(es) => r == Pass && builder.entries == old(builder.entries) + es
              case Failure(e) => r == Fail(e) && builder.entries == old(builder.entries)
      ensures period.Rate? ==>
                r == Pass && builder.entries == old(builder.entries) + ratePricer.explainPresentValue(period.rate, provider)
      ensures period.KnownAmount? ==>
                r == Pass && builder.entries == old(builder.entries) + knownAmountPricer.explainPresentValue(period.knownAmount, provider)
      ensures period.Other? ==> r == Fail(IllegalArgument(period.typeName)) && builder.entries == old(builder.entries)
    {
      match ExplainEntries(period, provider)
      case Success(es) =>
        builder.PutAll(es);
        r := Pass;
      case Failure(e) =>
        r := Fail(e);
    }
  }

  /**
   * The eight operations fail on exactly the same periods, all with the same failure:
   * an operation succeeds if and only if a pricer is registered for the period's variant.
   */
  lemma FailureIsUniform<Provider, V, S, E>(
    router: DispatchingPaymentPeriodPricer<Provider, V, S, E>, period: PaymentPeriod, provider: Provider)
    ensures router.PresentValue(period, provider).Success? <==> period.IsRegistered()
    ensures router.ForecastValue(period, provider).Success? <==> period.IsRegistered()
    ensures router.Pvbp(period, provider).Success? <==> period.IsRegistered()
    ensures router.PresentValueSensitivity(period, provider).Success? <==> period.IsRegistered()
    ensures router.ForecastValueSensitivity(period, provider).Success? <==> period.IsRegistered()
    ensures router.PvbpSensitivity(period, provider).Success? <==> period.IsRegistered()
    ensures router.AccruedInterest(period, provider).Success? <==> period.IsRegistered()
    ensures router.ExplainEntries(period, provider).Success? <==> period.IsRegistered()
    ensures !period.IsRegistered() ==>
              var failure := router.PresentValue(period, provider).error;
              && router.ForecastValue(period, provider).error == failure
              && router.Pvbp(period, provider).error == failure
              && router.PresentValueSensitivity(period, provider).error == failure
              && router.ForecastValueSensitivity(period, provider).error == failure
              && router.PvbpSensitivity(period, provider).error == failure
              && router.AccruedInterest(period, provider).error == failure
              && router.ExplainEntries(period, provider).error == failure
  {
  }

  /**
   * The router computes nothing itself: on a rate period its answers depend on the rate
   * pricer alone, whatever known-amount pricer it was built with.
   */
  lemma RateResultsIgnoreKnownAmountPricer<Provider, V, S, E>(
    router1: DispatchingPaymentPeriodPricer<Provider, V, S, E>,
    router2: DispatchingPaymentPeriodPricer<Provider, V, S, E>,
    period: PaymentPeriod, provider: Provider)
    requires router1.ratePricer == router2.ratePricer && period.Rate?
    ensures router1.PresentValue(period, provider) == router2.PresentValue(period, provider)
    ensures router1.ForecastValue(period, provider) == router2.ForecastValue(period, provider)
    ensures router1.Pvbp(period, provider) == router2.Pvbp(period, provider)
    ensures router1.PresentValueSensitivity(period, provider) == router2.PresentValueSensitivity(period, provider)
    ensures router1.ForecastValueSensitivity(period, provider) == router2.ForecastValueSensitivity(period, provider)
    ensures router1.PvbpSensitivity(period, provider) == router2.PvbpSensitivity(period, provider)
    ensures router1.AccruedInterest(period, provider) == router2.AccruedInterest(period, provider)
    ensures router1.ExplainEntries(period, provider) == router2.ExplainEntries(period, provider)
  {
  }

  /**
   * Symmetrically, on a known-amount period the answers depend on the known-amount pricer
   * alone, whatever rate pricer the router was built with.
   */
  lemma KnownAmountResultsIgnoreRatePricer<Provider, V, S, E>(
    router1: DispatchingPaymentPeriodPricer<Provider, V, S, E>,
    router2: DispatchingPaymentPeriodPricer<Provider, V, S, E>,
    period: PaymentPeriod, provider: Provider)
    requires router1.knownAmountPricer == router2.knownAmountPricer && period.KnownAmount?
    ensures router1.PresentValue(period, provider) == router2.PresentValue(period, provider)
    ensures router1.ForecastValue(period, provider) == router2.ForecastValue(period, provider)
    ensures router1.Pvbp(period, provider) == router2.Pvbp(period, provider)
    ensures router1.PresentValueSensitivity(period, provider) == router2.PresentValueSensitivity(period, provider)
    ensures router1.ForecastValueSensitivity(period, provider) == router2.ForecastValueSensitivity(period, provider)
    ensures router1.PvbpSensitivity(period, provider) == router2.PvbpSensitivity(period, provider)
    ensures router1.AccruedInterest(period, provider) == router2.AccruedInterest(period, provider)
    ensures router1.ExplainEntries(period, provider) == router2.ExplainEntries(period, provider)
  {
  }

  /**
   * Explaining a rate period through the router leaves the builder exactly as the rate
   * pricer alone would: its earlier entries followed by the pricer's own.
   */
  method ExplainRatePeriod<Provider, V, S, E>(
    router: DispatchingPaymentPeriodPricer<Provider, V, S, E>, period: RatePaymentPeriod, provider: Provider)
    returns (entries: seq<E>)
    ensures entries == router.ratePricer.explainPresentValue(period, provider)
  {
    var builder := new ExplainMapBuilder<E>();
    var outcome := router.ExplainPresentValue(Rate(period), provider, builder);
    entries := builder.entries;
  }
}

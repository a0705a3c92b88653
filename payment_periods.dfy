/**
 * The payment period variants the valuation router tells apart. The router decides on the
 * variant alone, so each variant carries only the dates that identify the period.
 */
module PaymentPeriods {
  import opened BusinessDays

  /** A payment period whose amount comes from one or more accrual rates. */
  datatype RatePaymentPeriod = RatePaymentPeriod(paymentDate: Date, startDate: Date, endDate: Date)

  /** A payment of a known currency amount on a date. */
  datatype Payment = Payment(currency: string, amount: real, date: Date)

  /** A payment period whose amount is known in advance. */
  datatype KnownAmountPaymentPeriod = KnownAmountPaymentPeriod(payment: Payment, startDate: Date, endDate: Date)

  /**
   * A payment period as the router receives it: one of the two registered variants, or
   * a period of some other class, known only by its class name.
   */
  datatype PaymentPeriod =
    | Rate(rate: RatePaymentPeriod)
    | KnownAmount(knownAmount: KnownAmountPaymentPeriod)
    | Other(typeName: string, startDate: Date, endDate: Date)
  {
    /** Whether a delegate pricer is registered for this period's variant. */
    predicate IsRegistered()
    {
      !Other?
    }
  }
}

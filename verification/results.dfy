/** Optional values, the error vocabulary of the billing engine, and a
    failure-compatible Result type carrying one of those errors. */
module Results {
  import opened Dates

  datatype Option<+T> = None | Some(value: T)

  /** Every way an engine operation can refuse to produce a value.
      The first group is what the billing service raises as BillingError;
      the rest are failures raised by the storage layer or by the
      tariff-management dialogue. */
  datatype Error =
    | TenantNotFound(tenant: nat)
    | NoCurrentReading(meter: nat, period: Date)
    | NoPreviousReading(meter: nat, period: Date)
    | NoActiveTariff(meter: nat, period: Date)
    | SubtractionRejected(parent: nat, child: nat)
    | InvoiceNotFound(invoice: nat)
      // a dictionary lookup of a parent meter that was not billed (KeyError)
    | UnknownParentMeter(parent: nat)
      // a second invoice row for one (tenant, period) (unique constraint)
    | DuplicateInvoice(tenant: nat, period: Date)
      // tariff dialogue: the start date is not the first of a month
    | StartNotFirstOfMonth
      // tariff dialogue: the start date is not later than the open tariff's
    | StartNotAfterOpenTariff
  {
    /** True of the failures the billing service reports as BillingError. */
    predicate IsBillingError() {
      TenantNotFound? || NoCurrentReading? || NoPreviousReading? || NoActiveTariff?
      || SubtractionRejected? || InvoiceNotFound?
    }
  }

  datatype Result<+T> = Success(value: T) | Failure(error: Error) {
    predicate IsFailure() {
      Failure?
    }

    function PropagateFailure<U>(): Result<U>
      requires Failure?
    {
      Failure(error)
    }

    function Extract(): T
      requires Success?
    {
      value
    }
  }
}

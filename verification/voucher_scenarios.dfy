/** The service's behaviour on the concrete inputs of its test suite, derived
    from the general model. The checks at exactly 100 follow from the model's
    choice of minimum, not from a test. */
module VoucherScenarios {
  import opened Wrappers
  import opened ErrorUtils
  import opened VoucherStore
  import opened VoucherService

  /** A store holding one voucher "ABC123" at 20 percent. */
  function StoreWith(used: bool): Store
  {
    Store(map["ABC123" := Voucher(1, "ABC123", 20.0, used)], 2)
  }

  /** The two amounts the tests use sit on either side of the minimum. */
  lemma TestAmountsStraddleMinimum()
    ensures !QualifiesForDiscount(50.0) && QualifiesForDiscount(150.0)
    ensures !QualifiesForDiscount(MinAmountForDiscount)
  {
  }

  /** Creating a code that is not present succeeds with the given discount. */
  lemma CreateFreshCode()
    ensures CreateVoucher(Empty, "ABC123", 20.0).value == Success(Voucher(1, "ABC123", 20.0, false))
    ensures CreateVoucher(Empty, "ABC123", 20.0).store.vouchers == map["ABC123" := Voucher(1, "ABC123", 20.0, false)]
  {
  }

  /** Creating a code that is present raises the conflict and writes nothing,
      and that conflict maps to status 409. */
  lemma CreateExistingCode()
    ensures CreateVoucher(StoreWith(false), "ABC123", 20.0)
      == Step(Failure(AppError(Conflict, "Conflict", Some("Voucher already exist."))), StoreWith(false))
    ensures ErrorTypeToStatusCode(CreateVoucher(StoreWith(false), "ABC123", 20.0).value.error.kind) == 409
  {
  }

  /** A used voucher is refused at a small and at a large amount alike. */
  lemma UsedVoucherRefused()
    ensures ApplyVoucher(StoreWith(true), "ABC123", 50.0)
      == Step(ApplyResult(50.0, 20.0, 50.0, false), StoreWith(true))
    ensures ApplyVoucher(StoreWith(true), "ABC123", 150.0)
      == Step(ApplyResult(150.0, 20.0, 150.0, false), StoreWith(true))
  {
  }

  /** An unused voucher is refused below the minimum and at the minimum,
      reporting its own discount. */
  lemma SmallAmountRefused()
    ensures var s := Store(map["DEF456" := Voucher(1, "DEF456", 10.0, false)], 2);
      ApplyVoucher(s, "DEF456", 50.0) == Step(ApplyResult(50.0, 10.0, 50.0, false), s)
    ensures ApplyVoucher(StoreWith(false), "ABC123", 50.0)
      == Step(ApplyResult(50.0, 20.0, 50.0, false), StoreWith(false))
    ensures ApplyVoucher(StoreWith(false), "ABC123", 100.0)
      == Step(ApplyResult(100.0, 20.0, 100.0, false), StoreWith(false))
  {
  }

  /** An unused voucher applied to 150 takes 20 percent off and is then used;
      applying it again to 150 is refused. */
  lemma ApplyThenReapply()
    ensures ApplyVoucher(StoreWith(false), "ABC123", 150.0)
      == Step(ApplyResult(150.0, 20.0, 120.0, true), StoreWith(true))
    ensures ApplyVoucher(StoreWith(true), "ABC123", 150.0).value
      == ApplyResult(150.0, 20.0, 150.0, false)
  {
  }
}

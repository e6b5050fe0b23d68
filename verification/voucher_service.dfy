/** The voucher service: creating vouchers with unique codes and applying
    them to an amount, at most once each and only above a minimum amount.
    Each operation takes the store and returns its outcome together with the
    store as it is afterwards. */
module VoucherService {
  import opened Wrappers
  import opened ErrorUtils
  import opened VoucherStore

  /** The amount must be strictly greater than this for a voucher to apply. */
  const MinAmountForDiscount: real := 100.0

  /** The message carried by the conflict raised for a duplicate code. */
  const DuplicateCodeMessage: string := "Voucher already exist."

  /** What an application reports; it is not stored. */
  datatype ApplyResult = ApplyResult(amount: real, discount: real, finalAmount: real, applied: bool)

  /** An operation's outcome and the store after it. */
  datatype Step<+T> = Step(value: T, store: Store)

  /** Whether an amount is large enough for a voucher to apply. */
  function QualifiesForDiscount(amount: real): (b: bool)
    ensures b <==> MinAmountForDiscount < amount
  {
    amount > MinAmountForDiscount
  }

  /** The threshold is one-sided: any larger amount qualifies as well. */
  lemma QualifyingIsUpwardClosed(a1: real, a2: real)
    requires QualifiesForDiscount(a1) && a1 <= a2
    ensures QualifiesForDiscount(a2)
  {
  }

  /** `amount` less `discount` percent of it: the part deducted is
      proportional to both, so a zero discount deducts nothing and a full
      one deducts everything. */
  function DiscountedAmount(amount: real, discount: real): (r: real)
    ensures amount - r == amount * discount / 100.0
    ensures discount == 0.0 ==> r == amount
    ensures discount == 100.0 ==> r == 0.0
  {
    amount - amount * (discount / 100.0)
  }

  /** With a percentage between 0 and 100 and a non-negative amount, the
      discounted amount lies between 0 and the amount itself. */
  lemma DiscountedAmountBounds(amount: real, discount: real)
    requires 0.0 <= amount && 0.0 <= discount <= 100.0
    ensures 0.0 <= DiscountedAmount(amount, discount) <= amount
  {
  }

  /** Create a voucher. A code already in the store is a conflict and the
      store is left as it was; otherwise the code is inserted with its
      discount, unused, and the new record is returned. */
  function CreateVoucher(s: Store, code: string, discount: real): (r: Step<Result<Voucher, AppError>>)
    ensures code in s.vouchers <==> r.value.Failure?
    ensures r.value.Failure? ==>
      && r.value.error == ConflictError(Some(DuplicateCodeMessage))
      && r.store == s
    ensures r.value.Success? ==>
      && r.value.value.code == code
      && r.value.value.discount == discount
      && !r.value.value.used
      && r.store.vouchers == s.vouchers[code := r.value.value]
    ensures Valid(s) ==> Valid(r.store)
  {
    match GetVoucherByCode(s, code)
    case Some(_) => Step(Failure(ConflictError(Some(DuplicateCodeMessage))), s)
    case None =>
      var (s', v) := InsertVoucher(s, code, discount);
      Step(Success(v), s')
  }

  /** Apply a voucher to an amount. The checks run in order: the code is
      looked up, a used voucher is refused, then an amount not above the
      minimum is refused; only when all pass is the voucher marked used and
      the discount deducted. A refused application reports the amount
      unchanged and leaves the store alone. */
  function ApplyVoucher(s: Store, code: string, amount: real): (r: Step<ApplyResult>)
    ensures r.value.amount == amount
    ensures r.value.applied <==>
      code in s.vouchers && !s.vouchers[code].used && QualifiesForDiscount(amount)
    ensures code in s.vouchers ==> r.value.discount == s.vouchers[code].discount
    ensures !r.value.applied ==> r.value.finalAmount == amount && r.store == s
    ensures r.value.applied ==>
      && r.value.finalAmount == DiscountedAmount(amount, r.value.discount)
      && r.store == s.(vouchers := s.vouchers[code := s.vouchers[code].(used := true)])
    ensures Valid(s) ==> Valid(r.store)
  {
    match GetVoucherByCode(s, code)
    case None => Step(ApplyResult(amount, 0.0, amount, false), s)
    case Some(v) =>
      if v.used then
        Step(ApplyResult(amount, v.discount, amount, false), s)
      else if !QualifiesForDiscount(amount) then
        Step(ApplyResult(amount, v.discount, amount, false), s)
      else
        var s' := UseVoucher(s, code);
        Step(ApplyResult(amount, v.discount, DiscountedAmount(amount, v.discount), true), s')
  }
}

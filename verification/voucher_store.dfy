/** The voucher store: keyed storage of voucher records, standing in for the
    repository the service calls (lookup by code, insert, mark as used). */
module VoucherStore {
  import opened Wrappers

  /** A discount code record. `discount` is a percentage; nothing checks its
      range. */
  datatype Voucher = Voucher(id: nat, code: string, discount: real, used: bool)

  /** Vouchers keyed by code, and the id the next insert will assign. */
  datatype Store = Store(vouchers: map<string, Voucher>, nextId: nat)

  /** A store with no vouchers; ids start at 1. */
  const Empty: Store := Store(map[], 1)

  /** Every voucher sits under its own code, and ids are store-assigned:
      below `nextId` and pairwise distinct. */
  ghost predicate Valid(s: Store)
  {
    && (forall c :: c in s.vouchers ==> s.vouchers[c].code == c && s.vouchers[c].id < s.nextId)
    && (forall c1, c2 :: c1 in s.vouchers && c2 in s.vouchers && c1 != c2 ==>
          s.vouchers[c1].id != s.vouchers[c2].id)
  }

  lemma EmptyIsValid()
    ensures Valid(Empty)
  {
  }

  /** True when the store holds a voucher for `code` that has been used. */
  predicate IsUsed(s: Store, code: string)
  {
    code in s.vouchers && s.vouchers[code].used
  }

  /** Lookup by code; `None` plays the repository's `null`. */
  function GetVoucherByCode(s: Store, code: string): (r: Option<Voucher>)
    ensures r.Some? <==> code in s.vouchers
    ensures r.Some? ==> r.value == s.vouchers[code]
  {
    if code in s.vouchers then Some(s.vouchers[code]) else None
  }

  /** Insert a new, unused voucher under a fresh id. The caller checks that
      the code is not yet present. Returns the new store and the record. */
  function InsertVoucher(s: Store, code: string, discount: real): (r: (Store, Voucher))
    requires code !in s.vouchers
    ensures r.1 == Voucher(s.nextId, code, discount, false)
    ensures r.0.vouchers == s.vouchers[code := r.1]
    ensures r.0.nextId > s.nextId
    ensures Valid(s) ==> Valid(r.0)
  {
    var v := Voucher(s.nextId, code, discount, false);
    (Store(s.vouchers[code := v], s.nextId + 1), v)
  }

  /** Mark the voucher under `code` as used. The caller has looked the code
      up first, so it is present. */
  function UseVoucher(s: Store, code: string): (r: Store)
    requires code in s.vouchers
    ensures r.vouchers.Keys == s.vouchers.Keys && r.nextId == s.nextId
    ensures IsUsed(r, code)
    ensures r.vouchers[code] == s.vouchers[code].(used := true)
    ensures forall c :: c in s.vouchers && c != code ==> r.vouchers[c] == s.vouchers[c]
    ensures Valid(s) ==> Valid(r)
  {
    Store(s.vouchers[code := s.vouchers[code].(used := true)], s.nextId)
  }
}

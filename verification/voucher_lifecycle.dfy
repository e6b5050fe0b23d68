/** Sequences of service calls against one store, and the voucher lifecycle
    they obey: a voucher goes from unused to used at most once and never
    back, and the store's records are never removed or rewritten otherwise. */
module VoucherLifecycle {
  import opened Wrappers
  import opened ErrorUtils
  import opened VoucherStore
  import opened VoucherService

  /** A call to one of the service's two operations. */
  datatype Request = Create(code: string, discount: real) | Apply(code: string, amount: real)

  /** What that call returned. */
  datatype Reply = Created(outcome: Result<Voucher, AppError>) | Applied(result: ApplyResult)

  function Handle(s: Store, q: Request): (r: Step<Reply>)
    ensures q.Create? <==> r.value.Created?
  {
    match q
    case Create(code, discount) =>
      var c := CreateVoucher(s, code, discount);
      Step(Created(c.value), c.store)
    case Apply(code, amount) =>
      var a := ApplyVoucher(s, code, amount);
      Step(Applied(a.value), a.store)
  }

  /** Handle the requests in order, each on the store the previous one left;
      one reply per request. This is scaffolding for the run lemmas below
      (`RunExtends`, `RunPreservesValid`, `AppliedCountBound`), which carry
      the lifecycle properties. */
  function Run(s: Store, qs: seq<Request>): (r: Step<seq<Reply>>)
    ensures |r.value| == |qs|
    ensures forall i :: 0 <= i < |qs| ==> (qs[i].Create? <==> r.value[i].Created?)
    decreases |qs|
  {
    if |qs| == 0 then Step([], s)
    else
      var first := Handle(s, qs[0]);
      var rest := Run(first.store, qs[1..]);
      Step([first.value] + rest.value, rest.store)
  }

  /** Whether a reply to `q` is a successful application of `code`. */
  predicate AppliedTo(q: Request, a: Reply, code: string)
  {
    q.Apply? && q.code == code && a.Applied? && a.result.applied
  }

  /** How many of the replies are successful applications of `code`. */
  function AppliedCount(qs: seq<Request>, rs: seq<Reply>, code: string): nat
    requires |qs| == |rs|
    decreases |qs|
  {
    if |qs| == 0 then 0
    else (if AppliedTo(qs[0], rs[0], code) then 1 else 0) + AppliedCount(qs[1..], rs[1..], code)
  }

  function UsedBit(s: Store, code: string): nat
  {
    if IsUsed(s, code) then 1 else 0
  }

  /** `s'` keeps every voucher of `s` with the same id, code and discount,
      and a voucher used in `s` is still used in `s'`. */
  ghost predicate Extends(s: Store, s': Store)
  {
    forall c :: c in s.vouchers ==>
      && c in s'.vouchers
      && s'.vouchers[c].id == s.vouchers[c].id
      && s'.vouchers[c].code == s.vouchers[c].code
      && s'.vouchers[c].discount == s.vouchers[c].discount
      && (s.vouchers[c].used ==> s'.vouchers[c].used)
  }

  lemma ExtendsTransitive(s1: Store, s2: Store, s3: Store)
    requires Extends(s1, s2) && Extends(s2, s3)
    ensures Extends(s1, s3)
  {
  }

  /** One call never removes or rewrites a voucher, and never un-uses one. */
  lemma HandleExtends(s: Store, q: Request)
    ensures Extends(s, Handle(s, q).store)
  {
  }

  /** A call that applies `code` finds it unused and leaves it used, and that
      is the only way `code` turns used; any other call leaves it used if it
      was. */
  lemma HandleUsedStep(s: Store, q: Request, code: string)
    ensures AppliedTo(q, Handle(s, q).value, code) ==>
      !IsUsed(s, code) && IsUsed(Handle(s, q).store, code)
    ensures !IsUsed(s, code) && IsUsed(Handle(s, q).store, code) ==>
      AppliedTo(q, Handle(s, q).value, code)
    ensures UsedBit(s, code) <= UsedBit(Handle(s, q).store, code)
  {
  }

  /** Over any run, the store only grows and `used` only goes from false to
      true. */
  lemma {:induction false} RunExtends(s: Store, qs: seq<Request>)
    ensures Extends(s, Run(s, qs).store)
    decreases |qs|
  {
    if |qs| > 0 {
      var first := Handle(s, qs[0]);
      HandleExtends(s, qs[0]);
      RunExtends(first.store, qs[1..]);
      ExtendsTransitive(s, first.store, Run(s, qs).store);
    }
  }

  /** Over any run, the store invariant is kept: codes stay unique keys and
      ids stay distinct. */
  lemma {:induction false} RunPreservesValid(s: Store, qs: seq<Request>)
    requires Valid(s)
    ensures Valid(Run(s, qs).store)
    decreases |qs|
  {
    if |qs| > 0 {
      var first := Handle(s, qs[0]);
      assert Valid(first.store);
      RunPreservesValid(first.store, qs[1..]);
    }
  }

  /** Successful applications of `code` in a run and its unused-to-used
      transitions match one for one: their number, plus one if `code` was
      already used, is one exactly when it is used at the end. */
  lemma {:induction false} AppliedCountBound(s: Store, qs: seq<Request>, code: string)
    ensures AppliedCount(qs, Run(s, qs).value, code) + UsedBit(s, code) == UsedBit(Run(s, qs).store, code)
    decreases |qs|
  {
    if |qs| > 0 {
      var first := Handle(s, qs[0]);
      var rest := Run(first.store, qs[1..]);
      var r := Run(s, qs);
      assert r.value[0] == first.value;
      assert r.value[1..] == rest.value;
      HandleUsedStep(s, qs[0], code);
      AppliedCountBound(first.store, qs[1..], code);
    }
  }

  /** A voucher is applied at most once over any run, never if it was already
      used at the start, and exactly once if it starts unused and ends used. */
  lemma AppliedAtMostOnce(s: Store, qs: seq<Request>, code: string)
    ensures AppliedCount(qs, Run(s, qs).value, code) <= 1
    ensures IsUsed(s, code) ==> AppliedCount(qs, Run(s, qs).value, code) == 0
    ensures !IsUsed(s, code) && IsUsed(Run(s, qs).store, code) ==>
      AppliedCount(qs, Run(s, qs).value, code) == 1
  {
    AppliedCountBound(s, qs, code);
  }

  /** After a successful application, applying the same code again is
      refused whatever the amount, and the store stays as it was. */
  lemma SecondApplicationRefused(s: Store, code: string, amount1: real, amount2: real)
    requires ApplyVoucher(s, code, amount1).value.applied
    ensures var s1 := ApplyVoucher(s, code, amount1).store;
      && !ApplyVoucher(s1, code, amount2).value.applied
      && ApplyVoucher(s1, code, amount2).value.finalAmount == amount2
      && ApplyVoucher(s1, code, amount2).store == s1
  {
  }

  /** After creating a voucher, looking its code up finds it with the given
      discount and unused. */
  lemma CreateThenLookup(s: Store, code: string, discount: real)
    requires code !in s.vouchers
    ensures var c := CreateVoucher(s, code, discount);
      && c.value.Success?
      && GetVoucherByCode(c.store, code) == Some(c.value.value)
      && c.value.value.discount == discount && !c.value.value.used
  {
  }
}

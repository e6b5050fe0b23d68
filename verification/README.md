# LeVoucher voucher service: a verified functional model

This project models, in Dafny, the decision logic of a small voucher service:

- **Voucher service.** `createVoucher(code, discount)` refuses a code that already
  exists with a Conflict error "Voucher already exist." and otherwise stores a new,
  unused voucher. `applyVoucher(code, amount)` checks, in order, that the voucher
  exists, that it is unused, and that the amount is above the minimum. Only when all
  three pass does it mark the voucher used and deduct `amount * (discount / 100)`.
  Otherwise it reports the amount unchanged. The service's own source file is not
  part of this model. Its behaviour is taken from the assertions of its test suite,
  `tests/voucher-service.spec.ts`.
- **Error classification** (`src/utils/errorUtils.ts`). It covers the five error
  kinds, the `AppError` record and its five constructors, the `isAppError` type-tag
  check, and the mapping from error kind to HTTP status code.

The repository the service calls is replaced by an in-memory `Store`. The store maps
each code to its `Voucher {id, code, discount, used}` and keeps the next id it will
assign. Each operation is a pure function. It takes the store and returns its outcome
together with the store as it is afterwards (`Step`). A thrown error becomes
`Result.Failure`. Amounts and discounts are Dafny `real`s.

Modules, one per file:

- `Wrappers` (`wrappers.dfy`) defines `Option` and `Result`.
- `ErrorUtils` (`error_utils.dfy`) models `src/utils/errorUtils.ts`.
- `VoucherStore` (`voucher_store.dfy`) is the repository: lookup, insert and
  use-marking, plus the store invariant `Valid`. `Valid` says each voucher sits under
  its own code and ids are distinct.
- `VoucherService` (`voucher_service.dfy`) holds `CreateVoucher`, `ApplyVoucher`, the
  minimum amount `MinAmountForDiscount` and the discount rule.
- `VoucherLifecycle` (`voucher_lifecycle.dfy`) covers sequences of calls. Over a run,
  the store only grows, `used` is monotonic, the invariant is kept, and each voucher is
  applied at most once.
- `VoucherScenarios` (`voucher_scenarios.dfy`) checks the concrete inputs of the test
  cases against the model.

The tests constrain the minimum amount only to `50 <= MIN < 150`. Within that range
the model chooses `MIN = 100` with the strict test `amount > MIN`, so under this
choice exactly 100 does not qualify. `MinAmountForDiscount` is the one place to
change it.

## Model

| member | source | states |
|---|---|---|
| ErrorUtils.ParseTag | src/utils/errorUtils.ts:1-6 | a string is read as an error kind only when it is that kind's literal |
| ErrorUtils.TagRoundTrip | src/utils/errorUtils.ts:1-6 | the five literals are distinct: each kind is recovered from its literal |
| ErrorUtils.AsObject | src/utils/errorUtils.ts:8-12 | an `AppError` seen as an object has its `type`, `name` and `message` fields as in the record |
| ErrorUtils.IsAppError | src/utils/errorUtils.ts:14-16 | the check holds exactly when the `type` field is present, whatever the other fields hold |
| ErrorUtils.AppErrorObjectsPassCheck | src/utils/errorUtils.ts:8-16 | every `AppError` passes the check, and its `type` field reads back as its kind |
| ErrorUtils.ErrorTypeToStatusCode | src/utils/errorUtils.ts:18-25 | conflict, not_found, unauthorized, wrong_schema and bad_request map to 409, 404, 401, 422 and 400, each code only for its own kind |
| ErrorUtils.StatusCodeRange | src/utils/errorUtils.ts:18-24 | the status code is always one of 400, 401, 404, 409, 422 |
| ErrorUtils.StatusCodeInjective | src/utils/errorUtils.ts:18-24 | distinct error kinds get distinct status codes |
| ErrorUtils.BadRequestError | src/utils/errorUtils.ts:27-29 | the result has type bad_request, name "BadRequest" and the given message unchanged |
| ErrorUtils.ConflictError | src/utils/errorUtils.ts:31-33 | the result has type conflict, name "Conflict" and the given message unchanged |
| ErrorUtils.NotFoundError | src/utils/errorUtils.ts:35-37 | the result has type not_found, name "NotFound" and the given message unchanged |
| ErrorUtils.UnauthorizedError | src/utils/errorUtils.ts:39-41 | the result has type unauthorized, name "Unauthorized" and the given message unchanged |
| ErrorUtils.WrongSchemaError | src/utils/errorUtils.ts:43-45 | the result has type wrong_schema, name "WrongSchema" and the given message unchanged |
| ErrorUtils.ConstructorsMatchStatusCodes | src/utils/errorUtils.ts:18-45 | each constructor's error maps to its kind's status code: 400, 409, 404, 401, 422 |
| ErrorUtils.ConstructorsPassCheck | src/utils/errorUtils.ts:14-45 | the output of every constructor passes the type-tag check |
| ErrorUtils.ErrorNameInjective | src/utils/errorUtils.ts:27-45 | the constructors' names are pairwise distinct, so a name identifies its kind |
| VoucherStore.GetVoucherByCode | tests/voucher-service.spec.ts:11-14 | the lookup finds a voucher exactly when the code is stored, and returns that voucher |
| VoucherStore.InsertVoucher | tests/voucher-service.spec.ts:15-18 | an insert adds exactly `(code, discount)`, unused, under a fresh id, and keeps the store invariant |
| VoucherStore.UseVoucher | tests/voucher-service.spec.ts:19-21 | use-marking sets `used` on the given code only and changes no other voucher |
| VoucherService.QualifiesForDiscount | tests/voucher-service.spec.ts:112-147 | an amount qualifies exactly when it is strictly above the minimum; the tests place the minimum at or above 50 and below 150 |
| VoucherService.QualifyingIsUpwardClosed | tests/voucher-service.spec.ts:112-147 | an amount larger than a qualifying one qualifies too |
| VoucherService.DiscountedAmount | tests/voucher-service.spec.ts:144 | the part deducted is `amount * discount / 100`; a zero discount deducts nothing, a 100 percent discount everything |
| VoucherService.DiscountedAmountBounds | tests/voucher-service.spec.ts:144 | with a discount between 0 and 100 and a non-negative amount, the final amount lies between 0 and the amount |
| VoucherService.CreateVoucher | tests/voucher-service.spec.ts:27-57 | it fails exactly when the code is stored, with Conflict "Voucher already exist." and the store unchanged; otherwise it inserts exactly `(code, discount)` unused |
| VoucherService.ApplyVoucher | tests/voucher-service.spec.ts:60-168 | the amount is echoed; applied exactly when the voucher is stored, unused and the amount exceeds the minimum; a stored voucher's discount is reported; when not applied the final amount is the amount and the store is unchanged; when applied the final amount is `DiscountedAmount(amount, discount)` and only that code becomes used |
| VoucherLifecycle.HandleExtends | tests/voucher-service.spec.ts:129-168 | no single call removes a voucher, changes its id, code or discount, or resets `used` |
| VoucherLifecycle.HandleUsedStep | tests/voucher-service.spec.ts:129-168 | a call that applies a code finds it unused and leaves it used; a code turns from unused to used only through a successful application of it; no call un-uses a code |
| VoucherLifecycle.RunExtends | tests/voucher-service.spec.ts:129-168 | over any sequence of calls the store only grows and `used` only goes from false to true |
| VoucherLifecycle.RunPreservesValid | tests/voucher-service.spec.ts:27-57 | over any sequence of calls codes stay unique keys and ids stay distinct |
| VoucherLifecycle.AppliedCountBound | tests/voucher-service.spec.ts:129-168 | in any run, successful applications of a code plus one if it started used equal one if it ends used, zero otherwise: each unused-to-used transition is exactly one successful application |
| VoucherLifecycle.AppliedAtMostOnce | tests/voucher-service.spec.ts:129-168 | in any run a voucher is applied at most once, never if it was already used, and exactly once if it goes from unused to used |
| VoucherLifecycle.SecondApplicationRefused | tests/voucher-service.spec.ts:140-168 | after a successful application, applying the same code again is refused at any amount, with the amount unchanged and the store untouched |
| VoucherLifecycle.CreateThenLookup | tests/voucher-service.spec.ts:28-38 | after creating a new code, looking it up finds it with the given discount and unused |
| VoucherScenarios.TestAmountsStraddleMinimum | tests/voucher-service.spec.ts:112-147 | 50 is below the minimum and 150 is above it, as the tests require; that the minimum itself does not qualify follows from the model's choice of a strict test at 100 |
| VoucherScenarios.CreateFreshCode | tests/voucher-service.spec.ts:28-38 | creating "ABC123" at 20 in an empty store yields an unused voucher with discount 20 and inserts exactly that record |
| VoucherScenarios.CreateExistingCode | tests/voucher-service.spec.ts:40-57 | creating an existing code fails with Conflict "Voucher already exist." (status 409) and writes nothing |
| VoucherScenarios.UsedVoucherRefused | tests/voucher-service.spec.ts:92-111 | a used voucher is refused at 50 and at 150, reporting discount 20 and the amount unchanged |
| VoucherScenarios.SmallAmountRefused | tests/voucher-service.spec.ts:68-128 | an unused voucher (discount 10 or 20) is refused at 50, reporting its discount with the store unchanged; the refusal at exactly 100 follows from the model's choice of minimum |
| VoucherScenarios.ApplyThenReapply | tests/voucher-service.spec.ts:129-168 | applying at 150 gives 120 and marks the voucher used; applying again at 150 is refused |

## Left out

- The service source itself is not part of this model. Every service rule here comes
  from the assertions of the test suite.
- VoucherService.ApplyVoucher: for an unknown code the contract promises only that the
  voucher is not applied, the final amount equals the amount, and the store is
  unchanged. The body reports discount 0, but no test covers this case, so the
  contract does not promise it.
- VoucherStore.InsertVoucher: requires the code to be absent. `CreateVoucher` inserts
  only after the lookup finds nothing. The repository's behaviour on a duplicate
  insert is not modelled.
- VoucherStore.UseVoucher: requires the code to be stored. The service calls it only
  after a successful lookup. The repository's behaviour on a missing code is not
  part of this model.
- Jest mocks, `jest.clearAllMocks` and `console.log` are test plumbing. The mocked
  repository calls are the store functions.
- Persistence, Prisma's `Voucher` type and `async`/`await` are left out. The store
  is a map, and each call is one atomic step. Concurrent `useVoucher` calls are not
  modelled, because atomic use-marking is a storage contract.
- Amounts and discounts are exact reals. IEEE-754 rounding of
  `amount * (discount / 100)` is not modelled.
- No range check on the discount or the amount is modelled, because none is made.
  `DiscountedAmountBounds` only states what follows when the values are in the
  expected range.
- The `type` field of an arbitrary thrown object is taken to hold a string when
  present. Non-string values are not modelled. The `isAppError` guard checks only
  `type`, as the source does.
- The HTTP layer that consumes the status codes is not modelled.

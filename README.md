# Waste-management ledger contracts, modelled in Dafny

This project models the two small ledger contracts of a commercial waste-management
system:

- **the recycling-claim registry**. Businesses submit recycling claims. A single admin
  verifies or rejects each claim. Verifying a claim folds it into the business's running
  statistics: total waste, total recycled, the diversion rate in basis points and the
  carbon offset (120 units per unit of recycled volume). The admin role can be handed over.
- **the waste-volume ledger**. Collectors record per-pickup volumes in four categories
  (general, recyclable, organic, hazardous) under a (business, date) key. Each business
  keeps running totals of the four categories. Two values are derived from them: the
  total waste and the recycling percentage in basis points.

The contract logic exists in the repository only as in-memory mocks inside its two test
files. The model follows those mocks.

Files:

- `common.dfy`: module `Common`. Holds the principal type, the `Ok | Err(code)` response,
  `Option`, and `BasisPoints`, the truncated basis-point quotient both contracts use.
- `recycling_verification.dfy`: module `RecyclingVerification`. The registry state as a
  value, `RegistryState`, with one transition function per operation (`Submit`, `Verify`,
  `Reject`, `Transfer`). The invariant `Inv`: the stored ids are exactly 1..counter,
  every claim has recycled ≤ volume, and every statistics record agrees with its own
  totals. Lemmas over arbitrary call sequences (`Run`). The class `Registry` holds the
  four mutable pieces of contract state as fields. Each of its methods updates them in
  place and is proved to perform the matching transition.
- `volume_tracking.dfy`: module `VolumeTracking`. The same shape: `LedgerState`, the
  transition `Record`, the getters, lemmas over call sequences (`RecordAll`), and the
  class `Ledger`.
- `recycling_scenarios.dfy`, `volume_scenarios.dfy`: the test cases of the two test files.
  Each is a method that builds a fresh object, calls its methods, and states the
  observed values in its `ensures`.

Modelling choices:

- The source's hard-coded block heights (400 for verification, 300 for recording) are a
  `now: nat` parameter. The scenarios pass 400 and 300.
- Claim status codes 0, 1, 2 are the constructors `Pending`, `Verified`, `Rejected`.
- A `null` verifier is `None`.
- The getters always answer `ok` in the source. In the model they return the looked-up
  value directly.
- Error codes are kept as numbers: 2 (recycled volume exceeds volume), 404 (unknown
  claim) and 403 (caller is not the admin).

## Model

| member | source | states |
|---|---|---|
| Common.BasisPoints | tests/recycling-verification.test.ts:72 | the truncated basis-point quotient: 0 for a zero whole, otherwise the floor of part·10000/whole (bp·whole ≤ part·10000 < (bp+1)·whole), and at most 10000 whenever part ≤ whole |
| RecyclingVerification.InitialInv | tests/recycling-verification.test.ts:8-12 | the initial state (no claims, no stats, counter 0) satisfies the registry invariant |
| RecyclingVerification.GetRecyclingClaim | tests/recycling-verification.test.ts:98-102 | answers a claim exactly when the id is stored, and that claim is the stored one; under the invariant it has recycled ≤ volume and is Pending exactly when it has no verifier |
| RecyclingVerification.GetBusinessRecyclingStats | tests/recycling-verification.test.ts:104-115 | an unknown business reads as the all-zero record, never absent; under the invariant every answer satisfies recycled ≤ waste, rate = BasisPoints(recycled, waste), offset = 120·recycled |
| RecyclingVerification.Submit | tests/recycling-verification.test.ts:15-35 | recycled > volume gives err 2 with claims and counter unchanged; otherwise ok, the counter advances by one and a Pending claim with no verifier and time 0 is stored under the new counter, an id not stored before; stats and admin are untouched; the invariant is kept |
| RecyclingVerification.Accumulate | tests/recycling-verification.test.ts:58-75 | folding a claim in adds its volume and recycled volume to the totals and recycled·120 to the offset, recomputes the rate from the new totals, stamps the time, and keeps the statistics invariant when recycled ≤ volume |
| RecyclingVerification.Verify | tests/recycling-verification.test.ts:37-78 | an unknown id gives err 404 whoever calls (existence is checked first); a known id and a non-admin caller give err 403 with the state unchanged; ok exactly otherwise, with the claim Verified by the caller at `now`, its business's stats accumulated, every other business's stats, the counter and the admin unchanged; the invariant is kept |
| RecyclingVerification.Reject | tests/recycling-verification.test.ts:80-96 | the same 404-then-403 checks; on ok only the claim changes, to Rejected by the caller at `now`; the stats table is never touched; the invariant is kept |
| RecyclingVerification.Transfer | tests/recycling-verification.test.ts:117-124 | ok exactly when the caller is the admin, and then only the admin changes, to the new one; otherwise err 403 and nothing changes |
| RecyclingVerification.RunPreservesInv | tests/recycling-verification.test.ts:15-124 | every sequence of submit, verify, reject and transfer calls keeps the registry invariant |
| RecyclingVerification.StatsBounded | tests/recycling-verification.test.ts:16-75 | after any sequence of calls from the initial state, every business has total recycled ≤ total waste, diversion rate ≤ 10000 and carbon offset = 120·total recycled |
| RecyclingVerification.RunKeepsSubmissions | tests/recycling-verification.test.ts:20-32 | over any sequence of calls the counter never decreases, no stored id disappears, and a stored claim's business, date, type, volumes and hash never change; ids are never reused |
| RecyclingVerification.ApplyKeepsSubmissions | tests/recycling-verification.test.ts:20-93 | the one-call step of the above: a single call keeps the invariant, the counter, the stored ids and every stored submission |
| RecyclingVerification.ReverifyCountsTwice | tests/recycling-verification.test.ts:46-75 | verify has no status guard: verifying the same claim twice succeeds and adds its volume and recycled volume to the totals twice |
| RecyclingVerification.Registry.constructor | tests/recycling-verification.test.ts:9-12 | a new registry holds the initial state for the given admin and is valid |
| RecyclingVerification.Registry.SubmitRecyclingClaim | tests/recycling-verification.test.ts:15-35 | updating the fields in place performs exactly `Submit` and keeps the invariant |
| RecyclingVerification.Registry.VerifyRecyclingClaim | tests/recycling-verification.test.ts:37-78 | updating the fields in place performs exactly `Verify` and keeps the invariant |
| RecyclingVerification.Registry.RejectRecyclingClaim | tests/recycling-verification.test.ts:80-96 | updating the fields in place performs exactly `Reject` and keeps the invariant |
| RecyclingVerification.Registry.TransferAdmin | tests/recycling-verification.test.ts:117-124 | updating the admin in place performs exactly `Transfer` and keeps the invariant |
| RecyclingScenarios.SubmitValidClaim | tests/recycling-verification.test.ts:136-157 | submitting (business1, 20230501, paper, 1000, 800) answers ok and stores one claim, id 1, Pending, unverified |
| RecyclingScenarios.SubmitExcessRecycled | tests/recycling-verification.test.ts:159-173 | submitting 1200 recycled of 1000 answers err 2, stores nothing and leaves the counter at 0 |
| RecyclingScenarios.VerifyUpdatesStats | tests/recycling-verification.test.ts:177-192 | verifying claim 1 as admin gives status Verified, verifier admin and stats (1000, 800, 8000, 96000) |
| RecyclingScenarios.VerifyUnknownClaim | tests/recycling-verification.test.ts:194-199 | verifying id 999 answers err 404 |
| RecyclingScenarios.VerifyByNonAdmin | tests/recycling-verification.test.ts:201-210 | verifying as business2 answers err 403 and the claim stays Pending |
| RecyclingScenarios.RejectClaim | tests/recycling-verification.test.ts:214-223 | rejecting claim 1 as admin gives status Rejected, verifier admin, and business1 keeps all-zero stats |
| RecyclingScenarios.TransferThenVerify | tests/recycling-verification.test.ts:117-124 | after the admin hands over to business2, the old admin gets err 403 and the new one may verify |
| VolumeTracking.GetWasteRecord | tests/volume-tracking.test.ts:45-50 | answers a record exactly when (business, date) is stored, and that record is the stored one; None otherwise |
| VolumeTracking.GetBusinessTotals | tests/volume-tracking.test.ts:52-63 | an unknown business reads as all-zero totals, never absent |
| VolumeTracking.GetTotalWaste | tests/volume-tracking.test.ts:65-80 | the sum of the four category totals, 0 for an unknown business, and never below the recyclable total |
| VolumeTracking.GetRecyclingPercentage | tests/volume-tracking.test.ts:82-103 | 0 when total waste is 0, otherwise the floor of recyclable·10000/total, and always at most 10000 |
| VolumeTracking.Record | tests/volume-tracking.test.ts:13-43 | the record at (business, date) becomes exactly the new pickup with collector = caller, replacing any earlier one; records at other keys are unchanged; each category total of the business grows by the pickup's amount even on a repeated key; total waste grows by the pickup's sum; other businesses' totals are unchanged |
| VolumeTracking.TotalsSumAllPickups | tests/volume-tracking.test.ts:26-40 | after any sequence of pickups, each category total equals its starting value plus the contribution of every pickup for that business, repeated keys included |
| VolumeTracking.RecordIsLatestPickup | tests/volume-tracking.test.ts:15-23 | after any sequence of pickups, the record at a key is the latest pickup at that key, or the earlier record when there was none |
| VolumeTracking.LatestWithinContributed | tests/volume-tracking.test.ts:15-40 | the latest pickup at a key belongs to that key's business and its amounts are part of that business's contribution |
| VolumeTracking.RecordWithinTotals | tests/volume-tracking.test.ts:15-40 | from an empty ledger, no stored record holds more of any category than its business's running total |
| VolumeTracking.OtherBusinessesUntouched | tests/volume-tracking.test.ts:34-40 | pickups for other businesses leave a business's totals unchanged |
| VolumeTracking.Ledger.constructor | tests/volume-tracking.test.ts:9-10 | a new ledger has no records and no totals |
| VolumeTracking.Ledger.RecordWasteVolume | tests/volume-tracking.test.ts:13-43 | always answers ok; updating the two tables in place performs exactly `Record` |
| VolumeScenarios.RecordOnePickup | tests/volume-tracking.test.ts:113-132 | recording (1000, 500, 200, 50) answers ok and stores one record holding exactly those values |
| VolumeScenarios.TwoPickupsAddUp | tests/volume-tracking.test.ts:134-143 | pickups (1000, 500, 200, 50) and (800, 400, 100, 30) give totals (1800, 900, 300, 80) |
| VolumeScenarios.TotalWaste | tests/volume-tracking.test.ts:146-161 | total waste is 1750 after the pickup (1000, 500, 200, 50), and 0 for business2 |
| VolumeScenarios.RecyclingPercentage | tests/volume-tracking.test.ts:164-180 | the recycling percentage is 2857 after the pickup (1000, 500, 200, 50), and 0 for business2 |
| VolumeScenarios.SameKeyTwice | tests/volume-tracking.test.ts:13-40 | two pickups at the same key leave only the second record, while the totals count both |

## Left out

- Vitest scaffolding (`describe`, `it`, `expect`, `beforeEach`) is not modelled. Its test cases are the scenario methods; each builds a fresh object, which stands for `beforeEach`.
- JavaScript `number` semantics are not modelled: floats, negative or fractional quantities, and precision loss above 2^53. Quantities are `nat`. `Math.floor` of a float quotient is exact floor division on naturals, which gives the same value for non-negative inputs.
- The ledger's string key `${business}-${date}` is modelled as the pair (business, date). Two different pairs can form the same string, for example business `a-` with date 1 and business `a` with date -1. Such a collision is not modelled.
- The evidence hash is stored verbatim as `seq<bv8>`. Its 32-byte length is not enforced, because the mock does not enforce it either.
- The source stores claims as mutable objects. `getRecyclingClaim` hands out the same object the table holds, so a caller could change it through that reference. Claims here are values, so this aliasing is not modelled.
- Caller authentication, the block-height clock, persistence, and the real on-chain contract and consensus layer are not part of this model. The caller and `now` are trusted parameters.

/** The registry's test cases, replayed against a fresh `Registry` through its method contracts. */
module RecyclingScenarios {
  import opened Common
  import opened RecyclingVerification

  const ADMIN: Principal := "admin"
  const BUSINESS1: Principal := "business1"
  const BUSINESS2: Principal := "business2"

  /** The 32-byte evidence hash the tests submit, every byte 1. */
  const EVIDENCE: seq<bv8> := seq(32, _ => 1)

  /** A valid claim is stored under id 1, pending and unverified. */
  method SubmitValidClaim() returns (response: Response, stored: nat, claim: Option<Claim>)
    ensures response == Ok && stored == 1
    ensures claim == Some(Claim(BUSINESS1, 20230501, "paper", 1000, 800, Pending, None, 0, EVIDENCE))
  {
    var registry := new Registry(ADMIN);
    response := registry.SubmitRecyclingClaim(BUSINESS1, 20230501, "paper", 1000, 800, EVIDENCE);
    stored := |registry.recyclingClaims|;
    claim := GetRecyclingClaim(registry.State(), 1);
  }

  /** Recycling more than the reported volume is refused with code 2 and stores nothing. */
  method SubmitExcessRecycled() returns (response: Response, stored: nat, counter: nat)
    ensures response == Err(2) && stored == 0 && counter == 0
  {
    var registry := new Registry(ADMIN);
    response := registry.SubmitRecyclingClaim(BUSINESS1, 20230501, "paper", 1000, 1200, EVIDENCE);
    stored := |registry.recyclingClaims|;
    counter := registry.claimCounter;
  }

  /** Verifying claim 1 resolves it and gives business1 a diversion rate of 8000 and an offset of 96000. */
  method VerifyUpdatesStats() returns (response: Response, claim: Option<Claim>, stats: Stats)
    ensures response == Ok
    ensures claim.Some? && claim.value.status == Verified && claim.value.verifier == Some(ADMIN)
    ensures stats == Stats(1000, 800, 8000, 96000, 400)
  {
    var registry := new Registry(ADMIN);
    var submitted := registry.SubmitRecyclingClaim(BUSINESS1, 20230501, "paper", 1000, 800, EVIDENCE);
    response := registry.VerifyRecyclingClaim(ADMIN, 1, 400);
    claim := GetRecyclingClaim(registry.State(), 1);
    stats := GetBusinessRecyclingStats(registry.State(), BUSINESS1);
  }

  /** Verifying an id that was never handed out answers 404. */
  method VerifyUnknownClaim() returns (response: Response)
    ensures response == Err(404)
  {
    var registry := new Registry(ADMIN);
    response := registry.VerifyRecyclingClaim(ADMIN, 999, 400);
  }

  /** A business cannot verify: 403, and the claim stays pending. */
  method VerifyByNonAdmin() returns (response: Response, claim: Option<Claim>)
    ensures response == Err(403)
    ensures claim.Some? && claim.value.status == Pending
  {
    var registry := new Registry(ADMIN);
    var submitted := registry.SubmitRecyclingClaim(BUSINESS1, 20230501, "paper", 1000, 800, EVIDENCE);
    response := registry.VerifyRecyclingClaim(BUSINESS2, 1, 400);
    claim := GetRecyclingClaim(registry.State(), 1);
  }

  /** Rejecting claim 1 resolves it as rejected by the admin and leaves business1 without statistics. */
  method RejectClaim() returns (response: Response, claim: Option<Claim>, stats: Stats)
    ensures response == Ok
    ensures claim.Some? && claim.value.status == Rejected && claim.value.verifier == Some(ADMIN)
    ensures stats == ZeroStats
  {
    var registry := new Registry(ADMIN);
    var submitted := registry.SubmitRecyclingClaim(BUSINESS1, 20230501, "paper", 1000, 800, EVIDENCE);
    response := registry.RejectRecyclingClaim(ADMIN, 1, 400);
    claim := GetRecyclingClaim(registry.State(), 1);
    stats := GetBusinessRecyclingStats(registry.State(), BUSINESS1);
  }

  /** After handing the role to business2, the old admin is refused and the new one may verify. */
  method TransferThenVerify() returns (handover: Response, byOld: Response, byNew: Response)
    ensures handover == Ok && byOld == Err(403) && byNew == Ok
  {
    var registry := new Registry(ADMIN);
    var submitted := registry.SubmitRecyclingClaim(BUSINESS1, 20230501, "paper", 1000, 800, EVIDENCE);
    handover := registry.TransferAdmin(ADMIN, BUSINESS2);
    byOld := registry.VerifyRecyclingClaim(ADMIN, 1, 400);
    byNew := registry.VerifyRecyclingClaim(BUSINESS2, 1, 400);
  }
}

/**
 * The recycling-claim registry: businesses submit claims of recycled volume, a single
 * admin verifies or rejects each claim, and verification folds the claim into the
 * business's running recycling statistics.
 *
 * The registry's four pieces of state are first given as a value (`RegistryState`) with
 * one transition function per operation; the class `Registry` holds the same four pieces
 * as fields and its methods update them in place, each proved to perform its transition.
 */
module RecyclingVerification {
  import opened Common

  type ClaimId = nat

  /** Error codes of the registry. */
  const ERR_INVALID_VOLUME: nat := 2
  const ERR_UNAUTHORIZED: nat := 403
  const ERR_NOT_FOUND: nat := 404

  /** Carbon-offset units credited per unit of recycled volume. */
  const CARBON_PER_UNIT: nat := 120

  /** Claim status; the source encodes these as 0, 1 and 2. */
  datatype Status = Pending | Verified | Rejected

  datatype Claim = Claim(
    business: Principal,
    date: int,
    wasteType: string,
    volume: nat,
    recycledVolume: nat,
    status: Status,
    verifier: Option<Principal>,
    verificationTime: nat,
    evidenceHash: seq<bv8>)

  datatype Stats = Stats(
    totalWaste: nat,
    totalRecycled: nat,
    diversionRate: nat,
    carbonOffset: nat,
    lastUpdated: nat)

  /** The record a business without verified claims reads as. */
  const ZeroStats := Stats(0, 0, 0, 0, 0)

  datatype RegistryState = RegistryState(
    claims: map<ClaimId, Claim>,
    stats: map<Principal, Stats>,
    claimCounter: nat,
    admin: Principal)

  /** The outcome of one call: the state after it and what the caller is answered. */
  datatype Transition = Transition(after: RegistryState, response: Response)

  function Initial(admin: Principal): RegistryState {
    RegistryState(map[], map[], 0, admin)
  }

  /** What a submission cannot change once a claim is stored. */
  predicate SameSubmission(c: Claim, d: Claim) {
    && c.business == d.business && c.date == d.date && c.wasteType == d.wasteType
    && c.volume == d.volume && c.recycledVolume == d.recycledVolume
    && c.evidenceHash == d.evidenceHash
  }

  /** A claim is well formed: never more recycled than reported, resolved exactly when a verifier is set. */
  ghost predicate ClaimInv(c: Claim) {
    && c.recycledVolume <= c.volume
    && (c.status == Pending <==> c.verifier == None)
    && (c.status == Pending ==> c.verificationTime == 0)
  }

  /** Running statistics agree with their own totals. */
  ghost predicate StatsInv(st: Stats) {
    && st.totalRecycled <= st.totalWaste
    && st.diversionRate == BasisPoints(st.totalRecycled, st.totalWaste)
    && st.carbonOffset == st.totalRecycled * CARBON_PER_UNIT
  }

  /** The registry invariant: ids 1..claimCounter are exactly the stored claims. */
  ghost predicate Inv(s: RegistryState) {
    && (forall id: ClaimId :: id in s.claims <==> 1 <= id <= s.claimCounter)
    && (forall id :: id in s.claims ==> ClaimInv(s.claims[id]))
    && (forall b :: b in s.stats ==> StatsInv(s.stats[b]))
  }

  lemma InitialInv(admin: Principal)
    ensures Inv(Initial(admin))
  {
  }

  /** `getRecyclingClaim`: the stored claim, or None for an unknown id. */
  function GetRecyclingClaim(s: RegistryState, claimId: ClaimId): (r: Option<Claim>)
    ensures r.Some? <==> claimId in s.claims
    ensures r.Some? ==> r.value == s.claims[claimId]
    ensures Inv(s) && r.Some? ==> ClaimInv(r.value)
  {
    if claimId in s.claims then Some(s.claims[claimId]) else None
  }

  /** `getBusinessRecyclingStats`: the business's statistics, all zero when it has none. */
  function GetBusinessRecyclingStats(s: RegistryState, business: Principal): (r: Stats)
    ensures business !in s.stats ==> r == ZeroStats
    ensures business in s.stats ==> r == s.stats[business]
    ensures Inv(s) ==> StatsInv(r)
  {
    if business in s.stats then s.stats[business] else ZeroStats
  }

  /** `submitRecyclingClaim`: store a pending claim under the next id, unless it recycles more than its volume. */
  function Submit(s: RegistryState, caller: Principal, date: int, wasteType: string,
                  volume: nat, recycledVolume: nat, evidenceHash: seq<bv8>): (t: Transition)
    ensures recycledVolume > volume ==> t == Transition(s, Err(ERR_INVALID_VOLUME))
    ensures recycledVolume <= volume ==>
      && t.response == Ok
      && t.after.claimCounter == s.claimCounter + 1
      && t.after.claims == s.claims[t.after.claimCounter :=
           Claim(caller, date, wasteType, volume, recycledVolume, Pending, None, 0, evidenceHash)]
      && t.after.stats == s.stats && t.after.admin == s.admin
    // the id handed out was never used before
    ensures Inv(s) && t.response == Ok ==> t.after.claimCounter !in s.claims
    ensures Inv(s) ==> Inv(t.after)
  {
    if recycledVolume > volume then
      Transition(s, Err(ERR_INVALID_VOLUME))
    else
      var claimId := s.claimCounter + 1;
      var claim := Claim(caller, date, wasteType, volume, recycledVolume, Pending, None, 0, evidenceHash);
      Transition(s.(claims := s.claims[claimId := claim], claimCounter := claimId), Ok)
  }

  /** The statistics after folding a claim of the given volumes in at time `now`. */
  function Accumulate(st: Stats, volume: nat, recycledVolume: nat, now: nat): (r: Stats)
    ensures r.totalWaste == st.totalWaste + volume
    ensures r.totalRecycled == st.totalRecycled + recycledVolume
    ensures r.carbonOffset == st.carbonOffset + recycledVolume * CARBON_PER_UNIT
    // the rate is recomputed from the new totals, not updated incrementally
    ensures r.diversionRate == BasisPoints(r.totalRecycled, r.totalWaste)
    ensures r.lastUpdated == now
    ensures StatsInv(st) && recycledVolume <= volume ==> StatsInv(r)
  {
    var newTotalWaste := st.totalWaste + volume;
    var newTotalRecycled := st.totalRecycled + recycledVolume;
    Stats(newTotalWaste, newTotalRecycled,
          if newTotalWaste == 0 then 0 else (newTotalRecycled * BASIS) / newTotalWaste,
          st.carbonOffset + recycledVolume * CARBON_PER_UNIT,
          now)
  }

  /** `verifyRecyclingClaim`: existence is checked before authority; then the claim is resolved and counted. */
  function Verify(s: RegistryState, caller: Principal, claimId: ClaimId, now: nat): (t: Transition)
    ensures claimId !in s.claims ==> t == Transition(s, Err(ERR_NOT_FOUND))
    ensures claimId in s.claims && caller != s.admin ==> t == Transition(s, Err(ERR_UNAUTHORIZED))
    ensures t.response == Ok <==> claimId in s.claims && caller == s.admin
    ensures t.response == Ok ==>
      var c := s.claims[claimId];
      && t.after.claims == s.claims[claimId := c.(status := Verified, verifier := Some(caller), verificationTime := now)]
      && GetBusinessRecyclingStats(t.after, c.business)
         == Accumulate(GetBusinessRecyclingStats(s, c.business), c.volume, c.recycledVolume, now)
      && (forall b :: b != c.business ==> GetBusinessRecyclingStats(t.after, b) == GetBusinessRecyclingStats(s, b))
      && t.after.claimCounter == s.claimCounter && t.after.admin == s.admin
    ensures Inv(s) ==> Inv(t.after)
  {
    if claimId !in s.claims then
      Transition(s, Err(ERR_NOT_FOUND))
    else if caller != s.admin then
      Transition(s, Err(ERR_UNAUTHORIZED))
    else
      var c := s.claims[claimId];
      var resolved := c.(status := Verified, verifier := Some(caller), verificationTime := now);
      var updated := Accumulate(GetBusinessRecyclingStats(s, c.business), c.volume, c.recycledVolume, now);
      Transition(s.(claims := s.claims[claimId := resolved], stats := s.stats[c.business := updated]), Ok)
  }

  /** `rejectRecyclingClaim`: the same checks as verification; resolves the claim and leaves the statistics alone. */
  function Reject(s: RegistryState, caller: Principal, claimId: ClaimId, now: nat): (t: Transition)
    ensures claimId !in s.claims ==> t == Transition(s, Err(ERR_NOT_FOUND))
    ensures claimId in s.claims && caller != s.admin ==> t == Transition(s, Err(ERR_UNAUTHORIZED))
    ensures t.response == Ok <==> claimId in s.claims && caller == s.admin
    ensures t.response == Ok ==>
      t.after == s.(claims := s.claims[claimId := s.claims[claimId].(status := Rejected, verifier := Some(caller), verificationTime := now)])
    ensures t.after.stats == s.stats
    ensures Inv(s) ==> Inv(t.after)
  {
    if claimId !in s.claims then
      Transition(s, Err(ERR_NOT_FOUND))
    else if caller != s.admin then
      Transition(s, Err(ERR_UNAUTHORIZED))
    else
      var resolved := s.claims[claimId].(status := Rejected, verifier := Some(caller), verificationTime := now);
      Transition(s.(claims := s.claims[claimId := resolved]), Ok)
  }

  /** `transferAdmin`: only the current admin may hand the role over. */
  function Transfer(s: RegistryState, caller: Principal, newAdmin: Principal): (t: Transition)
    ensures t.response == Ok <==> caller == s.admin
    ensures caller == s.admin ==> t.after == s.(admin := newAdmin)
    ensures caller != s.admin ==> t == Transition(s, Err(ERR_UNAUTHORIZED))
    ensures Inv(s) ==> Inv(t.after)
  {
    if caller != s.admin then Transition(s, Err(ERR_UNAUTHORIZED))
    else Transition(s.(admin := newAdmin), Ok)
  }

  /** One call to the registry, for reasoning about sequences of calls. */
  datatype Call =
    | SubmitCall(caller: Principal, date: int, wasteType: string, volume: nat, recycledVolume: nat, evidenceHash: seq<bv8>)
    | VerifyCall(caller: Principal, claimId: ClaimId, now: nat)
    | RejectCall(caller: Principal, claimId: ClaimId, now: nat)
    | TransferCall(caller: Principal, newAdmin: Principal)

  function Apply(s: RegistryState, call: Call): Transition {
    match call
    case SubmitCall(caller, date, wasteType, volume, recycledVolume, hash) =>
      Submit(s, caller, date, wasteType, volume, recycledVolume, hash)
    case VerifyCall(caller, claimId, now) => Verify(s, caller, claimId, now)
    case RejectCall(caller, claimId, now) => Reject(s, caller, claimId, now)
    case TransferCall(caller, newAdmin) => Transfer(s, caller, newAdmin)
  }

  /** The state after performing `calls` in order, starting from `s`. */
  function Run(s: RegistryState, calls: seq<Call>): RegistryState
    decreases |calls|
  {
    if calls == [] then s else Run(Apply(s, calls[0]).after, calls[1..])
  }

  /** Every sequence of calls preserves the registry invariant. */
  lemma {:induction false} RunPreservesInv(s: RegistryState, calls: seq<Call>)
    requires Inv(s)
    ensures Inv(Run(s, calls))
    decreases |calls|
  {
    if calls != [] {
      RunPreservesInv(Apply(s, calls[0]).after, calls[1..]);
    }
  }

  /** Whatever is done, a business's totals never show more recycled than wasted and the rate stays within one whole. */
  lemma StatsBounded(admin: Principal, calls: seq<Call>, business: Principal)
    ensures var st := GetBusinessRecyclingStats(Run(Initial(admin), calls), business);
      && st.totalRecycled <= st.totalWaste
      && st.diversionRate <= BASIS
      && st.carbonOffset == st.totalRecycled * CARBON_PER_UNIT
  {
    RunPreservesInv(Initial(admin), calls);
  }

  /** Ids only grow and stored submissions are never replaced: an id is never reused. */
  lemma {:induction false} RunKeepsSubmissions(s: RegistryState, calls: seq<Call>)
    requires Inv(s)
    ensures s.claimCounter <= Run(s, calls).claimCounter
    ensures s.claims.Keys <= Run(s, calls).claims.Keys
    ensures forall id :: id in s.claims ==> SameSubmission(s.claims[id], Run(s, calls).claims[id])
    decreases |calls|
  {
    if calls != [] {
      var next := Apply(s, calls[0]).after;
      ApplyKeepsSubmissions(s, calls[0]);
      RunKeepsSubmissions(next, calls[1..]);
    }
  }

  /** One call keeps every stored submission, given that the counter is ahead of the stored ids. */
  lemma ApplyKeepsSubmissions(s: RegistryState, call: Call)
    requires Inv(s)
    ensures var next := Apply(s, call).after;
      && Inv(next)
      && s.claimCounter <= next.claimCounter
      && s.claims.Keys <= next.claims.Keys
      && forall id :: id in s.claims ==> SameSubmission(s.claims[id], next.claims[id])
  {
  }

  /** Verification has no status guard: verifying the same claim twice counts its volumes twice. */
  lemma ReverifyCountsTwice(s: RegistryState, claimId: ClaimId, now: nat)
    requires claimId in s.claims
    ensures var c := s.claims[claimId];
      var twice := Verify(Verify(s, s.admin, claimId, now).after, s.admin, claimId, now);
      && twice.response == Ok
      && GetBusinessRecyclingStats(twice.after, c.business).totalWaste
         == GetBusinessRecyclingStats(s, c.business).totalWaste + 2 * c.volume
      && GetBusinessRecyclingStats(twice.after, c.business).totalRecycled
         == GetBusinessRecyclingStats(s, c.business).totalRecycled + 2 * c.recycledVolume
  {
  }

  /** The registry as the contract holds it: four pieces of state updated in place. */
  class Registry {
    var recyclingClaims: map<ClaimId, Claim>
    var businessRecyclingStats: map<Principal, Stats>
    var claimCounter: nat
    var currentAdmin: Principal

    function State(): RegistryState
      reads this
    {
      RegistryState(recyclingClaims, businessRecyclingStats, claimCounter, currentAdmin)
    }

    ghost predicate Valid()
      reads this
    {
      Inv(State())
    }

    constructor (admin: Principal)
      ensures State() == Initial(admin) && Valid()
    {
      recyclingClaims := map[];
      businessRecyclingStats := map[];
      claimCounter := 0;
      currentAdmin := admin;
    }

    method SubmitRecyclingClaim(caller: Principal, date: int, wasteType: string,
                                volume: nat, recycledVolume: nat, evidenceHash: seq<bv8>)
      returns (response: Response)
      requires Valid()
      modifies this
      ensures Valid()
      ensures Transition(State(), response)
              == Submit(old(State()), caller, date, wasteType, volume, recycledVolume, evidenceHash)
    {
      if recycledVolume > volume {
        return Err(ERR_INVALID_VOLUME);
      }
      claimCounter := claimCounter + 1;
      var claimId := claimCounter;
      recyclingClaims := recyclingClaims[claimId :=
        Claim(caller, date, wasteType, volume, recycledVolume, Pending, None, 0, evidenceHash)];
      response := Ok;
    }

    method VerifyRecyclingClaim(caller: Principal, claimId: ClaimId, now: nat) returns (response: Response)
      requires Valid()
      modifies this
      ensures Valid()
      ensures Transition(State(), response) == Verify(old(State()), caller, claimId, now)
    {
      if claimId !in recyclingClaims {
        return Err(ERR_NOT_FOUND);
      }
      if caller != currentAdmin {
        return Err(ERR_UNAUTHORIZED);
      }
      var claim := recyclingClaims[claimId];
      recyclingClaims := recyclingClaims[claimId :=
        claim.(status := Verified, verifier := Some(caller), verificationTime := now)];
      var stats := if claim.business in businessRecyclingStats
                   then businessRecyclingStats[claim.business] else ZeroStats;
      var newTotalWaste := stats.totalWaste + claim.volume;
      var newTotalRecycled := stats.totalRecycled + claim.recycledVolume;
      businessRecyclingStats := businessRecyclingStats[claim.business := Stats(
        newTotalWaste,
        newTotalRecycled,
        if newTotalWaste == 0 then 0 else (newTotalRecycled * BASIS) / newTotalWaste,
        stats.carbonOffset + claim.recycledVolume * CARBON_PER_UNIT,
        now)];
      assert stats == GetBusinessRecyclingStats(old(State()), claim.business);
      response := Ok;
      assert Transition(State(), response) == Verify(old(State()), caller, claimId, now);
    }

    method RejectRecyclingClaim(caller: Principal, claimId: ClaimId, now: nat) returns (response: Response)
      requires Valid()
      modifies this
      ensures Valid()
      ensures Transition(State(), response) == Reject(old(State()), caller, claimId, now)
    {
      if claimId !in recyclingClaims {
        return Err(ERR_NOT_FOUND);
      }
      if caller != currentAdmin {
        return Err(ERR_UNAUTHORIZED);
      }
      var claim := recyclingClaims[claimId];
      recyclingClaims := recyclingClaims[claimId :=
        claim.(status := Rejected, verifier := Some(caller), verificationTime := now)];
      response := Ok;
    }

    method TransferAdmin(caller: Principal, newAdmin: Principal) returns (response: Response)
      requires Valid()
      modifies this
      ensures Valid()
      ensures Transition(State(), response) == Transfer(old(State()), caller, newAdmin)
    {
      if caller != currentAdmin {
        return Err(ERR_UNAUTHORIZED);
      }
      currentAdmin := newAdmin;
      response := Ok;
    }
  }
}

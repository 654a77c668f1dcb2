/**
 * The waste-volume ledger: collectors record per-pickup volumes in four categories under
 * a (business, date) key, and each business keeps running totals of the four categories.
 *
 * Storage and totals behave differently on purpose: a record at a repeated key replaces
 * the earlier one, while the totals keep the contribution of every call.
 */
module VolumeTracking {
  import opened Common

  type RecordKey = (Principal, int)

  datatype WasteRecord = WasteRecord(
    general: nat,
    recyclable: nat,
    organic: nat,
    hazardous: nat,
    collector: Principal,
    timestamp: nat)

  datatype Totals = Totals(
    generalTotal: nat,
    recyclableTotal: nat,
    organicTotal: nat,
    hazardousTotal: nat,
    lastUpdated: nat)

  /** The totals a business without records reads as. */
  const ZeroTotals := Totals(0, 0, 0, 0, 0)

  datatype LedgerState = LedgerState(
    records: map<RecordKey, WasteRecord>,
    totals: map<Principal, Totals>)

  const Empty := LedgerState(map[], map[])

  /** The four waste categories, to speak of each running total uniformly. */
  datatype Category = General | Recyclable | Organic | Hazardous

  function RecordAmount(r: WasteRecord, c: Category): nat {
    match c
    case General => r.general
    case Recyclable => r.recyclable
    case Organic => r.organic
    case Hazardous => r.hazardous
  }

  function TotalOf(t: Totals, c: Category): nat {
    match c
    case General => t.generalTotal
    case Recyclable => t.recyclableTotal
    case Organic => t.organicTotal
    case Hazardous => t.hazardousTotal
  }

  /** `getWasteRecord`: the record stored at (business, date), or None. */
  function GetWasteRecord(s: LedgerState, business: Principal, date: int): (r: Option<WasteRecord>)
    ensures r.Some? <==> (business, date) in s.records
    ensures r.Some? ==> r.value == s.records[(business, date)]
  {
    if (business, date) in s.records then Some(s.records[(business, date)]) else None
  }

  /** `getBusinessTotals`: the business's running totals, all zero when it has none. */
  function GetBusinessTotals(s: LedgerState, business: Principal): (r: Totals)
    ensures business !in s.totals ==> r == ZeroTotals
    ensures business in s.totals ==> r == s.totals[business]
  {
    if business in s.totals then s.totals[business] else ZeroTotals
  }

  /** `getTotalWaste`: the sum of the four running totals; 0 for an unknown business. */
  function GetTotalWaste(s: LedgerState, business: Principal): (total: nat)
    ensures total == TotalOf(GetBusinessTotals(s, business), General)
                   + TotalOf(GetBusinessTotals(s, business), Recyclable)
                   + TotalOf(GetBusinessTotals(s, business), Organic)
                   + TotalOf(GetBusinessTotals(s, business), Hazardous)
    ensures business !in s.totals ==> total == 0
    ensures TotalOf(GetBusinessTotals(s, business), Recyclable) <= total
  {
    var t := if business in s.totals then s.totals[business] else ZeroTotals;
    t.generalTotal + t.recyclableTotal + t.organicTotal + t.hazardousTotal
  }

  /** `getRecyclingPercentage`: the recyclable share of all waste, in basis points, truncated. */
  function GetRecyclingPercentage(s: LedgerState, business: Principal): (pct: nat)
    ensures GetTotalWaste(s, business) == 0 ==> pct == 0
    ensures var total := GetTotalWaste(s, business);
      var recyclable := GetBusinessTotals(s, business).recyclableTotal;
      total > 0 ==> pct * total <= recyclable * BASIS < (pct + 1) * total
    ensures pct <= BASIS
  {
    var t := if business in s.totals then s.totals[business] else ZeroTotals;
    var totalWaste := t.generalTotal + t.recyclableTotal + t.organicTotal + t.hazardousTotal;
    if totalWaste == 0 then 0
    else BasisPoints(t.recyclableTotal, totalWaste)
  }

  /** `recordWasteVolume`: store the pickup at its key, replacing any earlier one, and add it to the totals. */
  function Record(s: LedgerState, caller: Principal, business: Principal, date: int,
                  general: nat, recyclable: nat, organic: nat, hazardous: nat, now: nat): (s': LedgerState)
    ensures GetWasteRecord(s', business, date) == Some(WasteRecord(general, recyclable, organic, hazardous, caller, now))
    ensures forall b, d :: (b, d) != (business, date) ==> GetWasteRecord(s', b, d) == GetWasteRecord(s, b, d)
    // every category total grows by this pickup's amount, whether or not the key was already recorded
    ensures forall c :: TotalOf(GetBusinessTotals(s', business), c)
                        == TotalOf(GetBusinessTotals(s, business), c)
                           + RecordAmount(WasteRecord(general, recyclable, organic, hazardous, caller, now), c)
    ensures GetBusinessTotals(s', business).lastUpdated == now
    ensures GetTotalWaste(s', business) == GetTotalWaste(s, business) + general + recyclable + organic + hazardous
    ensures forall b :: b != business ==> GetBusinessTotals(s', b) == GetBusinessTotals(s, b)
  {
    var existing := if business in s.totals then s.totals[business] else ZeroTotals;
    LedgerState(
      s.records[(business, date) := WasteRecord(general, recyclable, organic, hazardous, caller, now)],
      s.totals[business := Totals(
        existing.generalTotal + general,
        existing.recyclableTotal + recyclable,
        existing.organicTotal + organic,
        existing.hazardousTotal + hazardous,
        now)])
  }

  /** One `recordWasteVolume` call, for reasoning about sequences of calls. */
  datatype Pickup = Pickup(
    caller: Principal, business: Principal, date: int,
    general: nat, recyclable: nat, organic: nat, hazardous: nat, now: nat)

  function KeyOf(p: Pickup): RecordKey {
    (p.business, p.date)
  }

  function RecordOf(p: Pickup): WasteRecord {
    WasteRecord(p.general, p.recyclable, p.organic, p.hazardous, p.caller, p.now)
  }

  function RecordPickup(s: LedgerState, p: Pickup): LedgerState {
    Record(s, p.caller, p.business, p.date, p.general, p.recyclable, p.organic, p.hazardous, p.now)
  }

  /** The ledger after recording `pickups` in order, starting from `s`. */
  function RecordAll(s: LedgerState, pickups: seq<Pickup>): LedgerState
    decreases |pickups|
  {
    if pickups == [] then s
    else RecordPickup(RecordAll(s, pickups[..|pickups| - 1]), pickups[|pickups| - 1])
  }

  /** How much of category `c` the pickups for `business` bring, counting every pickup. */
  function Contributed(pickups: seq<Pickup>, business: Principal, c: Category): nat
    decreases |pickups|
  {
    if pickups == [] then 0
    else
      var last := pickups[|pickups| - 1];
      Contributed(pickups[..|pickups| - 1], business, c)
      + (if last.business == business then RecordAmount(RecordOf(last), c) else 0)
  }

  /** The last pickup recorded at `key`, if any. */
  function LatestAt(pickups: seq<Pickup>, key: RecordKey): Option<Pickup>
    decreases |pickups|
  {
    if pickups == [] then None
    else if KeyOf(pickups[|pickups| - 1]) == key then Some(pickups[|pickups| - 1])
    else LatestAt(pickups[..|pickups| - 1], key)
  }

  /** Totals are a sum over all calls: each running total grows by what every pickup brought. */
  lemma {:induction false} TotalsSumAllPickups(s: LedgerState, pickups: seq<Pickup>, business: Principal, c: Category)
    ensures TotalOf(GetBusinessTotals(RecordAll(s, pickups), business), c)
            == TotalOf(GetBusinessTotals(s, business), c) + Contributed(pickups, business, c)
    decreases |pickups|
  {
    if pickups != [] {
      TotalsSumAllPickups(s, pickups[..|pickups| - 1], business, c);
    }
  }

  /** Records are a last-writer-wins table: a key holds its latest pickup, or what it held before. */
  lemma {:induction false} RecordIsLatestPickup(s: LedgerState, pickups: seq<Pickup>, business: Principal, date: int)
    ensures GetWasteRecord(RecordAll(s, pickups), business, date)
            == match LatestAt(pickups, (business, date))
               case Some(p) => Some(RecordOf(p))
               case None => GetWasteRecord(s, business, date)
    decreases |pickups|
  {
    if pickups != [] {
      RecordIsLatestPickup(s, pickups[..|pickups| - 1], business, date);
    }
  }

  /** The latest pickup at a key is one of the pickups its business contributed. */
  lemma {:induction false} LatestWithinContributed(pickups: seq<Pickup>, key: RecordKey, p: Pickup, c: Category)
    requires LatestAt(pickups, key) == Some(p)
    ensures p.business == key.0
    ensures RecordAmount(RecordOf(p), c) <= Contributed(pickups, key.0, c)
    decreases |pickups|
  {
    if KeyOf(pickups[|pickups| - 1]) != key {
      LatestWithinContributed(pickups[..|pickups| - 1], key, p, c);
    }
  }

  /** Starting from an empty ledger, no stored record holds more of a category than its business's total. */
  lemma {:induction false} RecordWithinTotals(pickups: seq<Pickup>, business: Principal, date: int, c: Category)
    ensures var after := RecordAll(Empty, pickups);
      GetWasteRecord(after, business, date).Some? ==>
        RecordAmount(GetWasteRecord(after, business, date).value, c) <= TotalOf(GetBusinessTotals(after, business), c)
  {
    RecordIsLatestPickup(Empty, pickups, business, date);
    TotalsSumAllPickups(Empty, pickups, business, c);
    match LatestAt(pickups, (business, date))
    case Some(p) => LatestWithinContributed(pickups, (business, date), p, c);
    case None =>
  }

  /** Pickups for other businesses leave a business's totals untouched. */
  lemma {:induction false} OtherBusinessesUntouched(s: LedgerState, pickups: seq<Pickup>, business: Principal)
    requires forall i :: 0 <= i < |pickups| ==> pickups[i].business != business
    ensures GetBusinessTotals(RecordAll(s, pickups), business) == GetBusinessTotals(s, business)
    decreases |pickups|
  {
    if pickups != [] {
      OtherBusinessesUntouched(s, pickups[..|pickups| - 1], business);
    }
  }

  /** The ledger as the contract holds it: two tables updated in place. */
  class Ledger {
    var wasteRecords: map<RecordKey, WasteRecord>
    var businessTotals: map<Principal, Totals>

    function State(): LedgerState
      reads this
    {
      LedgerState(wasteRecords, businessTotals)
    }

    constructor ()
      ensures State() == Empty
    {
      wasteRecords := map[];
      businessTotals := map[];
    }

    method RecordWasteVolume(caller: Principal, business: Principal, date: int,
                             general: nat, recyclable: nat, organic: nat, hazardous: nat, now: nat)
      returns (response: Response)
      modifies this
      ensures response == Ok
      ensures State() == Record(old(State()), caller, business, date, general, recyclable, organic, hazardous, now)
    {
      wasteRecords := wasteRecords[(business, date) :=
        WasteRecord(general, recyclable, organic, hazardous, caller, now)];
      var existingTotals := if business in businessTotals then businessTotals[business] else ZeroTotals;
      businessTotals := businessTotals[business := Totals(
        existingTotals.generalTotal + general,
        existingTotals.recyclableTotal + recyclable,
        existingTotals.organicTotal + organic,
        existingTotals.hazardousTotal + hazardous,
        now)];
      response := Ok;
    }
  }
}

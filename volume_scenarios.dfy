/** The ledger's test cases, replayed against a fresh `Ledger` through its method contract. */
module VolumeScenarios {
  import opened Common
  import opened VolumeTracking

  const BUSINESS1: Principal := "business1"
  const BUSINESS2: Principal := "business2"
  const COLLECTOR: Principal := "collector"

  /** One pickup is stored verbatim at its key. */
  method RecordOnePickup() returns (response: Response, stored: nat, record: Option<WasteRecord>)
    ensures response == Ok && stored == 1
    ensures record == Some(WasteRecord(1000, 500, 200, 50, COLLECTOR, 300))
  {
    var ledger := new Ledger();
    response := ledger.RecordWasteVolume(COLLECTOR, BUSINESS1, 20230501, 1000, 500, 200, 50, 300);
    stored := |ledger.wasteRecords|;
    record := GetWasteRecord(ledger.State(), BUSINESS1, 20230501);
  }

  /** Two pickups on different dates add up category by category. */
  method TwoPickupsAddUp() returns (totals: Totals)
    ensures totals == Totals(1800, 900, 300, 80, 300)
  {
    var ledger := new Ledger();
    var first := ledger.RecordWasteVolume(COLLECTOR, BUSINESS1, 20230501, 1000, 500, 200, 50, 300);
    var second := ledger.RecordWasteVolume(COLLECTOR, BUSINESS1, 20230508, 800, 400, 100, 30, 300);
    totals := GetBusinessTotals(ledger.State(), BUSINESS1);
  }

  /** Total waste is 1750 after one pickup, and 0 for a business with none. */
  method TotalWaste() returns (recorded: nat, unknown: nat)
    ensures recorded == 1750 && unknown == 0
  {
    var ledger := new Ledger();
    var response := ledger.RecordWasteVolume(COLLECTOR, BUSINESS1, 20230501, 1000, 500, 200, 50, 300);
    recorded := GetTotalWaste(ledger.State(), BUSINESS1);
    unknown := GetTotalWaste(ledger.State(), BUSINESS2);
  }

  /** 500 recyclable of 1750 is 2857 basis points after truncation; a business with no waste reads 0. */
  method RecyclingPercentage() returns (recorded: nat, unknown: nat)
    ensures recorded == 2857 && unknown == 0
  {
    var ledger := new Ledger();
    var response := ledger.RecordWasteVolume(COLLECTOR, BUSINESS1, 20230501, 1000, 500, 200, 50, 300);
    recorded := GetRecyclingPercentage(ledger.State(), BUSINESS1);
    unknown := GetRecyclingPercentage(ledger.State(), BUSINESS2);
  }

  /** Recording the same key twice keeps only the second record but counts both pickups in the totals. */
  method SameKeyTwice() returns (record: Option<WasteRecord>, totals: Totals)
    ensures record == Some(WasteRecord(800, 400, 100, 30, COLLECTOR, 300))
    ensures totals == Totals(1800, 900, 300, 80, 300)
  {
    var ledger := new Ledger();
    var first := ledger.RecordWasteVolume(COLLECTOR, BUSINESS1, 20230501, 1000, 500, 200, 50, 300);
    var second := ledger.RecordWasteVolume(COLLECTOR, BUSINESS1, 20230501, 800, 400, 100, 30, 300);
    record := GetWasteRecord(ledger.State(), BUSINESS1, 20230501);
    totals := GetBusinessTotals(ledger.State(), BUSINESS1);
  }
}

/** Worked examples: the figures the repository's own test cases expect,
    derived from the model on concrete stores. */
module Scenarios {
  import opened Dates
  import opened Results
  import opened Calculations
  import opened Models
  import opened ReadingRepository
  import opened TariffRepository
  import opened MeterBilling
  import opened Subtraction
  import opened LegacyBilling
  import opened Invoicing
  import opened TariffHistory

  // ---- the calculation primitives ----

  /** The consumption table of the calculation tests, including the reset
      to zero and the unfloored negative consumption. */
  lemma ConsumptionTable()
    ensures CalculateConsumption(100.0, 50.0, 0.0) == 50.0
    ensures CalculateConsumption(100.0, 50.0, 10.0) == 40.0
    ensures CalculateConsumption(50.0, 100.0, 10.0) == 0.0
    ensures CalculateConsumption(100.0, 100.0, 0.0) == 0.0
    ensures CalculateConsumption(150.55, 120.25, 10.10) == 20.20
    ensures CalculateConsumption(100.0, 50.0, 60.0) == -10.0
  {
  }

  /** The cost table of the calculation tests: exact products, no rounding. */
  lemma CostTable()
    ensures CalculateCost(100.0, 10.5) == 1050.0
    ensures CalculateCost(0.0, 10.5) == 0.0
    ensures CalculateCost(100.0, 0.0) == 0.0
    ensures CalculateCost(30.30, 40.00) == 1212.00
  {
  }

  // ---- shared fixtures ----

  const June: Date := Date(2024, 6, 1)
  const July: Date := Date(2024, 7, 1)
  const January: Date := Date(2024, 1, 1)

  function Rate(id: TariffId, meter: MeterId, rate: real): Tariff {
    Tariff(id, meter, DefaultTariffName, rate, January, None, None)
  }

  function Store0(tenants: seq<Tenant>, meters: seq<Meter>, readings: seq<Reading>, tariffs: seq<Tariff>): Store {
    Store(tenants, meters, readings, tariffs, [], [], [], 1)
  }

  /** The month before July 2024 is June 2024. */
  lemma JulyFollowsJune()
    ensures Valid(July) && PrevMonth(July) == June
  {
  }

  // ---- one tenant, one meter ----

  function SimpleStore(): Store {
    Store0([Tenant(1, "Test Tenant")],
           [Meter(1, "Office Meter", Electricity, 1, None)],
           [Reading(1, June, 4000.0, None), Reading(1, July, 4100.0, None)],
           [Rate(1, 1, 10.5)])
  }

  /** One meter, 4000 then 4100 at 10.5: both versions invoice 1050 for
      July 2024. */
  lemma SimpleInvoiceIs1050()
    ensures GenerateInvoice(SimpleStore(), 1, July).Success?
    ensures GenerateInvoice(SimpleStore(), 1, July).value.invoice.amount == 1050.0
    ensures LegacyGenerateInvoice(SimpleStore(), 1, July).Success?
    ensures LegacyGenerateInvoice(SimpleStore(), 1, July).value.1.amount == 1050.0
  {
    var s := SimpleStore();
    var m := s.meters[0];
    assert FindTenant(s.tenants, 1).Some?;
    assert TenantMeters(s.meters, 1) == [m];
    JulyFollowsJune();
    BillMeterPricesStoredFacts(s.readings, s.tariffs, m, July, s.readings[1], s.readings[0], s.tariffs[0]);
    var billed := MeterBillingResult(m, s.tariffs[0], 100.0, 1050.0);
    BillOne(s.readings, s.tariffs, m, billed);
    SingleResultTotals(billed);
  }

  /** A tenant with one billed meter that takes from no parent: both
      subtractions leave its cost as the total. */
  lemma SingleResultTotals(billed: MeterBillingResult)
    requires !IsSub(billed)
    ensures AdjustForSubtraction([billed]) == Success(([billed], billed.cost))
    ensures LegacyAdjustForSubtraction([billed]) == Success(billed.cost)
  {
    assert [billed][1..] == [];
    assert SubMeters([billed]) == [];
    assert Costs([billed]) == [billed.cost];
    assert Sum([billed.cost]) == billed.cost;
    assert LegacySubtractAll([billed], [billed.cost], [billed]) == LegacySubtractAll([billed], [billed.cost], []);
  }

  // ---- a sub-meter taken out of its parent (older test) ----

  function SubMeterStore(): Store {
    Store0([Tenant(1, "StaviLon")],
           [Meter(1, "Main Building", Electricity, 1, None),
            Meter(2, "Bondarenko Warehouse", Electricity, 1, Some(1))],
           [Reading(1, June, 2000.0, None), Reading(1, July, 2100.0, None),
            Reading(2, June, 4000.0, None), Reading(2, July, 4100.0, None)],
           [Rate(1, 1, 40.0), Rate(2, 2, 10.5)])
  }

  /** Parent 2000 to 2100 at 40.0, sub-meter 4000 to 4100 at 10.5: the
      older version invoices 4000 + 1050 - 4000 = 1050, and the newer one,
      which re-prices the parent's remaining 0, invoices the same. */
  lemma SubMeterInvoiceIs1050()
    ensures LegacyGenerateInvoice(SubMeterStore(), 1, July).Success?
    ensures LegacyGenerateInvoice(SubMeterStore(), 1, July).value.1.amount == 1050.0
    ensures GenerateInvoice(SubMeterStore(), 1, July).Success?
    ensures GenerateInvoice(SubMeterStore(), 1, July).value.invoice.amount == 1050.0
  {
    var s := SubMeterStore();
    var parent := MeterBillingResult(s.meters[0], s.tariffs[0], 100.0, 4000.0);
    var sub := MeterBillingResult(s.meters[1], s.tariffs[1], 100.0, 1050.0);
    SubMeterStoreBills();
    ParentAndSubTotals(parent, sub);
  }

  /** Both meters of the sub-meter store are priced from their stored
      readings and tariffs. */
  lemma SubMeterStoreBills()
    ensures var s := SubMeterStore();
            && FindTenant(s.tenants, 1).Some?
            && TenantMeters(s.meters, 1) == s.meters
            && BillAll(s.readings, s.tariffs, s.meters, July)
               == Success([MeterBillingResult(s.meters[0], s.tariffs[0], 100.0, 4000.0),
                           MeterBillingResult(s.meters[1], s.tariffs[1], 100.0, 1050.0)])
  {
    var s := SubMeterStore();
    var ms := s.meters;
    assert FindTenant(s.tenants, 1).Some?;
    assert TenantMeters(ms, 1) == ms;
    JulyFollowsJune();
    BillMeterPricesStoredFacts(s.readings, s.tariffs, ms[0], July, s.readings[1], s.readings[0], s.tariffs[0]);
    BillMeterPricesStoredFacts(s.readings, s.tariffs, ms[1], July, s.readings[3], s.readings[2], s.tariffs[1]);
    var parent := MeterBillingResult(ms[0], s.tariffs[0], 100.0, 4000.0);
    var sub := MeterBillingResult(ms[1], s.tariffs[1], 100.0, 1050.0);
    BillTwo(s.readings, s.tariffs, ms, parent, sub);
  }

  /** Billing two meters gives their two results, in order. */
  lemma BillTwo(readings: seq<Reading>, tariffs: seq<Tariff>, ms: seq<Meter>, a: MeterBillingResult, b: MeterBillingResult)
    requires |ms| == 2
    requires BillMeter(readings, tariffs, ms[0], July) == Success(a)
    requires BillMeter(readings, tariffs, ms[1], July) == Success(b)
    ensures BillAll(readings, tariffs, ms, July) == Success([a, b])
  {
    JulyFollowsJune();
    var tail := ms[1..];
    assert tail[0] == ms[1] && tail[1..] == [];
    assert BillAll(readings, tariffs, tail[1..], July) == Success([]);
    assert [b] + [] == [b];
    assert BillAll(readings, tariffs, tail, July) == Success([b]);
    assert [a] + [b] == [a, b];
  }

  /** A parent whose whole consumption is its sub-meter's: the older
      version deducts the sub-meter's consumption at the parent's rate, the
      newer one re-prices the parent at zero, and both total the sub-meter's
      cost. */
  lemma ParentAndSubTotals(parent: MeterBillingResult, sub: MeterBillingResult)
    requires parent.meter.id == 1 && parent.meter.subtractFrom.None?
    requires sub.meter.id == 2 && sub.meter.subtractFrom == Some(1)
    requires parent.consumption == 100.0 && parent.tariff.rate == 40.0 && parent.cost == 4000.0
    requires sub.consumption == 100.0 && sub.cost == 1050.0
    ensures LegacyAdjustForSubtraction([parent, sub]) == Success(1050.0)
    ensures AdjustForSubtraction([parent, sub]).Success?
    ensures AdjustForSubtraction([parent, sub]).value.1 == 1050.0
  {
    var rs := [parent, sub];
    TwoResultsShape(parent, sub);
    assert ParentOf(sub) == 1;
    assert CalculateCost(sub.consumption, rs[0].tariff.rate) == 4000.0;
    assert [4000.0, 1050.0][0 := 4000.0 - 4000.0] == [0.0, 1050.0];
    assert LegacySubtractAll(rs, [0.0, 1050.0], []) == Success([0.0, 1050.0]);
    assert LegacySubtractAll(rs, [4000.0, 1050.0], [sub]) == Success([0.0, 1050.0]);
    assert Sum([0.0, 1050.0]) == 1050.0;
    var st := Adjusted(rs, [4000.0, 1050.0]);
    assert RecalculateAfterSubtraction(100.0, 100.0) == Some(0.0);
    assert CalculateCost(0.0, 40.0) == 0.0;
    var after := Adjusted(rs[0 := MeterBillingResult(parent.meter, parent.tariff, 0.0, 0.0)], [0.0, 1050.0]);
    assert SubtractOne(st, sub) == Success(after);
    assert [sub][1..] == [];
    assert SubtractAll(after, []) == Success(after);
    assert SubtractAll(st, [sub]) == Success(after);
  }

  /** Of a parent and its sub-meter's results: where the parent is found,
      which results are sub-meters, and the costs in order. */
  lemma TwoResultsShape(parent: MeterBillingResult, sub: MeterBillingResult)
    requires parent.meter.id == 1 && parent.meter.subtractFrom.None?
    requires sub.meter.id == 2 && sub.meter.subtractFrom == Some(1)
    ensures IndexOf([parent, sub], 1) == Some(0)
    ensures SubMeters([parent, sub]) == [sub]
    ensures Costs([parent, sub]) == [parent.cost, sub.cost]
    ensures LegacySubtractAll([parent, sub], Costs([parent, sub]), [parent, sub])
            == LegacySubtractAll([parent, sub], Costs([parent, sub]), [sub])
  {
    var rs := [parent, sub];
    assert rs[1..] == [sub] && [sub][1..] == [];
    assert SubMeters([sub]) == [sub] + SubMeters([]);
    assert Costs([sub]) == [sub.cost] by {
      assert Costs([]) == [];
    }
  }

  /** The older version has no failure path for a parent that consumed
      less than its sub-meter: the parent's final cost goes negative
      (2000 - 4000), while the newer version refuses the recalculation. */
  lemma LegacyParentCostGoesNegative()
    ensures var parent := MeterBillingResult(Meter(1, "Main Building", Electricity, 1, None), Rate(1, 1, 40.0), 50.0, 2000.0);
            var sub := MeterBillingResult(Meter(2, "Warehouse", Electricity, 1, Some(1)), Rate(2, 2, 10.5), 100.0, 1050.0);
            && LegacySubtractAll([parent, sub], [2000.0, 1050.0], [parent, sub]) == Success([-2000.0, 1050.0])
            && LegacyAdjustForSubtraction([parent, sub]) == Success(-950.0)
            && AdjustForSubtraction([parent, sub]) == Failure(SubtractionRejected(1, 2))
  {
    var parent := MeterBillingResult(Meter(1, "Main Building", Electricity, 1, None), Rate(1, 1, 40.0), 50.0, 2000.0);
    var sub := MeterBillingResult(Meter(2, "Warehouse", Electricity, 1, Some(1)), Rate(2, 2, 10.5), 100.0, 1050.0);
    var rs := [parent, sub];
    TwoResultsShape(parent, sub);
    assert ParentOf(sub) == 1;
    assert CalculateCost(sub.consumption, rs[0].tariff.rate) == 4000.0;
    assert [2000.0, 1050.0][0 := 2000.0 - 4000.0] == [-2000.0, 1050.0];
    assert LegacySubtractAll(rs, [-2000.0, 1050.0], []) == Success([-2000.0, 1050.0]);
    assert LegacySubtractAll(rs, [2000.0, 1050.0], [sub]) == Success([-2000.0, 1050.0]);
    assert Sum([-2000.0, 1050.0]) == -950.0;
    assert RecalculateAfterSubtraction(50.0, 100.0).None?;
    assert SubtractOne(Adjusted(rs, Costs(rs)), sub) == Failure(SubtractionRejected(1, 2));
  }

  // ---- a manual adjustment on the parent reading (newer test) ----

  function ManualAdjustmentStore(): Store {
    Store([Tenant(1, "Landlord"), Tenant(2, "Sub-tenant")],
          [Meter(1, "Main Building", Electricity, 1, None),
           Meter(2, "Sub-let Office", Electricity, 2, None)],
          [Reading(1, June, 2000.0, None), Reading(1, July, 2155.0, Some(100.0)),
           Reading(2, June, 4000.0, None), Reading(2, July, 4100.0, None)],
          [Rate(1, 1, 40.0), Rate(2, 2, 10.5)],
          [], [], [DeductionLink(1, 2, "Sub-let deduction")], 1)
  }

  /** The arithmetic the test expects, (2155 - 2000) - 100 = 55 and
      55 * 40.0 = 2200, holds of the primitives; `_bill_meter` as written
      passes no adjustment, so the landlord's invoice comes to
      155 * 40.0 = 6200. */
  lemma ManualAdjustmentIsNotApplied()
    ensures CalculateCost(CalculateConsumption(2155.0, 2000.0, 100.0), 40.0) == 2200.0
    ensures GenerateInvoice(ManualAdjustmentStore(), 1, July).Success?
    ensures GenerateInvoice(ManualAdjustmentStore(), 1, July).value.invoice.amount == 6200.0
  {
    var s := ManualAdjustmentStore();
    var m := s.meters[0];
    JulyFollowsJune();
    assert FindTenant(s.tenants, 1).Some?;
    assert TenantMeters(s.meters, 1) == [m];
    BillMeterPricesStoredFacts(s.readings, s.tariffs, m, July, s.readings[1], s.readings[0], s.tariffs[0]);
    var landlord := MeterBillingResult(m, s.tariffs[0], 155.0, 6200.0);
    BillOne(s.readings, s.tariffs, m, landlord);
    SingleResultTotals(landlord);
  }

  /** The sub-tenant's meter is only linked to the landlord's as a
      deduction hint, which billing never reads: its invoice is 1050. */
  lemma DeductionLinkIsNotBilled()
    ensures GenerateInvoice(ManualAdjustmentStore(), 2, July).Success?
    ensures GenerateInvoice(ManualAdjustmentStore(), 2, July).value.invoice.amount == 1050.0
  {
    var s := ManualAdjustmentStore();
    var m := s.meters[1];
    JulyFollowsJune();
    assert FindTenant(s.tenants, 2).Some?;
    assert TenantMeters(s.meters, 2) == [m];
    BillMeterPricesStoredFacts(s.readings, s.tariffs, m, July, s.readings[3], s.readings[2], s.tariffs[1]);
    var subTenant := MeterBillingResult(m, s.tariffs[1], 100.0, 1050.0);
    BillOne(s.readings, s.tariffs, m, subTenant);
    SingleResultTotals(subTenant);
  }

  /** Billing one meter gives its result. */
  lemma BillOne(readings: seq<Reading>, tariffs: seq<Tariff>, m: Meter, a: MeterBillingResult)
    requires BillMeter(readings, tariffs, m, July) == Success(a)
    ensures BillAll(readings, tariffs, [m], July) == Success([a])
  {
    assert [m][1..] == [];
    assert BillAll(readings, tariffs, [], July) == Success([]);
    assert [a] + [] == [a];
  }

  // ---- the ledger ----

  /** A +50 correction on the 1050 invoice raises it to 1100 and is listed;
      a correction on an unknown invoice is refused. */
  lemma LedgerExample()
    ensures var s := GenerateInvoice(SimpleStore(), 1, July).value.store;
            && AddAdjustment(s, 1, 50.0, "meter misread").Success?
            && AddAdjustment(s, 1, 50.0, "meter misread").value.invoices == [Invoice(1, 1, July, 1100.0)]
            && ListAdjustments(AddAdjustment(s, 1, 50.0, "meter misread").value, 1)
               == Success([Adjustment(1, 50.0, "meter misread")])
            && AddAdjustment(s, 2, 50.0, "meter misread") == Failure(InvoiceNotFound(2))
  {
    SimpleInvoiceIs1050();
    var run := GenerateInvoice(SimpleStore(), 1, July).value;
    assert run.store.invoices == [Invoice(1, 1, July, 1050.0)];
    assert run.store.adjustments == [];
    var t := AddAdjustment(run.store, 1, 50.0, "meter misread").value;
    var adj := Adjustment(1, 50.0, "meter misread");
    assert t.adjustments == [adj];
    assert InvoiceIndex(t.invoices, 1) == Some(0);
    assert [adj][1..] == [];
    assert AdjustmentsOf([adj], 1) == [adj] + AdjustmentsOf([], 1);
    assert AdjustmentsOf([], 1) == [] && [adj] + [] == [adj];
    assert ListAdjustments(t, 1) == Success(AdjustmentsOf(t.adjustments, 1));
  }

  // ---- completeness ----

  /** Without the June reading the pre-flight reports exactly the missing
      previous reading, and an unknown tenant is one issue. */
  lemma CompletenessExample()
    ensures var s := SimpleStore().(readings := [Reading(1, July, 4100.0, None)]);
            CompletenessCheck(s, 1, July) == [MissingPreviousReading("Office Meter", June)]
    ensures CompletenessCheck(SimpleStore(), 5, July) == [UnknownTenant(5)]
  {
    var s := SimpleStore().(readings := [Reading(1, July, 4100.0, None)]);
    var m := s.meters[0];
    JulyFollowsJune();
    assert TenantMeters(s.meters, 1) == [m];
    PeriodReadingIsTheStoredOne(s.readings, s.readings[0]);
    assert !HasReading(s.readings, 1, June);
    assert FindForDate(s.tariffs, 1, July).Some?;
    assert MeterIssues(s.readings, s.tariffs, m, July) == [MissingPreviousReading("Office Meter", June)];
    assert [m][1..] == [];
  }

  // ---- tariff history ----

  /** A meter on 10.0 since January gets 12.0 from July: the January
      tariff is closed on 30 June, June dates still resolve to 10.0 and
      July dates to 12.0. A mid-month start and a start not after January
      are refused. */
  lemma TariffChangeExample()
    ensures var before := [Rate(1, 1, 10.0)];
            var after := CreateTariff(before, 1, "Night", 12.0, July, 2);
            && after == Success([Rate(1, 1, 10.0).(periodEnd := Some(Date(2024, 6, 30))),
                                 NewTariff(2, 1, "Night", 12.0, July)])
            && FindForDate(after.value, 1, Date(2024, 6, 15)) == Some(after.value[0])
            && FindForDate(after.value, 1, July) == Some(after.value[1])
            && FindForDate(after.value, 1, Date(2023, 12, 31)).None?
            && CreateTariff(before, 1, "Night", 12.0, Date(2024, 7, 15), 2) == Failure(StartNotFirstOfMonth)
            && CreateTariff(before, 1, "Night", 12.0, January, 2) == Failure(StartNotAfterOpenTariff)
  {
    var before := [Rate(1, 1, 10.0)];
    assert OpenTariffIndex(before, 1) == Some(0);
    assert PrevDay(July) == Date(2024, 6, 30);
    var closed := Rate(1, 1, 10.0).(periodEnd := Some(Date(2024, 6, 30)));
    var started := NewTariff(2, 1, "Night", 12.0, July);
    assert !Le(July, before[0].periodStart);
    assert before[0 := closed] == [closed] && [closed] + [started] == [closed, started];
    assert ConfirmTariff(before, 1, "Night", 12.0, July, 2) == Success([closed, started]);
    assert CheckStartDate(July) == Success(July);
    assert CreateTariff(before, 1, "Night", 12.0, July, 2) == Success([closed, started]);
    var after := [closed, started];
    assert after[1..] == [started] && [started][1..] == [];
    assert FindForDate(after, 1, Date(2024, 6, 15)) == Some(closed);
    assert !Matches(closed, 1, July);
    assert FindForDate(after, 1, July) == FindForDate([started], 1, July) == Some(started);
    assert FindForDate([started], 1, Date(2023, 12, 31)) == FindForDate([], 1, Date(2023, 12, 31));
    assert CreateTariff(before, 1, "Night", 12.0, January, 2) == ConfirmTariff(before, 1, "Night", 12.0, January, 2);
  }

  /** Two tariffs named and priced alike give one template, the first. */
  lemma TemplatesExample()
    ensures var a := Tariff(1, 1, "Day", 10.0, January, None, None);
            var b := Tariff(2, 2, "Night", 12.0, January, None, None);
            var c := Tariff(3, 3, "Day", 10.0, July, None, None);
            Templates([a, b, c]) == [a, b]
  {
    var a := Tariff(1, 1, "Day", 10.0, January, None, None);
    var b := Tariff(2, 2, "Night", 12.0, January, None, None);
    var c := Tariff(3, 3, "Day", 10.0, July, None, None);
    assert [a, b, c][..2] == [a, b] && [a, b][..1] == [a] && [a][..0] == [];
    assert Templates([a]) == [a];
    assert !HasKey([a], TemplateKey(b));
    assert Templates([a, b]) == [a, b];
    assert TemplateKey([a, b][0]) == TemplateKey(c);
    assert HasKey([a, b], TemplateKey(c));
  }
}

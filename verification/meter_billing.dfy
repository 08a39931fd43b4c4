/** Billing one meter for one period, billing every meter of a tenant, the
    non-failing completeness pre-flight, and the per-rate-type cost totals.
    The older service's `_bill_meter` is line for line the newer one, so
    both versions use the members here. */
module MeterBilling {
  import opened Dates
  import opened Results
  import opened Calculations
  import opened Models
  import opened ReadingRepository
  import opened TariffRepository

  /** What billing one meter produces. */
  datatype MeterBillingResult = MeterBillingResult(meter: Meter, tariff: Tariff, consumption: real, cost: real)

  /** The cost is the consumption priced at the result's own tariff. */
  predicate Priced(r: MeterBillingResult) {
    r.cost == CalculateCost(r.consumption, r.tariff.rate)
  }

  /** `_bill_meter`: prices the unadjusted consumption between the reading of
      `period` and the reading of the month before at the rate of the tariff
      active on `period`. Which error it fails with is stated by
      `BillMeterFailsInOrder`. */
  function BillMeter(readings: seq<Reading>, tariffs: seq<Tariff>, meter: Meter, period: Date): (r: Result<MeterBillingResult>)
    requires Valid(period)
    ensures r.Success? ==> && r.value.meter == meter
                           && r.value.tariff in tariffs
                           && Matches(r.value.tariff, meter.id, period)
                           && Priced(r.value)
    ensures r.Failure? ==> r.error in [NoCurrentReading(meter.id, period),
                                       NoPreviousReading(meter.id, PrevMonth(period)),
                                       NoActiveTariff(meter.id, period)]
  {
    var prevPeriod := PrevMonth(period);
    var current := PeriodReading(readings, meter.id, period);
    var previous := PeriodReading(readings, meter.id, prevPeriod);
    if current.None? then Failure(NoCurrentReading(meter.id, period))
    else if previous.None? then Failure(NoPreviousReading(meter.id, prevPeriod))
    else
      match FindForDate(tariffs, meter.id, period)
      case None => Failure(NoActiveTariff(meter.id, period))
      case Some(tariff) =>
        var consumption := CalculateConsumption(current.value.value, previous.value.value, 0.0);
        var cost := CalculateCost(consumption, tariff.rate);
        Success(MeterBillingResult(meter, tariff, consumption, cost))
  }

  /** `_bill_meter` fails on a missing current reading, else on a missing
      previous-month reading, else on a missing tariff, and succeeds exactly
      when all three exist; the consumption it prices is that of the two
      readings with no adjustment. */
  lemma BillMeterFailsInOrder(readings: seq<Reading>, tariffs: seq<Tariff>, meter: Meter, period: Date)
    requires Valid(period)
    ensures var r := BillMeter(readings, tariffs, meter, period);
            && (r == Failure(NoCurrentReading(meter.id, period))
                <==> !HasReading(readings, meter.id, period))
            && (r == Failure(NoPreviousReading(meter.id, PrevMonth(period)))
                <==> HasReading(readings, meter.id, period) && !HasReading(readings, meter.id, PrevMonth(period)))
            && (r == Failure(NoActiveTariff(meter.id, period))
                <==> && HasReading(readings, meter.id, period)
                     && HasReading(readings, meter.id, PrevMonth(period))
                     && forall t :: t in tariffs ==> !Matches(t, meter.id, period))
            && (r.Success?
                <==> && HasReading(readings, meter.id, period)
                     && HasReading(readings, meter.id, PrevMonth(period))
                     && exists t :: t in tariffs && Matches(t, meter.id, period))
            && (r.Success? ==>
                  r.value.consumption == CalculateConsumption(
                    PeriodReading(readings, meter.id, period).value.value,
                    PeriodReading(readings, meter.id, PrevMonth(period)).value.value,
                    0.0))
  {
  }

  /** On a store that keeps its constraints, billing a meter prices exactly
      the stored readings of the period and of the month before at the rate
      of the tariff active on the period. */
  lemma BillMeterPricesStoredFacts(readings: seq<Reading>, tariffs: seq<Tariff>, meter: Meter, period: Date,
                                   current: Reading, previous: Reading, tariff: Tariff)
    requires Valid(period) && ReadingsUnique(readings) && WindowsDisjoint(tariffs, meter.id)
    requires current in readings && current.meter == meter.id && current.period == period
    requires previous in readings && previous.meter == meter.id && previous.period == PrevMonth(period)
    requires tariff in tariffs && Matches(tariff, meter.id, period)
    ensures BillMeter(readings, tariffs, meter, period)
            == Success(MeterBillingResult(meter, tariff,
                 CalculateConsumption(current.value, previous.value, 0.0),
                 CalculateCost(CalculateConsumption(current.value, previous.value, 0.0), tariff.rate)))
  {
    PeriodReadingIsTheStoredOne(readings, current);
    PeriodReadingIsTheStoredOne(readings, previous);
    FindForDateUnique(tariffs, meter.id, period, tariff);
  }

  /** The loop of `generate_invoice` that bills every meter in turn; the
      first failing meter aborts it (`BillAllSucceedsIff`,
      `BillAllFailsOnFirstFailure`). */
  function BillAll(readings: seq<Reading>, tariffs: seq<Tariff>, meters: seq<Meter>, period: Date): (r: Result<seq<MeterBillingResult>>)
    requires Valid(period)
    ensures r.Success? ==> |r.value| == |meters|
    ensures r.Failure? ==> r.error.NoCurrentReading? || r.error.NoPreviousReading? || r.error.NoActiveTariff?
  {
    if |meters| == 0 then Success([])
    else
      match BillMeter(readings, tariffs, meters[0], period)
      case Failure(e) => Failure(e)
      case Success(first) =>
        match BillAll(readings, tariffs, meters[1..], period)
        case Failure(e) => Failure(e)
        case Success(rest) => Success([first] + rest)
  }

  /** Billing all meters succeeds exactly when every meter can be billed, and
      then holds each meter's own result at that meter's position. */
  lemma {:induction false} BillAllSucceedsIff(readings: seq<Reading>, tariffs: seq<Tariff>, meters: seq<Meter>, period: Date)
    requires Valid(period)
    ensures BillAll(readings, tariffs, meters, period).Success?
            <==> forall k :: 0 <= k < |meters| ==> BillMeter(readings, tariffs, meters[k], period).Success?
    ensures BillAll(readings, tariffs, meters, period).Success? ==>
              forall k :: 0 <= k < |meters| ==>
                BillAll(readings, tariffs, meters, period).value[k] == BillMeter(readings, tariffs, meters[k], period).value
  {
    if |meters| > 0 {
      var tail := meters[1..];
      BillAllSucceedsIff(readings, tariffs, tail, period);
      var first := BillMeter(readings, tariffs, meters[0], period);
      var rest := BillAll(readings, tariffs, tail, period);
      assert forall j :: 1 <= j < |meters| ==> meters[j] == tail[j - 1];
      if first.Success? && rest.Success? {
        assert BillAll(readings, tariffs, meters, period) == Success([first.value] + rest.value);
      } else {
        assert BillAll(readings, tariffs, meters, period).Failure?;
      }
    }
  }

  /** A failure of billing all meters is the failure of the first meter that
      cannot be billed: no partial result is produced. */
  lemma {:induction false} BillAllFailsOnFirstFailure(readings: seq<Reading>, tariffs: seq<Tariff>, meters: seq<Meter>, period: Date)
    requires Valid(period)
    requires BillAll(readings, tariffs, meters, period).Failure?
    ensures exists k :: && 0 <= k < |meters|
                        && BillMeter(readings, tariffs, meters[k], period) == Failure(BillAll(readings, tariffs, meters, period).error)
                        && forall j :: 0 <= j < k ==> BillMeter(readings, tariffs, meters[j], period).Success?
  {
    var e := BillAll(readings, tariffs, meters, period).error;
    if BillMeter(readings, tariffs, meters[0], period).Failure? {
      assert BillMeter(readings, tariffs, meters[0], period) == Failure(e);
    } else {
      var tail := meters[1..];
      BillAllFailsOnFirstFailure(readings, tariffs, tail, period);
      var k :| && 0 <= k < |tail|
               && BillMeter(readings, tariffs, tail[k], period) == Failure(e)
               && forall j :: 0 <= j < k ==> BillMeter(readings, tariffs, tail[j], period).Success?;
      assert forall j :: 1 <= j < |meters| ==> meters[j] == tail[j - 1];
      assert BillMeter(readings, tariffs, meters[k + 1], period) == Failure(e);
    }
  }

  // ---- completeness check ----

  /** One missing fact reported by the completeness check. */
  datatype Issue =
    | UnknownTenant(tenant: TenantId)
    | MissingReading(meterName: string, period: Date)
    | MissingPreviousReading(meterName: string, period: Date)
    | MissingTariff(meterName: string, period: Date)

  /** The order in which one meter's checks run. */
  function CheckRank(i: Issue): nat {
    match i
    case UnknownTenant(_) => 0
    case MissingReading(_, _) => 1
    case MissingPreviousReading(_, _) => 2
    case MissingTariff(_, _) => 3
  }

  /** The three checks of `completeness_check` for one meter. They are the
      three failure conditions of `BillMeter`, made non-failing: the issues
      are empty exactly when `BillMeter` succeeds, and otherwise the first
      issue names the fact `BillMeter` fails on. */
  function MeterIssues(readings: seq<Reading>, tariffs: seq<Tariff>, meter: Meter, period: Date): (r: seq<Issue>)
    requires Valid(period)
    ensures |r| <= 3
    ensures forall i, j :: 0 <= i < j < |r| ==> CheckRank(r[i]) < CheckRank(r[j])
  {
    var prevPeriod := PrevMonth(period);
    var current := PeriodReading(readings, meter.id, period);
    var previous := PeriodReading(readings, meter.id, prevPeriod);
    var tariff := FindForDate(tariffs, meter.id, period);
    (if current.None? then [MissingReading(meter.name, period)] else [])
    + (if previous.None? then [MissingPreviousReading(meter.name, prevPeriod)] else [])
    + (if tariff.None? then [MissingTariff(meter.name, period)] else [])
  }

  /** Each of the three issues of a meter is reported exactly when its fact
      is missing, and nothing else is reported. */
  lemma MeterIssuesReportMissingFacts(readings: seq<Reading>, tariffs: seq<Tariff>, meter: Meter, period: Date)
    requires Valid(period)
    ensures var r := MeterIssues(readings, tariffs, meter, period);
            && (MissingReading(meter.name, period) in r <==> !HasReading(readings, meter.id, period))
            && (MissingPreviousReading(meter.name, PrevMonth(period)) in r
                <==> !HasReading(readings, meter.id, PrevMonth(period)))
            && (MissingTariff(meter.name, period) in r <==> forall t :: t in tariffs ==> !Matches(t, meter.id, period))
            && (forall i :: 0 <= i < |r| ==> r[i] in [MissingReading(meter.name, period),
                                                      MissingPreviousReading(meter.name, PrevMonth(period)),
                                                      MissingTariff(meter.name, period)])
  {
  }

  /** The completeness checks are the failure conditions of `BillMeter` made
      non-failing: a meter has no issue exactly when `BillMeter` succeeds on
      it, and otherwise its first issue names the error `BillMeter` raises. */
  lemma MeterIssuesAreBillMeterFailures(readings: seq<Reading>, tariffs: seq<Tariff>, meter: Meter, period: Date)
    requires Valid(period)
    ensures var r := MeterIssues(readings, tariffs, meter, period);
            && (r == [] <==> BillMeter(readings, tariffs, meter, period).Success?)
            && (r != [] ==> BillMeter(readings, tariffs, meter, period) == Failure(IssueAsError(r[0], meter, period)))
  {
    BillMeterFailsInOrder(readings, tariffs, meter, period);
  }

  /** The error `BillMeter` raises for the fact an issue reports. */
  function IssueAsError(i: Issue, meter: Meter, period: Date): Error
    requires Valid(period)
  {
    match i
    case UnknownTenant(t) => TenantNotFound(t)
    case MissingReading(_, _) => NoCurrentReading(meter.id, period)
    case MissingPreviousReading(_, _) => NoPreviousReading(meter.id, PrevMonth(period))
    case MissingTariff(_, _) => NoActiveTariff(meter.id, period)
  }

  /** The issues of every meter, in meter order. */
  function AllIssues(readings: seq<Reading>, tariffs: seq<Tariff>, meters: seq<Meter>, period: Date): (r: seq<Issue>)
    requires Valid(period)
    ensures |r| <= 3 * |meters|
    ensures r == [] <==> BillAll(readings, tariffs, meters, period).Success?
  {
    if |meters| == 0 then []
    else
      var rest := AllIssues(readings, tariffs, meters[1..], period);
      assert forall j :: 1 <= j < |meters| ==> meters[j] == meters[1..][j - 1];
      MeterIssues(readings, tariffs, meters[0], period) + rest
  }

  /** `completeness_check`: never fails. An unknown tenant gives one issue;
      otherwise the tenant's meters contribute at most three issues each,
      and there are none exactly when every meter can be billed. */
  function CompletenessCheck(s: Store, tenant: TenantId, period: Date): (r: seq<Issue>)
    requires Valid(period)
    ensures FindTenant(s.tenants, tenant).None? ==> r == [UnknownTenant(tenant)]
    ensures FindTenant(s.tenants, tenant).Some? ==>
              && |r| <= 3 * |TenantMeters(s.meters, tenant)|
              && (r == [] <==> forall m :: m in TenantMeters(s.meters, tenant) ==>
                                  BillMeter(s.readings, s.tariffs, m, period).Success?)
  {
    match FindTenant(s.tenants, tenant)
    case None => [UnknownTenant(tenant)]
    case Some(_) =>
      var meters := TenantMeters(s.meters, tenant);
      BillAllSucceedsIff(s.readings, s.tariffs, meters, period);
      AllIssues(s.readings, s.tariffs, meters, period)
  }

  // ---- per-rate-type totals ----

  /** `tariff.rate_type or "default"`: a missing or empty rate type groups
      under "default". */
  function RateTypeKey(t: Tariff): string {
    if t.rateType.Some? && t.rateType.value != "" then t.rateType.value else "default"
  }

  /** The summed cost of the results whose tariff groups under `key`. */
  function CostOfRateType(rs: seq<MeterBillingResult>, key: string): real {
    if |rs| == 0 then 0.0
    else
      var last := rs[|rs| - 1];
      CostOfRateType(rs[..|rs| - 1], key) + (if RateTypeKey(last.tariff) == key then last.cost else 0.0)
  }

  /** The rate types that occur among the results. */
  function RateTypes(rs: seq<MeterBillingResult>): set<string> {
    if |rs| == 0 then {} else RateTypes(rs[..|rs| - 1]) + {RateTypeKey(rs[|rs| - 1].tariff)}
  }

  /** A rate type occurs exactly when some result's tariff groups under it. */
  lemma {:induction false} RateTypesOccur(rs: seq<MeterBillingResult>, key: string)
    ensures key in RateTypes(rs) <==> exists i :: 0 <= i < |rs| && RateTypeKey(rs[i].tariff) == key
  {
    if |rs| > 0 {
      var prefix := rs[..|rs| - 1];
      RateTypesOccur(prefix, key);
      if key in RateTypes(prefix) {
        var i :| 0 <= i < |prefix| && RateTypeKey(prefix[i].tariff) == key;
        assert rs[i] == prefix[i];
      }
      if exists i :: 0 <= i < |rs| && RateTypeKey(rs[i].tariff) == key {
        var i :| 0 <= i < |rs| && RateTypeKey(rs[i].tariff) == key;
        if i < |prefix| {
          assert rs[i] == prefix[i];
        }
      }
    }
  }

  /** A group whose rate type does not occur costs nothing. */
  lemma {:induction false} AbsentRateTypeCostsNothing(rs: seq<MeterBillingResult>, key: string)
    requires key !in RateTypes(rs)
    ensures CostOfRateType(rs, key) == 0.0
  {
    if |rs| > 0 {
      AbsentRateTypeCostsNothing(rs[..|rs| - 1], key);
    }
  }

  /** Taking one more result in adds its cost to its own group only. */
  lemma CostOfRateTypeGrows(rs: seq<MeterBillingResult>, n: nat, key: string)
    requires n < |rs|
    ensures CostOfRateType(rs[..n + 1], key)
            == CostOfRateType(rs[..n], key) + (if RateTypeKey(rs[n].tariff) == key then rs[n].cost else 0.0)
  {
    assert rs[..n + 1][..n] == rs[..n];
  }

  /** `aggregate_costs_by_rate_type`: one total per rate type that occurs,
      each the sum of the costs grouped under it. */
  method AggregateCostsByRateType(rs: seq<MeterBillingResult>) returns (totals: map<string, real>)
    ensures totals.Keys == RateTypes(rs)
    ensures forall key :: key in totals ==> totals[key] == CostOfRateType(rs, key)
  {
    totals := map[];
    var n := 0;
    while n < |rs|
      invariant 0 <= n <= |rs|
      invariant totals.Keys == RateTypes(rs[..n])
      invariant forall key :: key in totals ==> totals[key] == CostOfRateType(rs[..n], key)
    {
      var key := RateTypeKey(rs[n].tariff);
      var before := if key in totals then totals[key] else 0.0;
      if key !in totals {
        AbsentRateTypeCostsNothing(rs[..n], key);
      }
      forall k
        ensures CostOfRateType(rs[..n + 1], k)
                == CostOfRateType(rs[..n], k) + (if key == k then rs[n].cost else 0.0)
      {
        CostOfRateTypeGrows(rs, n, k);
      }
      assert rs[..n + 1][..n] == rs[..n];
      assert RateTypes(rs[..n + 1]) == RateTypes(rs[..n]) + {key};
      totals := totals[key := before + rs[n].cost];
      n := n + 1;
    }
    assert rs[..n] == rs;
  }
}

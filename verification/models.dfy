/** Entity shapes of the billing engine and the uniqueness constraints the
    database declares on them. The newer and the older model files differ
    only in fields the engine reads: the newer Reading has a manual
    adjustment and the newer Tariff a name, the older Meter a
    `subtract_from` self-link; this model carries the union. */
module Models {
  import opened Dates
  import opened Results

  type TenantId = nat
  type MeterId = nat
  type TariffId = nat
  type InvoiceId = nat

  /** Informational only: it never affects a calculation. */
  datatype ResourceType = Electricity | Water | Heat

  datatype Tenant = Tenant(id: TenantId, name: string)

  /** `subtractFrom` names the parent meter whose consumption this meter's
      consumption is taken out of; deleting the parent sets it to None. */
  datatype Meter = Meter(
    id: MeterId,
    name: string,
    resourceType: ResourceType,
    tenant: TenantId,
    subtractFrom: Option<MeterId>)

  /** One reading per (meter, period); `period` is the first day of a month.
      `manualAdjustment` is nullable; rows written by the older tree have None. */
  datatype Reading = Reading(
    meter: MeterId,
    period: Date,
    value: real,
    manualAdjustment: Option<real>)

  /** A rate effective from `periodStart` through `periodEnd`, both inclusive;
      a missing `periodEnd` leaves the window open. `rateType` is the grouping
      key of the per-rate-type totals. */
  datatype Tariff = Tariff(
    id: TariffId,
    meter: MeterId,
    name: string,
    rate: real,
    periodStart: Date,
    periodEnd: Option<Date>,
    rateType: Option<string>)

  datatype Invoice = Invoice(id: InvoiceId, tenant: TenantId, period: Date, amount: real)

  /** A signed correction recorded against an invoice. */
  datatype Adjustment = Adjustment(invoice: InvoiceId, amount: real, description: string)

  /** A parent/child pair offered as a deduction hint when readings are
      entered; a meter may be linked to itself. */
  datatype DeductionLink = DeductionLink(parent: MeterId, child: MeterId, description: string)

  /** The name a tariff gets when none is given. */
  const DefaultTariffName: string := "Стандартный"

  /** The manual adjustment a reading gets when none is given. */
  const DefaultManualAdjustment: real := 0.0

  /** The tables the engine reads and writes, each in storage order.
      `nextInvoiceId` stands for the key generator of new invoices. */
  datatype Store = Store(
    tenants: seq<Tenant>,
    meters: seq<Meter>,
    readings: seq<Reading>,
    tariffs: seq<Tariff>,
    invoices: seq<Invoice>,
    adjustments: seq<Adjustment>,
    links: seq<DeductionLink>,
    nextInvoiceId: InvoiceId)

  // ---- uniqueness constraints declared by the models ----

  predicate TenantNamesUnique(ts: seq<Tenant>) {
    forall i, j :: 0 <= i < j < |ts| ==> ts[i].name != ts[j].name
  }

  predicate TenantIdsUnique(ts: seq<Tenant>) {
    forall i, j :: 0 <= i < j < |ts| ==> ts[i].id != ts[j].id
  }

  predicate MeterIdsUnique(ms: seq<Meter>) {
    forall i, j :: 0 <= i < j < |ms| ==> ms[i].id != ms[j].id
  }

  /** At most one reading per (meter, period). */
  predicate ReadingsUnique(rs: seq<Reading>) {
    forall i, j :: 0 <= i < j < |rs| ==> rs[i].meter != rs[j].meter || rs[i].period != rs[j].period
  }

  /** Invoice keys are distinct and issued below the generator, and there is
      at most one invoice per (tenant, period). */
  predicate InvoicesUnique(invs: seq<Invoice>, nextId: InvoiceId) {
    && (forall i :: 0 <= i < |invs| ==> invs[i].id < nextId)
    && (forall i, j :: 0 <= i < j < |invs| ==> invs[i].id != invs[j].id)
    && (forall i, j :: 0 <= i < j < |invs| ==> invs[i].tenant != invs[j].tenant || invs[i].period != invs[j].period)
  }

  /** At most one link per (parent, child); parent == child is allowed. */
  predicate LinksUnique(ls: seq<DeductionLink>) {
    forall i, j :: 0 <= i < j < |ls| ==> ls[i].parent != ls[j].parent || ls[i].child != ls[j].child
  }

  /** Every constraint the database enforces on the tables. */
  predicate WellFormed(s: Store) {
    && TenantIdsUnique(s.tenants)
    && TenantNamesUnique(s.tenants)
    && MeterIdsUnique(s.meters)
    && ReadingsUnique(s.readings)
    && InvoicesUnique(s.invoices, s.nextInvoiceId)
    && LinksUnique(s.links)
  }

  /** `Tenant.get(pk=id)`. */
  function FindTenant(ts: seq<Tenant>, id: TenantId): (r: Option<Tenant>)
    ensures r.Some? ==> r.value in ts && r.value.id == id
    ensures r.None? <==> forall k :: 0 <= k < |ts| ==> ts[k].id != id
  {
    if |ts| == 0 then None
    else if ts[0].id == id then Some(ts[0])
    else FindTenant(ts[1..], id)
  }

  /** `tenant.meters`: the tenant's meters in storage order. */
  function TenantMeters(ms: seq<Meter>, t: TenantId): (r: seq<Meter>)
    ensures forall m :: m in r <==> m in ms && m.tenant == t
    ensures MeterIdsUnique(ms) ==> MeterIdsUnique(r)
  {
    if |ms| == 0 then []
    else
      var rest := TenantMeters(ms[1..], t);
      assert forall m :: m in rest ==> m in ms[1..];
      if ms[0].tenant == t then [ms[0]] + rest else rest
  }
}

/** Invoice generation in both versions and the newer service's invoice
    ledger. The newer `generate_invoice` upserts the invoice keyed by
    (tenant, first day of the month); the older one creates it, so a second
    run for the same month violates the (tenant, period) uniqueness of the
    invoice table. */
module Invoicing {
  import opened Dates
  import opened Results
  import opened Models
  import opened MeterBilling
  import opened Subtraction
  import opened LegacyBilling

  // ---- the invoice table ----

  /** `Invoice.get(pk=id)`: the position of the invoice with that key. */
  function InvoiceIndex(invs: seq<Invoice>, id: InvoiceId): (r: Option<nat>)
    ensures r.Some? ==> r.value < |invs| && invs[r.value].id == id
    ensures r.Some? ==> forall k :: 0 <= k < r.value ==> invs[k].id != id
    ensures r.None? <==> forall k :: 0 <= k < |invs| ==> invs[k].id != id
  {
    if |invs| == 0 then None
    else if invs[0].id == id then Some(0)
    else
      match InvoiceIndex(invs[1..], id)
      case None => None
      case Some(k) => Some(k + 1)
  }

  /** The position of the invoice of `tenant` for `period`, the lookup half
      of `update_or_create`. */
  function KeyIndex(invs: seq<Invoice>, tenant: TenantId, period: Date): (r: Option<nat>)
    ensures r.Some? ==> r.value < |invs| && invs[r.value].tenant == tenant && invs[r.value].period == period
    ensures r.Some? ==> forall k :: 0 <= k < r.value ==> invs[k].tenant != tenant || invs[k].period != period
    ensures r.None? <==> forall k :: 0 <= k < |invs| ==> invs[k].tenant != tenant || invs[k].period != period
  {
    if |invs| == 0 then None
    else if invs[0].tenant == tenant && invs[0].period == period then Some(0)
    else
      match KeyIndex(invs[1..], tenant, period)
      case None => None
      case Some(k) => Some(k + 1)
  }

  /** Only the invoice table and its key generator differ. */
  predicate OnlyInvoicesChange(s: Store, t: Store) {
    && t.tenants == s.tenants && t.meters == s.meters && t.readings == s.readings
    && t.tariffs == s.tariffs && t.adjustments == s.adjustments && t.links == s.links
  }

  /** `update_or_create(defaults={"amount": amount}, tenant_id=tenant,
      period=period)`: overwrite the amount of the invoice with that key, or
      add a new invoice under a fresh primary key. */
  function UpsertInvoice(s: Store, tenant: TenantId, period: Date, amount: real): (r: (Store, Invoice))
    ensures r.1.tenant == tenant && r.1.period == period && r.1.amount == amount
    ensures r.1 in r.0.invoices
    ensures OnlyInvoicesChange(s, r.0)
  {
    match KeyIndex(s.invoices, tenant, period)
    case Some(i) =>
      var updated := s.invoices[i].(amount := amount);
      assert s.invoices[i := updated][i] == updated;
      (s.(invoices := s.invoices[i := updated]), updated)
    case None =>
      var created := Invoice(s.nextInvoiceId, tenant, period, amount);
      (s.(invoices := s.invoices + [created], nextInvoiceId := s.nextInvoiceId + 1), created)
  }

  /** The upsert keeps the invoice table's constraints, leaves exactly one
      invoice under the key, leaves every invoice under another key as it
      was, and adds a row only when the key was new. */
  lemma UpsertKeepsOneInvoicePerKey(s: Store, tenant: TenantId, period: Date, amount: real)
    requires InvoicesUnique(s.invoices, s.nextInvoiceId)
    ensures var (t, inv) := UpsertInvoice(s, tenant, period, amount);
            && InvoicesUnique(t.invoices, t.nextInvoiceId)
            && (forall k :: 0 <= k < |t.invoices| && t.invoices[k].tenant == tenant && t.invoices[k].period == period
                  ==> t.invoices[k] == inv)
            && (forall x :: x in s.invoices && (x.tenant != tenant || x.period != period) ==> x in t.invoices)
            && |t.invoices| == |s.invoices| + (if KeyIndex(s.invoices, tenant, period).Some? then 0 else 1)
  {
    var (t, inv) := UpsertInvoice(s, tenant, period, amount);
    match KeyIndex(s.invoices, tenant, period)
    case Some(i) =>
      UpdatedTableKeepsKeys(s.invoices, t.invoices, i, s.nextInvoiceId);
    case None =>
      AppendedTableKeepsKeys(s.invoices, inv, s.nextInvoiceId);
  }

  /** Changing only the amount of row `i` keeps the table's constraints, and
      row `i` stays the only row under its key. */
  lemma UpdatedTableKeepsKeys(invs: seq<Invoice>, u: seq<Invoice>, i: nat, nextId: InvoiceId)
    requires InvoicesUnique(invs, nextId)
    requires i < |invs| == |u|
    requires forall k :: 0 <= k < |u| && k != i ==> u[k] == invs[k]
    requires u[i] == invs[i].(amount := u[i].amount)
    ensures InvoicesUnique(u, nextId)
    ensures forall k :: 0 <= k < |u| && u[k].tenant == u[i].tenant && u[k].period == u[i].period ==> k == i
    ensures forall x :: x in invs && (x.tenant != u[i].tenant || x.period != u[i].period) ==> x in u
  {
    forall x | x in invs && (x.tenant != u[i].tenant || x.period != u[i].period)
      ensures x in u
    {
      var k :| 0 <= k < |invs| && invs[k] == x;
      assert u[k] == x;
    }
  }

  /** Appending a row under a fresh key and a new primary key keeps the
      table's constraints once the key generator moves past it. */
  lemma AppendedTableKeepsKeys(invs: seq<Invoice>, inv: Invoice, nextId: InvoiceId)
    requires InvoicesUnique(invs, nextId)
    requires inv.id == nextId
    requires forall k :: 0 <= k < |invs| ==> invs[k].tenant != inv.tenant || invs[k].period != inv.period
    ensures InvoicesUnique(invs + [inv], nextId + 1)
    ensures forall x :: x in invs ==> x in invs + [inv]
  {
  }

  /** Running the upsert again with the same amount changes nothing. */
  lemma UpsertIsIdempotent(s: Store, tenant: TenantId, period: Date, amount: real)
    ensures var (t, inv) := UpsertInvoice(s, tenant, period, amount);
            UpsertInvoice(t, tenant, period, amount) == (t, inv)
  {
    var (t, inv) := UpsertInvoice(s, tenant, period, amount);
    match KeyIndex(s.invoices, tenant, period)
    case Some(i) =>
      assert forall k :: 0 <= k < |s.invoices| && k != i ==> t.invoices[k] == s.invoices[k];
      assert t.invoices[i] == inv;
      var j := KeyIndex(t.invoices, tenant, period);
      assert j.Some?;
      assert !(j.value < i) && !(j.value > i);
      assert t.invoices[i := inv] == t.invoices;
    case None =>
      var i := |s.invoices|;
      assert t.invoices[i] == inv;
      assert forall k :: 0 <= k < i ==> t.invoices[k] == s.invoices[k];
      assert KeyIndex(t.invoices, tenant, period) == Some(i);
      assert t.invoices[i := inv] == t.invoices;
  }

  /** `create(tenant=tenant, period=period, amount=amount)` of the older
      service: a second row under an existing (tenant, period) is refused by
      the table's unique constraint. */
  function CreateInvoice(s: Store, tenant: TenantId, period: Date, amount: real): (r: Result<(Store, Invoice)>)
    ensures r.Failure? <==> KeyIndex(s.invoices, tenant, period).Some?
    ensures r.Failure? ==> r.error == DuplicateInvoice(tenant, period)
    ensures r.Success? ==> && r.value.0.invoices == s.invoices + [r.value.1]
                           && OnlyInvoicesChange(s, r.value.0)
                           && r.value.1 == Invoice(s.nextInvoiceId, tenant, period, amount)
  {
    if KeyIndex(s.invoices, tenant, period).Some? then Failure(DuplicateInvoice(tenant, period))
    else
      var created := Invoice(s.nextInvoiceId, tenant, period, amount);
      Success((s.(invoices := s.invoices + [created], nextInvoiceId := s.nextInvoiceId + 1), created))
  }

  /** On a key that is not taken, creating and upserting agree. */
  lemma CreateIsUpsertOnNewKey(s: Store, tenant: TenantId, period: Date, amount: real)
    requires KeyIndex(s.invoices, tenant, period).None?
    ensures CreateInvoice(s, tenant, period, amount) == Success(UpsertInvoice(s, tenant, period, amount))
  {
  }

  // ---- generate_invoice ----

  /** What the newer `generate_invoice` leaves behind: the store with the
      invoice written, the invoice, and the per-meter results as the
      subtraction left them. */
  datatype InvoiceRun = InvoiceRun(store: Store, invoice: Invoice, breakdown: seq<MeterBillingResult>)

  /** The newer `generate_invoice`: fail on an unknown tenant, bill every
      meter of the tenant (the first failure aborts), take sub-meters out
      of their parents, and upsert the invoice keyed by the tenant and the
      first day of the month. A failure writes nothing: the store is only
      returned on success. */
  function GenerateInvoice(s: Store, tenant: TenantId, period: Date): (r: Result<InvoiceRun>)
    requires Valid(period)
    ensures r.Failure? ==> r.error.IsBillingError() || r.error.UnknownParentMeter?
    ensures r.Success? ==> && r.value.invoice.tenant == tenant
                           && r.value.invoice.period == FirstOfMonth(period)
                           && r.value.invoice.amount == SumCosts(r.value.breakdown)
                           && r.value.invoice in r.value.store.invoices
                           && |r.value.breakdown| == |TenantMeters(s.meters, tenant)|
                           && OnlyInvoicesChange(s, r.value.store)
  {
    match FindTenant(s.tenants, tenant)
    case None => Failure(TenantNotFound(tenant))
    case Some(_) =>
      var meters := TenantMeters(s.meters, tenant);
      match BillAll(s.readings, s.tariffs, meters, period)
      case Failure(e) => Failure(e)
      case Success(results) =>
        match AdjustForSubtraction(results)
        case Failure(e) => Failure(e)
        case Success(adjusted) =>
          var (store, invoice) := UpsertInvoice(s, tenant, FirstOfMonth(period), adjusted.1);
          Success(InvoiceRun(store, invoice, adjusted.0))
  }

  /** The newer `generate_invoice` succeeds exactly when the tenant exists,
      every one of its meters can be billed, and the subtraction does not
      fail; an unknown tenant and a meter that cannot be billed are reported
      with their own errors before any invoice is written. */
  lemma GenerateInvoiceSucceedsIff(s: Store, tenant: TenantId, period: Date)
    requires Valid(period)
    ensures var meters := TenantMeters(s.meters, tenant);
            && (BillAll(s.readings, s.tariffs, meters, period).Success?
                <==> forall m :: m in meters ==> BillMeter(s.readings, s.tariffs, m, period).Success?)
            && (GenerateInvoice(s, tenant, period).Success?
                <==> && FindTenant(s.tenants, tenant).Some?
                     && BillAll(s.readings, s.tariffs, meters, period).Success?
                     && AdjustForSubtraction(BillAll(s.readings, s.tariffs, meters, period).value).Success?)
            && (FindTenant(s.tenants, tenant).None? ==> GenerateInvoice(s, tenant, period) == Failure(TenantNotFound(tenant)))
            && (FindTenant(s.tenants, tenant).Some? && BillAll(s.readings, s.tariffs, meters, period).Failure? ==>
                  GenerateInvoice(s, tenant, period) == Failure(BillAll(s.readings, s.tariffs, meters, period).error))
  {
    var meters := TenantMeters(s.meters, tenant);
    BillAllSucceedsIff(s.readings, s.tariffs, meters, period);
  }

  /** Running `generate_invoice` again on the store it left, with the inputs
      unchanged, gives the same invoice and leaves the store as it is: the
      upsert finds the invoice it wrote and writes the same amount. */
  lemma GenerateInvoiceIsIdempotent(s: Store, tenant: TenantId, period: Date)
    requires Valid(period)
    requires GenerateInvoice(s, tenant, period).Success?
    ensures var run := GenerateInvoice(s, tenant, period).value;
            GenerateInvoice(run.store, tenant, period) == Success(run)
  {
    var run := GenerateInvoice(s, tenant, period).value;
    var meters := TenantMeters(s.meters, tenant);
    var results := BillAll(s.readings, s.tariffs, meters, period).value;
    var adjusted := AdjustForSubtraction(results).value;
    UpsertIsIdempotent(s, tenant, FirstOfMonth(period), adjusted.1);
  }

  /** The older `generate_invoice`: the same billing, the older subtraction,
      and a plain create of the invoice. */
  function LegacyGenerateInvoice(s: Store, tenant: TenantId, period: Date): (r: Result<(Store, Invoice)>)
    requires Valid(period)
    ensures r.Success? ==> && r.value.1.tenant == tenant
                           && r.value.1.period == FirstOfMonth(period)
                           && r.value.0.invoices == s.invoices + [r.value.1]
                           && OnlyInvoicesChange(s, r.value.0)
    ensures r.Failure? ==> r.error.IsBillingError() || r.error.UnknownParentMeter? || r.error.DuplicateInvoice?
  {
    match FindTenant(s.tenants, tenant)
    case None => Failure(TenantNotFound(tenant))
    case Some(_) =>
      var meters := TenantMeters(s.meters, tenant);
      match BillAll(s.readings, s.tariffs, meters, period)
      case Failure(e) => Failure(e)
      case Success(results) =>
        match LegacyAdjustForSubtraction(results)
        case Failure(e) => Failure(e)
        case Success(total) => CreateInvoice(s, tenant, FirstOfMonth(period), total)
  }

  /** A second run of the older `generate_invoice` for the same tenant and
      month fails on the invoice table's unique constraint. */
  lemma LegacyRerunIsRefused(s: Store, tenant: TenantId, period: Date)
    requires Valid(period)
    requires LegacyGenerateInvoice(s, tenant, period).Success?
    ensures var t := LegacyGenerateInvoice(s, tenant, period).value.0;
            LegacyGenerateInvoice(t, tenant, period) == Failure(DuplicateInvoice(tenant, FirstOfMonth(period)))
  {
    var (t, inv) := LegacyGenerateInvoice(s, tenant, period).value;
    var meters := TenantMeters(s.meters, tenant);
    assert t.invoices[|s.invoices|] == inv;
    assert KeyIndex(t.invoices, tenant, FirstOfMonth(period)).Some?;
    BillAllSucceedsIff(s.readings, s.tariffs, meters, period);
  }

  /** Billed results are priced at their own rates. */
  lemma BilledResultsArePriced(readings: seq<Reading>, tariffs: seq<Tariff>, meters: seq<Meter>, period: Date)
    requires Valid(period)
    requires BillAll(readings, tariffs, meters, period).Success?
    ensures var rs := BillAll(readings, tariffs, meters, period).value;
            forall k :: 0 <= k < |rs| ==> Priced(rs[k])
  {
    BillAllSucceedsIff(readings, tariffs, meters, period);
  }

  /** When the newer `generate_invoice` succeeds for a month that has no
      invoice yet, the older one writes the very same invoice and store. */
  lemma VersionsAgreeOnNewMonth(s: Store, tenant: TenantId, period: Date)
    requires Valid(period)
    requires GenerateInvoice(s, tenant, period).Success?
    requires KeyIndex(s.invoices, tenant, FirstOfMonth(period)).None?
    ensures var run := GenerateInvoice(s, tenant, period).value;
            LegacyGenerateInvoice(s, tenant, period) == Success((run.store, run.invoice))
  {
    var meters := TenantMeters(s.meters, tenant);
    var results := BillAll(s.readings, s.tariffs, meters, period).value;
    BilledResultsArePriced(s.readings, s.tariffs, meters, period);
    SameTotalWhenNewerSucceeds(results);
    CreateIsUpsertOnNewKey(s, tenant, FirstOfMonth(period), AdjustForSubtraction(results).value.1);
  }

  // ---- the ledger ----

  /** The adjustments recorded against invoice `id`, in storage order. */
  function AdjustmentsOf(adjs: seq<Adjustment>, id: InvoiceId): (r: seq<Adjustment>)
    ensures forall a :: a in r <==> a in adjs && a.invoice == id
  {
    if |adjs| == 0 then []
    else
      var rest := AdjustmentsOf(adjs[1..], id);
      assert forall a :: a in adjs[1..] ==> a in adjs;
      if adjs[0].invoice == id then [adjs[0]] + rest else rest
  }

  /** Filtering distributes over appending. */
  lemma {:induction false} AdjustmentsOfAppend(adjs: seq<Adjustment>, more: seq<Adjustment>, id: InvoiceId)
    ensures AdjustmentsOf(adjs + more, id) == AdjustmentsOf(adjs, id) + AdjustmentsOf(more, id)
  {
    if |adjs| > 0 {
      assert (adjs + more)[1..] == adjs[1..] + more;
      AdjustmentsOfAppend(adjs[1..], more, id);
    } else {
      assert adjs + more == more;
    }
  }

  /** The signed sum of some adjustments. */
  function TotalOf(adjs: seq<Adjustment>): real {
    if |adjs| == 0 then 0.0 else TotalOf(adjs[..|adjs| - 1]) + adjs[|adjs| - 1].amount
  }

  /** `add_adjustment`: fail when the invoice does not exist; otherwise
      record one adjustment and raise the invoice's amount by it (a negative
      amount lowers it). */
  function AddAdjustment(s: Store, id: InvoiceId, amount: real, description: string): (r: Result<Store>)
    ensures r.Failure? <==> forall k :: 0 <= k < |s.invoices| ==> s.invoices[k].id != id
    ensures r.Failure? ==> r.error == InvoiceNotFound(id)
  {
    match InvoiceIndex(s.invoices, id)
    case None => Failure(InvoiceNotFound(id))
    case Some(i) =>
      var raised := s.invoices[i].(amount := s.invoices[i].amount + amount);
      Success(s.(adjustments := s.adjustments + [Adjustment(id, amount, description)],
                 invoices := s.invoices[i := raised]))
  }

  /** `list_adjustments`: fail when the invoice does not exist; otherwise the
      adjustments recorded against it. */
  function ListAdjustments(s: Store, id: InvoiceId): (r: Result<seq<Adjustment>>)
    ensures r.Failure? <==> forall k :: 0 <= k < |s.invoices| ==> s.invoices[k].id != id
    ensures r.Failure? ==> r.error == InvoiceNotFound(id)
    ensures r.Success? ==> forall a :: a in r.value <==> a in s.adjustments && a.invoice == id
  {
    if InvoiceIndex(s.invoices, id).None? then Failure(InvoiceNotFound(id))
    else Success(AdjustmentsOf(s.adjustments, id))
  }

  /** Of `add_adjustment` on a well-formed invoice table: exactly one record
      is appended; the invoice's amount rises by exactly `amount`; every
      other invoice, every other table and the key generator are untouched. */
  lemma AddAdjustmentEffect(s: Store, id: InvoiceId, amount: real, description: string)
    requires InvoicesUnique(s.invoices, s.nextInvoiceId)
    requires AddAdjustment(s, id, amount, description).Success?
    ensures var t := AddAdjustment(s, id, amount, description).value;
            && t.adjustments == s.adjustments + [Adjustment(id, amount, description)]
            && |t.invoices| == |s.invoices|
            && (forall k :: 0 <= k < |s.invoices| ==>
                  if s.invoices[k].id == id
                  then t.invoices[k] == s.invoices[k].(amount := s.invoices[k].amount + amount)
                  else t.invoices[k] == s.invoices[k])
            && InvoicesUnique(t.invoices, t.nextInvoiceId)
            && t.tenants == s.tenants && t.meters == s.meters && t.readings == s.readings
            && t.tariffs == s.tariffs && t.links == s.links && t.nextInvoiceId == s.nextInvoiceId
  {
  }

  /** Listing after adding shows the earlier adjustments followed by the new
      one; the lists of other invoices do not change. */
  lemma AddThenList(s: Store, id: InvoiceId, amount: real, description: string, other: InvoiceId)
    requires AddAdjustment(s, id, amount, description).Success?
    ensures var t := AddAdjustment(s, id, amount, description).value;
            && ListAdjustments(t, id) == Success(ListAdjustments(s, id).value + [Adjustment(id, amount, description)])
            && (other != id ==> ListAdjustments(t, other) == ListAdjustments(s, other))
  {
    var t := AddAdjustment(s, id, amount, description).value;
    var added := [Adjustment(id, amount, description)];
    assert added[1..] == [];
    AdjustmentsOfAppend(s.adjustments, added, id);
    AdjustmentsOfAppend(s.adjustments, added, other);
    assert AdjustmentsOf(added, id) == added;
    assert AdjustmentsOf([], other) == [];
    assert |s.invoices| == |t.invoices| && forall k :: 0 <= k < |s.invoices| ==> t.invoices[k].id == s.invoices[k].id;
    if other != id {
      assert AdjustmentsOf(added, other) == [];
      assert AdjustmentsOf(s.adjustments, other) + [] == AdjustmentsOf(s.adjustments, other);
      assert InvoiceIndex(t.invoices, other).None? <==> InvoiceIndex(s.invoices, other).None?;
    }
  }

  /** An invoice's amount less the adjustments recorded against it: what
      billing alone charged. */
  function BaseAmount(s: Store, k: nat): real
    requires k < |s.invoices|
  {
    s.invoices[k].amount - TotalOf(AdjustmentsOf(s.adjustments, s.invoices[k].id))
  }

  /** The ledger balances: adding an adjustment leaves every invoice's amount
      less its recorded adjustments unchanged. */
  lemma AddAdjustmentKeepsBaseAmount(s: Store, id: InvoiceId, amount: real, description: string)
    requires InvoicesUnique(s.invoices, s.nextInvoiceId)
    requires AddAdjustment(s, id, amount, description).Success?
    ensures var t := AddAdjustment(s, id, amount, description).value;
            forall k :: 0 <= k < |s.invoices| ==> BaseAmount(t, k) == BaseAmount(s, k)
  {
    var t := AddAdjustment(s, id, amount, description).value;
    var added := [Adjustment(id, amount, description)];
    AddAdjustmentEffect(s, id, amount, description);
    forall k | 0 <= k < |s.invoices|
      ensures BaseAmount(t, k) == BaseAmount(s, k)
    {
      var kid := s.invoices[k].id;
      AdjustmentsOfAppend(s.adjustments, added, kid);
      var before := AdjustmentsOf(s.adjustments, kid);
      if kid == id {
        assert AdjustmentsOf(added, kid) == added;
        assert (before + added)[..|before + added| - 1] == before;
      } else {
        assert AdjustmentsOf([], kid) == [];
        assert before + AdjustmentsOf(added, kid) == before;
      }
    }
  }

  /** As written, re-running `generate_invoice` after an adjustment writes
      the computed amount again: the invoice loses the adjustment's effect on
      its amount while the adjustment record stays. */
  lemma RegenerateDropsAdjustments(s: Store, tenant: TenantId, period: Date, amount: real, description: string)
    requires Valid(period)
    requires InvoicesUnique(s.invoices, s.nextInvoiceId)
    requires GenerateInvoice(s, tenant, period).Success?
    ensures var run := GenerateInvoice(s, tenant, period).value;
            var adjusted := AddAdjustment(run.store, run.invoice.id, amount, description);
            && adjusted.Success?
            && Adjustment(run.invoice.id, amount, description) in adjusted.value.adjustments
            && GenerateInvoice(adjusted.value, tenant, period).Success?
            && GenerateInvoice(adjusted.value, tenant, period).value.invoice.amount == run.invoice.amount
  {
    var run := GenerateInvoice(s, tenant, period).value;
    var meters := TenantMeters(s.meters, tenant);
    var results := BillAll(s.readings, s.tariffs, meters, period).value;
    var total := AdjustForSubtraction(results).value.1;
    assert run.invoice.amount == total;
    var k :| 0 <= k < |run.store.invoices| && run.store.invoices[k] == run.invoice;
    assert AddAdjustment(run.store, run.invoice.id, amount, description).Success?;
    var t := AddAdjustment(run.store, run.invoice.id, amount, description).value;
    assert t.tenants == s.tenants && t.meters == s.meters && t.readings == s.readings && t.tariffs == s.tariffs;
    assert Adjustment(run.invoice.id, amount, description) == t.adjustments[|t.adjustments| - 1];
  }
}

/** The tariff-history dialogue of the administrator bot: a new tariff must
    start on the first day of a month and strictly after the meter's open
    tariff; confirming it closes the open tariff on the day before and adds
    the new one as the open tariff. Also the choice of one template per
    (name, rate) offered when a meter is selected. */
module TariffHistory {
  import opened Dates
  import opened Results
  import opened Models
  import opened TariffRepository

  // ---- the start-date step ----

  /** The start date entered by the administrator is kept only when it is
      the first day of a month. A refusal carries no table, so nothing is
      stored. */
  function CheckStartDate(d: Date): (r: Result<Date>)
    ensures r.Success? <==> d.day == 1
    ensures r.Success? ==> r.value == d
    ensures r.Failure? ==> r.error == StartNotFirstOfMonth
  {
    if d.day != 1 then Failure(StartNotFirstOfMonth) else Success(d)
  }

  // ---- the confirmation step ----

  /** `Tariff.filter(meter_id=…, period_end__isnull=True).first()`: the
      first open tariff of `meter` in storage order. */
  function OpenTariffIndex(tariffs: seq<Tariff>, meter: MeterId): (r: Option<nat>)
    ensures r.Some? ==> r.value < |tariffs| && tariffs[r.value].meter == meter && tariffs[r.value].periodEnd.None?
    ensures r.Some? ==> forall k :: 0 <= k < r.value ==> tariffs[k].meter != meter || tariffs[k].periodEnd.Some?
    ensures r.None? <==> forall k :: 0 <= k < |tariffs| ==> tariffs[k].meter != meter || tariffs[k].periodEnd.Some?
  {
    if |tariffs| == 0 then None
    else if tariffs[0].meter == meter && tariffs[0].periodEnd.None? then Some(0)
    else match OpenTariffIndex(tariffs[1..], meter)
      case None => None
      case Some(i) => Some(i + 1)
  }

  /** The row `Tariff.create` adds: open-ended, without a rate type. */
  function NewTariff(id: TariffId, meter: MeterId, name: string, rate: real, start: Date): Tariff {
    Tariff(id, meter, name, rate, start, None, None)
  }

  /** `handle_tariff_confirmation`. With an open tariff, a start not later
      than its start is refused; otherwise the open tariff is closed on the
      day before `start`. Then the new open tariff is appended. `newId` is
      the key the database assigns. */
  function ConfirmTariff(tariffs: seq<Tariff>, meter: MeterId, name: string, rate: real, start: Date, newId: TariffId): (r: Result<seq<Tariff>>)
    requires Valid(start)
    ensures r.Failure? ==> r.error == StartNotAfterOpenTariff
    ensures r.Failure? ==> exists k :: 0 <= k < |tariffs| && tariffs[k].meter == meter
                                     && tariffs[k].periodEnd.None? && Le(start, tariffs[k].periodStart)
    ensures r.Success? ==> |r.value| == |tariffs| + 1 && r.value[|tariffs|] == NewTariff(newId, meter, name, rate, start)
  {
    var created := NewTariff(newId, meter, name, rate, start);
    match OpenTariffIndex(tariffs, meter)
    case None => Success(tariffs + [created])
    case Some(i) =>
      if Le(start, tariffs[i].periodStart) then Failure(StartNotAfterOpenTariff)
      else Success(tariffs[i := tariffs[i].(periodEnd := Some(PrevDay(start)))] + [created])
  }

  /** The whole dialogue: the start-date check, then the confirmation. */
  function CreateTariff(tariffs: seq<Tariff>, meter: MeterId, name: string, rate: real, start: Date, newId: TariffId): (r: Result<seq<Tariff>>)
    requires Valid(start)
    ensures r.Success? ==> start.day == 1
    ensures start.day != 1 ==> r == Failure(StartNotFirstOfMonth)
  {
    var checked :- CheckStartDate(start);
    ConfirmTariff(tariffs, meter, name, rate, checked, newId)
  }

  /** The open tariff is refused exactly when its start is not before the
      new start, and then nothing else decides. */
  lemma ConfirmRefusedIff(tariffs: seq<Tariff>, meter: MeterId, name: string, rate: real, start: Date, newId: TariffId)
    requires Valid(start)
    ensures var r := ConfirmTariff(tariffs, meter, name, rate, start, newId);
            var open := OpenTariffIndex(tariffs, meter);
            r.Failure? <==> open.Some? && !Lt(tariffs[open.value].periodStart, start)
  {
  }

  /** Confirming touches no tariff of another meter, changes nothing of the
      open tariff but its end, which becomes the day before `start`, and
      only appends the new tariff. */
  lemma ConfirmTouchesOnlyMeter(tariffs: seq<Tariff>, meter: MeterId, name: string, rate: real, start: Date, newId: TariffId)
    requires Valid(start)
    requires ConfirmTariff(tariffs, meter, name, rate, start, newId).Success?
    ensures var r := ConfirmTariff(tariffs, meter, name, rate, start, newId).value;
            && (forall k :: 0 <= k < |tariffs| && tariffs[k].meter != meter ==> r[k] == tariffs[k])
            && (forall k :: 0 <= k < |tariffs| && tariffs[k].periodEnd.Some? ==> r[k] == tariffs[k])
            && (forall k :: 0 <= k < |tariffs| ==> r[k] == tariffs[k] || r[k] == tariffs[k].(periodEnd := Some(PrevDay(start))))
            && r[|tariffs|].meter == meter
  {
  }

  // ---- the history invariant ----

  predicate HasTariff(tariffs: seq<Tariff>, meter: MeterId) {
    exists k :: 0 <= k < |tariffs| && tariffs[k].meter == meter
  }

  /** The history this dialogue keeps for a meter: pairwise separated
      windows and, once the meter has any tariff, an open one. */
  predicate History(tariffs: seq<Tariff>, meter: MeterId) {
    WindowsDisjoint(tariffs, meter) && (HasTariff(tariffs, meter) ==> OpenTariffIndex(tariffs, meter).Some?)
  }

  /** In a separated history every other tariff of the meter ends before
      the open one starts. */
  lemma OthersEndBeforeOpen(tariffs: seq<Tariff>, meter: MeterId, i: nat, k: nat)
    requires WindowsDisjoint(tariffs, meter)
    requires i < |tariffs| && tariffs[i].meter == meter && tariffs[i].periodEnd.None?
    requires k < |tariffs| && k != i && tariffs[k].meter == meter
    ensures EndsBefore(tariffs[k], tariffs[i])
  {
  }

  /** Confirming keeps the history of the meter, and the separated windows
      of every other meter stay as they were. */
  lemma ConfirmKeepsHistory(tariffs: seq<Tariff>, meter: MeterId, name: string, rate: real, start: Date, newId: TariffId)
    requires Valid(start)
    requires History(tariffs, meter)
    requires ConfirmTariff(tariffs, meter, name, rate, start, newId).Success?
    ensures var r := ConfirmTariff(tariffs, meter, name, rate, start, newId).value;
            && History(r, meter)
            && (forall m :: m != meter && WindowsDisjoint(tariffs, m) ==> WindowsDisjoint(r, m))
  {
    var r := ConfirmTariff(tariffs, meter, name, rate, start, newId).value;
    var n := |tariffs|;
    ConfirmTouchesOnlyMeter(tariffs, meter, name, rate, start, newId);
    match OpenTariffIndex(tariffs, meter)
    case None =>
      assert r == tariffs + [r[n]];
      assert !HasTariff(tariffs, meter);
      assert forall k :: 0 <= k < n ==> r[k].meter != meter;
      assert OpenTariffIndex(r, meter).Some? by {
        assert !(OpenTariffIndex(r, meter).None?) by {
          assert r[n].meter == meter && r[n].periodEnd.None?;
        }
      }
    case Some(o) =>
      assert Lt(tariffs[o].periodStart, start);
      PrevDayIsLast(start);
      forall i, j | 0 <= i < j < |r| && r[i].meter == meter && r[j].meter == meter
        ensures EndsBefore(r[i], r[j]) || EndsBefore(r[j], r[i])
      {
        if j == n {
          if i == o {
            assert EndsBefore(r[i], r[j]);
          } else {
            assert r[i] == tariffs[i];
            OthersEndBeforeOpen(tariffs, meter, o, i);
            LtIsTransitive(tariffs[i].periodEnd.value, tariffs[o].periodStart, start);
          }
        } else if i == o {
          assert r[j] == tariffs[j];
          OthersEndBeforeOpen(tariffs, meter, o, j);
          assert EndsBefore(r[j], r[i]);
        } else if j == o {
          assert r[i] == tariffs[i];
          OthersEndBeforeOpen(tariffs, meter, o, i);
          assert EndsBefore(r[i], r[j]);
        } else {
          assert r[i] == tariffs[i] && r[j] == tariffs[j];
        }
      }
      assert OpenTariffIndex(r, meter).Some? by {
        assert !(OpenTariffIndex(r, meter).None?) by {
          assert r[n].meter == meter && r[n].periodEnd.None?;
        }
      }
      assert HasTariff(r, meter) by {
        assert r[n].meter == meter;
      }
    forall m | m != meter && WindowsDisjoint(tariffs, m)
      ensures WindowsDisjoint(r, m)
    {
      forall i, j | 0 <= i < j < |r| && r[i].meter == m && r[j].meter == m
        ensures EndsBefore(r[i], r[j]) || EndsBefore(r[j], r[i])
      {
        assert r[i] == tariffs[i] && r[j] == tariffs[j];
      }
    }
  }

  /** The day before a date ends strictly before it. */
  lemma PrevDayIsLast(d: Date)
    requires Valid(d)
    ensures Lt(PrevDay(d), d)
  {
  }

  /** After a confirmation the new tariff is the one resolved for every
      date from its start on. */
  lemma NewTariffGovernsFromStart(tariffs: seq<Tariff>, meter: MeterId, name: string, rate: real, start: Date, newId: TariffId, d: Date)
    requires Valid(start)
    requires History(tariffs, meter)
    requires ConfirmTariff(tariffs, meter, name, rate, start, newId).Success?
    requires Le(start, d)
    ensures FindForDate(ConfirmTariff(tariffs, meter, name, rate, start, newId).value, meter, d)
            == Some(NewTariff(newId, meter, name, rate, start))
  {
    var r := ConfirmTariff(tariffs, meter, name, rate, start, newId).value;
    ConfirmKeepsHistory(tariffs, meter, name, rate, start, newId);
    assert r[|tariffs|] in r;
    FindForDateUnique(r, meter, d, r[|tariffs|]);
  }

  /** Before the new start, each kept row is active exactly when it was,
      and the new row is not. */
  lemma KeptRowsMatchAsBefore(tariffs: seq<Tariff>, meter: MeterId, name: string, rate: real, start: Date, newId: TariffId, d: Date)
    requires Valid(start) && Valid(d)
    requires ConfirmTariff(tariffs, meter, name, rate, start, newId).Success?
    requires Lt(d, start)
    ensures var r := ConfirmTariff(tariffs, meter, name, rate, start, newId).value;
            && (forall k :: 0 <= k < |tariffs| ==> (Matches(r[k], meter, d) <==> Matches(tariffs[k], meter, d)))
            && (forall k :: 0 <= k < |tariffs| ==> r[k].id == tariffs[k].id && r[k].rate == tariffs[k].rate)
            && !Matches(r[|tariffs|], meter, d)
  {
    ConfirmTouchesOnlyMeter(tariffs, meter, name, rate, start, newId);
    NoDayBetween(start, d);
  }

  /** Before the new start, every date resolves to the tariff it resolved
      to before the confirmation: same key, same rate. */
  lemma EarlierDatesResolveAsBefore(tariffs: seq<Tariff>, meter: MeterId, name: string, rate: real, start: Date, newId: TariffId, d: Date)
    requires Valid(start) && Valid(d)
    requires History(tariffs, meter)
    requires ConfirmTariff(tariffs, meter, name, rate, start, newId).Success?
    requires Lt(d, start)
    ensures var before := FindForDate(tariffs, meter, d);
            var after := FindForDate(ConfirmTariff(tariffs, meter, name, rate, start, newId).value, meter, d);
            && (after.Some? <==> before.Some?)
            && (after.Some? ==> after.value.id == before.value.id && after.value.rate == before.value.rate)
  {
    var r := ConfirmTariff(tariffs, meter, name, rate, start, newId).value;
    var n := |tariffs|;
    KeptRowsMatchAsBefore(tariffs, meter, name, rate, start, newId, d);
    var before := FindForDate(tariffs, meter, d);
    var after := FindForDate(r, meter, d);
    if before.Some? {
      ConfirmKeepsHistory(tariffs, meter, name, rate, start, newId);
      var k :| 0 <= k < n && tariffs[k] == before.value;
      assert r[k] in r;
      FindForDateUnique(r, meter, d, r[k]);
    } else if after.Some? {
      var k :| 0 <= k < |r| && r[k] == after.value;
      assert tariffs[k] in tariffs;
    }
  }

  /** The closed window and the new window are adjacent: together they
      cover exactly the old open window from its start, and share no date. */
  lemma ClosedAndNewWindowsAreAdjacent(tariffs: seq<Tariff>, meter: MeterId, name: string, rate: real, start: Date, newId: TariffId, d: Date)
    requires Valid(start) && Valid(d)
    requires ConfirmTariff(tariffs, meter, name, rate, start, newId).Success?
    requires OpenTariffIndex(tariffs, meter).Some?
    ensures var r := ConfirmTariff(tariffs, meter, name, rate, start, newId).value;
            var o := OpenTariffIndex(tariffs, meter).value;
            && r[o].periodEnd == Some(PrevDay(start))
            && (ActiveOn(r[o], d) || ActiveOn(r[|tariffs|], d) <==> ActiveOn(tariffs[o], d))
            && !(ActiveOn(r[o], d) && ActiveOn(r[|tariffs|], d))
  {
    var o := OpenTariffIndex(tariffs, meter).value;
    NoDayBetween(start, d);
    if Le(start, d) {
      LeIsTransitive(tariffs[o].periodStart, start, d);
    }
  }

  /** New tariffs start on the first of a month, so a history whose starts
      are first days keeps that shape. */
  lemma CreateKeepsFirstDayStarts(tariffs: seq<Tariff>, meter: MeterId, name: string, rate: real, start: Date, newId: TariffId)
    requires Valid(start)
    requires forall k :: 0 <= k < |tariffs| ==> tariffs[k].periodStart.day == 1
    requires CreateTariff(tariffs, meter, name, rate, start, newId).Success?
    ensures var r := CreateTariff(tariffs, meter, name, rate, start, newId).value;
            forall k :: 0 <= k < |r| ==> r[k].periodStart.day == 1
  {
    ConfirmTouchesOnlyMeter(tariffs, meter, name, rate, start, newId);
  }

  /** Without an open tariff the confirmation compares nothing: a meter
      whose history holds only a closed tariff accepts a start inside that
      window and ends up with overlapping windows. */
  lemma ClosedOnlyHistoryCanOverlap()
    ensures var closed := Tariff(1, 7, "A", 1.0, Date(2025, 1, 1), Some(Date(2025, 12, 31)), None);
            var r := ConfirmTariff([closed], 7, "B", 2.0, Date(2025, 6, 1), 2);
            && WindowsDisjoint([closed], 7)
            && r.Success? && !WindowsDisjoint(r.value, 7)
  {
    var closed := Tariff(1, 7, "A", 1.0, Date(2025, 1, 1), Some(Date(2025, 12, 31)), None);
    var r := ConfirmTariff([closed], 7, "B", 2.0, Date(2025, 6, 1), 2);
    assert OpenTariffIndex([closed], 7).None?;
    assert r.value == [closed, NewTariff(2, 7, "B", 2.0, Date(2025, 6, 1))];
    assert !(EndsBefore(r.value[0], r.value[1]) || EndsBefore(r.value[1], r.value[0]));
  }

  // ---- template choice ----

  /** Templates are told apart by (name, rate). */
  function TemplateKey(t: Tariff): (string, real) {
    (t.name, t.rate)
  }

  predicate HasKey(ts: seq<Tariff>, key: (string, real)) {
    exists j :: 0 <= j < |ts| && TemplateKey(ts[j]) == key
  }

  /** Reference definition: walking the tariffs in order, a tariff becomes
      a template when no earlier one has its key. */
  function Templates(all: seq<Tariff>): seq<Tariff> {
    if |all| == 0 then []
    else
      var rest := Templates(all[..|all| - 1]);
      var t := all[|all| - 1];
      if HasKey(rest, TemplateKey(t)) then rest else rest + [t]
  }

  /** `t` is stored in `all` and no tariff stored before it has its key. */
  predicate FirstOfItsKey(all: seq<Tariff>, t: Tariff) {
    exists k :: 0 <= k < |all| && all[k] == t
                && forall k' :: 0 <= k' < k ==> TemplateKey(all[k']) != TemplateKey(t)
  }

  /** No two of `ts` share a key. */
  predicate KeysDistinct(ts: seq<Tariff>) {
    forall i, j :: 0 <= i < j < |ts| ==> TemplateKey(ts[i]) != TemplateKey(ts[j])
  }

  /** No two templates share a key. */
  lemma {:induction false} TemplatesHaveDistinctKeys(all: seq<Tariff>)
    ensures KeysDistinct(Templates(all))
  {
    if |all| > 0 {
      var n := |all| - 1;
      var rest := Templates(all[..n]);
      var t := all[n];
      TemplatesHaveDistinctKeys(all[..n]);
      if !HasKey(rest, TemplateKey(t)) {
        var r := rest + [t];
        assert Templates(all) == r;
        forall i, j | 0 <= i < j < |r|
          ensures TemplateKey(r[i]) != TemplateKey(r[j])
        {
          if j == |rest| {
            assert r[i] == rest[i] && r[j] == t;
            assert TemplateKey(rest[i]) != TemplateKey(t);
          } else {
            assert r[i] == rest[i] && r[j] == rest[j];
          }
        }
      }
    }
  }

  /** Every key of the tariffs has a template. */
  lemma {:induction false} TemplatesCoverEveryKey(all: seq<Tariff>)
    ensures forall k :: 0 <= k < |all| ==> HasKey(Templates(all), TemplateKey(all[k]))
  {
    if |all| > 0 {
      var n := |all| - 1;
      var prefix := all[..n];
      var rest := Templates(prefix);
      var t := all[n];
      TemplatesCoverEveryKey(prefix);
      var r := Templates(all);
      forall k | 0 <= k < |all|
        ensures HasKey(r, TemplateKey(all[k]))
      {
        if k < n {
          assert all[k] == prefix[k];
          var j :| 0 <= j < |rest| && TemplateKey(rest[j]) == TemplateKey(all[k]);
          assert r[j] == rest[j];
        } else if !HasKey(rest, TemplateKey(t)) {
          assert r[|rest|] == t;
        }
      }
    }
  }

  /** Each template is the first tariff of its key. */
  lemma {:induction false} TemplatesKeepFirstOfKey(all: seq<Tariff>)
    ensures forall t :: t in Templates(all) ==> FirstOfItsKey(all, t)
  {
    if |all| > 0 {
      var n := |all| - 1;
      var prefix := all[..n];
      var rest := Templates(prefix);
      var t := all[n];
      TemplatesKeepFirstOfKey(prefix);
      forall u | u in rest
        ensures FirstOfItsKey(all, u)
      {
        var k :| 0 <= k < |prefix| && prefix[k] == u
                 && forall k' :: 0 <= k' < k ==> TemplateKey(prefix[k']) != TemplateKey(u);
        assert all[k] == u;
        assert forall k' :: 0 <= k' < k ==> all[k'] == prefix[k'];
      }
      if !HasKey(rest, TemplateKey(t)) {
        TemplatesCoverEveryKey(prefix);
        forall k' | 0 <= k' < n
          ensures TemplateKey(all[k']) != TemplateKey(t)
        {
          assert all[k'] == prefix[k'];
        }
        assert FirstOfItsKey(all, t);
      }
    }
  }

  /** The loop of `handle_tariff_meter_select`: a dictionary keyed by
      (name, rate) that keeps the first tariff of each key, read back in
      insertion order. */
  method DedupeTemplates(all: seq<Tariff>) returns (templates: seq<Tariff>)
    ensures templates == Templates(all)
    ensures KeysDistinct(templates)
    ensures forall k :: 0 <= k < |all| ==> HasKey(templates, TemplateKey(all[k]))
    ensures forall t :: t in templates ==> FirstOfItsKey(all, t)
  {
    templates := [];
    var i := 0;
    while i < |all|
      invariant 0 <= i <= |all|
      invariant templates == Templates(all[..i])
    {
      var t := all[i];
      var present := false;
      var j := 0;
      while j < |templates|
        invariant 0 <= j <= |templates|
        invariant present <==> HasKey(templates[..j], TemplateKey(t))
      {
        if TemplateKey(templates[j]) == TemplateKey(t) {
          present := true;
        }
        assert templates[..j + 1] == templates[..j] + [templates[j]];
        j := j + 1;
      }
      assert templates[..j] == templates;
      if !present {
        templates := templates + [t];
      }
      assert all[..i + 1][..i] == all[..i];
      i := i + 1;
    }
    assert all[..i] == all;
    TemplatesHaveDistinctKeys(all);
    TemplatesCoverEveryKey(all);
    TemplatesKeepFirstOfKey(all);
  }
}

/** `TariffRepository.find_for_date`: the tariff of a meter whose inclusive
    window contains a date. The query has no ordering, so among several
    matches any one may come back; the model returns the first match in
    storage order, and its contract promises only "some match". */
module TariffRepository {
  import opened Dates
  import opened Results
  import opened Models

  /** The window `[periodStart, periodEnd]` contains `d`; no end means open. */
  predicate ActiveOn(t: Tariff, d: Date) {
    Le(t.periodStart, d) && (t.periodEnd.None? || Le(d, t.periodEnd.value))
  }

  predicate Matches(t: Tariff, meter: MeterId, d: Date) {
    t.meter == meter && ActiveOn(t, d)
  }

  function FindForDate(tariffs: seq<Tariff>, meter: MeterId, d: Date): (r: Option<Tariff>)
    ensures r.Some? ==> r.value in tariffs && Matches(r.value, meter, d)
    ensures r.None? <==> forall t :: t in tariffs ==> !Matches(t, meter, d)
  {
    if |tariffs| == 0 then None
    else if Matches(tariffs[0], meter, d) then Some(tariffs[0])
    else
      assert forall t :: t in tariffs[1..] ==> t in tariffs;
      assert forall t :: t in tariffs ==> t == tariffs[0] || t in tariffs[1..];
      FindForDate(tariffs[1..], meter, d)
  }

  /** `a`'s window closes before `b`'s opens. */
  predicate EndsBefore(a: Tariff, b: Tariff) {
    a.periodEnd.Some? && Lt(a.periodEnd.value, b.periodStart)
  }

  /** The windows of `meter`'s tariffs are pairwise separated. */
  predicate WindowsDisjoint(tariffs: seq<Tariff>, meter: MeterId) {
    forall i, j :: 0 <= i < j < |tariffs| && tariffs[i].meter == meter && tariffs[j].meter == meter ==>
      EndsBefore(tariffs[i], tariffs[j]) || EndsBefore(tariffs[j], tariffs[i])
  }

  /** Separated windows share no date. */
  lemma SeparatedWindowsShareNoDate(a: Tariff, b: Tariff, d: Date)
    requires EndsBefore(a, b) || EndsBefore(b, a)
    ensures !(ActiveOn(a, d) && ActiveOn(b, d))
  {
  }

  /** With disjoint windows the choice is forced: any tariff of the meter
      that is active on `d` is the one returned. */
  lemma {:induction false} FindForDateUnique(tariffs: seq<Tariff>, meter: MeterId, d: Date, t: Tariff)
    requires WindowsDisjoint(tariffs, meter)
    requires t in tariffs && Matches(t, meter, d)
    ensures FindForDate(tariffs, meter, d) == Some(t)
  {
    var u := FindForDate(tariffs, meter, d).value;
    var i :| 0 <= i < |tariffs| && tariffs[i] == t;
    var j :| 0 <= j < |tariffs| && tariffs[j] == u;
    if i != j {
      if i < j {
        SeparatedWindowsShareNoDate(tariffs[i], tariffs[j], d);
      } else {
        SeparatedWindowsShareNoDate(tariffs[j], tariffs[i], d);
      }
    }
  }

  /** An open-ended tariff is active on every date from its start on. */
  lemma OpenTariffCoversFuture(t: Tariff, d: Date)
    requires t.periodEnd.None?
    ensures ActiveOn(t, d) <==> Le(t.periodStart, d)
  {
  }
}

/** The older service's `_adjust_for_subtraction`. It leaves the billed
    results as they are and lowers only the parent's entry in a local table
    of final costs, by the sub-meter's consumption priced at the parent's
    rate. */
module LegacyBilling {
  import opened Results
  import opened Calculations
  import opened Models
  import opened MeterBilling
  import opened Subtraction

  /** The loop over every billed result, in billing order: a result whose
      meter names a parent lowers the parent's final cost; looking up a
      parent that was not billed fails (KeyError). */
  function LegacySubtractAll(rs: seq<MeterBillingResult>, costs: seq<real>, pending: seq<MeterBillingResult>): (r: Result<seq<real>>)
    requires |costs| == |rs|
    ensures r.Success? ==> |r.value| == |rs|
    ensures r.Failure? ==> r.error.UnknownParentMeter?
    decreases |pending|
  {
    if |pending| == 0 then Success(costs)
    else
      var result := pending[0];
      if !IsSub(result) then LegacySubtractAll(rs, costs, pending[1..])
      else
        match IndexOf(rs, ParentOf(result))
        case None => Failure(UnknownParentMeter(ParentOf(result)))
        case Some(i) =>
          var subtraction := CalculateCost(result.consumption, rs[i].tariff.rate);
          LegacySubtractAll(rs, costs[i := costs[i] - subtraction], pending[1..])
  }

  /** The older `_adjust_for_subtraction`: the total of the final costs. */
  function LegacyAdjustForSubtraction(rs: seq<MeterBillingResult>): (r: Result<real>)
    ensures r.Failure? ==> r.error.UnknownParentMeter?
  {
    match LegacySubtractAll(rs, Costs(rs), rs)
    case Failure(e) => Failure(e)
    case Success(finalCosts) => Success(Sum(finalCosts))
  }

  /** What one result takes off its parent: its consumption at the parent's
      rate, or nothing when it names no billed parent. */
  function Deduction(rs: seq<MeterBillingResult>, result: MeterBillingResult): real {
    if !IsSub(result) then 0.0
    else
      match IndexOf(rs, ParentOf(result))
      case None => 0.0
      case Some(i) => CalculateCost(result.consumption, rs[i].tariff.rate)
  }

  function Deductions(rs: seq<MeterBillingResult>, pending: seq<MeterBillingResult>): real {
    if |pending| == 0 then 0.0 else Deduction(rs, pending[0]) + Deductions(rs, pending[1..])
  }

  /** Every sub-meter among `pending` names a parent that was billed. */
  predicate ParentsBilled(rs: seq<MeterBillingResult>, pending: seq<MeterBillingResult>) {
    forall j :: 0 <= j < |pending| && IsSub(pending[j]) ==> IndexOf(rs, ParentOf(pending[j])).Some?
  }

  /** The loop fails exactly when some sub-meter's parent was not billed,
      and otherwise lowers the total by the sum of the deductions. */
  lemma {:induction false} LegacySubtractAllTotal(rs: seq<MeterBillingResult>, costs: seq<real>, pending: seq<MeterBillingResult>)
    requires |costs| == |rs|
    ensures LegacySubtractAll(rs, costs, pending).Success? <==> ParentsBilled(rs, pending)
    ensures LegacySubtractAll(rs, costs, pending).Success? ==>
              Sum(LegacySubtractAll(rs, costs, pending).value) == Sum(costs) - Deductions(rs, pending)
    ensures LegacySubtractAll(rs, costs, pending).Failure? ==>
              exists j :: && 0 <= j < |pending| && IsSub(pending[j])
                          && IndexOf(rs, ParentOf(pending[j])).None?
                          && LegacySubtractAll(rs, costs, pending).error == UnknownParentMeter(ParentOf(pending[j]))
    decreases |pending|
  {
    if |pending| > 0 {
      var result := pending[0];
      var tail := pending[1..];
      assert forall j :: 1 <= j < |pending| ==> pending[j] == tail[j - 1];
      if !IsSub(result) {
        LegacySubtractAllTotal(rs, costs, tail);
      } else if IndexOf(rs, ParentOf(result)).Some? {
        var i := IndexOf(rs, ParentOf(result)).value;
        var subtraction := CalculateCost(result.consumption, rs[i].tariff.rate);
        SumUpdate(costs, i, costs[i] - subtraction);
        LegacySubtractAllTotal(rs, costs[i := costs[i] - subtraction], tail);
      }
    }
  }

  /** The older adjustment fails only on a sub-meter whose parent was not
      billed; otherwise its total is the sum of all billed costs less every
      sub-meter's consumption at its parent's rate. No floor applies, so a
      parent's final cost can go negative. */
  lemma LegacyAdjustTotal(rs: seq<MeterBillingResult>)
    ensures LegacyAdjustForSubtraction(rs).Success? <==> ParentsBilled(rs, rs)
    ensures LegacyAdjustForSubtraction(rs).Success? ==>
              LegacyAdjustForSubtraction(rs).value == SumCosts(rs) - Deductions(rs, rs)
    ensures LegacyAdjustForSubtraction(rs).Failure? ==>
              exists j :: && 0 <= j < |rs| && IsSub(rs[j])
                          && IndexOf(rs, ParentOf(rs[j])).None?
                          && LegacyAdjustForSubtraction(rs).error == UnknownParentMeter(ParentOf(rs[j]))
  {
    LegacySubtractAllTotal(rs, Costs(rs), rs);
  }

  // ---- the two versions agree ----

  /** The older loop's deductions come from sub-meters only, so they are
      the deductions of the sub-meters taken alone. */
  lemma {:induction false} DeductionsOfSubMeters(rs: seq<MeterBillingResult>, pending: seq<MeterBillingResult>)
    ensures Deductions(rs, pending) == Deductions(rs, SubMeters(pending))
    decreases |pending|
  {
    if |pending| > 0 {
      DeductionsOfSubMeters(rs, pending[1..]);
      if IsSub(pending[0]) {
        assert ([pending[0]] + SubMeters(pending[1..]))[1..] == SubMeters(pending[1..]);
      }
    }
  }

  /** The shape the newer loop keeps: the rewritten results have the billed
      meters and tariffs, each priced at its own rate. */
  predicate PricedLike(rs: seq<MeterBillingResult>, current: seq<MeterBillingResult>) {
    && |current| == |rs|
    && forall k :: 0 <= k < |rs| ==>
         && current[k].meter == rs[k].meter
         && current[k].tariff == rs[k].tariff
         && Priced(current[k])
  }

  /** One turn of the newer loop keeps the shape: the billed meters and
      tariffs, each priced at its own rate. */
  lemma SubtractOneKeepsShape(rs: seq<MeterBillingResult>, st: Adjusted, sub: MeterBillingResult)
    requires Aligned(st) && IsSub(sub)
    requires PricedLike(rs, st.results)
    requires SubtractOne(st, sub).Success?
    ensures IndexOf(rs, ParentOf(sub)).Some?
    ensures PricedLike(rs, SubtractOne(st, sub).value.results)
  {
    IndexOfSameMeters(st.results, rs, ParentOf(sub));
  }

  /** One turn of the newer loop: re-pricing the parent's reduced
      consumption lowers the total by exactly the sub-meter's consumption at
      the parent's rate, `(P - c) * r == P * r - c * r`. */
  lemma SubtractOneDeducts(rs: seq<MeterBillingResult>, st: Adjusted, sub: MeterBillingResult)
    requires Aligned(st) && IsSub(sub)
    requires PricedLike(rs, st.results)
    requires SubtractOne(st, sub).Success?
    ensures Sum(SubtractOne(st, sub).value.finalCosts) == Sum(st.finalCosts) - Deduction(rs, sub)
  {
    var p := ParentOf(sub);
    IndexOfSameMeters(st.results, rs, p);
    var i := IndexOf(rs, p).value;
    var parent := st.results[i];
    var remaining := RecalculateAfterSubtraction(parent.consumption, sub.consumption).value;
    var newCost := CalculateCost(remaining, parent.tariff.rate);
    var deduction := parent.cost - newCost;
    assert SubtractOne(st, sub).value.finalCosts == st.finalCosts[i := st.finalCosts[i] - deduction];
    CostOfDifference(parent.consumption, sub.consumption, parent.tariff.rate);
    assert deduction == Deduction(rs, sub);
    SumUpdate(st.finalCosts, i, st.finalCosts[i] - deduction);
  }

  /** The newer loop, on results priced at their own rates, finds every
      parent and lowers the total by the same deductions the older loop
      makes. */
  lemma {:induction false} NewerLoopDeducts(rs: seq<MeterBillingResult>, st: Adjusted, subs: seq<MeterBillingResult>)
    requires Aligned(st) && AllSubs(subs)
    requires PricedLike(rs, st.results)
    requires SubtractAll(st, subs).Success?
    ensures ParentsBilled(rs, subs)
    ensures Sum(SubtractAll(st, subs).value.finalCosts) == Sum(st.finalCosts) - Deductions(rs, subs)
    decreases |subs|
  {
    if |subs| > 0 {
      SubtractOneKeepsShape(rs, st, subs[0]);
      SubtractOneDeducts(rs, st, subs[0]);
      var next := SubtractOne(st, subs[0]).value;
      assert SubtractAll(st, subs) == SubtractAll(next, subs[1..]);
      NewerLoopDeducts(rs, next, subs[1..]);
      assert forall j :: 1 <= j < |subs| ==> subs[j] == subs[1..][j - 1];
    }
  }

  /** Of the newer `_adjust_for_subtraction` on results priced at their own
      rates: its total is the billed total less every sub-meter's
      consumption at its parent's rate, the older version's formula. */
  lemma NewerTotalIsBilledLessDeductions(rs: seq<MeterBillingResult>)
    requires forall k :: 0 <= k < |rs| ==> Priced(rs[k])
    requires AdjustForSubtraction(rs).Success?
    ensures ParentsBilled(rs, rs)
    ensures AdjustForSubtraction(rs).value.1 == SumCosts(rs) - Deductions(rs, rs)
  {
    var st := Adjusted(rs, Costs(rs));
    var subs := SubMeters(rs);
    AdjustForSubtractionRunsLoop(rs);
    assert PricedLike(rs, st.results);
    NewerLoopDeducts(rs, st, subs);
    DeductionsOfSubMeters(rs, rs);
    forall j | 0 <= j < |rs| && IsSub(rs[j])
      ensures IndexOf(rs, ParentOf(rs[j])).Some?
    {
      assert rs[j] in subs;
      var m :| 0 <= m < |subs| && subs[m] == rs[j];
    }
  }

  /** When the newer adjustment does not fail on results priced at their own
      rates (as billing produces them), the older adjustment returns the same
      total. */
  lemma SameTotalWhenNewerSucceeds(rs: seq<MeterBillingResult>)
    requires forall k :: 0 <= k < |rs| ==> Priced(rs[k])
    requires AdjustForSubtraction(rs).Success?
    ensures LegacyAdjustForSubtraction(rs) == Success(AdjustForSubtraction(rs).value.1)
  {
    NewerTotalIsBilledLessDeductions(rs);
    LegacyAdjustTotal(rs);
  }
}

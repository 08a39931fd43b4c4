/** The newer service's `_adjust_for_subtraction`: each sub-meter's
    consumption is taken out of its parent meter's consumption, one sub-meter
    at a time, and the parent is re-priced at its own rate.

    The service keeps the per-meter results in a dictionary keyed by meter id
    whose iteration order is the order the meters were billed in. Here that
    dictionary is a sequence of results in that order; its keys are the
    results' meter ids, so a well-formed one has `DistinctMeters`. */
module Subtraction {
  import opened Results
  import opened Calculations
  import opened Models
  import opened MeterBilling

  /** No two results are for the same meter: the results are the values of a
      dictionary keyed by meter id. */
  predicate DistinctMeters(rs: seq<MeterBillingResult>) {
    forall i, j :: 0 <= i < j < |rs| ==> rs[i].meter.id != rs[j].meter.id
  }

  /** A result is a sub-meter's when its meter names a parent. */
  predicate IsSub(r: MeterBillingResult) {
    r.meter.subtractFrom.Some?
  }

  predicate AllSubs(subs: seq<MeterBillingResult>) {
    forall j :: 0 <= j < |subs| ==> IsSub(subs[j])
  }

  /** The position of the result stored under meter id `id`: the dictionary
      lookup `billing_results[id]`. */
  function IndexOf(rs: seq<MeterBillingResult>, id: MeterId): (r: Option<nat>)
    ensures r.Some? ==> r.value < |rs| && rs[r.value].meter.id == id
    ensures r.None? <==> forall k :: 0 <= k < |rs| ==> rs[k].meter.id != id
  {
    if |rs| == 0 then None
    else if rs[0].meter.id == id then Some(0)
    else
      match IndexOf(rs[1..], id)
      case None => None
      case Some(k) => Some(k + 1)
  }

  /** With distinct keys the lookup finds a position exactly when that
      position holds the key. */
  lemma IndexOfDistinct(rs: seq<MeterBillingResult>, id: MeterId, k: nat)
    requires DistinctMeters(rs)
    ensures IndexOf(rs, id) == Some(k) <==> k < |rs| && rs[k].meter.id == id
  {
  }

  /** Two result sequences whose meters agree position by position answer
      every lookup alike. */
  lemma {:induction false} IndexOfSameMeters(a: seq<MeterBillingResult>, b: seq<MeterBillingResult>, id: MeterId)
    requires |a| == |b|
    requires forall k :: 0 <= k < |a| ==> a[k].meter == b[k].meter
    ensures IndexOf(a, id) == IndexOf(b, id)
  {
    if |a| > 0 {
      IndexOfSameMeters(a[1..], b[1..], id);
    }
  }

  // ---- sums ----

  /** `sum(values, Decimal("0"))`. */
  function Sum(xs: seq<real>): real {
    if |xs| == 0 then 0.0 else xs[0] + Sum(xs[1..])
  }

  /** Overwriting one entry changes the sum by the difference. */
  lemma {:induction false} SumUpdate(xs: seq<real>, i: nat, v: real)
    requires i < |xs|
    ensures Sum(xs[i := v]) == Sum(xs) - xs[i] + v
  {
    if i > 0 {
      assert xs[i := v][1..] == xs[1..][i - 1 := v];
      SumUpdate(xs[1..], i - 1, v);
    }
  }

  /** The costs of the results, position by position. */
  function Costs(rs: seq<MeterBillingResult>): (r: seq<real>)
    ensures |r| == |rs|
    ensures forall k :: 0 <= k < |rs| ==> r[k] == rs[k].cost
  {
    seq(|rs|, k requires 0 <= k < |rs| => rs[k].cost)
  }

  /** The total of the results' own costs. */
  function SumCosts(rs: seq<MeterBillingResult>): real {
    Sum(Costs(rs))
  }

  // ---- the recalculation ----

  /** `recalculate_consumption_after_subtraction`, whose body is not part of
      this model: taken to be the parent's consumption less the child's,
      refused (ValueError) when that would be negative. */
  function RecalculateAfterSubtraction(parent: real, child: real): (r: Option<real>)
    ensures r.Some? <==> child <= parent
    ensures r.Some? ==> 0.0 <= r.value && r.value + child == parent
  {
    if parent - child < 0.0 then None else Some(parent - child)
  }

  // ---- the adjustment ----

  /** `[r for r in billing_results.values() if r.meter.subtract_from]`: the
      sub-meters' results, taken before any parent is rewritten. */
  function SubMeters(rs: seq<MeterBillingResult>): (r: seq<MeterBillingResult>)
    ensures AllSubs(r)
    ensures forall x :: x in r <==> x in rs && IsSub(x)
  {
    if |rs| == 0 then []
    else
      var rest := SubMeters(rs[1..]);
      assert forall x :: x in rs[1..] ==> x in rs;
      if IsSub(rs[0]) then [rs[0]] + rest else rest
  }

  /** The dictionary of results and the dictionary `final_costs`, both keyed
      by meter id and so stored position for position. */
  datatype Adjusted = Adjusted(results: seq<MeterBillingResult>, finalCosts: seq<real>)

  predicate Aligned(st: Adjusted) {
    |st.finalCosts| == |st.results|
  }

  /** Each final cost is the cost of the result stored under the same key. */
  predicate CostsTrack(st: Adjusted) {
    Aligned(st) && forall k :: 0 <= k < |st.results| ==> st.finalCosts[k] == st.results[k].cost
  }

  /** The parent named by a sub-meter's result. */
  function ParentOf(sub: MeterBillingResult): MeterId
    requires IsSub(sub)
  {
    sub.meter.subtractFrom.value
  }

  /** One turn of the loop: look the parent up (KeyError when it was not
      billed), recalculate its consumption (BillingError when refused),
      re-price it at the parent's rate, lower its final cost by the
      difference and store the rewritten parent result. */
  function SubtractOne(st: Adjusted, sub: MeterBillingResult): (r: Result<Adjusted>)
    requires Aligned(st) && IsSub(sub)
    ensures r.Success? ==> Aligned(r.value) && |r.value.results| == |st.results|
    ensures r.Failure? ==> r.error in [UnknownParentMeter(ParentOf(sub)), SubtractionRejected(ParentOf(sub), sub.meter.id)]
  {
    var parentId := ParentOf(sub);
    match IndexOf(st.results, parentId)
    case None => Failure(UnknownParentMeter(parentId))
    case Some(i) =>
      var parent := st.results[i];
      match RecalculateAfterSubtraction(parent.consumption, sub.consumption)
      case None => Failure(SubtractionRejected(parentId, sub.meter.id))
      case Some(remaining) =>
        var newCost := CalculateCost(remaining, parent.tariff.rate);
        var deduction := parent.cost - newCost;
        Success(Adjusted(
          st.results[i := MeterBillingResult(parent.meter, parent.tariff, remaining, newCost)],
          st.finalCosts[i := st.finalCosts[i] - deduction]))
  }

  /** The loop over the sub-meters, stopping at the first failure. */
  function SubtractAll(st: Adjusted, subs: seq<MeterBillingResult>): (r: Result<Adjusted>)
    requires Aligned(st) && AllSubs(subs)
    ensures r.Success? ==> Aligned(r.value) && |r.value.results| == |st.results|
    ensures r.Failure? ==> r.error.UnknownParentMeter? || r.error.SubtractionRejected?
    decreases |subs|
  {
    if |subs| == 0 then Success(st)
    else
      match SubtractOne(st, subs[0])
      case Failure(e) => Failure(e)
      case Success(next) => SubtractAll(next, subs[1..])
  }

  /** `_adjust_for_subtraction`: the rewritten results and the total of the
      final costs, which is the total of the rewritten results' costs. */
  function AdjustForSubtraction(rs: seq<MeterBillingResult>): (r: Result<(seq<MeterBillingResult>, real)>)
    ensures r.Success? ==> |r.value.0| == |rs| && r.value.1 == SumCosts(r.value.0)
    ensures r.Failure? ==> r.error.UnknownParentMeter? || r.error.SubtractionRejected?
  {
    var start := Adjusted(rs, Costs(rs));
    var subs := SubMeters(rs);
    match SubtractAll(start, subs)
    case Failure(e) => Failure(e)
    case Success(done) =>
      SubtractAllKeepsCostsInStep(start, subs);
      assert Costs(done.results) == done.finalCosts;
      Success((done.results, Sum(done.finalCosts)))
  }

  // ---- what the loop keeps ----

  /** After every turn the final cost of each meter is the cost of its
      stored result. */
  lemma {:induction false} SubtractAllKeepsCostsInStep(st: Adjusted, subs: seq<MeterBillingResult>)
    requires CostsTrack(st) && AllSubs(subs)
    ensures SubtractAll(st, subs).Success? ==> CostsTrack(SubtractAll(st, subs).value)
    decreases |subs|
  {
    if |subs| > 0 {
      var one := SubtractOne(st, subs[0]);
      if one.Success? {
        SubtractAllKeepsCostsInStep(one.value, subs[1..]);
      }
    }
  }

  /** The consumption the sub-meters in `subs` take out of parent `p`. */
  function ChildConsumption(subs: seq<MeterBillingResult>, p: MeterId): real {
    if |subs| == 0 then 0.0
    else (if subs[0].meter.subtractFrom == Some(p) then subs[0].consumption else 0.0)
         + ChildConsumption(subs[1..], p)
  }

  /** Some sub-meter in `subs` takes from parent `p`. */
  predicate IsParentIn(subs: seq<MeterBillingResult>, p: MeterId) {
    exists j :: 0 <= j < |subs| && subs[j].meter.subtractFrom == Some(p)
  }

  /** The loop rewrites nothing but parents: every result keeps its meter and
      tariff, a parent's consumption ends as its consumption before less its
      sub-meters' consumptions and is priced at its own rate, and a meter
      that is no sub-meter's parent keeps its result and final cost. */
  lemma {:induction false} SubtractAllRewritesParents(st: Adjusted, subs: seq<MeterBillingResult>)
    requires Aligned(st) && AllSubs(subs) && DistinctMeters(st.results)
    requires SubtractAll(st, subs).Success?
    ensures var done := SubtractAll(st, subs).value;
            forall k :: 0 <= k < |st.results| ==>
              && done.results[k].meter == st.results[k].meter
              && done.results[k].tariff == st.results[k].tariff
              && done.results[k].consumption
                 == st.results[k].consumption - ChildConsumption(subs, st.results[k].meter.id)
              && (IsParentIn(subs, st.results[k].meter.id) ==> Priced(done.results[k]))
              && (!IsParentIn(subs, st.results[k].meter.id) ==>
                    done.results[k] == st.results[k] && done.finalCosts[k] == st.finalCosts[k])
    decreases |subs|
  {
    if |subs| > 0 {
      var sub := subs[0];
      var next := SubtractOne(st, sub).value;
      assert DistinctMeters(next.results) by {
        forall k | 0 <= k < |st.results| {
          FirstTurnRewritesParent(st, sub, k);
        }
      }
      SubtractAllRewritesParents(next, subs[1..]);
      var done := SubtractAll(st, subs).value;
      forall k | 0 <= k < |st.results|
        ensures && done.results[k].meter == st.results[k].meter
                && done.results[k].tariff == st.results[k].tariff
                && done.results[k].consumption
                   == st.results[k].consumption - ChildConsumption(subs, st.results[k].meter.id)
                && (IsParentIn(subs, st.results[k].meter.id) ==> Priced(done.results[k]))
                && (!IsParentIn(subs, st.results[k].meter.id) ==>
                      done.results[k] == st.results[k] && done.finalCosts[k] == st.finalCosts[k])
      {
        FirstTurnRewritesParent(st, sub, k);
        IsParentInCons(subs, st.results[k].meter.id);
      }
    }
  }

  /** What one turn does to the result at position `k`: a result of the
      turn's parent loses the sub-meter's consumption and is re-priced; any
      other result and its final cost stay. */
  lemma FirstTurnRewritesParent(st: Adjusted, sub: MeterBillingResult, k: nat)
    requires Aligned(st) && IsSub(sub) && DistinctMeters(st.results)
    requires SubtractOne(st, sub).Success? && k < |st.results|
    ensures var next := SubtractOne(st, sub).value;
            var id := st.results[k].meter.id;
            && next.results[k].meter == st.results[k].meter
            && next.results[k].tariff == st.results[k].tariff
            && next.results[k].consumption
               == st.results[k].consumption - (if sub.meter.subtractFrom == Some(id) then sub.consumption else 0.0)
            && (sub.meter.subtractFrom == Some(id) ==> Priced(next.results[k]))
            && (sub.meter.subtractFrom != Some(id) ==>
                  next.results[k] == st.results[k] && next.finalCosts[k] == st.finalCosts[k])
  {
    IndexOfDistinct(st.results, ParentOf(sub), k);
  }

  /** A meter is a parent in `subs` when the first sub-meter names it or
      one of the rest does. */
  lemma IsParentInCons(subs: seq<MeterBillingResult>, p: MeterId)
    requires |subs| > 0
    ensures IsParentIn(subs, p) <==> subs[0].meter.subtractFrom == Some(p) || IsParentIn(subs[1..], p)
  {
    if IsParentIn(subs[1..], p) {
      var j :| 0 <= j < |subs[1..]| && subs[1..][j].meter.subtractFrom == Some(p);
      assert subs[j + 1].meter.subtractFrom == Some(p);
    }
  }

  // ---- when the loop fails ----

  /** What turn `j` of the loop needs: the parent was billed, and what the
      turns before it left of the parent's consumption covers the
      sub-meter's consumption. */
  predicate StepOk(rs: seq<MeterBillingResult>, subs: seq<MeterBillingResult>, j: nat)
    requires AllSubs(subs) && j < |subs|
  {
    var p := ParentOf(subs[j]);
    && IndexOf(rs, p).Some?
    && subs[j].consumption <= rs[IndexOf(rs, p).value].consumption - ChildConsumption(subs[..j], p)
  }

  /** The error turn `j` fails with when `StepOk` does not hold of it. */
  function StepError(rs: seq<MeterBillingResult>, subs: seq<MeterBillingResult>, j: nat): Error
    requires AllSubs(subs) && j < |subs|
  {
    var p := ParentOf(subs[j]);
    if IndexOf(rs, p).None? then UnknownParentMeter(p) else SubtractionRejected(p, subs[j].meter.id)
  }

  /** After a successful first turn, the remaining turns need, of the
      rewritten results, what they needed of the results before it. */
  lemma SubtractOneShiftsSteps(st: Adjusted, subs: seq<MeterBillingResult>)
    requires Aligned(st) && AllSubs(subs) && DistinctMeters(st.results)
    requires |subs| > 0 && SubtractOne(st, subs[0]).Success?
    ensures var next := SubtractOne(st, subs[0]).value;
            && DistinctMeters(next.results)
            && forall j :: 1 <= j < |subs| ==>
                 && (StepOk(next.results, subs[1..], j - 1) <==> StepOk(st.results, subs, j))
                 && StepError(next.results, subs[1..], j - 1) == StepError(st.results, subs, j)
  {
    var rs := st.results;
    var sub := subs[0];
    var p0 := ParentOf(sub);
    var next := SubtractOne(st, sub).value;
    assert forall k :: 0 <= k < |rs| ==> next.results[k].meter == rs[k].meter;
    forall j | 1 <= j < |subs|
      ensures StepOk(next.results, subs[1..], j - 1) <==> StepOk(rs, subs, j)
      ensures StepError(next.results, subs[1..], j - 1) == StepError(rs, subs, j)
    {
      var p := ParentOf(subs[j]);
      assert subs[1..][j - 1] == subs[j];
      IndexOfSameMeters(next.results, rs, p);
      assert subs[..j][1..] == subs[1..][..j - 1];
      if IndexOf(rs, p).Some? {
        var k := IndexOf(rs, p).value;
        IndexOfDistinct(rs, p0, k);
        assert next.results[k].consumption
               == rs[k].consumption - (if sub.meter.subtractFrom == Some(p) then sub.consumption else 0.0);
      }
    }
  }

  /** The first turn succeeds exactly when it has what it needs, and
      otherwise fails with that turn's error. */
  lemma FirstStepDecides(st: Adjusted, subs: seq<MeterBillingResult>)
    requires Aligned(st) && AllSubs(subs) && |subs| > 0
    ensures SubtractOne(st, subs[0]).Success? <==> StepOk(st.results, subs, 0)
    ensures SubtractOne(st, subs[0]).Failure? ==> SubtractOne(st, subs[0]).error == StepError(st.results, subs, 0)
  {
    assert subs[..0] == [];
  }

  /** The loop succeeds exactly when every turn has what it needs. */
  lemma {:induction false} SubtractAllSucceedsIff(st: Adjusted, subs: seq<MeterBillingResult>)
    requires Aligned(st) && AllSubs(subs) && DistinctMeters(st.results)
    ensures SubtractAll(st, subs).Success? <==> forall j :: 0 <= j < |subs| ==> StepOk(st.results, subs, j)
    decreases |subs|
  {
    if |subs| > 0 {
      FirstStepDecides(st, subs);
      var one := SubtractOne(st, subs[0]);
      if one.Success? {
        SubtractOneShiftsSteps(st, subs);
        SubtractAllSucceedsIff(one.value, subs[1..]);
        assert SubtractAll(st, subs) == SubtractAll(one.value, subs[1..]);
        if forall j :: 1 <= j < |subs| ==> StepOk(st.results, subs, j) {
          assert forall j :: 0 <= j < |subs[1..]| ==> StepOk(one.value.results, subs[1..], j) by {
            forall j | 0 <= j < |subs[1..]|
              ensures StepOk(one.value.results, subs[1..], j)
            {
              assert StepOk(st.results, subs, j + 1);
            }
          }
        }
      }
    }
  }

  /** A failing loop fails with the error of the first turn that does not
      have what it needs. */
  lemma {:induction false} SubtractAllFailsAtFirstBadStep(st: Adjusted, subs: seq<MeterBillingResult>)
    requires Aligned(st) && AllSubs(subs) && DistinctMeters(st.results)
    requires SubtractAll(st, subs).Failure?
    ensures exists j :: && 0 <= j < |subs|
                        && (forall i :: 0 <= i < j ==> StepOk(st.results, subs, i))
                        && !StepOk(st.results, subs, j)
                        && SubtractAll(st, subs).error == StepError(st.results, subs, j)
    decreases |subs|
  {
    FirstStepDecides(st, subs);
    var one := SubtractOne(st, subs[0]);
    if one.Success? {
      var next := one.value;
      SubtractOneShiftsSteps(st, subs);
      assert SubtractAll(st, subs) == SubtractAll(next, subs[1..]);
      SubtractAllFailsAtFirstBadStep(next, subs[1..]);
      var j :| && 0 <= j < |subs[1..]|
               && (forall i :: 0 <= i < j ==> StepOk(next.results, subs[1..], i))
               && !StepOk(next.results, subs[1..], j)
               && SubtractAll(next, subs[1..]).error == StepError(next.results, subs[1..], j);
      assert forall i :: 1 <= i < j + 1 ==> StepOk(st.results, subs, i);
      assert !StepOk(st.results, subs, j + 1);
    } else {
      assert !StepOk(st.results, subs, 0);
    }
  }

  // ---- the adjustment as a whole ----

  /** Of `_adjust_for_subtraction`: every result keeps its meter and tariff;
      a parent meter's consumption ends as its billed consumption less the
      billed consumptions of all its sub-meters, priced at its own rate; a
      meter that is nobody's parent keeps its billed result. */
  lemma AdjustForSubtractionRewritesParents(rs: seq<MeterBillingResult>)
    requires DistinctMeters(rs)
    requires AdjustForSubtraction(rs).Success?
    ensures var out := AdjustForSubtraction(rs).value.0;
            var subs := SubMeters(rs);
            forall k :: 0 <= k < |rs| ==>
              && out[k].meter == rs[k].meter
              && out[k].tariff == rs[k].tariff
              && out[k].consumption == rs[k].consumption - ChildConsumption(subs, rs[k].meter.id)
              && (IsParentIn(subs, rs[k].meter.id) ==> Priced(out[k]))
              && (!IsParentIn(subs, rs[k].meter.id) ==> out[k] == rs[k])
  {
    SubtractAllRewritesParents(Adjusted(rs, Costs(rs)), SubMeters(rs));
  }

  /** `_adjust_for_subtraction` fails exactly when its loop does, and with
      the loop's error. */
  lemma AdjustForSubtractionRunsLoop(rs: seq<MeterBillingResult>)
    ensures var run := SubtractAll(Adjusted(rs, Costs(rs)), SubMeters(rs));
            && (AdjustForSubtraction(rs).Success? <==> run.Success?)
            && (run.Failure? ==> AdjustForSubtraction(rs).error == run.error)
            && (run.Success? ==> AdjustForSubtraction(rs).value == (run.value.results, Sum(run.value.finalCosts)))
  {
  }

  /** `_adjust_for_subtraction` succeeds exactly when every sub-meter, taken
      in billing order, finds its parent billed with enough consumption
      left. */
  lemma AdjustForSubtractionSucceedsIff(rs: seq<MeterBillingResult>)
    requires DistinctMeters(rs)
    ensures AdjustForSubtraction(rs).Success?
            <==> forall j :: 0 <= j < |SubMeters(rs)| ==> StepOk(rs, SubMeters(rs), j)
  {
    AdjustForSubtractionRunsLoop(rs);
    SubtractAllSucceedsIff(Adjusted(rs, Costs(rs)), SubMeters(rs));
  }

  /** A failing `_adjust_for_subtraction` fails with the error of the first
      sub-meter that does not find what it needs: a KeyError for a parent
      that was not billed, a BillingError for a refused recalculation. */
  lemma AdjustForSubtractionFailsAtFirstBadStep(rs: seq<MeterBillingResult>)
    requires DistinctMeters(rs)
    requires AdjustForSubtraction(rs).Failure?
    ensures exists j :: && 0 <= j < |SubMeters(rs)|
                        && (forall i :: 0 <= i < j ==> StepOk(rs, SubMeters(rs), i))
                        && !StepOk(rs, SubMeters(rs), j)
                        && AdjustForSubtraction(rs).error == StepError(rs, SubMeters(rs), j)
  {
    AdjustForSubtractionRunsLoop(rs);
    SubtractAllFailsAtFirstBadStep(Adjusted(rs, Costs(rs)), SubMeters(rs));
  }
}

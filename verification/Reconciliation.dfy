/** Reconciling two balance snapshots with the booked legs between them. */
module Reconciliation {
  import opened Activities
  import DecimalArithmetic
  import Folds

  datatype Unit = CashUnit(currency: string) | PositionUnit(instrument: nat)

  /** A balance as a snapshot states it; a position may name a currency too. */
  datatype Balance = Balance(kind: LegKind, currency: string, instrument: nat, value: int)

  datatype Verdict = Passed | UnknownBalance | IncompleteLedger | Mismatch
  datatype Difference = Difference(expected: int, difference: int, verdict: Verdict)
  datatype Failure = UnitMismatch | OutOfRange
  datatype Result<T> = Failed(failure: Failure) | Ok(value: T)

  /** A balance has a decimal text exactly within this range (`DecimalArithmetic.ScaledAdd`). */
  predicate InRange(x: int) {
    DecimalArithmetic.ScaledInRange(x)
  }

  /** What a balance is a balance of: a position's currency says nothing. */
  function UnitFor(b: Balance): Unit {
    if b.kind.Cash? then CashUnit(b.currency) else PositionUnit(b.instrument)
  }

  predicate SameUnit(a: Balance, b: Balance) {
    a.kind == b.kind && a.currency == b.currency && a.instrument == b.instrument
  }

  function BalanceOf(unit: Unit, value: int): (b: Balance)
    ensures UnitFor(b) == unit
  {
    match unit
    case CashUnit(currency) => Balance(Cash, currency, 0, value)
    case PositionUnit(instrument) => Balance(Position, "", instrument, value)
  }

  function UnitOf(leg: Leg): Unit {
    if leg.kind.Cash? then CashUnit(leg.currency) else PositionUnit(leg.instrument)
  }

  // ---------------------------------------------------------------- one unit

  function LegDeltas(legs: seq<Leg>, unit: Unit): seq<int>
    decreases |legs|
  {
    if legs == [] then []
    else
      var leg := legs[|legs| - 1];
      LegDeltas(legs[..|legs| - 1], unit) + (if UnitOf(leg) == unit then [leg.amount] else [])
  }

  /** The amounts that booked activities move in a unit, in order. */
  function Deltas(activities: seq<Activity>, unit: Unit): seq<int>
    decreases |activities|
  {
    if activities == [] then []
    else
      var a := activities[|activities| - 1];
      Deltas(activities[..|activities| - 1], unit) + (if Counts(a) then LegDeltas(a.legs, unit) else [])
  }

  function Sum(xs: seq<int>): int
    decreases |xs|
  {
    if xs == [] then 0 else Sum(xs[..|xs| - 1]) + xs[|xs| - 1]
  }

  /** Every balance on the way has a decimal text. */
  predicate StaysInRange(start: int, xs: seq<int>)
    decreases |xs|
  {
    xs == [] || (StaysInRange(start, xs[..|xs| - 1]) && InRange(start + Sum(xs)))
  }

  predicate Settled(a: Activity) {
    a.status.Voided? || Counts(a)
  }

  predicate AllSettled(activities: seq<Activity>) {
    forall i :: 0 <= i < |activities| ==> Settled(activities[i])
  }

  ghost function Reconciled(opening: Option<Balance>, closing: Balance, activities: seq<Activity>): Result<Difference> {
    if opening.None? then Ok(Difference(0, 0, UnknownBalance))
    else if !SameUnit(opening.value, closing) then Failed(UnitMismatch)
    else
      var deltas := Deltas(activities, UnitFor(closing));
      var expected := opening.value.value + Sum(deltas);
      if !StaysInRange(opening.value.value, deltas) || !InRange(closing.value - expected) then Failed(OutOfRange)
      else Ok(Difference(expected, closing.value - expected,
        if !AllSettled(activities) then IncompleteLedger
        else if closing.value == expected then Passed
        else Mismatch))
  }

  lemma {:induction false} SumConcat(xs: seq<int>, ys: seq<int>)
    ensures Sum(xs + ys) == Sum(xs) + Sum(ys)
    decreases |ys|
  {
    if ys == [] {
      assert xs + ys == xs;
    } else {
      var n := |ys| - 1;
      assert (xs + ys)[..|xs| + n] == xs + ys[..n];
      SumConcat(xs, ys[..n]);
    }
  }

  lemma {:induction false} DeltasConcat(xs: seq<Activity>, ys: seq<Activity>, unit: Unit)
    ensures Deltas(xs + ys, unit) == Deltas(xs, unit) + Deltas(ys, unit)
    decreases |ys|
  {
    if ys == [] {
      assert xs + ys == xs;
    } else {
      var n := |ys| - 1;
      assert (xs + ys)[..|xs| + n] == xs + ys[..n];
      DeltasConcat(xs, ys[..n], unit);
    }
  }

  lemma {:induction false} RangeConcat(start: int, xs: seq<int>, ys: seq<int>)
    requires StaysInRange(start, xs) && StaysInRange(start + Sum(xs), ys)
    ensures StaysInRange(start, xs + ys)
    decreases |ys|
  {
    if ys == [] {
      assert xs + ys == xs;
    } else {
      var n := |ys| - 1;
      assert (xs + ys)[..|xs| + n] == xs + ys[..n];
      RangeConcat(start, xs, ys[..n]);
      SumConcat(xs, ys);
    }
  }

  predicate Passes(r: Result<Difference>) {
    r.Ok? && r.value.verdict.Passed?
  }

  /** Windows that pass one after the other pass as one window. */
  lemma WindowsCompose(opening: Balance, middle: Balance, closing: Balance, first: seq<Activity>, second: seq<Activity>)
    requires Passes(Reconciled(Some(opening), middle, first)) && Passes(Reconciled(Some(middle), closing, second))
    ensures Passes(Reconciled(Some(opening), closing, first + second))
  {
    var xs, ys := Deltas(first, UnitFor(closing)), Deltas(second, UnitFor(closing));
    DeltasConcat(first, second, UnitFor(closing));
    SumConcat(xs, ys);
    RangeConcat(opening.value, xs, ys);
    assert AllSettled(first + second);
  }

  lemma RangeNext(start: int, xs: seq<int>, x: int)
    ensures Sum(xs + [x]) == Sum(xs) + x
    ensures StaysInRange(start, xs + [x]) <==> StaysInRange(start, xs) && InRange(start + Sum(xs) + x)
  {
    assert (xs + [x])[..|xs|] == xs;
  }

  lemma {:induction false} RangePrefix(start: int, xs: seq<int>, ys: seq<int>)
    requires xs <= ys && StaysInRange(start, ys)
    ensures StaysInRange(start, xs)
    decreases |ys|
  {
    if |xs| == |ys| {
      assert xs == ys;
    } else {
      RangePrefix(start, xs, ys[..|ys| - 1]);
    }
  }

  lemma {:induction false} LegsGrow(legs: seq<Leg>, unit: Unit, n: nat)
    requires n <= |legs|
    ensures LegDeltas(legs[..n], unit) <= LegDeltas(legs, unit)
    decreases |legs|
  {
    if n == |legs| {
      assert legs[..n] == legs;
    } else {
      LegsGrow(legs[..|legs| - 1], unit, n);
      assert legs[..|legs| - 1][..n] == legs[..n];
    }
  }

  lemma {:induction false} DeltasGrow(activities: seq<Activity>, unit: Unit, n: nat)
    requires n <= |activities|
    ensures Deltas(activities[..n], unit) <= Deltas(activities, unit)
  {
    assert activities == activities[..n] + activities[n..];
    DeltasConcat(activities[..n], activities[n..], unit);
  }

  lemma OutOfRangeStays(start: int, before: seq<int>, legs: seq<Leg>, unit: Unit, n: nat)
    requires n <= |legs| && !StaysInRange(start, before + LegDeltas(legs[..n], unit))
    ensures !StaysInRange(start, before + LegDeltas(legs, unit))
  {
    LegsGrow(legs, unit, n);
    if StaysInRange(start, before + LegDeltas(legs, unit)) {
      RangePrefix(start, before + LegDeltas(legs[..n], unit), before + LegDeltas(legs, unit));
    }
  }

  lemma NextLeg(start: int, before: seq<int>, legs: seq<Leg>, unit: Unit, i: nat)
    requires i < |legs|
    ensures var xs, ys := before + LegDeltas(legs[..i], unit), before + LegDeltas(legs[..i + 1], unit);
      if UnitOf(legs[i]) == unit
      then Sum(ys) == Sum(xs) + legs[i].amount
           && (StaysInRange(start, ys) <==> StaysInRange(start, xs) && InRange(start + Sum(xs) + legs[i].amount))
      else ys == xs
  {
    assert legs[..i + 1][..i] == legs[..i];
    var xs := before + LegDeltas(legs[..i], unit);
    if UnitOf(legs[i]) == unit {
      assert before + LegDeltas(legs[..i + 1], unit) == xs + [legs[i].amount];
      RangeNext(start, xs, legs[i].amount);
    }
  }

  /** Adds an activity's legs to the running sum; the first sum without a text stops it. */
  method AddLegs(legs: seq<Leg>, unit: Unit, ghost start: int, ghost before: seq<int>, sum: int) returns (ok: bool, total: int)
    requires StaysInRange(start, before) && sum == start + Sum(before)
    ensures ok <==> StaysInRange(start, before + LegDeltas(legs, unit))
    ensures ok ==> total == start + Sum(before + LegDeltas(legs, unit))
  {
    total := sum;
    assert before + [] == before;
    for i := 0 to |legs|
      invariant StaysInRange(start, before + LegDeltas(legs[..i], unit))
      invariant total == start + Sum(before + LegDeltas(legs[..i], unit))
    {
      NextLeg(start, before, legs, unit, i);
      if UnitOf(legs[i]) == unit {
        if !InRange(total + legs[i].amount) {
          OutOfRangeStays(start, before, legs, unit, i + 1);
          return false, 0;
        }
        total := total + legs[i].amount;
      }
    }
    assert legs[..|legs|] == legs;
    ok := true;
  }

  lemma RangeLostAt(start: int, activities: seq<Activity>, unit: Unit, n: nat)
    requires n <= |activities| && !StaysInRange(start, Deltas(activities[..n], unit))
    ensures !StaysInRange(start, Deltas(activities, unit))
  {
    DeltasGrow(activities, unit, n);
    RangeLost(start, Deltas(activities[..n], unit), Deltas(activities, unit));
  }

  ghost predicate Summed(start: int, deltas: seq<int>, sum: int) {
    StaysInRange(start, deltas) && sum == start + Sum(deltas)
  }

  /** The running sum over all activities, and whether any of them is unsettled. */
  method SumActivities(start: int, activities: seq<Activity>, unit: Unit) returns (ok: bool, sum: int, incomplete: bool)
    ensures ok <==> StaysInRange(start, Deltas(activities, unit))
    ensures ok ==> sum == start + Sum(Deltas(activities, unit)) && (incomplete <==> !AllSettled(activities))
  {
    ok, sum, incomplete := true, start, false;
    for i := 0 to |activities|
      invariant ok && Summed(start, Deltas(activities[..i], unit), sum)
      invariant incomplete <==> !AllSettled(activities[..i])
    {
      NextSettled(activities, i);
      NextDeltas(activities, i, unit);
      if Counts(activities[i]) {
        ok, sum := AddLegs(activities[i].legs, unit, start, Deltas(activities[..i], unit), sum);
        if !ok {
          RangeLostAt(start, activities, unit, i + 1);
          return;
        }
      } else if !activities[i].status.Voided? {
        incomplete := true;
      }
    }
    assert activities[..|activities|] == activities;
  }

  /** Compares a closing balance with the opening one plus everything booked between. */
  method Reconcile(opening: Option<Balance>, closing: Balance, activities: seq<Activity>) returns (r: Result<Difference>)
    ensures r == Reconciled(opening, closing, activities)
  {
    if opening.None? {
      return Ok(Difference(0, 0, UnknownBalance));
    }
    if opening.value.kind != closing.kind || opening.value.currency != closing.currency ||
       opening.value.instrument != closing.instrument {
      return Failed(UnitMismatch);
    }
    var ok, sum, incomplete := SumActivities(opening.value.value, activities, UnitFor(closing));
    var difference := closing.value - sum;
    if !ok || !InRange(difference) {
      return Failed(OutOfRange);
    }
    var verdict := Passed;
    if difference != 0 {
      verdict := Mismatch;
    }
    if incomplete {
      verdict := IncompleteLedger;
    }
    return Ok(Difference(sum, difference, verdict));
  }

  lemma NextSettled(activities: seq<Activity>, i: nat)
    requires i < |activities|
    ensures AllSettled(activities[..i + 1]) <==> AllSettled(activities[..i]) && Settled(activities[i])
  {
    var prior, next := activities[..i], activities[..i + 1];
    assert next[i] == activities[i] && forall k :: 0 <= k < i ==> prior[k] == next[k];
  }

  lemma NextDeltas(activities: seq<Activity>, i: nat, unit: Unit)
    requires i < |activities|
    ensures Deltas(activities[..i + 1], unit)
      == if Counts(activities[i]) then Deltas(activities[..i], unit) + LegDeltas(activities[i].legs, unit)
         else Deltas(activities[..i], unit)
  {
    assert activities[..i + 1][..i] == activities[..i];
  }

  lemma RangeLost(start: int, xs: seq<int>, ys: seq<int>)
    requires xs <= ys && !StaysInRange(start, xs)
    ensures !StaysInRange(start, ys)
  {
    if StaysInRange(start, ys) {
      RangePrefix(start, xs, ys);
    }
  }

  // --------------------------------------------------------------- one account

  datatype Snapshot = Snapshot(complete: bool, basis: string, balances: map<Unit, int>)

  /** Everything besides balances that a reconciliation depends on. */
  datatype Evidence = Evidence(covered: bool, recordsComplete: bool)

  predicate Ready(opening: Snapshot, closing: Snapshot, activities: seq<Activity>, evidence: Evidence) {
    && opening.complete && closing.complete && opening.basis == closing.basis
    && evidence.covered && evidence.recordsComplete && AllSettled(activities)
  }

  function BalanceIn(s: Snapshot, unit: Unit): int {
    if unit in s.balances then s.balances[unit] else 0
  }

  function LegUnits(activities: seq<Activity>): set<Unit> {
    set i, k | 0 <= i < |activities| && 0 <= k < |activities[i].legs| :: UnitOf(activities[i].legs[k])
  }

  function Units(opening: Snapshot, closing: Snapshot, activities: seq<Activity>): set<Unit> {
    opening.balances.Keys + closing.balances.Keys + LegUnits(activities)
  }

  /** What the per-unit loop compares; an unready account knows only the balances it was given. */
  function OpeningOf(opening: Snapshot, unit: Unit, ready: bool): Option<Balance> {
    if unit in opening.balances || ready then Some(BalanceOf(unit, BalanceIn(opening, unit))) else None
  }

  ghost function UnitResult(opening: Snapshot, closing: Snapshot, activities: seq<Activity>, ready: bool, unit: Unit): Result<Difference> {
    if unit !in closing.balances && !ready then Ok(Difference(0, 0, UnknownBalance))
    else Reconciled(OpeningOf(opening, unit, ready), BalanceOf(unit, BalanceIn(closing, unit)), activities)
  }

  function Rank(v: Verdict): nat {
    match v
    case Passed => 0
    case UnknownBalance => 1
    case IncompleteLedger => 2
    case Mismatch => 3
  }

  function Worse(current: Verdict, candidate: Verdict): Verdict {
    if Rank(candidate) > Rank(current) then candidate else current
  }

  type Results = Unit -> Result<Difference>

  ghost function UnitResults(opening: Snapshot, closing: Snapshot, activities: seq<Activity>, ready: bool): Results {
    u => UnitResult(opening, closing, activities, ready, u)
  }

  ghost predicate AreResults(results: Results, opening: Snapshot, closing: Snapshot, activities: seq<Activity>, ready: bool) {
    forall u {:trigger UnitResult(opening, closing, activities, ready, u)} ::
      results(u) == UnitResult(opening, closing, activities, ready, u)
  }

  ghost predicate AllOk(results: Results, units: set<Unit>) {
    forall u :: u in units ==> results(u).Ok?
  }

  ghost predicate AllPass(results: Results, units: set<Unit>) {
    forall u :: u in units ==> Passes(results(u))
  }

  method ReconcileUnit(opening: Snapshot, closing: Snapshot, activities: seq<Activity>, ready: bool, u: Unit, ghost results: Results)
    returns (d: Result<Difference>)
    requires AreResults(results, opening, closing, activities, ready)
    ensures d == results(u)
  {
    assert results(u) == UnitResult(opening, closing, activities, ready, u);
    if u !in closing.balances && !ready {
      return Ok(Difference(0, 0, UnknownBalance));
    }
    d := Reconcile(OpeningOf(opening, u, ready), BalanceOf(u, BalanceIn(closing, u)), activities);
  }

  lemma OneMore(results: Results, units: set<Unit>, rest: set<Unit>, u: Unit)
    requires u in rest && rest <= units
    ensures AllOk(results, units - (rest - {u})) <==> AllOk(results, units - rest) && results(u).Ok?
    ensures AllPass(results, units - (rest - {u})) <==> AllPass(results, units - rest) && Passes(results(u))
  {
    assert units - (rest - {u}) == (units - rest) + {u};
  }

  /** The given units, in no particular order; the first failure ends the loop. */
  method ReconcileUnits(opening: Snapshot, closing: Snapshot, activities: seq<Activity>, ready: bool, units: set<Unit>,
                        ghost results: Results) returns (r: Result<Verdict>)
    requires AreResults(results, opening, closing, activities, ready)
    requires ready ==> AllSettled(activities)
    ensures r.Ok? <==> AllOk(results, units)
    ensures r.Ok? ==> r.value == if !ready then IncompleteLedger else if AllPass(results, units) then Passed else Mismatch
  {
    var status := if ready then Passed else IncompleteLedger;
    var rest := units;
    while rest != {}
      invariant rest <= units && AllOk(results, units - rest)
      invariant status == if !ready then IncompleteLedger else if AllPass(results, units - rest) then Passed else Mismatch
      decreases |rest|
    {
      var u := Folds.AnyOf(rest);
      OneMore(results, units, rest, u);
      rest := rest - {u};
      var d := ReconcileUnit(opening, closing, activities, ready, u, results);
      if d.Failed? {
        return Failed(d.failure);
      }
      if ready {
        SettledVerdict(opening, closing, activities, u);
        status := if d.value.verdict.Mismatch? then Mismatch else Worse(status, d.value.verdict);
      }
    }
    assert units - rest == units;
    return Ok(status);
  }

  /** Both balances of a unit of a ready account are known and nothing is unsettled, so it passes or it does not. */
  lemma SettledVerdict(opening: Snapshot, closing: Snapshot, activities: seq<Activity>, unit: Unit)
    requires AllSettled(activities) && UnitResult(opening, closing, activities, true, unit).Ok?
    ensures var d := UnitResult(opening, closing, activities, true, unit).value;
      d.verdict == if Balanced(opening, closing, activities, unit) then Passed else Mismatch
  {
  }

  /** No running balance of the unit, nor its difference to the closing one, leaves the range of decimal texts. */
  predicate Representable(opening: Snapshot, closing: Snapshot, activities: seq<Activity>, unit: Unit) {
    var deltas := Deltas(activities, unit);
    && StaysInRange(BalanceIn(opening, unit), deltas)
    && InRange(BalanceIn(closing, unit) - BalanceIn(opening, unit) - Sum(deltas))
  }

  // ------------------------------------------------------------ in plain terms

  /** The activity is in force and booked, or void; nothing of it waits. */
  predicate NothingWaits(a: Activity) {
    a.status == Voided || (a.status == Effective && a.booking == Booked)
  }

  predicate Concerns(leg: Leg, unit: Unit) {
    match unit
    case CashUnit(currency) => leg.kind == Cash && leg.currency == currency
    case PositionUnit(instrument) => leg.kind == Position && leg.instrument == instrument
  }

  /** What legs move in a unit. */
  function Movement(legs: seq<Leg>, unit: Unit): int
    decreases |legs|
  {
    if legs == [] then 0
    else Movement(legs[..|legs| - 1], unit) + (if Concerns(legs[|legs| - 1], unit) then legs[|legs| - 1].amount else 0)
  }

  /** What all activities in force and booked move in a unit. */
  function BookedMovement(activities: seq<Activity>, unit: Unit): int
    decreases |activities|
  {
    if activities == [] then 0
    else
      var a := activities[|activities| - 1];
      BookedMovement(activities[..|activities| - 1], unit) +
        (if a.status == Effective && a.booking == Booked then Movement(a.legs, unit) else 0)
  }

  lemma {:induction false} LegDeltasSum(legs: seq<Leg>, unit: Unit)
    ensures Sum(LegDeltas(legs, unit)) == Movement(legs, unit)
    decreases |legs|
  {
    if legs != [] {
      var n := |legs| - 1;
      LegDeltasSum(legs[..n], unit);
      SumConcat(LegDeltas(legs[..n], unit), if UnitOf(legs[n]) == unit then [legs[n].amount] else []);
      OneSums(legs[n].amount);
    }
  }

  lemma OneSums(x: int)
    ensures Sum([x]) == x && Sum([]) == 0
  {
    assert [x][..0] == [];
  }

  lemma {:induction false} DeltasSum(activities: seq<Activity>, unit: Unit)
    ensures Sum(Deltas(activities, unit)) == BookedMovement(activities, unit)
    decreases |activities|
  {
    if activities != [] {
      var n := |activities| - 1;
      DeltasSum(activities[..n], unit);
      LegDeltasSum(activities[n].legs, unit);
      SumConcat(Deltas(activities[..n], unit), if Counts(activities[n]) then LegDeltas(activities[n].legs, unit) else []);
      OneSums(0);
    }
  }

  /** One balance compared: unknown without an opening one, a failure for another
    unit or a figure without a text, incomplete while anything waits, and otherwise
    passed exactly if closing equals opening plus what was booked. */
  lemma ReconciledExactly(opening: Option<Balance>, closing: Balance, activities: seq<Activity>)
    ensures match Reconciled(opening, closing, activities)
      case Failed(UnitMismatch) => opening.Some? && !SameKindOfBalance(opening.value, closing)
      case Failed(OutOfRange) => opening.Some? && SameKindOfBalance(opening.value, closing)
      case Ok(d) =>
        match opening
        case None => d.verdict == UnknownBalance
        case Some(o) =>
          var booked := BookedMovement(activities, UnitFor(closing));
          && SameKindOfBalance(o, closing) && d.expected == o.value + booked && d.difference == closing.value - d.expected
          && d.verdict == (if exists a :: a in activities && !NothingWaits(a) then IncompleteLedger
                           else if closing.value == o.value + booked then Passed else Mismatch)
  {
    DeltasSum(activities, UnitFor(closing));
    SettledExactly(activities);
  }

  predicate SameKindOfBalance(a: Balance, b: Balance) {
    a == b.(value := a.value)
  }

  lemma SettledExactly(activities: seq<Activity>)
    ensures AllSettled(activities) <==> forall a :: a in activities ==> NothingWaits(a)
  {
    if forall a :: a in activities ==> NothingWaits(a) {
      assert forall i :: 0 <= i < |activities| ==> activities[i] in activities;
    }
  }

  /** A ready account: two complete snapshots on one basis, everything between them fetched, understood and settled. */
  lemma ReadyExactly(opening: Snapshot, closing: Snapshot, activities: seq<Activity>, evidence: Evidence)
    ensures Ready(opening, closing, activities, evidence) <==>
      && opening.complete && closing.complete && opening.basis == closing.basis && evidence == Evidence(true, true)
      && forall a :: a in activities ==> NothingWaits(a)
    ensures forall u :: Balanced(opening, closing, activities, u) <==>
      (if u in closing.balances then closing.balances[u] else 0)
      == (if u in opening.balances then opening.balances[u] else 0) + BookedMovement(activities, u)
  {
    SettledExactly(activities);
    forall u ensures Balanced(opening, closing, activities, u) <==>
      (if u in closing.balances then closing.balances[u] else 0)
      == (if u in opening.balances then opening.balances[u] else 0) + BookedMovement(activities, u)
    {
      DeltasSum(activities, u);
    }
  }

  /** The units whose balances are compared: all that are named, or in an unready account those in both snapshots. */
  predicate Compared(opening: Snapshot, closing: Snapshot, activities: seq<Activity>, ready: bool, unit: Unit) {
    if ready then unit in Units(opening, closing, activities) else unit in opening.balances && unit in closing.balances
  }

  /** Every unit that either snapshot or any leg names. An account fails exactly for
    a figure without a decimal text; otherwise a ready one passes or mismatches, and
    passes exactly if every currency and every instrument there is balances. */
  method ReconcileAccount(opening: Snapshot, closing: Snapshot, activities: seq<Activity>, evidence: Evidence)
    returns (r: Result<Verdict>)
    ensures var ready := Ready(opening, closing, activities, evidence);
      && (r.Ok? <==> forall u :: Compared(opening, closing, activities, ready, u) ==> Representable(opening, closing, activities, u))
      && (r.Ok? && !ready ==> r.value == IncompleteLedger)
      && (r.Ok? && ready ==> r.value.Passed? || r.value.Mismatch?)
      && (r.Ok? && ready ==> (r.value.Mismatch? <==> exists u :: !Balanced(opening, closing, activities, u)))
  {
    var ready := Ready(opening, closing, activities, evidence);
    ghost var units, results := Units(opening, closing, activities), UnitResults(opening, closing, activities, ready);
    r := ReconcileUnits(opening, closing, activities, ready, Units(opening, closing, activities), results);
    OkExactly(opening, closing, activities, ready);
    if ready && r.Ok? {
      PassedExactly(opening, closing, activities, evidence);
    }
  }

  lemma UnitOkExactly(opening: Snapshot, closing: Snapshot, activities: seq<Activity>, ready: bool, unit: Unit)
    ensures UnitResult(opening, closing, activities, ready, unit).Ok? <==>
      (ready || (unit in opening.balances && unit in closing.balances) ==> Representable(opening, closing, activities, unit))
  {
  }

  lemma OkExactly(opening: Snapshot, closing: Snapshot, activities: seq<Activity>, ready: bool)
    ensures AllOk(UnitResults(opening, closing, activities, ready), Units(opening, closing, activities))
      <==> forall u :: Compared(opening, closing, activities, ready, u) ==> Representable(opening, closing, activities, u)
  {
    var results, units := UnitResults(opening, closing, activities, ready), Units(opening, closing, activities);
    forall u | u in units
      ensures results(u).Ok? <==> (Compared(opening, closing, activities, ready, u) ==> Representable(opening, closing, activities, u))
    {
      UnitOkExactly(opening, closing, activities, ready, u);
    }
  }

  lemma {:induction false} NoLegsNoDeltas(legs: seq<Leg>, unit: Unit)
    requires forall k :: 0 <= k < |legs| ==> UnitOf(legs[k]) != unit
    ensures LegDeltas(legs, unit) == []
    decreases |legs|
  {
    if legs != [] {
      NoLegsNoDeltas(legs[..|legs| - 1], unit);
    }
  }

  lemma {:induction false} UnnamedUnitStill(activities: seq<Activity>, unit: Unit)
    requires unit !in LegUnits(activities)
    ensures Deltas(activities, unit) == []
    decreases |activities|
  {
    if activities != [] {
      var n := |activities| - 1;
      var front, last := activities[..n], activities[n];
      forall k | 0 <= k < |last.legs| ensures UnitOf(last.legs[k]) != unit {
        assert UnitOf(activities[n].legs[k]) in LegUnits(activities);
      }
      NoLegsNoDeltas(last.legs, unit);
      forall i, k | 0 <= i < n && 0 <= k < |front[i].legs| ensures UnitOf(front[i].legs[k]) != unit {
        assert UnitOf(activities[i].legs[k]) in LegUnits(activities);
      }
      UnnamedUnitStill(front, unit);
    }
  }

  /** Closing equals opening plus booked legs, an absent balance being zero. */
  predicate Balanced(opening: Snapshot, closing: Snapshot, activities: seq<Activity>, unit: Unit) {
    BalanceIn(closing, unit) == BalanceIn(opening, unit) + Sum(Deltas(activities, unit))
  }

  /** A ready account passes exactly when every currency and every instrument there
    is balances, and not only those that the snapshots or the legs name. */
  lemma PassedExactly(opening: Snapshot, closing: Snapshot, activities: seq<Activity>, evidence: Evidence)
    requires Ready(opening, closing, activities, evidence)
    requires AllOk(UnitResults(opening, closing, activities, true), Units(opening, closing, activities))
    ensures AllPass(UnitResults(opening, closing, activities, true), Units(opening, closing, activities))
      <==> forall u :: Balanced(opening, closing, activities, u)
  {
    var results, units := UnitResults(opening, closing, activities, true), Units(opening, closing, activities);
    forall u | u in units ensures Passes(results(u)) <==> Balanced(opening, closing, activities, u) {
      assert results(u).Ok?;
    }
    forall u | u !in units ensures Balanced(opening, closing, activities, u) {
      UnnamedUnitStill(activities, u);
    }
  }
}

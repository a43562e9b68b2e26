/** Whether the effects of one activity are already contained in another: the
  test behind a confirmed duplicate. Candidate effects are paired greedily, in
  order, with the first unused target effect that agrees. */
module EffectMatching {
  import opened Activities

  predicate SameLeg(left: Leg, right: Leg) {
    && left.kind == right.kind
    && left.component == right.component
    && left.effective.Some?
    && left.effective == right.effective
    && (left.settlement.Some? ==> left.settlement == right.settlement)
    && (if left.kind.Cash?
        then left.currency == right.currency && left.amount == right.amount
        else left.instrument != 0 && left.instrument == right.instrument && left.amount == right.amount)
  }

  predicate SameCost(left: CostAdjustment, right: CostAdjustment) {
    left.instrument != 0 && left == right
  }

  predicate DatesMatch(candidate: Activity, target: Activity) {
    && candidate.tradeDate.Some?
    && candidate.tradeDate == target.tradeDate
    && (candidate.settlementDate.Some? ==> candidate.settlementDate == target.settlementDate)
    && (candidate.occurredAt.Some? ==> candidate.occurredAt == target.occurredAt)
  }

  /** A leg agrees with one that is the same but for what it leaves open: its
    settlement date if it has none, the instrument of cash and the currency of a
    position. It must say when it takes effect and, for a position, what of. */
  lemma LegsAgreeExactly(left: Leg, right: Leg)
    ensures SameLeg(left, right) <==>
      && left.effective != None && left.settlement in [None, right.settlement]
      && match left.kind
         case Cash => right == left.(settlement := right.settlement, instrument := right.instrument)
         case Position => left.instrument > 0 && right == left.(settlement := right.settlement, currency := right.currency)
  {
  }

  lemma CostsAgreeExactly(left: CostAdjustment, right: CostAdjustment)
    ensures SameCost(left, right) <==>
      && left.instrument > 0 && right.instrument == left.instrument && right.currency == left.currency
      && right.allocation == left.allocation && right.evidence == left.evidence
      && right.basisDelta == left.basisDelta && right.basisBefore == left.basisBefore && right.basisAfter == left.basisAfter
  {
  }

  /** The trade dates are known and equal, and neither of the other dates that the candidate states differs. */
  lemma DatesAgreeExactly(candidate: Activity, target: Activity)
    ensures DatesMatch(candidate, target) <==>
      && candidate.tradeDate != None && target.tradeDate == candidate.tradeDate
      && candidate.settlementDate in [None, target.settlementDate] && candidate.occurredAt in [None, target.occurredAt]
  {
  }

  /** An injective pairing of every candidate effect with an agreeing target effect. */
  ghost predicate Pairing<T(!new)>(xs: seq<T>, ys: seq<T>, same: (T, T) -> bool, p: seq<nat>) {
    && |p| == |xs|
    && (forall i :: 0 <= i < |p| ==> p[i] < |ys| && same(xs[i], ys[p[i]]))
    && (forall i, j :: 0 <= i < j < |p| ==> p[i] != p[j])
  }

  ghost predicate Contained(candidate: Activity, target: Activity) {
    && (candidate.legs != [] || candidate.costs != [])
    && (exists p :: Pairing(candidate.legs, target.legs, SameLeg, p))
    && (exists p :: Pairing(candidate.costs, target.costs, SameCost, p))
  }

  /** The first index from `from` on that is unused and agrees with `x`, or `|ys|`. */
  function FirstFree<T>(ys: seq<T>, same: (T, T) -> bool, x: T, used: set<nat>, from: nat): (i: nat)
    requires from <= |ys|
    ensures from <= i <= |ys|
    ensures i < |ys| ==> i !in used && same(x, ys[i])
    ensures forall k :: from <= k < i ==> k in used || !same(x, ys[k])
    decreases |ys| - from
  {
    if from == |ys| || (from !in used && same(x, ys[from])) then from
    else FirstFree(ys, same, x, used, from + 1)
  }

  function Greedy<T>(xs: seq<T>, ys: seq<T>, same: (T, T) -> bool, used: set<nat>): bool {
    if xs == [] then true
    else
      var i := FirstFree(ys, same, xs[0], used, 0);
      i < |ys| && Greedy(xs[1..], ys, same, used + {i})
  }

  predicate EffectsContained(candidate: Activity, target: Activity) {
    && (candidate.legs != [] || candidate.costs != [])
    && Greedy(candidate.legs, target.legs, SameLeg, {})
    && Greedy(candidate.costs, target.costs, SameCost, {})
  }

  /** The nested loops over candidate and target effects, marking used indices. */
  method MatchEffects<T>(xs: seq<T>, ys: seq<T>, same: (T, T) -> bool) returns (ok: bool)
    ensures ok == Greedy(xs, ys, same, {})
  {
    var used: set<nat> := {};
    for n := 0 to |xs|
      invariant Greedy(xs, ys, same, {}) == Greedy(xs[n..], ys, same, used)
    {
      var i := 0;
      while i < |ys| && (i in used || !same(xs[n], ys[i]))
        invariant i <= |ys|
        invariant FirstFree(ys, same, xs[n], used, 0) == FirstFree(ys, same, xs[n], used, i)
      {
        i := i + 1;
      }
      if i == |ys| {
        return false;
      }
      used := used + {i};
      assert xs[n..][1..] == xs[n + 1..];
    }
    return true;
  }

  method ActivityEffectsContained(candidate: Activity, target: Activity) returns (ok: bool)
    ensures ok == EffectsContained(candidate, target)
    ensures ok ==> Contained(candidate, target)
  {
    if candidate.legs == [] && candidate.costs == [] {
      return false;
    }
    ok := MatchEffects(candidate.legs, target.legs, SameLeg);
    if ok {
      ok := MatchEffects(candidate.costs, target.costs, SameCost);
    }
    if ok {
      var _ := GreedyIsSound(candidate.legs, target.legs, SameLeg, {});
      var _ := GreedyIsSound(candidate.costs, target.costs, SameCost, {});
    }
  }

  /** Greedy success yields a pairing that avoids the indices already used. */
  lemma {:induction false} GreedyIsSound<T(!new)>(xs: seq<T>, ys: seq<T>, same: (T, T) -> bool, used: set<nat>)
    returns (p: seq<nat>)
    requires Greedy(xs, ys, same, used)
    ensures Pairing(xs, ys, same, p)
    ensures forall i :: 0 <= i < |p| ==> p[i] !in used
    decreases |xs|
  {
    if xs == [] {
      return [];
    }
    var i := FirstFree(ys, same, xs[0], used, 0);
    var q := GreedyIsSound(xs[1..], ys, same, used + {i});
    p := [i] + q;
    forall k | 0 <= k < |p| ensures p[k] < |ys| && same(xs[k], ys[p[k]]) && p[k] !in used {
      if k > 0 {
        assert p[k] == q[k - 1] && xs[1..][k - 1] == xs[k];
      }
    }
  }

  /** Whatever `x` could take instead of a target it shares with `y`, `y` could take too. */
  ghost predicate Yields<T(!new)>(x: T, y: T, ys: seq<T>, same: (T, T) -> bool) {
    forall a, b | 0 <= a < |ys| && 0 <= b < |ys| && same(x, ys[a]) && same(y, ys[a]) && same(x, ys[b]) ::
      same(y, ys[b])
  }

  ghost predicate Interchangeable<T(!new)>(xs: seq<T>, ys: seq<T>, same: (T, T) -> bool) {
    forall i, j :: 0 <= i < j < |xs| ==> Yields(xs[i], xs[j], ys, same)
  }

  /** A pairing of all effects becomes one of the later effects that leaves `i`,
    the greedy choice for the first effect, free. */
  lemma ExchangeFirst<T(!new)>(xs: seq<T>, ys: seq<T>, same: (T, T) -> bool, p: seq<nat>, i: nat) returns (q: seq<nat>)
    requires xs != [] && Interchangeable(xs, ys, same)
    requires Pairing(xs, ys, same, p)
    requires i < |ys| && same(xs[0], ys[i])
    ensures Pairing(xs[1..], ys, same, q)
    ensures forall k :: 0 <= k < |q| ==> q[k] != i && q[k] in p
  {
    q := seq(|p| - 1, k requires 0 <= k < |p| - 1 => if p[k + 1] == i then p[0] else p[k + 1]);
    forall k | 0 <= k < |q| ensures q[k] != i && q[k] in p && same(xs[1..][k], ys[q[k]]) {
      assert xs[1..][k] == xs[k + 1] && same(xs[k + 1], ys[p[k + 1]]);
      if p[k + 1] == i {
        assert p[0] != p[k + 1];
        assert Yields(xs[0], xs[k + 1], ys, same);
      }
    }
  }

  /** Greedy pairing finds a pairing whenever one exists. */
  lemma {:induction false} GreedyIsComplete<T(!new)>(
    xs: seq<T>, ys: seq<T>, same: (T, T) -> bool, used: set<nat>, p: seq<nat>)
    requires Interchangeable(xs, ys, same)
    requires Pairing(xs, ys, same, p)
    requires forall i :: 0 <= i < |p| ==> p[i] !in used
    ensures Greedy(xs, ys, same, used)
    decreases |xs|
  {
    if xs != [] {
      var i := FirstFree(ys, same, xs[0], used, 0);
      assert p[0] !in used && same(xs[0], ys[p[0]]);
      var q := ExchangeFirst(xs, ys, same, p, i);
      assert Interchangeable(xs[1..], ys, same) by {
        assert forall k :: 0 <= k < |xs| - 1 ==> xs[1..][k] == xs[k + 1];
      }
      GreedyIsComplete(xs[1..], ys, same, used + {i}, q);
    }
  }

  /** Two legs that agree in everything a match looks at except the settlement date. */
  predicate SameButSettlement(left: Leg, right: Leg) {
    SameLeg(left.(settlement := None), right)
  }

  /** A leg with a blank settlement date matches any; it must not come before a
    dated leg that wants one of the same target legs. */
  predicate WildcardsLast(legs: seq<Leg>) {
    forall i, j :: 0 <= i < j < |legs| && legs[i].settlement.None? && legs[j].settlement.Some? ==>
      !SameButSettlement(legs[i], legs[j])
  }

  lemma LegsInterchangeable(legs: seq<Leg>, target: seq<Leg>)
    requires WildcardsLast(legs)
    ensures Interchangeable(legs, target, SameLeg)
  {
    forall i, j | 0 <= i < j < |legs| ensures Yields(legs[i], legs[j], target, SameLeg) {
      if legs[i].settlement.None? && legs[j].settlement.Some? {
        assert !SameButSettlement(legs[i], legs[j]);
      }
    }
  }

  /** With wildcards last, the greedy test decides containment exactly. */
  lemma ContainmentIsExact(candidate: Activity, target: Activity)
    requires WildcardsLast(candidate.legs)
    ensures EffectsContained(candidate, target) <==> Contained(candidate, target)
  {
    AcceptedIsContained(candidate, target);
    if Contained(candidate, target) {
      LegsInterchangeable(candidate.legs, target.legs);
      assert Interchangeable(candidate.costs, target.costs, SameCost);
      var p :| Pairing(candidate.legs, target.legs, SameLeg, p);
      GreedyIsComplete(candidate.legs, target.legs, SameLeg, {}, p);
      var q :| Pairing(candidate.costs, target.costs, SameCost, q);
      GreedyIsComplete(candidate.costs, target.costs, SameCost, {}, q);
    }
  }

  // ------------------------------------------- what an early wildcard costs

  /** A leg that agrees with some leg at all, and a cost that agrees with some cost. */
  predicate LegMatchable(leg: Leg) {
    leg.effective.Some? && (leg.kind.Cash? || leg.instrument != 0)
  }

  predicate Matchable(candidate: Activity) {
    && (forall i :: 0 <= i < |candidate.legs| ==> LegMatchable(candidate.legs[i]))
    && (forall i :: 0 <= i < |candidate.costs| ==> candidate.costs[i].instrument != 0)
  }

  /** `x` wants exactly the target legs that the dated leg `d` wants. */
  predicate Twin(x: Leg, d: Leg) {
    SameLeg(d, x)
  }

  function TwinCount(xs: seq<Leg>, d: Leg): nat
    decreases |xs|
  {
    if xs == [] then 0 else (if Twin(xs[0], d) then 1 else 0) + TwinCount(xs[1..], d)
  }

  /** Indices below `m` that are still unused. */
  function Free(used: set<nat>, m: nat): set<nat> {
    set b | 0 <= b < m && b !in used
  }

  /** The target legs that `d` agrees with are exactly the first `m`. */
  ghost predicate WantedFirst(ys: seq<Leg>, m: nat, d: Leg) {
    m <= |ys| && forall b :: 0 <= b < |ys| ==> (SameLeg(d, ys[b]) <==> b < m)
  }

  /** A wildcard for `d` comes before a twin of `d`. */
  predicate EarlyWildcard(xs: seq<Leg>, d: Leg) {
    exists i, j :: 0 <= i < j < |xs| && xs[i].settlement.None? && SameButSettlement(xs[i], d) && Twin(xs[j], d)
  }

  lemma {:induction false} TwinsCounted(xs: seq<Leg>, d: Leg, j: nat)
    requires j < |xs| && Twin(xs[j], d)
    ensures TwinCount(xs, d) >= 1
    decreases |xs|
  {
    if j > 0 {
      assert xs[1..][j - 1] == xs[j];
      TwinsCounted(xs[1..], d, j - 1);
    }
  }

  lemma Taking(used: set<nat>, m: nat, i: nat)
    ensures Free(used + {i}, m) <= Free(used, m) && |Free(used + {i}, m)| <= |Free(used, m)|
    ensures i < m && i !in used ==> |Free(used + {i}, m)| == |Free(used, m)| - 1
  {
    var before, after := Free(used, m), Free(used + {i}, m);
    assert after == before - {i};
    if i < m && i !in used {
      assert i in before;
    }
    Smaller(after, before);
  }

  lemma {:induction false} Smaller(a: set<nat>, b: set<nat>)
    requires a <= b
    ensures |a| <= |b|
    decreases b
  {
    if a != {} {
      var x :| x in a;
      Smaller(a - {x}, b - {x});
    }
  }

  /** A first leg that wants everything `d` wants takes one of the first `m` if any is left. */
  lemma TakesWanted(x: Leg, ys: seq<Leg>, used: set<nat>, m: nat, d: Leg)
    requires WantedFirst(ys, m, d) && Free(used, m) != {}
    requires forall b :: 0 <= b < m ==> SameLeg(x, ys[b])
    ensures FirstFree(ys, SameLeg, x, used, 0) < m && FirstFree(ys, SameLeg, x, used, 0) !in used
  {
    var b :| b in Free(used, m);
    assert SameLeg(x, ys[b]);
  }

  lemma TwinWants(x: Leg, d: Leg, y: Leg)
    requires d.settlement.Some? && Twin(x, d)
    ensures SameLeg(x, y) <==> SameLeg(d, y)
  {
  }

  lemma WildcardWants(x: Leg, d: Leg, y: Leg)
    requires d.settlement.Some? && x.settlement.None? && SameButSettlement(x, d) && SameLeg(d, y)
    ensures SameLeg(x, y) && !Twin(x, d)
  {
  }

  ghost predicate Starved(xs: seq<Leg>, used: set<nat>, m: nat, d: Leg) {
    || |Free(used, m)| < TwinCount(xs, d)
    || (|Free(used, m)| <= TwinCount(xs, d) && EarlyWildcard(xs, d))
  }

  /** With no more wanted legs left than twins to serve, and a wildcard ahead of one of them, greedy pairing fails. */
  lemma {:induction false} StarvedFails(xs: seq<Leg>, ys: seq<Leg>, used: set<nat>, m: nat, d: Leg)
    requires d.settlement.Some? && WantedFirst(ys, m, d) && Starved(xs, used, m, d)
    ensures !Greedy(xs, ys, SameLeg, used)
    decreases |xs|
  {
    if xs != [] {
      var i := FirstFree(ys, SameLeg, xs[0], used, 0);
      if i < |ys| {
        StarvedNext(xs, ys, used, m, d);
        StarvedFails(xs[1..], ys, used + {i}, m, d);
      }
    }
  }

  lemma StarvedNext(xs: seq<Leg>, ys: seq<Leg>, used: set<nat>, m: nat, d: Leg)
    requires xs != [] && d.settlement.Some? && WantedFirst(ys, m, d) && Starved(xs, used, m, d)
    requires FirstFree(ys, SameLeg, xs[0], used, 0) < |ys|
    ensures Starved(xs[1..], used + {FirstFree(ys, SameLeg, xs[0], used, 0)}, m, d)
  {
    var i := FirstFree(ys, SameLeg, xs[0], used, 0);
    Taking(used, m, i);
    if Twin(xs[0], d) {
      TwinWants(xs[0], d, ys[i]);
      if EarlyWildcard(xs, d) {
        EarlyStays(xs, d);
      }
    } else if EarlyWildcard(xs, d) {
      if xs[0].settlement.None? && SameButSettlement(xs[0], d) {
        var k, j :| 0 <= k < j < |xs| && xs[k].settlement.None? && SameButSettlement(xs[k], d) && Twin(xs[j], d);
        TwinsCounted(xs, d, j);
        if Free(used, m) != {} {
          forall b | 0 <= b < m ensures SameLeg(xs[0], ys[b]) {
            WildcardWants(xs[0], d, ys[b]);
          }
          TakesWanted(xs[0], ys, used, m, d);
        }
      } else {
        EarlyStays(xs, d);
      }
    }
  }

  lemma EarlyStays(xs: seq<Leg>, d: Leg)
    requires EarlyWildcard(xs, d) && !(xs[0].settlement.None? && SameButSettlement(xs[0], d))
    ensures EarlyWildcard(xs[1..], d)
  {
    var i, j :| 0 <= i < j < |xs| && xs[i].settlement.None? && SameButSettlement(xs[i], d) && Twin(xs[j], d);
    assert xs[1..][i - 1] == xs[i] && xs[1..][j - 1] == xs[j];
  }

  // ------------------------------------------------- a target that needs care

  /** Where a leg that is no twin of `d` finds its place. */
  function Slot(x: Leg, d: Leg): Leg
    requires d.settlement.Some?
  {
    if Twin(x, d) then x.(effective := None)
    else if x.settlement.None? then x.(settlement := Some(d.settlement.value + 1))
    else x
  }

  /** As many copies of `d` as it has twins, and then a place for every other leg. */
  function HardTarget(xs: seq<Leg>, d: Leg): seq<Leg>
    requires d.settlement.Some?
  {
    seq(TwinCount(xs, d), _ => d) + seq(|xs|, k requires 0 <= k < |xs| => Slot(xs[k], d))
  }

  lemma HardTargetWants(xs: seq<Leg>, d: Leg)
    requires d.settlement.Some? && LegMatchable(d)
    ensures WantedFirst(HardTarget(xs, d), TwinCount(xs, d), d)
  {
    var ys, m := HardTarget(xs, d), TwinCount(xs, d);
    forall b | 0 <= b < |ys| ensures SameLeg(d, ys[b]) <==> b < m {
      if b >= m {
        assert ys[b] == Slot(xs[b - m], d);
      }
    }
  }

  lemma {:induction false} TwinCountConcat(xs: seq<Leg>, ys: seq<Leg>, d: Leg)
    ensures TwinCount(xs + ys, d) == TwinCount(xs, d) + TwinCount(ys, d)
    decreases |xs|
  {
    if xs == [] {
      assert xs + ys == ys;
    } else {
      assert (xs + ys)[1..] == xs[1..] + ys;
      TwinCountConcat(xs[1..], ys, d);
    }
  }

  lemma RankGrows(xs: seq<Leg>, d: Leg, k: nat, l: nat)
    requires k < l <= |xs|
    ensures TwinCount(xs[..k], d) + (if Twin(xs[k], d) then 1 else 0) <= TwinCount(xs[..l], d) <= TwinCount(xs, d)
  {
    assert xs[..l] == xs[..k] + ([xs[k]] + xs[k + 1..l]);
    TwinCountConcat(xs[..k], [xs[k]] + xs[k + 1..l], d);
    assert ([xs[k]] + xs[k + 1..l])[1..] == xs[k + 1..l];
    assert xs == xs[..l] + xs[l..];
    TwinCountConcat(xs[..l], xs[l..], d);
  }

  /** A twin's place is its rank among the twins; any other leg has its own. */
  function Place(xs: seq<Leg>, d: Leg, k: nat): nat
    requires k < |xs|
  {
    if Twin(xs[k], d) then TwinCount(xs[..k], d) else TwinCount(xs, d) + k
  }

  lemma PlaceFits(xs: seq<Leg>, d: Leg, k: nat)
    requires k < |xs| && d.settlement.Some? && LegMatchable(d) && LegMatchable(xs[k])
    ensures Place(xs, d, k) < |HardTarget(xs, d)| && SameLeg(xs[k], HardTarget(xs, d)[Place(xs, d, k)])
    ensures Twin(xs[k], d) <==> Place(xs, d, k) < TwinCount(xs, d)
  {
    RankGrows(xs, d, k, |xs|);
    assert xs[..|xs|] == xs;
    if Twin(xs[k], d) {
      TwinWants(xs[k], d, d);
    }
  }

  lemma HardTargetPairs(xs: seq<Leg>, d: Leg) returns (p: seq<nat>)
    requires d.settlement.Some? && LegMatchable(d) && forall k :: 0 <= k < |xs| ==> LegMatchable(xs[k])
    ensures Pairing(xs, HardTarget(xs, d), SameLeg, p)
  {
    p := seq(|xs|, k requires 0 <= k < |xs| => Place(xs, d, k));
    forall k | 0 <= k < |p| ensures p[k] < |HardTarget(xs, d)| && SameLeg(xs[k], HardTarget(xs, d)[p[k]]) {
      PlaceFits(xs, d, k);
    }
    forall k, l | 0 <= k < l < |p| ensures p[k] != p[l] {
      PlaceFits(xs, d, k);
      PlaceFits(xs, d, l);
      RankGrows(xs, d, k, l);
    }
  }

  lemma EveryTwinAtStart(xs: seq<Leg>, d: Leg)
    requires EarlyWildcard(xs, d)
    ensures Starved(xs, {}, TwinCount(xs, d), d)
  {
    FreeAtStart(TwinCount(xs, d));
  }

  lemma {:induction false} FreeAtStart(m: nat)
    ensures |Free({}, m)| == m
  {
    if m > 0 {
      FreeAtStart(m - 1);
      assert Free({}, m) == Free({}, m - 1) + {m - 1};
    }
  }

  lemma OwnCosts(costs: seq<CostAdjustment>)
    requires forall i :: 0 <= i < |costs| ==> costs[i].instrument != 0
    ensures exists p :: Pairing(costs, costs, SameCost, p)
  {
    assert Pairing(costs, costs, SameCost, seq(|costs|, i => i));
  }

  /** Every candidate with a wildcard ahead of a dated competitor has a target that
    contains it and that the greedy test refuses. */
  lemma EarlyWildcardRejects(candidate: Activity, i: nat, j: nat) returns (target: Activity)
    requires Matchable(candidate) && i < j < |candidate.legs|
    requires candidate.legs[i].settlement.None? && candidate.legs[j].settlement.Some?
    requires SameButSettlement(candidate.legs[i], candidate.legs[j])
    ensures Contained(candidate, target) && !EffectsContained(candidate, target)
  {
    var d := candidate.legs[j];
    assert Twin(d, d) && EarlyWildcard(candidate.legs, d);
    target := candidate.(legs := HardTarget(candidate.legs, d));
    var p := HardTargetPairs(candidate.legs, d);
    OwnCosts(candidate.costs);
    HardTargetWants(candidate.legs, d);
    EveryTwinAtStart(candidate.legs, d);
    StarvedFails(candidate.legs, target.legs, {}, TwinCount(candidate.legs, d), d);
  }

  lemma UnmatchableIsRefused(candidate: Activity, target: Activity)
    requires !Matchable(candidate)
    ensures !Contained(candidate, target)
  {
    if Contained(candidate, target) {
      var p :| Pairing(candidate.legs, target.legs, SameLeg, p);
      var q :| Pairing(candidate.costs, target.costs, SameCost, q);
      forall i | 0 <= i < |candidate.legs| ensures LegMatchable(candidate.legs[i]) {
        assert SameLeg(candidate.legs[i], target.legs[p[i]]);
      }
      forall i | 0 <= i < |candidate.costs| ensures candidate.costs[i].instrument != 0 {
        assert SameCost(candidate.costs[i], target.costs[q[i]]);
      }
    }
  }

  ghost predicate TestIsExact(candidate: Activity) {
    forall target: Activity :: EffectsContained(candidate, target) <==> Contained(candidate, target)
  }

  /** The greedy test decides containment in every target if and only if no
    wildcard of the candidate comes before a dated competitor, or the candidate
    holds an effect that matches nothing and is always refused. */
  lemma GreedyIsExactly(candidate: Activity)
    ensures TestIsExact(candidate) <==> WildcardsLast(candidate.legs) || !Matchable(candidate)
  {
    if WildcardsLast(candidate.legs) {
      forall target: Activity ensures EffectsContained(candidate, target) <==> Contained(candidate, target) {
        ContainmentIsExact(candidate, target);
      }
    } else if !Matchable(candidate) {
      forall target: Activity ensures EffectsContained(candidate, target) <==> Contained(candidate, target) {
        UnmatchableIsRefused(candidate, target);
        AcceptedIsContained(candidate, target);
      }
    } else {
      var i, j :| 0 <= i < j < |candidate.legs| && candidate.legs[i].settlement.None? &&
        candidate.legs[j].settlement.Some? && SameButSettlement(candidate.legs[i], candidate.legs[j]);
      var target := EarlyWildcardRejects(candidate, i, j);
    }
  }

  lemma AcceptedIsContained(candidate: Activity, target: Activity)
    ensures EffectsContained(candidate, target) ==> Contained(candidate, target)
  {
    if EffectsContained(candidate, target) {
      var _ := GreedyIsSound(candidate.legs, target.legs, SameLeg, {});
      var _ := GreedyIsSound(candidate.costs, target.costs, SameCost, {});
    }
  }
}

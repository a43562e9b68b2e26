/** Daily profit, daily return and cumulative time-weighted return over a run of valued days. */
module Returns {
  import opened Activities
  import opened Valuation

  /** The stored point a run continues from, if there is one. */
  datatype Anchor = Anchor(dated: bool, total: Option<real>, twr: Option<real>)

  datatype Track = Track(prev: Option<real>, factor: real, available: bool, first: bool)
  datatype Gains = Gains(pnl: Option<real>, ret: Option<real>, twr: Option<real>)

  /** An absent anchor has no content. */
  predicate WellFormed(anchor: Anchor) {
    !anchor.dated ==> anchor.total.None? && anchor.twr.None?
  }

  function Start(anchor: Anchor, covered: bool): Track {
    Track(anchor.total, 1.0 + (if anchor.twr.Some? then anchor.twr.value else 0.0),
          covered && (anchor.twr.Some? || !anchor.dated), !anchor.dated)
  }

  predicate Complete(v: Values) {
    v.total.Some? && v.flow.Some?
  }

  /** The previous value is known and can be divided by. */
  predicate Divisible(prev: Option<real>) {
    prev.Some? && prev.value != 0.0
  }

  function Profit(prev: real, v: Values): real
    requires Complete(v)
  {
    v.total.value - prev - v.flow.value
  }

  function NextTrack(t: Track, v: Values, covered: bool): Track {
    var measured := covered && Complete(v) && Divisible(t.prev);
    Track(
      if Complete(v) then Some(v.total.value) else None,
      if measured && t.available then t.factor * (1.0 + Profit(t.prev.value, v) / t.prev.value) else t.factor,
      t.available && covered && Complete(v),
      false)
  }

  function GainsOf(t: Track, v: Values, covered: bool): Gains {
    if covered && Complete(v) && Divisible(t.prev) then
      var pnl := Profit(t.prev.value, v);
      Gains(Some(pnl), Some(pnl / t.prev.value), if t.available then Some(NextTrack(t, v, covered).factor - 1.0) else None)
    else if covered && Complete(v) && t.first then Gains(None, None, Some(0.0))
    else Gains(None, None, None)
  }

  function TrackAfter(anchor: Anchor, days: seq<Values>, covered: bool): Track
    decreases |days|
  {
    if days == [] then Start(anchor, covered)
    else NextTrack(TrackAfter(anchor, days[..|days| - 1], covered), days[|days| - 1], covered)
  }

  /** The gains reported for day `i` of a run. */
  function GainsAt(anchor: Anchor, days: seq<Values>, covered: bool, i: nat): Gains
    requires i < |days|
  {
    GainsOf(TrackAfter(anchor, days[..i], covered), days[i], covered)
  }

  // ---------------------------------------------------------------- meaning

  function ValueBefore(anchor: Anchor, days: seq<Values>, i: nat): Option<real>
    requires i <= |days|
  {
    if i == 0 then anchor.total else if Complete(days[i - 1]) then days[i - 1].total else None
  }

  predicate AllComplete(days: seq<Values>) {
    forall i :: 0 <= i < |days| ==> Complete(days[i])
  }

  /** What the run remembers after any prefix. */
  lemma {:induction false} TrackMeaning(anchor: Anchor, days: seq<Values>, covered: bool)
    ensures var t := TrackAfter(anchor, days, covered);
      && t.prev == ValueBefore(anchor, days, |days|)
      && (t.first <==> days == [] && !anchor.dated)
      && (t.available <==> Start(anchor, covered).available && AllComplete(days))
    decreases |days|
  {
    if days != [] {
      var n := |days| - 1;
      TrackMeaning(anchor, days[..n], covered);
      assert days == days[..n] + [days[n]];
    }
  }

  /** Exactly when a day carries a profit, and what it then is. */
  lemma ProfitExactly(anchor: Anchor, days: seq<Values>, covered: bool, i: nat)
    requires i < |days|
    ensures var g, prev := GainsAt(anchor, days, covered, i), ValueBefore(anchor, days, i);
      && (g.pnl.Some? <==> covered && Complete(days[i]) && Divisible(prev))
      && (g.pnl.Some? <==> g.ret.Some?)
      && (g.pnl.Some? ==> g.pnl.value == days[i].total.value - prev.value - days[i].flow.value)
      && (g.ret.Some? ==> g.ret.value == g.pnl.value / prev.value)
  {
    TrackMeaning(anchor, days[..i], covered);
    assert i > 0 ==> days[..i][i - 1] == days[i - 1];
  }

  /** Exactly when a day carries a cumulative return: it is complete, its
    predecessor can be divided by, and no day of the run before it was incomplete. */
  lemma TwrExactly(anchor: Anchor, days: seq<Values>, covered: bool, i: nat)
    requires i < |days| && WellFormed(anchor)
    ensures GainsAt(anchor, days, covered, i).twr.Some? <==>
      && covered
      && Complete(days[i])
      && ((i == 0 && !anchor.dated) ||
          (&& Divisible(ValueBefore(anchor, days, i))
           && (anchor.twr.Some? || !anchor.dated)
           && AllComplete(days[..i])))
  {
    TrackMeaning(anchor, days[..i], covered);
    assert i > 0 ==> days[..i][i - 1] == days[i - 1];
  }

  /** After an incomplete day no later day of the run carries a cumulative return. */
  lemma NoReturnAfterGap(anchor: Anchor, days: seq<Values>, covered: bool, gap: nat, i: nat)
    requires gap < i < |days| && WellFormed(anchor) && !Complete(days[gap])
    ensures GainsAt(anchor, days, covered, i).twr.None?
  {
    TwrExactly(anchor, days, covered, i);
    assert days[..i][gap] == days[gap];
  }

  // ------------------------------------------------------ chains and telescopes

  predicate Valued(days: seq<Values>) {
    forall i :: 0 <= i < |days| ==> Complete(days[i]) && days[i].total.value != 0.0
  }

  /** One plus the daily return, with flows arriving before the close. */
  function Ratio(prev: real, v: Values): real
    requires prev != 0.0 && Complete(v)
  {
    (v.total.value - v.flow.value) / prev
  }

  /** The product of the daily ratios, starting from the value `open`. */
  function Growth(open: real, days: seq<Values>): real
    requires open != 0.0 && Valued(days)
    decreases |days|
  {
    if days == [] then 1.0
    else
      var n := |days| - 1;
      Growth(open, days[..n]) * Ratio(if n == 0 then open else days[n - 1].total.value, days[n])
  }

  lemma ZeroFactor(x: real, y: real)
    requires x * y == 0.0 && y != 0.0
    ensures x == 0.0
  {
    assert x * y / y == x;
  }

  lemma RatioIsOnePlusReturn(prev: real, v: Values)
    requires prev != 0.0 && Complete(v)
    ensures 1.0 + Profit(prev, v) / prev == Ratio(prev, v)
  {
    var x := v.total.value - v.flow.value;
    var q, r := (x - prev) / prev, x / prev;
    assert q * prev == x - prev && r * prev == x;
    ZeroFactor(1.0 + q - r, prev);
    assert Profit(prev, v) == x - prev;
  }

  lemma Reassociate(f: real, g: real, r: real)
    ensures f * g * r == f * (g * r)
  {
  }

  lemma FactorSteps(t: Track, v: Values)
    requires t.available && Divisible(t.prev) && Complete(v)
    ensures NextTrack(t, v, true).factor == t.factor * Ratio(t.prev.value, v)
  {
    RatioIsOnePlusReturn(t.prev.value, v);
  }

  /** Continuing from a stored point: the factor is the stored one times the growth since. */
  lemma {:induction false} FactorFromAnchor(anchor: Anchor, days: seq<Values>)
    requires Divisible(anchor.total) && anchor.twr.Some? && Valued(days)
    ensures TrackAfter(anchor, days, true).factor == (1.0 + anchor.twr.value) * Growth(anchor.total.value, days)
    decreases |days|
  {
    if days != [] {
      var n := |days| - 1;
      FactorFromAnchor(anchor, days[..n]);
      TrackMeaning(anchor, days[..n], true);
      var prev := if n == 0 then anchor.total.value else days[n - 1].total.value;
      assert n > 0 ==> days[..n][n - 1] == days[n - 1];
      FactorSteps(TrackAfter(anchor, days[..n], true), days[n]);
      Reassociate(1.0 + anchor.twr.value, Growth(anchor.total.value, days[..n]), Ratio(prev, days[n]));
    }
  }

  const NO_ANCHOR := Anchor(false, None, None)

  /** Starting afresh: the first day opens the chain, later days multiply it. */
  lemma {:induction false} FactorFromStart(days: seq<Values>)
    requires Valued(days) && |days| >= 1
    ensures TrackAfter(NO_ANCHOR, days, true).factor == Growth(days[0].total.value, days[1..])
    decreases |days|
  {
    var n := |days| - 1;
    TrackMeaning(NO_ANCHOR, days[..n], true);
    if n == 0 {
      assert days[..0] == [] && days[1..] == [];
    } else {
      FactorFromStart(days[..n]);
      assert days[..n][1..] == days[1..][..n - 1];
      assert days[..n][n - 1] == days[n - 1];
      FactorSteps(TrackAfter(NO_ANCHOR, days[..n], true), days[n]);
      assert n > 1 ==> days[1..][n - 2] == days[n - 1];
    }
  }

  /** One plus the reported return of the last day is the product of (V_d - F_d) / V_(d-1). */
  lemma TwrIsProduct(days: seq<Values>)
    requires Valued(days) && |days| >= 1
    ensures var g := GainsAt(NO_ANCHOR, days, true, |days| - 1);
      g.twr.Some? && 1.0 + g.twr.value == Growth(days[0].total.value, days[1..])
  {
    var n := |days| - 1;
    assert days[..n + 1] == days;
    TwrExactly(NO_ANCHOR, days, true, n);
    TrackMeaning(NO_ANCHOR, days[..n], true);
    FactorFromStart(days);
    assert n > 0 ==> days[..n][n - 1] == days[n - 1];
  }

  /** The same when the run continues from a stored point. */
  lemma TwrFromAnchor(anchor: Anchor, days: seq<Values>)
    requires anchor.dated && Divisible(anchor.total) && anchor.twr.Some?
    requires Valued(days) && |days| >= 1
    ensures var g := GainsAt(anchor, days, true, |days| - 1);
      g.twr.Some? && 1.0 + g.twr.value == (1.0 + anchor.twr.value) * Growth(anchor.total.value, days)
  {
    var n := |days| - 1;
    TwrExactly(anchor, days, true, n);
    TrackMeaning(anchor, days[..n], true);
    FactorFromAnchor(anchor, days);
    assert n > 0 ==> days[..n][n - 1] == days[n - 1];
  }

  /** What the run starts with, times the ratios of all days whose previous value can be divided by. */
  function Chained(anchor: Anchor, days: seq<Values>): real
    requires AllComplete(days)
    decreases |days|
  {
    if days == [] then FactorOf(anchor)
    else
      var n := |days| - 1;
      var prev := if n == 0 then anchor.total else days[n - 1].total;
      Chained(anchor, days[..n]) * RatioTo(prev, days[n])
  }

  function FactorOf(anchor: Anchor): real {
    match anchor.twr
    case Some(twr) => 1.0 + twr
    case None => 1.0
  }

  function RatioTo(prev: Option<real>, v: Values): real
    requires Complete(v)
  {
    if prev.Some? && prev.value != 0.0 then Ratio(prev.value, v) else 1.0
  }

  lemma FactorMoves(t: Track, v: Values)
    requires t.available && Complete(v)
    ensures NextTrack(t, v, true).factor == t.factor * RatioTo(t.prev, v)
  {
    if Divisible(t.prev) {
      FactorSteps(t, v);
    }
  }

  lemma FactorStep(t: Track, v: Values, before: real, chained: real)
    requires t.available && Complete(v) && t.factor == before && chained == before * RatioTo(t.prev, v)
    ensures NextTrack(t, v, true).factor == chained
  {
    FactorMoves(t, v);
  }

  lemma ChainedNext(anchor: Anchor, days: seq<Values>, n: nat, prev: Option<real>)
    requires n + 1 == |days| && AllComplete(days) && prev == ValueBefore(anchor, days[..n], n)
    ensures Chained(anchor, days) == Chained(anchor, days[..n]) * RatioTo(prev, days[n])
  {
    assert n > 0 ==> days[..n][n - 1] == days[n - 1];
  }

  lemma {:induction false} FactorIsChained(anchor: Anchor, days: seq<Values>)
    requires AllComplete(days) && Start(anchor, true).available
    ensures TrackAfter(anchor, days, true).factor == Chained(anchor, days)
    decreases |days|
  {
    if days != [] {
      var n := |days| - 1;
      var t := TrackAfter(anchor, days[..n], true);
      FactorIsChained(anchor, days[..n]);
      TrackMeaning(anchor, days[..n], true);
      ChainedNext(anchor, days, n, t.prev);
      FactorStep(t, days[n], Chained(anchor, days[..n]), Chained(anchor, days));
    }
  }

  /** Every reported return, whichever days were worth nothing: one plus it is the
    starting factor times the ratios of all days that have one. */
  lemma TwrIsChained(anchor: Anchor, days: seq<Values>, covered: bool, i: nat)
    requires i < |days| && WellFormed(anchor) && GainsAt(anchor, days, covered, i).twr.Some?
    ensures AllComplete(days[..i + 1])
    ensures 1.0 + GainsAt(anchor, days, covered, i).twr.value == Chained(anchor, days[..i + 1])
  {
    TwrExactly(anchor, days, covered, i);
    TrackMeaning(anchor, days[..i], covered);
    assert days[..i + 1][..i] == days[..i] && days[..i + 1][i] == days[i];
    if i > 0 {
      assert days[..i][i - 1] == days[i - 1] && days[..i + 1][i - 1] == days[i - 1];
    }
    FactorIsChained(anchor, days[..i + 1]);
  }

  function ProfitAndFlow(anchor: Anchor, days: seq<Values>, i: nat): real
    requires i < |days| && Complete(days[i])
  {
    var pnl := GainsAt(anchor, days, true, i).pnl;
    (if pnl.Some? then pnl.value else 0.0) + days[i].flow.value
  }

  /** Total profit plus total flow over the days after the first `m`. */
  function Explained(anchor: Anchor, days: seq<Values>, m: nat, n: nat): real
    requires m <= n <= |days| && AllComplete(days)
    decreases n
  {
    if m == n then 0.0 else Explained(anchor, days, m, n - 1) + ProfitAndFlow(anchor, days, n - 1)
  }

  /** Profit and flow together explain every change of value. */
  lemma {:induction false} ProfitTelescopes(anchor: Anchor, days: seq<Values>, m: nat, n: nat)
    requires Valued(days) && 1 <= m <= n <= |days|
    ensures Explained(anchor, days, m, n) == days[n - 1].total.value - days[m - 1].total.value
    decreases n
  {
    if m < n {
      ProfitTelescopes(anchor, days, m, n - 1);
      ProfitExactly(anchor, days, true, n - 1);
    }
  }
}

/** The daily calculation, loop by loop, against `Valuation` and `Returns`. */
module Calculator {
  import opened Activities
  import opened Market
  import opened Valuation
  import opened Returns
  import DayValues
  import Folds

  /** A stored figure: rounded half away from zero to eighteen digits. */
  function Round18(x: real): real {
    if x < 0.0 then -((0.5 - x * SCALE).Floor as real / SCALE) else (x * SCALE + 0.5).Floor as real / SCALE
  }

  function Stored(x: Option<real>): Option<real> {
    if x.Some? then Some(Round18(x.value)) else None
  }

  function StoredValues(v: Values): Values {
    Values(Stored(v.cash), Stored(v.holdings), Stored(v.flow), Stored(v.total))
  }

  function StoredGains(g: Gains): Gains {
    Gains(Stored(g.pnl), Stored(g.ret), Stored(g.twr))
  }

  /** `n` is the whole number nearest to `x` times 10^18, the one further from zero if two are. */
  predicate IsNearest(x: real, n: int) {
    var scaled := x * 1000000000000000000.0;
    var gap := if scaled < n as real then n as real - scaled else scaled - n as real;
    gap < 0.5 || (gap == 0.5 && (if x < 0.0 then n as real < scaled else scaled < n as real))
  }

  ghost predicate IsRounded(x: real, y: real) {
    exists n: int :: IsNearest(x, n) && y == n as real / 1000000000000000000.0
  }

  lemma RoundedIs(x: real)
    ensures IsRounded(x, Round18(x))
  {
    var scaled := x * 1000000000000000000.0;
    var n := if x < 0.0 then -(0.5 - scaled).Floor else (scaled + 0.5).Floor;
    assert IsNearest(x, n);
  }

  /** No number has two nearest multiples. */
  lemma RoundedOnce(x: real, y: real, z: real)
    requires IsRounded(x, y) && IsRounded(x, z)
    ensures y == z
  {
    var m: int :| IsNearest(x, m) && y == m as real / 1000000000000000000.0;
    var n: int :| IsNearest(x, n) && z == n as real / 1000000000000000000.0;
    assert m == n;
  }

  ghost predicate AreRounded(x: Option<real>, y: Option<real>) {
    (x.None? <==> y.None?) && (x.Some? ==> IsRounded(x.value, y.value))
  }

  /** A stored day holds each figure rounded, and no other. */
  ghost predicate IsStoredAs(v: Values, stored: Values) {
    && AreRounded(v.cash, stored.cash) && AreRounded(v.holdings, stored.holdings)
    && AreRounded(v.flow, stored.flow) && AreRounded(v.total, stored.total)
  }

  ghost predicate AreStoredAs(g: Gains, stored: Gains) {
    AreRounded(g.pnl, stored.pnl) && AreRounded(g.ret, stored.ret) && AreRounded(g.twr, stored.twr)
  }

  lemma StoredIs(x: Option<real>)
    ensures AreRounded(x, Stored(x))
  {
    if x.Some? {
      RoundedIs(x.value);
    }
  }

  lemma StoredValuesAre(v: Values)
    ensures IsStoredAs(v, StoredValues(v))
  {
    StoredIs(v.cash);
    StoredIs(v.holdings);
    StoredIs(v.flow);
    StoredIs(v.total);
  }

  lemma StoredGainsAre(g: Gains)
    ensures AreStoredAs(g, StoredGains(g))
  {
    StoredIs(g.pnl);
    StoredIs(g.ret);
    StoredIs(g.twr);
  }

  datatype Point = Point(day: Day, values: Values, gains: Gains)

  // ------------------------------------------------------------------ order

  /** Undated activities come first, as blank text does. */
  predicate Later(a: Activity, b: Activity) {
    ActivityDate(a).Some? && (ActivityDate(b).None? || ActivityDate(b).value < ActivityDate(a).value)
  }

  function EarliestLegDate(a: Activity, n: nat): Option<Day>
    requires n <= |a.legs|
  {
    if n == 0 then None else EarlierDate(EarliestLegDate(a, n - 1), LegDate(a, a.legs[n - 1]))
  }

  function ActivityDate(a: Activity): Option<Day> {
    FirstDate(EarliestLegDate(a, |a.legs|),
      FirstDate(a.settlementDate, FirstDate(a.tradeDate, OccurredDay(a))))
  }

  function Insert(xs: seq<Activity>, a: Activity): (ys: seq<Activity>)
    ensures multiset(ys) == multiset(xs) + multiset{a}
    decreases |xs|
  {
    if xs == [] || !Later(xs[|xs| - 1], a) then xs + [a]
    else
      assert xs == xs[..|xs| - 1] + [xs[|xs| - 1]];
      Insert(xs[..|xs| - 1], a) + [xs[|xs| - 1]]
  }

  /** The stable order by date in which activities are replayed. */
  function InDateOrder(xs: seq<Activity>): (ys: seq<Activity>)
    ensures multiset(ys) == multiset(xs)
    decreases |xs|
  {
    if xs == [] then []
    else
      assert xs == xs[..|xs| - 1] + [xs[|xs| - 1]];
      Insert(InDateOrder(xs[..|xs| - 1]), xs[|xs| - 1])
  }

  // ------------------------------------------------------------------ totals

  ghost predicate IsCashWorth(worth: string -> Option<real>, cash: map<string, real>, ctx: Context, day: Day) {
    forall c {:trigger CashValue(cash, ctx, day, c)} :: worth(c) == CashValue(cash, ctx, day, c)
  }

  ghost predicate IsHoldingWorth(worth: nat -> Option<real>, positions: map<nat, real>, ctx: Context, day: Day) {
    forall id {:trigger HoldingValue(positions, ctx, day, id)} :: worth(id) == HoldingValue(positions, ctx, day, id)
  }

  method ValueBalance(cash: map<string, real>, currency: string, ctx: Context, day: Day, ghost worth: string -> Option<real>)
    returns (value: Option<real>)
    requires currency in cash && IsCashWorth(worth, cash, ctx, day)
    ensures value == worth(currency)
  {
    assert worth(currency) == CashValue(cash, ctx, day, currency);
    if cash[currency] == 0.0 {
      return Some(0.0);
    }
    value := ValueCurrency(cash[currency], currency, ctx, day);
  }

  method ValueHolding(positions: map<nat, real>, id: nat, ctx: Context, day: Day, ghost worth: nat -> Option<real>)
    returns (value: Option<real>)
    requires id in positions && IsHoldingWorth(worth, positions, ctx, day)
    ensures value == worth(id)
  {
    assert worth(id) == HoldingValue(positions, ctx, day, id);
    if positions[id] == 0.0 {
      return Some(0.0);
    }
    value := ValueSecurity(positions[id], id, ctx, day);
  }

  method SumCash(cash: map<string, real>, ctx: Context, day: Day, ghost worth: string -> Option<real>) returns (sum: Option<real>)
    requires IsCashWorth(worth, cash, ctx, day)
    ensures sum == TotalOver(cash.Keys, worth)
  {
    var total, ok := 0.0, true;
    var rest := cash.Keys;
    while rest != {}
      invariant rest <= cash.Keys
      invariant TotalOver(cash.Keys, worth) == Plus(if ok then Some(total) else None, TotalOver(rest, worth))
      decreases |rest|
    {
      var currency := Folds.AnyOf(rest);
      AnyOrder(rest, worth, currency);
      rest := rest - {currency};
      var value := ValueBalance(cash, currency, ctx, day, worth);
      if value.None? {
        ok := false;
      } else {
        total := total + value.value;
      }
    }
    return if ok then Some(total) else None;
  }

  method SumPositions(positions: map<nat, real>, ctx: Context, day: Day, ghost worth: nat -> Option<real>)
    returns (sum: Option<real>)
    requires IsHoldingWorth(worth, positions, ctx, day)
    ensures sum == TotalOver(positions.Keys, worth)
  {
    var total, ok := 0.0, true;
    var rest := positions.Keys;
    while rest != {}
      invariant rest <= positions.Keys
      invariant TotalOver(positions.Keys, worth) == Plus(if ok then Some(total) else None, TotalOver(rest, worth))
      decreases |rest|
    {
      var id := Folds.AnyOf(rest);
      AnyOrder(rest, worth, id);
      rest := rest - {id};
      var value := ValueHolding(positions, id, ctx, day, worth);
      if value.None? {
        ok := false;
      } else {
        total := total + value.value;
      }
    }
    return if ok then Some(total) else None;
  }

  method ValueCash(cash: map<string, real>, ctx: Context, day: Day) returns (value: Option<real>)
    ensures value == TotalOver(cash.Keys, CashWorth(cash, ctx, day))
    ensures value == if DayValues.CashKnown(cash, ctx, day)
      then Some(DayValues.SumOver(cash.Keys, DayValues.AtRates(cash, ctx, day))) else None
  {
    value := SumCash(cash, ctx, day, CashWorth(cash, ctx, day));
    DayValues.CashIsConverted(cash, ctx, day);
  }

  method ValuePositions(positions: map<nat, real>, ctx: Context, day: Day) returns (value: Option<real>)
    ensures value == TotalOver(positions.Keys, HoldingWorth(positions, ctx, day))
    ensures value == if DayValues.HoldingsKnown(positions, ctx, day)
      then Some(DayValues.SumOver(positions.Keys, DayValues.AtPrices(positions, ctx, day))) else None
  {
    value := SumPositions(positions, ctx, day, HoldingWorth(positions, ctx, day));
    DayValues.HoldingsAreConverted(positions, ctx, day);
  }

  method ValueCurrency(amount: real, currency: string, ctx: Context, day: Day) returns (value: Option<real>)
    ensures value == CurrencyWorth(amount, ctx, currency, day)
  {
    var rate := FindRate(ctx, currency, day);
    return Times(amount, rate);
  }

  method ValueSecurity(quantity: real, id: nat, ctx: Context, day: Day) returns (value: Option<real>)
    ensures value == SecurityWorth(quantity, ctx, id, day)
  {
    var price := FindPrice(ctx, id, day);
    if price.None? {
      return None;
    }
    var rate := FindRate(ctx, CurrencyOf(ctx, id), day);
    return Worth(quantity, price, rate);
  }

  method ExternalFlow(events: seq<DatedLeg>, ctx: Context, day: Day) returns (flow: Option<real>)
    ensures flow == Flow(events, ctx, day)
    ensures flow == if DayValues.FlowKnown(events, ctx, day) then Some(Sum(events, DayValues.FlowPart(ctx, day))) else None
  {
    var total, ok := 0.0, true;
    for i := 0 to |events|
      invariant Flow(events[..i], ctx, day) == if ok then Some(total) else None
    {
      assert events[..i + 1][..i] == events[..i];
      var e := events[i];
      if !Counts(e.activity) || !ExternalFlowType(e.activity.kind) {
        continue;
      }
      var value: Option<real> := Some(0.0);
      if e.leg.kind.Cash? {
        value := ValueCurrency(Amount(e.leg), e.leg.currency, ctx, day);
      } else if e.activity.kind == "security_transfer" {
        value := ValueSecurity(Amount(e.leg), e.leg.instrument, ctx, day);
      }
      if value.None? {
        ok := false;
      } else {
        total := total + value.value;
      }
    }
    assert events[..|events|] == events;
    DayValues.FlowIsConverted(events, ctx, day);
    return if ok then Some(total) else None;
  }

  // ------------------------------------------------------------------ replay

  /** The legs in replay order, filed under their dates up to `to`. */
  method GroupByDate(legs: seq<DatedLeg>, to: Day) returns (byDate: map<Day, seq<DatedLeg>>)
    ensures forall d | d <= to :: Events(byDate, d) == On(legs, d)
  {
    byDate := map[];
    for i := 0 to |legs|
      invariant forall d | d <= to :: Events(byDate, d) == On(legs[..i], d)
    {
      var date := DateOf(legs[i]);
      assert legs[..i + 1][..i] == legs[..i];
      ghost var before := byDate;
      if date.Some? && date.value <= to {
        byDate := byDate[date.value := Events(byDate, date.value) + [legs[i]]];
      }
      forall d | d <= to
        ensures Events(byDate, d) == On(legs[..i + 1], d)
      {
        assert Events(before, d) == On(legs[..i], d);
      }
    }
    assert legs[..|legs|] == legs;
  }

  function Events(byDate: map<Day, seq<DatedLeg>>, day: Day): seq<DatedLeg> {
    if day in byDate then byDate[day] else []
  }

  lemma BeforeNext(legs: seq<DatedLeg>, i: nat, day: Day)
    requires i < |legs|
    ensures Before(legs[..i + 1], day) == Before(legs[..i], day) + (if DatedBefore(legs[i], day) then [legs[i]] else [])
    ensures !DatedBefore(legs[i], day) ==> Before(legs[..i + 1], day) == Before(legs[..i], day)
  {
    assert legs[..i + 1][..i] == legs[..i];
  }

  /** Replays everything dated before `from`. */
  method OpeningBook(legs: seq<DatedLeg>, from: Day) returns (book: Book)
    ensures book == Replay(Before(legs, from))
  {
    book := EMPTY_BOOK;
    for i := 0 to |legs|
      invariant book == Replay(Before(legs[..i], from))
    {
      BeforeNext(legs, i, from);
      if DatedBefore(legs[i], from) {
        book := ApplyLeg(book, legs[i]);
        Folds.FoldSnoc(ApplyLeg, EMPTY_BOOK, Before(legs[..i], from), legs[i]);
      }
    }
    assert legs[..|legs|] == legs;
  }

  method ApplyAll(start: Book, events: seq<DatedLeg>) returns (book: Book)
    ensures book == Folds.Fold(ApplyLeg, start, events)
  {
    book := start;
    for i := 0 to |events|
      invariant book == Folds.Fold(ApplyLeg, start, events[..i])
    {
      assert events[..i + 1][..i] == events[..i];
      book := ApplyLeg(book, events[i]);
    }
    assert events[..|events|] == events;
  }

  /** Values one day's closing book. */
  method ValueDay(book: Book, events: seq<DatedLeg>, ctx: Context, day: Day) returns (v: Values)
    ensures v == ValuesOf(book, events, ctx, day)
  {
    var cash := ValueCash(book.cash, ctx, day);
    var holdings := ValuePositions(book.positions, ctx, day);
    var flow := ExternalFlow(events, ctx, day);
    v := Values(cash, holdings, flow, None);
    if cash.Some? && holdings.Some? && flow.Some? {
      v := v.(total := Some(cash.value + holdings.value));
    }
  }

  function DaysIn(from: Day, to: Day): nat {
    if from <= to then to - from + 1 else 0
  }

  /** The values of the `n` days from `from`. */
  ghost function Days(value: Day -> Values, from: Day, n: nat): (days: seq<Values>)
    ensures |days| == n && forall i :: 0 <= i < n ==> days[i] == value(from + i)
  {
    seq(n, i => value(from + i))
  }

  /** The exact values of every day, from the legs alone. */
  ghost function Daily(legs: seq<DatedLeg>, ctx: Context): Day -> Values {
    day => LegValues(legs, ctx, day)
  }

  ghost predicate IsDaily(value: Day -> Values, legs: seq<DatedLeg>, ctx: Context) {
    forall day {:trigger LegValues(legs, ctx, day)} :: value(day) == LegValues(legs, ctx, day)
  }

  /** The point of day `i` of a run with the exact values `days`. */
  function PointOf(days: seq<Values>, from: Day, anchor: Anchor, covered: bool, i: nat): Point
    requires i < |days|
  {
    Point(from + i, StoredValues(days[i]), StoredGains(GainsAt(anchor, days, covered, i)))
  }

  /** `points` report the first days of a run. */
  ghost predicate Report(points: seq<Point>, days: seq<Values>, from: Day, anchor: Anchor, covered: bool) {
    |points| <= |days| && forall i :: 0 <= i < |points| ==> points[i] == PointOf(days, from, anchor, covered, i)
  }

  lemma ReportNext(points: seq<Point>, days: seq<Values>, from: Day, anchor: Anchor, covered: bool, track: Track)
    requires Report(points, days, from, anchor, covered) && |points| < |days|
    requires track == TrackAfter(anchor, days[..|points|], covered)
    ensures var k := |points|;
      && NextTrack(track, days[k], covered) == TrackAfter(anchor, days[..k + 1], covered)
      && Report(points + [Point(from + k, StoredValues(days[k]), StoredGains(GainsOf(track, days[k], covered)))],
                days, from, anchor, covered)
  {
    var k := |points|;
    assert days[..k + 1][..k] == days[..k];
  }

  /** Replays and values one more day. */
  method NextClose(legs: seq<DatedLeg>, book: Book, events: seq<DatedLeg>, ctx: Context, day: Day, ghost value: Day -> Values)
    returns (close: Book, v: Values)
    requires book == Replay(Before(legs, day)) && events == On(legs, day) && IsDaily(value, legs, ctx)
    ensures close == Replay(Before(legs, day + 1)) && v == value(day)
  {
    NextDay(legs, day);
    close := ApplyAll(book, events);
    v := ValueDay(close, events, ctx, day);
    assert v == LegValues(legs, ctx, day);
  }

  /** The book, the track and the points after the first days of a run. */
  ghost predicate Reached(legs: seq<DatedLeg>, days: seq<Values>, from: Day, anchor: Anchor, covered: bool,
                          points: seq<Point>, book: Book, track: Track) {
    && Report(points, days, from, anchor, covered)
    && book == Replay(Before(legs, from + |points|))
    && track == TrackAfter(anchor, days[..|points|], covered)
  }

  method NextPoint(legs: seq<DatedLeg>, ctx: Context, ghost value: Day -> Values, events: seq<DatedLeg>, ghost days: seq<Values>,
                   from: Day, ghost anchor: Anchor, covered: bool, points: seq<Point>, book: Book, track: Track)
    returns (points': seq<Point>, book': Book, track': Track)
    requires Reached(legs, days, from, anchor, covered, points, book, track) && IsDaily(value, legs, ctx)
    requires |points| < |days| && days[|points|] == value(from + |points|) && events == On(legs, from + |points|)
    ensures Reached(legs, days, from, anchor, covered, points', book', track') && |points'| == |points| + 1
  {
    var v;
    book', v := NextClose(legs, book, events, ctx, from + |points|, value);
    ReportNext(points, days, from, anchor, covered, track);
    points' := points + [Point(from + |points|, StoredValues(v), StoredGains(GainsOf(track, v, covered)))];
    track' := NextTrack(track, v, covered);
  }

  method CalculateInOrder(
    legs: seq<DatedLeg>, ctx: Context, from: Day, to: Day, anchor: Anchor, covered: bool, ghost value: Day -> Values)
    returns (points: seq<Point>)
    requires IsDaily(value, legs, ctx)
    ensures |points| == DaysIn(from, to)
    ensures Report(points, Days(value, from, DaysIn(from, to)), from, anchor, covered)
  {
    var byDate := GroupByDate(legs, to);
    var book := OpeningBook(legs, from);
    var track := Start(anchor, covered);
    ghost var days := Days(value, from, DaysIn(from, to));
    points := [];
    assert Reached(legs, days, from, anchor, covered, points, book, track) by {
      assert days[..0] == [];
    }
    while |points| < DaysIn(from, to)
      invariant |points| <= DaysIn(from, to) && Reached(legs, days, from, anchor, covered, points, book, track)
      decreases DaysIn(from, to) - |points|
    {
      assert from + |points| <= to;
      points, book, track := NextPoint(legs, ctx, value, Events(byDate, from + |points|), days, from, anchor, covered, points, book, track);
    }
  }

  lemma DailyInAnyOrder(xs: seq<DatedLeg>, ys: seq<DatedLeg>, ctx: Context)
    requires multiset(xs) == multiset(ys)
    ensures IsDaily(Daily(xs, ctx), ys, ctx)
  {
    forall day ensures Daily(xs, ctx)(day) == LegValues(ys, ctx, day) {
      LegOrderIsIrrelevant(xs, ys, ctx, day);
    }
  }

  /** The points of a series. Whatever the start date and the order of the rows,
    each day's values are those of all legs dated up to that day; gains are those
    of `Returns` over the exact, unrounded values. */
  method Calculate(activities: seq<Activity>, ctx: Context, from: Day, to: Day, anchor: Anchor, covered: bool)
    returns (points: seq<Point>)
    ensures |points| == DaysIn(from, to)
    ensures Report(points, Days(Daily(AllLegs(activities), ctx), from, DaysIn(from, to)), from, anchor, covered)
    ensures forall i :: 0 <= i < |points| ==> IsPointOf(points[i], AllLegs(activities), ctx, from + i)
    ensures forall i :: 0 <= i < |points| ==>
      AreStoredAs(GainsAt(anchor, Days(Daily(AllLegs(activities), ctx), from, DaysIn(from, to)), covered, i), points[i].gains)
  {
    var legs := AllLegs(InDateOrder(activities));
    AllLegsReordered(activities, InDateOrder(activities));
    DailyInAnyOrder(AllLegs(activities), legs, ctx);
    points := CalculateInOrder(legs, ctx, from, to, anchor, covered, Daily(AllLegs(activities), ctx));
    GainsAreStored(points, Days(Daily(AllLegs(activities), ctx), from, DaysIn(from, to)), from, anchor, covered);
    PointsAreWorth(points, Daily(AllLegs(activities), ctx), AllLegs(activities), ctx, from, DaysIn(from, to), anchor, covered);
  }

  /** The point shows the day's worth, as `DayValues` states it, rounded for storage. */
  ghost predicate IsPointOf(p: Point, legs: seq<DatedLeg>, ctx: Context, day: Day) {
    p.day == day && exists v :: DayValues.IsDayOf(v, legs, ctx, day) && IsStoredAs(v, p.values)
  }

  lemma GainsAreStored(points: seq<Point>, days: seq<Values>, from: Day, anchor: Anchor, covered: bool)
    requires Report(points, days, from, anchor, covered)
    ensures forall i :: 0 <= i < |points| ==> AreStoredAs(GainsAt(anchor, days, covered, i), points[i].gains)
  {
    forall i | 0 <= i < |points| ensures AreStoredAs(GainsAt(anchor, days, covered, i), points[i].gains) {
      StoredGainsAre(GainsAt(anchor, days, covered, i));
    }
  }

  lemma PointIsWorth(p: Point, v: Values, legs: seq<DatedLeg>, ctx: Context, day: Day)
    requires DayValues.IsDayOf(v, legs, ctx, day) && p.day == day && p.values == StoredValues(v)
    ensures IsPointOf(p, legs, ctx, day)
  {
    StoredValuesAre(v);
  }

  lemma PointIsDay(p: Point, value: Day -> Values, legs: seq<DatedLeg>, ctx: Context, day: Day)
    requires IsDaily(value, legs, ctx) && p.day == day && p.values == StoredValues(value(day))
    ensures IsPointOf(p, legs, ctx, day)
  {
    DayValues.DayIsWorth(legs, ctx, day);
    PointIsWorth(p, LegValues(legs, ctx, day), legs, ctx, day);
  }

  lemma PointShows(points: seq<Point>, value: Day -> Values, from: Day, n: nat, anchor: Anchor, covered: bool, i: nat)
    requires Report(points, Days(value, from, n), from, anchor, covered) && i < |points|
    ensures points[i].day == from + i && points[i].values == StoredValues(value(from + i))
  {
  }

  lemma PointsAreWorth(points: seq<Point>, value: Day -> Values, legs: seq<DatedLeg>, ctx: Context,
                       from: Day, n: nat, anchor: Anchor, covered: bool)
    requires IsDaily(value, legs, ctx) && Report(points, Days(value, from, n), from, anchor, covered)
    ensures forall i :: 0 <= i < |points| ==> IsPointOf(points[i], legs, ctx, from + i)
  {
    forall i | 0 <= i < |points| ensures IsPointOf(points[i], legs, ctx, from + i) {
      PointShows(points, value, from, n, anchor, covered, i);
      PointIsDay(points[i], value, legs, ctx, from + i);
    }
  }

  /** A day's values are the same wherever the calculation started, whichever
    market window it loaded for that and whatever anchor it continued from. */
  lemma StartIsIrrelevant(legs: seq<DatedLeg>, ctx: Context, from: Day, to: Day, anchor: Anchor, covered: bool, day: Day)
    requires from <= day <= to
    ensures var days := Days(Daily(legs, Loaded(ctx, from - LOOK_BACK, to)), from, DaysIn(from, to));
      && PointOf(days, from, anchor, covered, day - from).day == day
      && PointOf(days, from, anchor, covered, day - from).values == StoredValues(LegValues(legs, ctx, day))
  {
    LoadedValues(legs, ctx, from, to, day);
  }
}

/** Daily prices and exchange rates, and the rule for carrying them forward. */
module Market {
  import opened Activities
  import Folds

  const STALE_AFTER := 7
  const LOOK_BACK := 10

  /** A quote may record that the provider had no value for that day. */
  datatype Quote = Quote(value: real, missing: bool)
  datatype Pair = Pair(from: string, to: string)

  /** What a calculation knows besides the ledger. `instruments` gives each security's currency. */
  datatype Context = Context(
    base: string,
    instruments: map<nat, string>,
    prices: map<nat, map<Day, Quote>>,
    fx: map<Pair, map<Day, real>>)

  function UpperChar(c: char): char {
    if 'a' <= c <= 'z' then (c as int - 32) as char else c
  }

  function Upper(s: string): (u: string)
    ensures |u| == |s|
  {
    seq(|s|, i requires 0 <= i < |s| => UpperChar(s[i]))
  }

  predicate IsLower(c: char) {
    'a' <= c <= 'z'
  }

  /** Only the letters a to z change, each to the letter of the same place in the alphabet. */
  lemma UpperExactly(s: string, i: nat)
    requires i < |s|
    ensures var u := Upper(s)[i];
      if IsLower(s[i]) then 'A' <= u <= 'Z' && u as int - 'A' as int == s[i] as int - 'a' as int else u == s[i]
  {
  }

  /** `d` is the last of `days` that is not after `day`. */
  predicate IsLatest(days: set<Day>, day: Day, d: Day) {
    d in days && d <= day && forall x :: x in days && x <= day ==> x <= d
  }

  ghost function Latest(days: set<Day>, day: Day): Option<Day> {
    if exists d :: IsLatest(days, day, d) then var d :| IsLatest(days, day, d); Some(d) else None
  }

  lemma LatestIs(days: set<Day>, day: Day, d: Day)
    requires IsLatest(days, day, d)
    ensures Latest(days, day) == Some(d)
  {
    assert Latest(days, day).Some?;
  }

  /** The code's scan over the map's keys, in no particular order. */
  method FindLatest(days: set<Day>, day: Day) returns (selected: Option<Day>)
    ensures selected == Latest(days, day)
    ensures selected.None? <==> forall x :: x in days ==> x > day
  {
    selected := None;
    var rest := days;
    while rest != {}
      invariant rest <= days
      invariant selected.None? ==> forall x :: x in days ==> x in rest || x > day
      invariant selected.Some? ==> selected.value in days && selected.value <= day
      invariant selected.Some? ==> forall x :: x in days && x <= day ==> x in rest || x <= selected.value
      decreases |rest|
    {
      var date := Folds.AnyOf(rest);
      if date <= day && (selected.None? || date > selected.value) {
        selected := Some(date);
      }
      rest := rest - {date};
    }
    if selected.Some? {
      LatestIs(days, day, selected.value);
    }
  }

  predicate Stale(day: Day, observed: Day) {
    day - observed > STALE_AFTER
  }

  ghost function PriceAt(ctx: Context, id: nat, day: Day): Option<real> {
    var quotes := if id in ctx.prices then ctx.prices[id] else map[];
    var d := Latest(quotes.Keys, day);
    if d.None? || quotes[d.value].missing || Stale(day, d.value) then None else Some(quotes[d.value].value)
  }

  ghost function RateAt(ctx: Context, from: string, day: Day): Option<real> {
    if from == "" || ctx.base == "" then None
    else if Upper(from) == Upper(ctx.base) then Some(1.0)
    else
      var pair := Pair(Upper(from), Upper(ctx.base));
      var rates := if pair in ctx.fx then ctx.fx[pair] else map[];
      var d := Latest(rates.Keys, day);
      if d.None? || Stale(day, d.value) then None else Some(rates[d.value])
  }

  method FindPrice(ctx: Context, id: nat, day: Day) returns (price: Option<real>)
    ensures price == PriceAt(ctx, id, day)
  {
    var quotes := if id in ctx.prices then ctx.prices[id] else map[];
    var selected := FindLatest(quotes.Keys, day);
    if selected.None? || quotes[selected.value].missing || Stale(day, selected.value) {
      return None;
    }
    return Some(quotes[selected.value].value);
  }

  method FindRate(ctx: Context, from: string, day: Day) returns (rate: Option<real>)
    ensures rate == RateAt(ctx, from, day)
  {
    if from == "" || ctx.base == "" {
      return None;
    }
    if Upper(from) == Upper(ctx.base) {
      return Some(1.0);
    }
    var pair := Pair(Upper(from), Upper(ctx.base));
    var rates := if pair in ctx.fx then ctx.fx[pair] else map[];
    var selected := FindLatest(rates.Keys, day);
    if selected.None? || Stale(day, selected.value) {
      return None;
    }
    return Some(rates[selected.value]);
  }

  // ------------------------------------------------------------- load window

  function Between<V>(m: map<Day, V>, first: Day, last: Day): map<Day, V> {
    map d | d in m && first <= d <= last :: m[d]
  }

  /** What a service that is asked only for the days `first` to `last` answers. */
  function Loaded(ctx: Context, first: Day, last: Day): Context {
    ctx.(prices := map id | id in ctx.prices :: Between(ctx.prices[id], first, last),
         fx := map p | p in ctx.fx :: Between(ctx.fx[p], first, last))
  }

  lemma LoadedExactly(ctx: Context, first: Day, last: Day, id: nat, pair: Pair, day: Day)
    ensures var part := Loaded(ctx, first, last);
      && part.base == ctx.base && part.instruments == ctx.instruments
      && part.prices.Keys == ctx.prices.Keys && part.fx.Keys == ctx.fx.Keys
      && (id in ctx.prices ==>
            && (day in part.prices[id] <==> day in ctx.prices[id] && first <= day && day <= last)
            && (day in part.prices[id] ==> part.prices[id][day] == ctx.prices[id][day]))
      && (pair in ctx.fx ==>
            && (day in part.fx[pair] <==> day in ctx.fx[pair] && first <= day && day <= last)
            && (day in part.fx[pair] ==> part.fx[pair][day] == ctx.fx[pair][day]))
  {
  }

  /** Within the window the latest day is the same, or what lies before the window is stale. */
  lemma LatestInWindow(days: set<Day>, first: Day, last: Day, day: Day)
    requires first + STALE_AFTER < day <= last
    ensures var inside := set d | d in days && first <= d <= last;
      Latest(inside, day) == Latest(days, day) ||
      (Latest(inside, day).None? && Latest(days, day).Some? && Stale(day, Latest(days, day).value))
  {
    var inside := set d | d in days && first <= d <= last;
    var whole, part := Latest(days, day), Latest(inside, day);
    if whole.Some? && whole.value >= first {
      LatestIs(inside, day, whole.value);
    } else if part.Some? {
      assert forall x :: x in days && x <= day && first <= x ==> x in inside;
      LatestIs(days, day, part.value);
    }
  }

  lemma BetweenKeys<V>(m: map<Day, V>, first: Day, last: Day)
    ensures Between(m, first, last).Keys == set d | d in m.Keys && first <= d <= last
  {
  }

  /** Loading from ten days before the start changes no lookup. */
  lemma LookBackSuffices(ctx: Context, from: Day, to: Day, day: Day, id: nat, currency: string)
    requires from <= day <= to
    ensures PriceAt(Loaded(ctx, from - LOOK_BACK, to), id, day) == PriceAt(ctx, id, day)
    ensures RateAt(Loaded(ctx, from - LOOK_BACK, to), currency, day) == RateAt(ctx, currency, day)
  {
    var first := from - LOOK_BACK;
    if id in ctx.prices {
      BetweenKeys(ctx.prices[id], first, to);
      LatestInWindow(ctx.prices[id].Keys, first, to, day);
    }
    var pair := Pair(Upper(currency), Upper(ctx.base));
    if pair in ctx.fx {
      BetweenKeys(ctx.fx[pair], first, to);
      LatestInWindow(ctx.fx[pair].Keys, first, to, day);
    }
  }
}

/** What a day's figures are in terms of the ledger's amounts and the market's
  tables: every amount is counted at its price and its rate. */
module DayValues {
  import opened Activities
  import opened Market
  import opened Valuation
  import Folds

  // ---------------------------------------------------------- prices and rates

  /** `x` is the last rate filed for the currency by that day, at most a week old, or one for the base currency. */
  ghost predicate IsRate(ctx: Context, currency: string, day: Day, x: real) {
    var pair := Pair(Upper(currency), Upper(ctx.base));
    && currency != "" && ctx.base != ""
    && (if pair.from == pair.to then x == 1.0 else pair in ctx.fx && IsFiled(ctx.fx[pair], day, x))
  }

  ghost predicate IsFiled(rates: map<Day, real>, day: Day, x: real) {
    exists d :: d in rates && Newest(rates.Keys, day, d) && day - d <= 7 && rates[d] == x
  }

  /** `x` is the last price quoted for the security by that day, at most a week old. */
  ghost predicate IsPrice(ctx: Context, id: nat, day: Day, x: real) {
    id in ctx.prices && IsQuoted(ctx.prices[id], day, x)
  }

  ghost predicate IsQuoted(quotes: map<Day, Quote>, day: Day, x: real) {
    exists d :: d in quotes && Newest(quotes.Keys, day, d) && day - d <= 7 && quotes[d] == Quote(x, false)
  }

  /** None of the days falls after `d` and by that day. */
  predicate Newest(days: set<Day>, day: Day, d: Day) {
    d <= day && !exists x :: x in days && d < x <= day
  }

  lemma RateExactly(ctx: Context, currency: string, day: Day, x: real)
    ensures RateAt(ctx, currency, day) == Some(x) <==> IsRate(ctx, currency, day, x)
  {
    var pair := Pair(Upper(currency), Upper(ctx.base));
    if pair in ctx.fx {
      LatestExactly(ctx.fx[pair].Keys, day);
    } else {
      LatestExactly({}, day);
    }
  }

  lemma PriceExactly(ctx: Context, id: nat, day: Day, x: real)
    ensures PriceAt(ctx, id, day) == Some(x) <==> IsPrice(ctx, id, day, x)
  {
    if id in ctx.prices {
      LatestExactly(ctx.prices[id].Keys, day);
    } else {
      LatestExactly({}, day);
    }
  }

  lemma LatestExactly(days: set<Day>, day: Day)
    ensures forall d :: Latest(days, day) == Some(d) <==> d in days && Newest(days, day, d)
  {
    forall d | d in days && Newest(days, day, d) ensures Latest(days, day) == Some(d) {
      LatestIs(days, day, d);
    }
    forall d | Latest(days, day) == Some(d) ensures d in days && Newest(days, day, d) {
      assert IsLatest(days, day, d);
    }
  }

  ghost predicate HasRate(ctx: Context, currency: string, day: Day) {
    exists x :: IsRate(ctx, currency, day, x)
  }

  ghost predicate HasPrice(ctx: Context, id: nat, day: Day) {
    exists x :: IsPrice(ctx, id, day, x)
  }

  /** A security can be valued if it has a price and its currency has a rate. */
  ghost predicate HasValue(ctx: Context, id: nat, day: Day) {
    HasPrice(ctx, id, day) && HasRate(ctx, InCurrency(ctx, id), day)
  }

  function InCurrency(ctx: Context, id: nat): string {
    if id in ctx.instruments then ctx.instruments[id] else ""
  }

  // -------------------------------------------------------------------- totals

  ghost function SumOver<K(!new)>(keys: set<K>, f: K -> real): real
    decreases |keys|
  {
    if keys == {} then 0.0 else
      var k :| k in keys;
      f(k) + SumOver(keys - {k}, f)
  }

  /** A total is known exactly if each part is, and then it is the sum of the parts. */
  lemma {:induction false} TotalExactly<K(!new)>(keys: set<K>, worth: K -> Option<real>, f: K -> real)
    requires forall k :: k in keys ==> worth(k).None? || worth(k) == Some(f(k))
    ensures TotalOver(keys, worth) == if forall k :: k in keys ==> worth(k).Some? then Some(SumOver(keys, f)) else None
    decreases |keys|
  {
    if keys != {} {
      var k :| k in keys && SumOver(keys, f) == f(k) + SumOver(keys - {k}, f);
      AnyOrder(keys, worth, k);
      TotalExactly(keys - {k}, worth, f);
    }
  }

  /** The day's rate, where there is one. */
  ghost function RateOf(ctx: Context, currency: string, day: Day): (x: real)
    ensures HasRate(ctx, currency, day) ==> IsRate(ctx, currency, day, x)
  {
    if HasRate(ctx, currency, day) then var x :| IsRate(ctx, currency, day, x); x else 0.0
  }

  ghost function PriceOf(ctx: Context, id: nat, day: Day): (x: real)
    ensures HasPrice(ctx, id, day) ==> IsPrice(ctx, id, day, x)
  {
    if HasPrice(ctx, id, day) then var x :| IsPrice(ctx, id, day, x); x else 0.0
  }

  lemma RateIs(ctx: Context, currency: string, day: Day)
    ensures RateAt(ctx, currency, day) == if HasRate(ctx, currency, day) then Some(RateOf(ctx, currency, day)) else None
  {
    RateExactly(ctx, currency, day, RateOf(ctx, currency, day));
    if RateAt(ctx, currency, day).Some? {
      RateExactly(ctx, currency, day, RateAt(ctx, currency, day).value);
    }
  }

  lemma PriceIs(ctx: Context, id: nat, day: Day)
    ensures PriceAt(ctx, id, day) == if HasPrice(ctx, id, day) then Some(PriceOf(ctx, id, day)) else None
  {
    PriceExactly(ctx, id, day, PriceOf(ctx, id, day));
    if PriceAt(ctx, id, day).Some? {
      PriceExactly(ctx, id, day, PriceAt(ctx, id, day).value);
    }
  }

  // ------------------------------------------------------------ cash, holdings

  ghost predicate CashKnown(cash: map<string, real>, ctx: Context, day: Day) {
    forall c :: c in cash && cash[c] != 0.0 ==> HasRate(ctx, c, day)
  }

  /** Each balance at the day's rate of its currency. */
  ghost function AtRates(cash: map<string, real>, ctx: Context, day: Day): string -> real {
    c => if c in cash && cash[c] != 0.0 then cash[c] * RateOf(ctx, c, day) else 0.0
  }

  lemma ProductIs(a: real, b: real, c: real)
    requires b == c
    ensures a * b == a * c
  {
  }

  lemma KnownIs(x: Option<real>, y: real)
    requires x.Some? && x.value == y
    ensures x == Some(y)
  {
  }

  lemma TimesIs(amount: real, x: Option<real>, r: real)
    requires x == Some(r)
    ensures Times(amount, x) == Some(amount * r)
  {
    ProductIs(amount, x.value, r);
    KnownIs(Times(amount, x), amount * r);
  }

  lemma WorthIs(quantity: real, x: Option<real>, p: real, y: Option<real>, r: real)
    requires x == Some(p) && y == Some(r)
    ensures Worth(quantity, x, y) == Some(quantity * p * r)
  {
    ProductIs(quantity, x.value, p);
    TimesIs(quantity * p, y, r);
    KnownIs(Worth(quantity, x, y), quantity * p * r);
  }

  lemma CurrencyIs(amount: real, ctx: Context, currency: string, day: Day)
    ensures CurrencyWorth(amount, ctx, currency, day) ==
      if HasRate(ctx, currency, day) then Some(amount * RateOf(ctx, currency, day)) else None
  {
    RateIs(ctx, currency, day);
    if HasRate(ctx, currency, day) {
      TimesIs(amount, RateAt(ctx, currency, day), RateOf(ctx, currency, day));
      KnownIs(CurrencyWorth(amount, ctx, currency, day), amount * RateOf(ctx, currency, day));
    }
  }

  lemma CashPartIs(cash: map<string, real>, ctx: Context, day: Day, c: string)
    requires c in cash
    ensures CashWorth(cash, ctx, day)(c) ==
      if cash[c] == 0.0 || HasRate(ctx, c, day) then Some(AtRates(cash, ctx, day)(c)) else None
  {
    CurrencyIs(cash[c], ctx, c, day);
    if cash[c] != 0.0 && HasRate(ctx, c, day) {
      KnownIs(CashWorth(cash, ctx, day)(c), AtRates(cash, ctx, day)(c));
    }
  }

  /** Cash is the sum over the currencies of balance times rate. It is unknown exactly if some balance has no rate. */
  lemma CashIsConverted(cash: map<string, real>, ctx: Context, day: Day)
    ensures TotalOver(cash.Keys, CashWorth(cash, ctx, day))
      == if CashKnown(cash, ctx, day) then Some(SumOver(cash.Keys, AtRates(cash, ctx, day))) else None
  {
    var worth := CashWorth(cash, ctx, day);
    forall c | c in cash
      ensures worth(c) == if cash[c] == 0.0 || HasRate(ctx, c, day) then Some(AtRates(cash, ctx, day)(c)) else None
    {
      CashPartIs(cash, ctx, day, c);
    }
    TotalExactly(cash.Keys, worth, AtRates(cash, ctx, day));
  }

  ghost predicate HoldingsKnown(positions: map<nat, real>, ctx: Context, day: Day) {
    forall id :: id in positions && positions[id] != 0.0 ==> HasValue(ctx, id, day)
  }

  /** Each quantity at the day's price, in the base currency. */
  ghost function AtPrices(positions: map<nat, real>, ctx: Context, day: Day): nat -> real {
    (id: nat) => if id in positions && positions[id] != 0.0
      then positions[id] * PriceOf(ctx, id, day) * RateOf(ctx, InCurrency(ctx, id), day) else 0.0
  }

  lemma SecurityIs(quantity: real, ctx: Context, id: nat, day: Day)
    ensures SecurityWorth(quantity, ctx, id, day) ==
      if HasValue(ctx, id, day) then Some(quantity * PriceOf(ctx, id, day) * RateOf(ctx, InCurrency(ctx, id), day)) else None
  {
    PriceIs(ctx, id, day);
    RateIs(ctx, InCurrency(ctx, id), day);
    if HasValue(ctx, id, day) {
      WorthIs(quantity, PriceAt(ctx, id, day), PriceOf(ctx, id, day),
              RateAt(ctx, InCurrency(ctx, id), day), RateOf(ctx, InCurrency(ctx, id), day));
      KnownIs(SecurityWorth(quantity, ctx, id, day), quantity * PriceOf(ctx, id, day) * RateOf(ctx, InCurrency(ctx, id), day));
    }
  }

  lemma HoldingPartIs(positions: map<nat, real>, ctx: Context, day: Day, id: nat)
    requires id in positions
    ensures HoldingWorth(positions, ctx, day)(id) ==
      if positions[id] == 0.0 || HasValue(ctx, id, day) then Some(AtPrices(positions, ctx, day)(id)) else None
  {
    SecurityIs(positions[id], ctx, id, day);
    if positions[id] != 0.0 && HasValue(ctx, id, day) {
      KnownIs(HoldingWorth(positions, ctx, day)(id), AtPrices(positions, ctx, day)(id));
    }
  }

  /** Holdings are the sum of quantity times price times rate, unknown exactly if some position lacks either. */
  lemma HoldingsAreConverted(positions: map<nat, real>, ctx: Context, day: Day)
    ensures TotalOver(positions.Keys, HoldingWorth(positions, ctx, day))
      == if HoldingsKnown(positions, ctx, day) then Some(SumOver(positions.Keys, AtPrices(positions, ctx, day))) else None
  {
    var worth := HoldingWorth(positions, ctx, day);
    forall id | id in positions
      ensures worth(id) ==
        if positions[id] == 0.0 || HasValue(ctx, id, day) then Some(AtPrices(positions, ctx, day)(id)) else None
    {
      HoldingPartIs(positions, ctx, day, id);
    }
    TotalExactly(positions.Keys, worth, AtPrices(positions, ctx, day));
  }

  // ---------------------------------------------------------------------- flow

  /** The leg brings money or securities into the account from outside, or takes them out. */
  predicate External(e: DatedLeg) {
    && e.activity.status == Effective && e.activity.booking == Booked
    && (e.activity.kind == "security_transfer" ||
        (e.leg.kind == Cash && e.activity.kind in ["deposit", "withdrawal", "cash_transfer"]))
  }

  ghost predicate FlowKnown(events: seq<DatedLeg>, ctx: Context, day: Day) {
    forall i :: 0 <= i < |events| && External(events[i]) ==> LegKnown(events[i], ctx, day)
  }

  ghost predicate LegKnown(e: DatedLeg, ctx: Context, day: Day) {
    if e.leg.kind == Cash then HasRate(ctx, e.leg.currency, day) else HasValue(ctx, e.leg.instrument, day)
  }

  /** An external leg at the day's price and rate. */
  ghost function FlowPart(ctx: Context, day: Day): DatedLeg -> real {
    e =>
      if !External(e) then 0.0
      else if e.leg.kind == Cash then Amount(e.leg) * RateOf(ctx, e.leg.currency, day)
      else Amount(e.leg) * PriceOf(ctx, e.leg.instrument, day) * RateOf(ctx, InCurrency(ctx, e.leg.instrument), day)
  }

  lemma FlowPartIs(e: DatedLeg, ctx: Context, day: Day)
    ensures FlowWorth(e, ctx, day) == if External(e) && !LegKnown(e, ctx, day) then None else Some(FlowPart(ctx, day)(e))
  {
    CurrencyIs(Amount(e.leg), ctx, e.leg.currency, day);
    SecurityIs(Amount(e.leg), ctx, e.leg.instrument, day);
    if External(e) && LegKnown(e, ctx, day) {
      KnownIs(FlowWorth(e, ctx, day), FlowPart(ctx, day)(e));
    }
  }

  /** A day's flow is the sum over its deposit, withdrawal and transfer legs, unknown exactly if one cannot be valued. */
  lemma {:induction false} FlowIsConverted(events: seq<DatedLeg>, ctx: Context, day: Day)
    ensures Flow(events, ctx, day) == if FlowKnown(events, ctx, day) then Some(Sum(events, FlowPart(ctx, day))) else None
    decreases |events|
  {
    if events != [] {
      var n := |events| - 1;
      FlowIsConverted(events[..n], ctx, day);
      FlowPartIs(events[n], ctx, day);
      assert FlowKnown(events, ctx, day) <==>
        FlowKnown(events[..n], ctx, day) && (External(events[n]) ==> LegKnown(events[n], ctx, day));
    }
  }

  // ------------------------------------------------------------------- one day

  /** The leg moves the currency, and takes effect by that day. */
  predicate Brings(e: DatedLeg, day: Day, currency: string) {
    && e.activity.status == Effective && e.activity.booking == Booked
    && e.leg.kind == Cash && Upper(e.leg.currency) == currency
    && DateOf(e).Some? && DateOf(e).value <= day
  }

  predicate Delivers(e: DatedLeg, day: Day, instrument: nat) {
    && e.activity.status == Effective && e.activity.booking == Booked
    && e.leg.kind == Position && e.leg.instrument == instrument
    && DateOf(e).Some? && DateOf(e).value <= day
  }

  function CashHeld(legs: seq<DatedLeg>, day: Day, currency: string): real {
    Sum(legs, e => if Brings(e, day, currency) then Amount(e.leg) else 0.0)
  }

  function QuantityHeld(legs: seq<DatedLeg>, day: Day, instrument: nat): real {
    Sum(legs, e => if Delivers(e, day, instrument) then Amount(e.leg) else 0.0)
  }

  predicate SomeBrings(legs: seq<DatedLeg>, day: Day, currency: string) {
    exists i :: 0 <= i < |legs| && Brings(legs[i], day, currency)
  }

  predicate SomeDelivers(legs: seq<DatedLeg>, day: Day, instrument: nat) {
    exists i :: 0 <= i < |legs| && Delivers(legs[i], day, instrument)
  }

  predicate HoldsCash(book: Book, legs: seq<DatedLeg>, day: Day, c: string) {
    (c in book.cash <==> SomeBrings(legs, day, c)) && Balance(book.cash, c) == CashHeld(legs, day, c)
  }

  predicate HoldsPosition(book: Book, legs: seq<DatedLeg>, day: Day, id: nat) {
    (id in book.positions <==> SomeDelivers(legs, day, id)) && Balance(book.positions, id) == QuantityHeld(legs, day, id)
  }

  /** The book holds what the legs up to that day bring, and nothing else. */
  ghost predicate IsBook(book: Book, legs: seq<DatedLeg>, day: Day) {
    (forall c :: HoldsCash(book, legs, day, c)) && (forall id :: HoldsPosition(book, legs, day, id))
  }

  lemma NextBrings(legs: seq<DatedLeg>, n: nat, day: Day, c: string, id: nat)
    requires n + 1 == |legs|
    ensures SomeBrings(legs, day, c) <==> SomeBrings(legs[..n], day, c) || Brings(legs[n], day, c)
    ensures SomeDelivers(legs, day, id) <==> SomeDelivers(legs[..n], day, id) || Delivers(legs[n], day, id)
    ensures CashHeld(legs, day, c) == CashHeld(legs[..n], day, c) + (if Brings(legs[n], day, c) then Amount(legs[n].leg) else 0.0)
    ensures QuantityHeld(legs, day, id)
      == QuantityHeld(legs[..n], day, id) + (if Delivers(legs[n], day, id) then Amount(legs[n].leg) else 0.0)
  {
    assert forall i :: 0 <= i < n ==> legs[..n][i] == legs[i];
    if i :| 0 <= i < n && Brings(legs[..n][i], day, c) {
      assert Brings(legs[i], day, c);
    }
    if i :| 0 <= i < n && Delivers(legs[..n][i], day, id) {
      assert Delivers(legs[i], day, id);
    }
  }

  lemma BeforeSnoc(legs: seq<DatedLeg>, n: nat, day: Day)
    requires n + 1 == |legs|
    ensures Before(legs, day) == if DatedBefore(legs[n], day) then Before(legs[..n], day) + [legs[n]] else Before(legs[..n], day)
  {
    assert Before(legs[..n], day) + [] == Before(legs[..n], day);
  }

  lemma AppliedHolds(book: Book, legs: seq<DatedLeg>, n: nat, day: Day, c: string, id: nat)
    requires n + 1 == |legs| && HoldsCash(book, legs[..n], day, c) && HoldsPosition(book, legs[..n], day, id)
    ensures var next := if DatedBefore(legs[n], day + 1) then ApplyLeg(book, legs[n]) else book;
      HoldsCash(next, legs, day, c) && HoldsPosition(next, legs, day, id)
  {
    NextBrings(legs, n, day, c, id);
  }

  lemma {:induction false} ReplayHolds(legs: seq<DatedLeg>, day: Day, c: string, id: nat)
    ensures HoldsCash(Replay(Before(legs, day + 1)), legs, day, c)
    ensures HoldsPosition(Replay(Before(legs, day + 1)), legs, day, id)
    decreases |legs|
  {
    if legs != [] {
      var n := |legs| - 1;
      ReplayHolds(legs[..n], day, c, id);
      AppliedHolds(Replay(Before(legs[..n], day + 1)), legs, n, day, c, id);
      BeforeSnoc(legs, n, day + 1);
      Folds.FoldSnoc(ApplyLeg, EMPTY_BOOK, Before(legs[..n], day + 1), legs[n]);
    }
  }

  lemma ReplayIsBook(legs: seq<DatedLeg>, day: Day)
    ensures IsBook(Replay(Before(legs, day + 1)), legs, day)
  {
    var book := Replay(Before(legs, day + 1));
    forall c ensures HoldsCash(book, legs, day, c) {
      ReplayHolds(legs, day, c, 0);
    }
    forall id ensures HoldsPosition(book, legs, day, id) {
      ReplayHolds(legs, day, "", id);
    }
  }

  /** The legs that take effect on that day, in order. */
  function Todays(legs: seq<DatedLeg>, day: Day): seq<DatedLeg>
    decreases |legs|
  {
    if legs == [] then []
    else
      var last := legs[|legs| - 1];
      Todays(legs[..|legs| - 1], day) + (if DateOf(last) == Some(day) then [last] else [])
  }

  lemma {:induction false} OnIsTodays(legs: seq<DatedLeg>, day: Day)
    ensures On(legs, day) == Todays(legs, day)
    decreases |legs|
  {
    if legs != [] {
      OnIsTodays(legs[..|legs| - 1], day);
    }
  }

  /** Cash and holdings at the day's prices and rates, and the day's external legs at the same. */
  ghost predicate IsWorth(v: Values, book: Book, today: seq<DatedLeg>, ctx: Context, day: Day) {
    && v.cash == (if CashKnown(book.cash, ctx, day) then Some(SumOver(book.cash.Keys, AtRates(book.cash, ctx, day))) else None)
    && v.holdings == (if HoldingsKnown(book.positions, ctx, day)
         then Some(SumOver(book.positions.Keys, AtPrices(book.positions, ctx, day))) else None)
    && v.flow == (if FlowKnown(today, ctx, day) then Some(Sum(today, FlowPart(ctx, day))) else None)
    && (v.total.Some? <==> v.cash.Some? && v.holdings.Some? && v.flow.Some?)
    && (v.total.Some? ==> v.total.value == v.cash.value + v.holdings.value)
  }

  ghost predicate IsDayOf(v: Values, legs: seq<DatedLeg>, ctx: Context, day: Day) {
    exists book :: IsBook(book, legs, day) && IsWorth(v, book, Todays(legs, day), ctx, day)
  }

  /** A day's figures, from the legs and the market's tables alone. */
  lemma DayIsWorth(legs: seq<DatedLeg>, ctx: Context, day: Day)
    ensures IsDayOf(LegValues(legs, ctx, day), legs, ctx, day)
  {
    var book := Replay(Before(legs, day + 1));
    ReplayIsBook(legs, day);
    OnIsTodays(legs, day);
    CashIsConverted(book.cash, ctx, day);
    HoldingsAreConverted(book.positions, ctx, day);
    FlowIsConverted(On(legs, day), ctx, day);
  }
}

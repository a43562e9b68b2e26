/** Replaying ledger legs into cash and positions, and valuing them day by day. */
module Valuation {
  import opened Activities
  import opened Market
  import opened Folds

  datatype DatedLeg = DatedLeg(activity: Activity, leg: Leg)

  /** Cash by currency and quantities by instrument. */
  datatype Book = Book(cash: map<string, real>, positions: map<nat, real>)

  datatype Values = Values(cash: Option<real>, holdings: Option<real>, flow: Option<real>, total: Option<real>)

  const SCALE: real := 1000000000000000000.0
  const EMPTY_BOOK := Book(map[], map[])

  function Amount(leg: Leg): real {
    leg.amount as real / SCALE
  }

  function AddTo<K>(balances: map<K, real>, k: K, delta: real): map<K, real> {
    balances[k := (if k in balances then balances[k] else 0.0) + delta]
  }

  function ApplyLeg(b: Book, e: DatedLeg): Book {
    if !Counts(e.activity) then b
    else if e.leg.kind.Cash? then b.(cash := AddTo(b.cash, Upper(e.leg.currency), Amount(e.leg)))
    else b.(positions := AddTo(b.positions, e.leg.instrument, Amount(e.leg)))
  }

  function Replay(xs: seq<DatedLeg>): Book {
    Fold(ApplyLeg, EMPTY_BOOK, xs)
  }

  // ------------------------------------------------------------------- legs

  function LegsOf(a: Activity): seq<DatedLeg> {
    seq(|a.legs|, i requires 0 <= i < |a.legs| => DatedLeg(a, a.legs[i]))
  }

  function AllLegs(activities: seq<Activity>): seq<DatedLeg>
    decreases |activities|
  {
    if activities == [] then []
    else AllLegs(activities[..|activities| - 1]) + LegsOf(activities[|activities| - 1])
  }

  function DateOf(e: DatedLeg): Option<Day> {
    LegDate(e.activity, e.leg)
  }

  predicate DatedOn(e: DatedLeg, day: Day) {
    DateOf(e) == Some(day)
  }

  predicate DatedBefore(e: DatedLeg, day: Day) {
    DateOf(e).Some? && DateOf(e).value < day
  }

  function On(xs: seq<DatedLeg>, day: Day): seq<DatedLeg> {
    Filter(e => DatedOn(e, day), xs)
  }

  function Before(xs: seq<DatedLeg>, day: Day): seq<DatedLeg> {
    Filter(e => DatedBefore(e, day), xs)
  }

  // ----------------------------------------------------------------- totals

  /** A sum is known only when all its parts are. */
  function Plus(x: Option<real>, y: Option<real>): Option<real> {
    if x.Some? && y.Some? then Some(x.value + y.value) else None
  }

  function Times(amount: real, x: Option<real>): Option<real> {
    if x.Some? then Some(amount * x.value) else None
  }

  /** The sum over a map's keys, in whatever order they come. */
  ghost function TotalOver<K(!new)>(keys: set<K>, worth: K -> Option<real>): Option<real>
    decreases |keys|
  {
    if keys == {} then Some(0.0) else
      var k :| k in keys;
      Plus(worth(k), TotalOver(keys - {k}, worth))
  }

  lemma PlusSwaps(x: Option<real>, y: Option<real>, z: Option<real>)
    ensures Plus(x, Plus(y, z)) == Plus(y, Plus(x, z))
  {
  }

  lemma {:induction false} AnyOrder<K(!new)>(keys: set<K>, worth: K -> Option<real>, k: K)
    requires k in keys
    ensures TotalOver(keys, worth) == Plus(worth(k), TotalOver(keys - {k}, worth))
    decreases |keys|
  {
    var first :| first in keys && TotalOver(keys, worth) == Plus(worth(first), TotalOver(keys - {first}, worth));
    if first != k {
      AnyOrder(keys - {first}, worth, k);
      AnyOrder(keys - {k}, worth, first);
      assert keys - {first} - {k} == keys - {k} - {first};
      PlusSwaps(worth(first), worth(k), TotalOver(keys - {first} - {k}, worth));
    }
  }

  ghost function CurrencyWorth(amount: real, ctx: Context, currency: string, day: Day): Option<real> {
    Times(amount, RateAt(ctx, currency, day))
  }

  /** The value of one currency's balance; a zero balance needs no rate. */
  ghost function CashValue(cash: map<string, real>, ctx: Context, day: Day, c: string): Option<real> {
    if c !in cash || cash[c] == 0.0 then Some(0.0) else CurrencyWorth(cash[c], ctx, c, day)
  }

  ghost function CashWorth(cash: map<string, real>, ctx: Context, day: Day): string -> Option<real> {
    c => CashValue(cash, ctx, day, c)
  }

  function CurrencyOf(ctx: Context, id: nat): string {
    if id in ctx.instruments then ctx.instruments[id] else ""
  }

  function Worth(quantity: real, price: Option<real>, rate: Option<real>): Option<real> {
    if price.None? then None else Times(quantity * price.value, rate)
  }

  ghost function SecurityWorth(quantity: real, ctx: Context, id: nat, day: Day): Option<real> {
    Worth(quantity, PriceAt(ctx, id, day), RateAt(ctx, CurrencyOf(ctx, id), day))
  }

  ghost function HoldingValue(positions: map<nat, real>, ctx: Context, day: Day, id: nat): Option<real> {
    if id !in positions || positions[id] == 0.0 then Some(0.0) else SecurityWorth(positions[id], ctx, id, day)
  }

  ghost function HoldingWorth(positions: map<nat, real>, ctx: Context, day: Day): nat -> Option<real> {
    (id: nat) => HoldingValue(positions, ctx, day, id)
  }

  predicate ExternalFlowType(kind: string) {
    kind == "deposit" || kind == "withdrawal" || kind == "cash_transfer" || kind == "security_transfer"
  }

  /** What one leg moves into or out of the account from outside. */
  ghost function FlowWorth(e: DatedLeg, ctx: Context, day: Day): Option<real> {
    if !Counts(e.activity) || !ExternalFlowType(e.activity.kind) then Some(0.0)
    else if e.leg.kind.Cash? then CurrencyWorth(Amount(e.leg), ctx, e.leg.currency, day)
    else if e.activity.kind == "security_transfer" then SecurityWorth(Amount(e.leg), ctx, e.leg.instrument, day)
    else Some(0.0)
  }

  ghost function FlowAdder(ctx: Context, day: Day): (Option<real>, DatedLeg) -> Option<real> {
    (sum, e) => Plus(sum, FlowWorth(e, ctx, day))
  }

  ghost function Flow(events: seq<DatedLeg>, ctx: Context, day: Day): Option<real> {
    Fold(FlowAdder(ctx, day), Some(0.0), events)
  }

  ghost function ValuesOf(book: Book, events: seq<DatedLeg>, ctx: Context, day: Day): Values {
    var cash := TotalOver(book.cash.Keys, CashWorth(book.cash, ctx, day));
    var holdings := TotalOver(book.positions.Keys, HoldingWorth(book.positions, ctx, day));
    var flow := Flow(events, ctx, day);
    Values(cash, holdings, flow, if flow.Some? then Plus(cash, holdings) else None)
  }

  /** What one day is worth: all legs dated up to that day, and nothing else. */
  ghost function LegValues(legs: seq<DatedLeg>, ctx: Context, day: Day): Values {
    ValuesOf(Replay(Before(legs, day + 1)), On(legs, day), ctx, day)
  }

  ghost function ValuesAt(activities: seq<Activity>, ctx: Context, day: Day): Values {
    LegValues(AllLegs(activities), ctx, day)
  }

  // ------------------------------------------------- what replay adds up to

  function CashPart(e: DatedLeg, currency: string): real {
    if Counts(e.activity) && e.leg.kind.Cash? && Upper(e.leg.currency) == currency then Amount(e.leg) else 0.0
  }

  function PositionPart(e: DatedLeg, instrument: nat): real {
    if Counts(e.activity) && e.leg.kind.Position? && e.leg.instrument == instrument then Amount(e.leg) else 0.0
  }

  function Sum(xs: seq<DatedLeg>, part: DatedLeg -> real): real
    decreases |xs|
  {
    if xs == [] then 0.0 else Sum(xs[..|xs| - 1], part) + part(xs[|xs| - 1])
  }

  function Balance<K>(m: map<K, real>, k: K): real {
    if k in m then m[k] else 0.0
  }

  /** Each balance is the sum of the effective booked legs in its currency or instrument. */
  lemma {:induction false} ReplayIsSum(xs: seq<DatedLeg>, currency: string, instrument: nat)
    ensures Balance(Replay(xs).cash, currency) == Sum(xs, e => CashPart(e, currency))
    ensures Balance(Replay(xs).positions, instrument) == Sum(xs, e => PositionPart(e, instrument))
    decreases |xs|
  {
    if xs != [] {
      ReplayIsSum(xs[..|xs| - 1], currency, instrument);
    }
  }

  lemma ReplayCommutes()
    ensures Commutes(ApplyLeg)
  {
    forall b: Book, x: DatedLeg, y: DatedLeg
      ensures ApplyLeg(ApplyLeg(b, x), y) == ApplyLeg(ApplyLeg(b, y), x)
    {
      AddingCommutes(b.cash, Upper(x.leg.currency), Amount(x.leg), Upper(y.leg.currency), Amount(y.leg));
      AddingCommutes(b.positions, x.leg.instrument, Amount(x.leg), y.leg.instrument, Amount(y.leg));
    }
  }

  lemma AddingCommutes<K>(m: map<K, real>, j: K, x: real, k: K, y: real)
    ensures AddTo(AddTo(m, j, x), k, y) == AddTo(AddTo(m, k, y), j, x)
  {
  }

  lemma FlowCommutes(ctx: Context, day: Day)
    ensures Commutes(FlowAdder(ctx, day))
  {
  }

  // -------------------------------------------------------- order of the rows

  lemma SameLegs(xs: seq<DatedLeg>, ys: seq<DatedLeg>, day: Day)
    requires multiset(xs) == multiset(ys)
    ensures multiset(Before(xs, day)) == multiset(Before(ys, day))
    ensures multiset(On(xs, day)) == multiset(On(ys, day))
  {
    var p := e => DatedBefore(e, day);
    var q := e => DatedOn(e, day);
    forall e: DatedLeg
      ensures multiset(Before(xs, day))[e] == multiset(Before(ys, day))[e]
      ensures multiset(On(xs, day))[e] == multiset(On(ys, day))[e]
    {
      FilterCount(p, xs, e);
      FilterCount(p, ys, e);
      FilterCount(q, xs, e);
      FilterCount(q, ys, e);
    }
  }

  lemma Associate<T>(xs: seq<T>, ys: seq<T>, zs: seq<T>)
    ensures xs + ys + zs == xs + (ys + zs)
  {
  }

  lemma {:induction false} AllLegsConcat(xs: seq<Activity>, ys: seq<Activity>)
    ensures AllLegs(xs + ys) == AllLegs(xs) + AllLegs(ys)
    decreases |ys|
  {
    if ys == [] {
      assert xs + ys == xs;
    } else {
      var n := |ys| - 1;
      assert (xs + ys)[..|xs| + n] == xs + ys[..n] && (xs + ys)[|xs| + n] == ys[n];
      AllLegsConcat(xs, ys[..n]);
      Associate(AllLegs(xs), AllLegs(ys[..n]), LegsOf(ys[n]));
    }
  }

  lemma Interleaved<T>(xs: seq<T>, ys: seq<T>, zs: seq<T>)
    ensures multiset(xs + ys + zs) == multiset(xs + zs) + multiset(ys)
  {
  }

  lemma AllLegsMoved(xs: seq<Activity>, i: nat)
    requires i < |xs|
    ensures multiset(AllLegs(xs)) == multiset(AllLegs(xs[..i] + xs[i + 1..])) + multiset(LegsOf(xs[i]))
  {
    var front, back := xs[..i + 1], xs[i + 1..];
    assert xs == front + back && front[..i] == xs[..i];
    AllLegsConcat(front, back);
    AllLegsConcat(xs[..i], back);
    Interleaved(AllLegs(xs[..i]), LegsOf(xs[i]), AllLegs(back));
  }

  lemma {:induction false} AllLegsReordered(xs: seq<Activity>, ys: seq<Activity>)
    requires multiset(xs) == multiset(ys)
    ensures multiset(AllLegs(xs)) == multiset(AllLegs(ys))
    decreases |xs|
  {
    assert |xs| == |multiset(xs)| == |ys|;
    if xs != [] {
      var n := |xs| - 1;
      assert xs[n] in multiset(ys);
      var i :| 0 <= i < |ys| && ys[i] == xs[n];
      var xs', ys' := xs[..n] + xs[n + 1..], ys[..i] + ys[i + 1..];
      Without(ys, i);
      Without(xs, n);
      AllLegsReordered(xs', ys');
      AllLegsMoved(xs, n);
      AllLegsMoved(ys, i);
    }
  }

  lemma LegOrderIsIrrelevant(xs: seq<DatedLeg>, ys: seq<DatedLeg>, ctx: Context, day: Day)
    requires multiset(xs) == multiset(ys)
    ensures LegValues(xs, ctx, day) == LegValues(ys, ctx, day)
  {
    SameLegs(xs, ys, day + 1);
    SameLegs(xs, ys, day);
    ReplayCommutes();
    FlowCommutes(ctx, day);
    OrderIsIrrelevant(ApplyLeg, EMPTY_BOOK, Before(xs, day + 1), Before(ys, day + 1));
    OrderIsIrrelevant(FlowAdder(ctx, day), Some(0.0), On(xs, day), On(ys, day));
  }

  /** A day's values do not depend on the order of the activities. */
  lemma RowOrderIsIrrelevant(xs: seq<Activity>, ys: seq<Activity>, ctx: Context, day: Day)
    requires multiset(xs) == multiset(ys)
    ensures ValuesAt(xs, ctx, day) == ValuesAt(ys, ctx, day)
  {
    AllLegsReordered(xs, ys);
    LegOrderIsIrrelevant(AllLegs(xs), AllLegs(ys), ctx, day);
  }

  /** Applying a day's legs to the book of all earlier legs gives the book of all legs up to that day. */
  lemma NextDay(legs: seq<DatedLeg>, day: Day)
    ensures Fold(ApplyLeg, Replay(Before(legs, day)), On(legs, day)) == Replay(Before(legs, day + 1))
  {
    FoldConcat(ApplyLeg, EMPTY_BOOK, Before(legs, day), On(legs, day));
    forall e: DatedLeg
      ensures multiset(Before(legs, day) + On(legs, day))[e] == multiset(Before(legs, day + 1))[e]
    {
      FilterCount(x => DatedBefore(x, day), legs, e);
      FilterCount(x => DatedOn(x, day), legs, e);
      FilterCount(x => DatedBefore(x, day + 1), legs, e);
    }
    ReplayCommutes();
    OrderIsIrrelevant(ApplyLeg, EMPTY_BOOK, Before(legs, day) + On(legs, day), Before(legs, day + 1));
  }

  // ------------------------------------------------------------ market window

  lemma LoadedTotal<K(!new)>(keys: set<K>, f: K -> Option<real>, g: K -> Option<real>)
    requires forall k :: k in keys ==> f(k) == g(k)
    ensures TotalOver(keys, f) == TotalOver(keys, g)
    decreases |keys|
  {
    if keys != {} {
      var k :| k in keys;
      AnyOrder(keys, f, k);
      AnyOrder(keys, g, k);
      LoadedTotal(keys - {k}, f, g);
    }
  }

  lemma LoadedSecurity(quantity: real, ctx: Context, from: Day, to: Day, id: nat, day: Day)
    requires from <= day <= to
    ensures SecurityWorth(quantity, Loaded(ctx, from - LOOK_BACK, to), id, day) == SecurityWorth(quantity, ctx, id, day)
  {
    assert CurrencyOf(Loaded(ctx, from - LOOK_BACK, to), id) == CurrencyOf(ctx, id);
    LookBackSuffices(ctx, from, to, day, id, CurrencyOf(ctx, id));
  }

  lemma {:induction false} LoadedFlow(events: seq<DatedLeg>, ctx: Context, from: Day, to: Day, day: Day)
    requires from <= day <= to
    ensures Flow(events, Loaded(ctx, from - LOOK_BACK, to), day) == Flow(events, ctx, day)
    decreases |events|
  {
    if events != [] {
      var e := events[|events| - 1];
      LoadedFlow(events[..|events| - 1], ctx, from, to, day);
      LookBackSuffices(ctx, from, to, day, 0, e.leg.currency);
      LoadedSecurity(Amount(e.leg), ctx, from, to, e.leg.instrument, day);
      assert FlowWorth(e, Loaded(ctx, from - LOOK_BACK, to), day) == FlowWorth(e, ctx, day);
    }
  }

  /** Prices and rates loaded only from ten days before the start value every day alike. */
  lemma LoadedValues(legs: seq<DatedLeg>, ctx: Context, from: Day, to: Day, day: Day)
    requires from <= day <= to
    ensures LegValues(legs, Loaded(ctx, from - LOOK_BACK, to), day) == LegValues(legs, ctx, day)
  {
    var part := Loaded(ctx, from - LOOK_BACK, to);
    var book := Replay(Before(legs, day + 1));
    forall c | c in book.cash
      ensures CashWorth(book.cash, part, day)(c) == CashWorth(book.cash, ctx, day)(c)
    {
      LookBackSuffices(ctx, from, to, day, 0, c);
    }
    forall id | id in book.positions
      ensures HoldingWorth(book.positions, part, day)(id) == HoldingWorth(book.positions, ctx, day)(id)
    {
      LoadedSecurity(book.positions[id], ctx, from, to, id, day);
    }
    LoadedTotal(book.cash.Keys, CashWorth(book.cash, part, day), CashWorth(book.cash, ctx, day));
    LoadedTotal(book.positions.Keys, HoldingWorth(book.positions, part, day), HoldingWorth(book.positions, ctx, day));
    LoadedFlow(On(legs, day), ctx, from, to, day);
  }
}

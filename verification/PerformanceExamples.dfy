/** Runs in which stored days go stale: a deposit booked between load and
  replacement, a second base currency whose mark is cleared with the first's, and
  a leg that takes effect before its trade date. */
module PerformanceExamples {
  import opened Activities
  import opened Ledger
  import opened Market
  import opened Valuation
  import opened PerformanceCache
  import Calculator
  import LedgerPriority

  /** No prices and no rates: only balances in the base currency have a value. */
  function BareMarkets(): Markets {
    base => Context(base, map[], map[], map[])
  }

  // ---------------------------------------------------------------- the ledger

  /** A report of a deposit that takes effect on day 1. */
  function DepositRecord(trade: Day): RawRecord {
    LedgerPriority.SampleRecord(Flex, 5).(booked := LedgerPriority.SampleActivity(5).(tradeDate := Some(trade)))
  }

  function Saving(trade: Day): Ledger.Step {
    Save(1, LedgerPriority.SAMPLE_KEY, DepositRecord(trade), 1)
  }

  const NORMALISE := Normalise(true, 1, LedgerPriority.SAMPLE_KEY, 1)

  /** The ledger after the deposit of five units of 10^-18 dollars. */
  function DepositLedger(trade: Day): State {
    Ledger.Apply(Ledger.Apply(EmptyLedger(), Saving(trade)), NORMALISE)
  }

  function Deposit(trade: Day): Activity {
    LedgerPriority.SampleActivity(5).(revision := 1, tradeDate := Some(trade))
  }

  /** The deposit is the one activity, and its day is marked. */
  predicate HoldsDeposit(s: State, trade: Day) {
    && s.activities == map[0 := ActivityRow(1, 1)] && s.nextActivity == 1
    && RevisionKey(0, 1) in s.revisions && s.revisions[RevisionKey(0, 1)].payload == Deposit(trade)
    && s.dirty == map[1 := 1]
  }

  lemma DepositBooked(trade: Day)
    requires trade >= 1
    ensures HoldsDeposit(DepositLedger(trade), trade)
  {
    var key, record := LedgerPriority.SAMPLE_KEY, DepositRecord(trade);
    var saved := SaveRaw(EmptyLedger(), 1, key, record, 1);
    assert RecordKeys(key, record) == [key.identity];
    assert FindActivity(saved, 1, [key.identity]) == Unmatched;
    assert Normalize(saved, true, 1, key, 1) == Ledger.Book(saved, 1, key, 1);
    LedgerPriority.FirstBooking(saved, 1, key, 1);
    var a := Proposal(key, record, 0, 0);
    assert a == Deposit(trade);
    DepositBoundary(trade);
  }

  lemma DepositBoundary(trade: Day)
    requires trade >= 1
    ensures EarliestOf(Deposit(trade)) == Some(1)
  {
    var legs := Deposit(trade).legs;
    assert legs[..0] == [];
    assert EarliestLeg(legs) == Some(1);
  }

  // ------------------------------------------------------------------- values

  function TheLeg(trade: Day): DatedLeg {
    DatedLeg(Deposit(trade), Deposit(trade).legs[0])
  }

  lemma DepositLegs(trade: Day)
    ensures AllLegs([Deposit(trade)]) == [TheLeg(trade)] && Before([TheLeg(trade)], 2) == [TheLeg(trade)] && Before(AllLegs([]), 2) == []
  {
    assert [Deposit(trade)][..0] == [];
    assert AllLegs([Deposit(trade)]) == AllLegs([]) + LegsOf(Deposit(trade));
    assert [TheLeg(trade)][..0] == [];
    var leg := TheLeg(trade);
    assert DatedBefore(leg, 2) && Before([], 2) == [];
    assert Before([leg], 2) == Before([leg][..0], 2) + [leg];
  }

  lemma DepositBook(trade: Day)
    ensures Replay([TheLeg(trade)]) == Book(map["USD" := Amount(Deposit(trade).legs[0])], map[])
  {
    assert [TheLeg(trade)][..0] == [];
    assert Replay([]) == EMPTY_BOOK;
    assert Upper("USD") == "USD";
    assert Replay([TheLeg(trade)]) == ApplyLeg(EMPTY_BOOK, TheLeg(trade));
  }

  lemma OneKey(worth: string -> Option<real>, k: string)
    ensures TotalOver({k}, worth) == Plus(worth(k), Some(0.0))
  {
    AnyOrder({k}, worth, k);
    assert {k} - {k} == {};
  }

  lemma NoRate()
    ensures RateAt(BareMarkets()("EUR"), "USD", 1) == None
  {
    assert Upper("USD")[0] == 'U' && Upper("EUR")[0] == 'E';
    assert Latest({}, 1) == None;
  }

  /** In dollars the deposit is worth itself; in euros nothing is known. */
  lemma DepositCash(trade: Day)
    ensures ValuesAt([Deposit(trade)], BareMarkets()("USD"), 1).cash == Some(Amount(Deposit(trade).legs[0]))
    ensures ValuesAt([Deposit(trade)], BareMarkets()("EUR"), 1).cash == None
  {
    DepositLegs(trade);
    DepositBook(trade);
    var cash := map["USD" := Amount(Deposit(trade).legs[0])];
    assert cash.Keys == {"USD"};
    OneKey(CashWorth(cash, BareMarkets()("USD"), 1), "USD");
    OneKey(CashWorth(cash, BareMarkets()("EUR"), 1), "USD");
    NoRate();
  }

  lemma NothingIsWorthNothing(ctx: Context)
    ensures ValuesAt([], ctx, 1).cash == Some(0.0)
  {
    DepositLegs(1);
    assert Replay([]) == EMPTY_BOOK;
  }

  // -------------------------------------------------------------------- fresh

  /** The deposit is read by every calculation that reaches its trade date. */
  lemma DepositInput(s: State, trade: Day, to: Day)
    requires HoldsDeposit(s, trade)
    ensures Input(s, 1, to) == if trade <= to then [Deposit(trade)] else []
  {
    assert InputUpTo(s, 1, to, 1) == InputUpTo(s, 1, to, 0) + LoadedActivity(s, 1, to, 0);
  }

  lemma FiveIsNotNothing(x: real)
    requires x == 5.0 / SCALE
    ensures Calculator.Round18(x) != Calculator.Round18(0.0)
  {
    assert x * SCALE == 5.0;
    assert (5.5).Floor == 5 && (0.5).Floor == 0;
  }

  lemma DepositShows(s: State, base: string)
    requires HoldsDeposit(s, 1) && (base == "USD" || base == "EUR")
    ensures Fresh(s, BareMarkets()(base), 1, 1) != Fresh(EmptyLedger(), BareMarkets()(base), 1, 1)
  {
    DepositInput(s, 1, 1);
    DepositCash(1);
    assert Input(EmptyLedger(), 1, 1) == [];
    NothingIsWorthNothing(BareMarkets()(base));
    FiveIsNotNothing(Amount(Deposit(1).legs[0]));
  }

  // --------------------------------------------------------------------- runs

  const IN_DOLLARS := Request(1, "USD", 1, 1, 1, false)
  const IN_EUROS := Request(1, "EUR", 1, 1, 1, false)

  lemma NothingBookedTradesFirst(account: nat)
    ensures TradesFirst(EmptyLedger(), account)
  {
  }

  lemma BookedCache(c: Cache, trade: Day)
    requires c.ledger == EmptyLedger()
    ensures PerformanceCache.Run(c, BareMarkets(), [Revise(Saving(trade)), Revise(NORMALISE)]) == c.(ledger := DepositLedger(trade))
  {
    var steps := [Revise(Saving(trade)), Revise(NORMALISE)];
    assert steps[1..] == [Revise(NORMALISE)] && steps[1..][1..] == [];
    var saved := PerformanceCache.Apply(c, BareMarkets(), Revise(Saving(trade)));
    assert PerformanceCache.Run(saved, BareMarkets(), steps[1..])
      == PerformanceCache.Run(PerformanceCache.Apply(saved, BareMarkets(), Revise(NORMALISE)), BareMarkets(), []);
  }

  lemma BookedHolds(c: Cache, trade: Day)
    requires c.ledger == EmptyLedger() && trade >= 1
    ensures var t := PerformanceCache.Run(c, BareMarkets(), [Revise(Saving(trade)), Revise(NORMALISE)]);
      HoldsDeposit(t.ledger, trade) && t.points == c.points
  {
    BookedCache(c, trade);
    DepositBooked(trade);
  }

  lemma DepositIsLost(c: Cache)
    requires HoldsDeposit(c.ledger, 1)
    ensures !Agrees(RebuildFrom(c, EmptyLedger(), BareMarkets(), IN_DOLLARS), BareMarkets())
  {
    NothingBookedTradesFirst(1);
    if Agrees(RebuildFrom(c, EmptyLedger(), BareMarkets(), IN_DOLLARS), BareMarkets()) {
      RebuildNeedsLoad(c, EmptyLedger(), BareMarkets(), IN_DOLLARS);
      DepositShows(c.ledger, "USD");
    }
  }

  /** A rebuild loads the empty ledger, a deposit is booked, the rebuild replaces:
    the mark of the deposit is gone and the stored day does not show it. */
  lemma InterleavedDepositIsLost()
    ensures var c := PerformanceCache.Run(EMPTY_CACHE, BareMarkets(), [Revise(Saving(1)), Revise(NORMALISE)]);
      && Agrees(c, BareMarkets())
      && !Agrees(RebuildFrom(c, EmptyLedger(), BareMarkets(), IN_DOLLARS), BareMarkets())
  {
    BookedHolds(EMPTY_CACHE, 1);
    DepositIsLost(PerformanceCache.Run(EMPTY_CACHE, BareMarkets(), [Revise(Saving(1)), Revise(NORMALISE)]));
  }

  lemma EuroDayStored(c: Cache)
    requires c == RebuildStep(EMPTY_CACHE, BareMarkets(), IN_EUROS)
    ensures c.ledger == EmptyLedger() && PointKey(1, "EUR", 1) in c.points
    ensures c.points[PointKey(1, "EUR", 1)] == Fresh(EmptyLedger(), BareMarkets()("EUR"), 1, 1)
  {
    var value := Calculated(EmptyLedger(), BareMarkets()("EUR"), 1, 1, 1);
    SuffixHolds(map[], 1, "EUR", 1, 1, value, 1);
    NothingBookedTradesFirst(1);
    CalculatedIsFresh(EmptyLedger(), BareMarkets()("EUR"), 1, 1, 1, 1);
    assert ClearMark(map[], 1) == map[];
  }

  lemma DepositTradesFirst(s: State)
    requires HoldsDeposit(s, 1)
    ensures TradesFirst(s, 1)
  {
  }

  lemma StaleEuroStays(c: Cache)
    requires HoldsDeposit(c.ledger, 1) && PointKey(1, "EUR", 1) in c.points
    requires c.points[PointKey(1, "EUR", 1)] == Fresh(EmptyLedger(), BareMarkets()("EUR"), 1, 1)
    ensures !Agrees(RebuildStep(c, BareMarkets(), IN_DOLLARS), BareMarkets())
  {
    DepositTradesFirst(c.ledger);
    DepositShows(c.ledger, "EUR");
    if Agrees(RebuildStep(c, BareMarkets(), IN_DOLLARS), BareMarkets()) {
      RebuildNeedsRest(c, c.ledger, BareMarkets(), IN_DOLLARS, PointKey(1, "EUR", 1));
    }
  }

  lemma RebuildApplied(c: Cache, markets: Markets, r: Request)
    ensures PerformanceCache.Apply(c, markets, Rebuild(r)) == RebuildStep(c, markets, r)
  {
  }

  lemma FourSteps(c: Cache, a: PerformanceCache.Step, b: PerformanceCache.Step, d: PerformanceCache.Step, e: PerformanceCache.Step)
    ensures PerformanceCache.Run(c, BareMarkets(), [a, b, d, e])
      == PerformanceCache.Apply(PerformanceCache.Run(PerformanceCache.Apply(c, BareMarkets(), a), BareMarkets(), [b, d]), BareMarkets(), e)
  {
    var m := BareMarkets();
    var x := PerformanceCache.Apply(c, m, a);
    var y := PerformanceCache.Apply(x, m, b);
    var z := PerformanceCache.Apply(y, m, d);
    assert [a, b, d, e][1..] == [b, d, e] && [b, d, e][1..] == [d, e] && [d, e][1..] == [e] && [e][1..] == [];
    assert [b, d][1..] == [d] && [d][1..] == [];
    assert PerformanceCache.Run(z, m, [e]) == PerformanceCache.Run(PerformanceCache.Apply(z, m, e), m, []);
    assert PerformanceCache.Run(y, m, [d, e]) == PerformanceCache.Run(z, m, [e]);
    assert PerformanceCache.Run(x, m, [b, d, e]) == PerformanceCache.Run(y, m, [d, e]);
    assert PerformanceCache.Run(y, m, [d]) == PerformanceCache.Run(z, m, []);
    assert PerformanceCache.Run(x, m, [b, d]) == PerformanceCache.Run(y, m, [d]);
  }

  /** Days stored in euros, a deposit, a rebuild in dollars: the euro day is
    outdated and no longer marked. */
  lemma SecondBaseGoesStale()
    ensures !Agrees(PerformanceCache.Run(EMPTY_CACHE, BareMarkets(),
      [Rebuild(IN_EUROS), Revise(Saving(1)), Revise(NORMALISE), Rebuild(IN_DOLLARS)]), BareMarkets())
  {
    FourSteps(EMPTY_CACHE, Rebuild(IN_EUROS), Revise(Saving(1)), Revise(NORMALISE), Rebuild(IN_DOLLARS));
    var c := PerformanceCache.Apply(EMPTY_CACHE, BareMarkets(), Rebuild(IN_EUROS));
    EuroDayStored(c);
    BookedHolds(c, 1);
    var booked := PerformanceCache.Run(c, BareMarkets(), [Revise(Saving(1)), Revise(NORMALISE)]);
    RebuildApplied(booked, BareMarkets(), IN_DOLLARS);
    StaleEuroStays(booked);
  }

  // ------------------------------------------------------ a leg before its trade

  const OF_TWO_DAYS := Request(1, "USD", 1, 2, 2, false)

  lemma EarlyLegShows(c: Cache)
    requires HoldsDeposit(c.ledger, 2)
    ensures Calculated(c.ledger, BareMarkets()("USD"), 1, 1, 2)(1) != Fresh(c.ledger, BareMarkets()("USD"), 1, 1)
  {
    var ctx := BareMarkets()("USD");
    DepositInput(c.ledger, 2, 1);
    DepositInput(c.ledger, 2, 2);
    assert Loaded(ctx, 1 - LOOK_BACK, 2) == ctx;
    DepositCash(2);
    NothingIsWorthNothing(ctx);
    FiveIsNotNothing(Amount(Deposit(2).legs[0]));
  }

  lemma EarlyLegIsStored(c: Cache)
    requires HoldsDeposit(c.ledger, 2)
    ensures !Agrees(RebuildStep(c, BareMarkets(), OF_TWO_DAYS), BareMarkets())
  {
    var t := RebuildStep(c, BareMarkets(), OF_TWO_DAYS);
    var due := Fresh(c.ledger, BareMarkets()("USD"), 1, 1);
    RebuildStores(c, BareMarkets(), OF_TWO_DAYS, 1);
    EarlyLegShows(c);
    FreshIgnoresMarks(c.ledger, t.ledger.dirty, BareMarkets()("USD"), 1, 1);
    StaleDay(t, PointKey(1, "USD", 1), t.points[PointKey(1, "USD", 1)], due);
  }

  /** One clean stored day that differs from the calculation is enough. */
  lemma StaleDay(t: Cache, k: PointKey, stored: Values, due: Values)
    requires k in t.points && t.points[k] == stored != due && Clean(t.ledger.dirty, k.account, k.day)
    requires Fresh(t.ledger, BareMarkets()(k.base), k.account, k.day) == due
    ensures !Agrees(t, BareMarkets())
  {
    assert !IsFresh(t, BareMarkets(), k);
  }

  lemma ThreeSteps(c: Cache, a: PerformanceCache.Step, b: PerformanceCache.Step, d: PerformanceCache.Step)
    ensures PerformanceCache.Run(c, BareMarkets(), [a, b, d])
      == PerformanceCache.Apply(PerformanceCache.Run(c, BareMarkets(), [a, b]), BareMarkets(), d)
  {
    var m := BareMarkets();
    var x := PerformanceCache.Apply(c, m, a);
    var y := PerformanceCache.Apply(x, m, b);
    assert [a, b, d][1..] == [b, d] && [b, d][1..] == [d] && [d][1..] == [] && [a, b][1..] == [b] && [b][1..] == [];
    assert PerformanceCache.Run(y, m, [d]) == PerformanceCache.Run(PerformanceCache.Apply(y, m, d), m, []);
    assert PerformanceCache.Run(x, m, [b, d]) == PerformanceCache.Run(y, m, [d]);
    assert PerformanceCache.Run(x, m, [b]) == PerformanceCache.Run(y, m, []);
  }

  /** A deposit traded on day 2 that takes effect on day 1: a rebuild up to day 2
    stores it on day 1, where a calculation up to day 1 does not see it. */
  lemma EarlyLegGoesStale()
    ensures !Agrees(PerformanceCache.Run(EMPTY_CACHE, BareMarkets(),
      [Revise(Saving(2)), Revise(NORMALISE), Rebuild(OF_TWO_DAYS)]), BareMarkets())
  {
    ThreeSteps(EMPTY_CACHE, Revise(Saving(2)), Revise(NORMALISE), Rebuild(OF_TWO_DAYS));
    BookedHolds(EMPTY_CACHE, 2);
    var booked := PerformanceCache.Run(EMPTY_CACHE, BareMarkets(), [Revise(Saving(2)), Revise(NORMALISE)]);
    RebuildApplied(booked, BareMarkets(), OF_TWO_DAYS);
    EarlyLegIsStored(booked);
  }
}

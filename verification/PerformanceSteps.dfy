/** What each step leaves in the tables of stored days, in terms of the rows read
  and the days asked for. */
module PerformanceSteps {
  import opened Activities
  import opened Ledger
  import opened LedgerInvariant
  import opened Market
  import opened Valuation
  import opened PerformanceCache
  import Calculator
  import DayValues
  import PerformanceStore

  // ------------------------------------------------------------------- input

  /** `a` is the current revision of an activity of the account, traded by that day. */
  predicate IsCurrentOf(s: State, account: nat, to: Day, a: Activity) {
    && a.id in s.activities && s.activities[a.id].account == account
    && RevisionKey(a.id, s.activities[a.id].current) in s.revisions
    && s.revisions[RevisionKey(a.id, s.activities[a.id].current)].payload == a
    && a.tradeDate.Some? && a.tradeDate.value <= to
  }

  ghost predicate ReadsUpTo(s: State, account: nat, to: Day, n: nat, rows: seq<Activity>) {
    && (forall a :: a in rows <==> IsCurrentOf(s, account, to, a) && a.id < n)
    && (forall i, j :: 0 <= i < j < |rows| ==> rows[i].id < rows[j].id)
  }

  lemma LoadedIs(s: State, account: nat, to: Day, id: nat, a: Activity)
    requires Valid(s)
    ensures a in LoadedActivity(s, account, to, id) <==> IsCurrentOf(s, account, to, a) && a.id == id
  {
    if Tracked(s, id) {
      assert s.revisions[CurrentKey(s, id)].payload.id == id;
    }
  }

  lemma {:induction false} ReadsIs(s: State, account: nat, to: Day, n: nat)
    requires Valid(s)
    ensures ReadsUpTo(s, account, to, n, InputUpTo(s, account, to, n))
  {
    if n > 0 {
      ReadsIs(s, account, to, n - 1);
      forall a ensures a in LoadedActivity(s, account, to, n - 1) <==> IsCurrentOf(s, account, to, a) && a.id == n - 1 {
        LoadedIs(s, account, to, n - 1, a);
      }
    }
  }

  /** A calculation reads the current revision of every activity of the account that was traded by its last day, each once. */
  lemma InputExactly(s: State, account: nat, to: Day)
    requires Valid(s)
    ensures forall a :: a in Input(s, account, to) <==> IsCurrentOf(s, account, to, a)
    ensures forall i, j :: 0 <= i < j < |Input(s, account, to)| ==> Input(s, account, to)[i].id < Input(s, account, to)[j].id
  {
    ReadsIs(s, account, to, s.nextActivity);
  }

  // ----------------------------------------------------------------- rebuilds

  /** The stored figures are the day's worth over what was read up to the day `to`, rounded. */
  ghost predicate IsStoredDay(stored: Values, s: State, ctx: Context, account: nat, to: Day, day: Day) {
    exists v :: DayValues.IsDayOf(v, AllLegs(Input(s, account, to)), ctx, day) && Calculator.IsStoredAs(v, stored)
  }

  lemma WorthIsStored(s: State, ctx: Context, account: nat, to: Day, day: Day)
    ensures IsStoredDay(Calculator.StoredValues(ValuesAt(Input(s, account, to), ctx, day)), s, ctx, account, to, day)
  {
    var v := ValuesAt(Input(s, account, to), ctx, day);
    DayValues.DayIsWorth(AllLegs(Input(s, account, to)), ctx, day);
    Calculator.StoredValuesAre(v);
  }

  lemma FreshIsStoredDay(s: State, ctx: Context, account: nat, day: Day)
    ensures IsStoredDay(Fresh(s, ctx, account, day), s, ctx, account, day, day)
  {
    WorthIsStored(s, ctx, account, day, day);
  }

  /** Where a rebuild begins: at the mark if that comes first or is asked for, and else where it was asked to. */
  predicate BeginsAt(dirty: map<nat, Day>, r: Request, from: Day) {
    if r.account !in dirty then from == r.requested
    else if r.fromMark then from == dirty[r.account]
    else from <= r.requested && from <= dirty[r.account] && (from == r.requested || from == dirty[r.account])
  }

  /** The stored points after a rebuild of one account and currency that began at `from`. */
  ghost predicate RebuiltPoints(before: Points, after: Points, s: State, ctx: Context, r: Request, from: Day) {
    forall k: PointKey ::
      if k.account == r.account && k.base == r.base && from <= k.day
      then (k in after <==> k.day <= r.to) && (k in after ==> IsStoredDay(after[k], s, ctx, r.account, r.to, k.day))
      else (k in after <==> k in before) && (k in after ==> after[k] == before[k])
  }

  /** A rebuild of a sensible range writes its days from where it begins to where it
    ends, in its own account and currency, and drops what was stored after them.
    Nothing else is touched, but that reaching today takes the account's mark away. */
  lemma RebuildExactly(c: Cache, markets: Markets, r: Request) returns (from: Day)
    ensures BeginsAt(c.ledger.dirty, r, from)
    ensures !(r.requested <= r.to <= r.today) ==> RebuildStep(c, markets, r) == c
    ensures r.requested <= r.to <= r.today ==>
      var t := RebuildStep(c, markets, r);
      && RebuiltPoints(c.points, t.points, c.ledger, markets(r.base), r, from)
      && t.ledger == c.ledger.(dirty := if r.to == r.today then c.ledger.dirty - {r.account} else c.ledger.dirty)
  {
    from := Boundary(c.ledger.dirty, r);
    if r.requested <= r.to <= r.today {
      ClearedIs(c.ledger.dirty, r.account);
      var value := Calculated(c.ledger, markets(r.base), r.account, from, r.to);
      PointsRebuilt(c.points, c.ledger, markets(r.base), r, from, value);
    }
  }

  lemma PointsRebuilt(points: Points, s: State, ctx: Context, r: Request, from: Day, value: Day -> Values)
    requires value == Calculated(s, ctx, r.account, from, r.to)
    ensures RebuiltPoints(points, ReplaceSuffix(points, r.account, r.base, from, r.to, value), s, ctx, r, from)
  {
    var after := ReplaceSuffix(points, r.account, r.base, from, r.to, value);
    ReplacedIs(points, r.account, r.base, from, r.to, value);
    forall k | k in after && k.account == r.account && k.base == r.base && from <= k.day
      ensures IsStoredDay(after[k], s, ctx, r.account, r.to, k.day)
    {
      CalculatedIsStored(s, ctx, r.account, from, r.to, k.day);
    }
  }

  lemma ReplacedIs(points: Points, account: nat, base: string, from: Day, to: Day, value: Day -> Values)
    ensures var replaced := ReplaceSuffix(points, account, base, from, to, value);
      && (forall k :: k in replaced <==> if k.account == account && k.base == base && from <= k.day then k.day <= to else k in points)
      && (forall k :: k in replaced ==>
            replaced[k] == if k.account == account && k.base == base && from <= k.day then value(k.day) else points[k])
  {
  }

  lemma ClearedIs(dirty: map<nat, Day>, account: nat)
    ensures ClearMark(dirty, account) == dirty - {account}
  {
  }

  lemma CalculatedIsStored(s: State, ctx: Context, account: nat, from: Day, to: Day, day: Day)
    requires from <= day <= to
    ensures IsStoredDay(Calculated(s, ctx, account, from, to)(day), s, ctx, account, to, day)
  {
    LoadedValues(AllLegs(Input(s, account, to)), ctx, from, to, day);
    WorthIsStored(s, ctx, account, to, day);
  }

  lemma RebuildClears(c: Cache, markets: Markets, r: Request)
    requires r.requested <= r.to == r.today
    ensures r.account !in RebuildStep(c, markets, r).ledger.dirty
  {
  }

  /** A rebuild up to today leaves the account unmarked and, unless a leg precedes
    its trade, every day from where it began on stored as a calculation from scratch gives it. */
  lemma RebuildCompletes(c: Cache, markets: Markets, r: Request, day: Day)
    requires r.requested <= r.to == r.today && r.requested <= day <= r.to && TradesFirst(c.ledger, r.account)
    ensures var t, k := RebuildStep(c, markets, r), PointKey(r.account, r.base, day);
      && r.account !in t.ledger.dirty
      && ((r.account in c.ledger.dirty && r.fromMark ==> c.ledger.dirty[r.account] <= day) ==>
            k in t.points && t.points[k] == Fresh(t.ledger, markets(r.base), r.account, day))
  {
    var from := Boundary(c.ledger.dirty, r);
    RebuildClears(c, markets, r);
    if from <= day {
      RebuildStores(c, markets, r, day);
      CalculatedIsFresh(c.ledger, markets(r.base), r.account, from, r.to, day);
      FreshIgnoresMarks(c.ledger, RebuildStep(c, markets, r).ledger.dirty, markets(r.base), r.account, day);
    }
  }

  /** Revoking a source drops every account's days from its boundary on, in all
    currencies, and marks it there unless it was marked before that. */
  lemma RevokeExactly(c: Cache, boundaries: map<nat, Day>)
    ensures var t := RevokeStep(c, boundaries);
      && (forall k :: k in t.points <==> k in c.points && (k.account in boundaries ==> k.day < boundaries[k.account]))
      && (forall k :: k in t.points ==> t.points[k] == c.points[k])
      && t.ledger == c.ledger.(dirty := t.ledger.dirty)
      && (forall a :: a in t.ledger.dirty <==> a in c.ledger.dirty || a in boundaries)
      && (forall a :: a in t.ledger.dirty ==>
            && (a in c.ledger.dirty ==> t.ledger.dirty[a] <= c.ledger.dirty[a])
            && (a in boundaries ==> t.ledger.dirty[a] <= boundaries[a])
            && ((a in c.ledger.dirty && t.ledger.dirty[a] == c.ledger.dirty[a]) || (a in boundaries && t.ledger.dirty[a] == boundaries[a])))
  {
  }

  // -------------------------------------------------------------------- start

  /** The days on which an activity takes effect: those of its legs, or its own if none of them has one. */
  predicate TakesEffectOn(a: Activity, day: Day) {
    if exists leg :: leg in a.legs && EffectOf(a, leg) != None
    then exists leg :: leg in a.legs && EffectOf(a, leg) == Some(day)
    else OwnDate(a) == Some(day)
  }

  function EffectOf(a: Activity, leg: Leg): Option<Day> {
    if leg.effective != None then leg.effective else if leg.settlement != None then leg.settlement else OwnDate(a)
  }

  function OwnDate(a: Activity): Option<Day> {
    if a.settlementDate != None then a.settlementDate
    else if a.tradeDate != None then a.tradeDate
    else if a.occurredAt.Some? then Some(a.occurredAt.value.day)
    else None
  }

  lemma {:induction false} EarliestIs(a: Activity, n: nat)
    requires n <= |a.legs|
    ensures var d := Calculator.EarliestLegDate(a, n);
      && (d.None? <==> forall i :: 0 <= i < n ==> EffectOf(a, a.legs[i]) == None)
      && (d.Some? ==> exists i :: 0 <= i < n && EffectOf(a, a.legs[i]) == d)
      && (d.Some? ==> forall i :: 0 <= i < n && EffectOf(a, a.legs[i]) != None ==> d.value <= EffectOf(a, a.legs[i]).value)
  {
    if n > 0 {
      EarliestIs(a, n - 1);
    }
  }

  lemma DateIs(a: Activity)
    ensures var d := Calculator.ActivityDate(a);
      && (d.Some? ==> TakesEffectOn(a, d.value))
      && (forall day :: TakesEffectOn(a, day) ==> d.Some? && d.value <= day)
  {
    EarliestIs(a, |a.legs|);
    forall i | 0 <= i < |a.legs| ensures a.legs[i] in a.legs {
    }
  }

  /** A rebuild that is not told where to start begins on the first day on which
    anything it loaded takes effect, or on its last day if nothing does. */
  lemma StartExactly(rows: seq<Activity>, to: Day)
    ensures var start := PerformanceStore.StartOf(None, rows, to);
      if exists a, day :: a in rows && TakesEffectOn(a, day)
      then (exists a :: a in rows && TakesEffectOn(a, start)) && (forall a, day :: a in rows && TakesEffectOn(a, day) ==> start <= day)
      else start == to
  {
    FirstIs(rows);
  }

  lemma {:induction false} FirstIs(rows: seq<Activity>)
    ensures var first := PerformanceStore.FirstEffect(rows);
      && (first.Some? ==> exists a :: a in rows && TakesEffectOn(a, first.value))
      && (forall a, day :: a in rows && TakesEffectOn(a, day) ==> first.Some? && first.value <= day)
    decreases |rows|
  {
    if rows != [] {
      var n := |rows| - 1;
      FirstIs(rows[..n]);
      DateIs(rows[n]);
      assert forall a :: a in rows ==> a in rows[..n] || a == rows[n];
    }
  }
}

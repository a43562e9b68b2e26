/** The tables of stored days and dirty marks, and the service that rebuilds them. */
module PerformanceStore {
  import opened Activities
  import opened Ledger
  import opened Market
  import opened Valuation
  import opened PerformanceCache
  import Calculator
  import Folds
  import Returns

  class Tables {
    var points: Points
    var dirty: map<nat, Day>

    constructor ()
      ensures points == map[] && dirty == map[]
    {
      points, dirty := map[], map[];
    }

    method MarkDirty(account: nat, from: Day)
      modifies this`dirty
      ensures dirty == Ledger.MarkDirty(old(dirty), account, Some(from))
    {
      if account !in dirty || from < dirty[account] {
        dirty := dirty[account := from];
      }
    }

    method InsertPoints(account: nat, base: string, from: Day, series: seq<Values>)
      modifies this`points
      ensures points == old(points) + Inserted(account, base, from, from + |series| - 1, ByDay(series, from))
    {
      ghost var added := Inserted(account, base, from, from - 1, ByDay(series, from));
      for i := 0 to |series|
        invariant points == old(points) + added
        invariant added == Inserted(account, base, from, from + i - 1, ByDay(series, from))
      {
        InsertedNext(account, base, from, i, series);
        UnionUpdate(old(points), added, PointKey(account, base, from + i), series[i]);
        points := points[PointKey(account, base, from + i) := series[i]];
        added := added[PointKey(account, base, from + i) := series[i]];
      }
    }

    /** Deletes the suffix, inserts the series point by point and may clear the mark. */
    method ReplaceSeries(account: nat, base: string, from: Day, series: seq<Values>, clear: bool)
      modifies this
      ensures points == ReplaceSuffix(old(points), account, base, from, from + |series| - 1, ByDay(series, from))
      ensures dirty == if clear then ClearMark(old(dirty), account) else old(dirty)
    {
      points := Truncated(points, account, base, from);
      InsertPoints(account, base, from, series);
      if clear {
        dirty := ClearMark(dirty, account);
      }
    }

    /** Drops and marks one account after the other. */
    method InvalidateSource(boundaries: map<nat, Day>)
      modifies this
      ensures points == DropFrom(old(points), boundaries)
      ensures dirty == MarkAll(old(dirty), boundaries)
    {
      var rest := boundaries.Keys;
      ghost var done := map[];
      while rest != {}
        invariant rest <= boundaries.Keys && done == Among(boundaries, boundaries.Keys - rest)
        invariant points == DropFrom(old(points), done) && dirty == MarkAll(old(dirty), done)
        decreases |rest|
      {
        var account := Folds.AnyOf(rest);
        AmongNext(boundaries, rest, account);
        DropNext(old(points), done, account, boundaries[account]);
        MarkNext(old(dirty), done, account, boundaries[account]);
        rest, done := rest - {account}, done[account := boundaries[account]];
        points := WithoutSuffix(points, account, boundaries[account]);
        MarkDirty(account, boundaries[account]);
      }
      assert done == boundaries;
    }
  }

  // ----------------------------------------------------------------- rebuild

  lemma InsertedAlike(account: nat, base: string, from: Day, to: Day, series: seq<Values>, value: Day -> Values)
    requires |series| == Calculator.DaysIn(from, to)
    requires forall i :: 0 <= i < |series| ==> series[i] == value(from + i)
    ensures Inserted(account, base, from, from + |series| - 1, ByDay(series, from)) == Inserted(account, base, from, to, value)
  {
    forall d | from <= d <= to ensures ByDay(series, from)(d) == value(d) {
      assert series[d - from] == value(from + (d - from));
    }
  }

  function ValuesIn(points: seq<Calculator.Point>): seq<Values> {
    seq(|points|, i requires 0 <= i < |points| => points[i].values)
  }

  lemma DaysReported(points: seq<Calculator.Point>, value: Day -> Values, stored: Day -> Values, from: Day,
                     anchor: Returns.Anchor, covered: bool)
    requires Calculator.Report(points, Calculator.Days(value, from, |points|), from, anchor, covered)
    requires forall day :: stored(day) == Calculator.StoredValues(value(day))
    ensures forall i :: 0 <= i < |points| ==> ValuesIn(points)[i] == stored(from + i)
  {
  }

  lemma SameInput(s: State, rows: seq<Activity>, ctx: Context, account: nat, from: Day, to: Day)
    requires multiset(rows) == multiset(Input(s, account, to))
    ensures var value := Calculator.Daily(AllLegs(rows), Loaded(ctx, from - LOOK_BACK, to));
      forall day :: Calculated(s, ctx, account, from, to)(day) == Calculator.StoredValues(value(day))
  {
    var value := Calculator.Daily(AllLegs(rows), Loaded(ctx, from - LOOK_BACK, to));
    forall day ensures Calculated(s, ctx, account, from, to)(day) == Calculator.StoredValues(value(day)) {
      RowOrderIsIrrelevant(rows, Input(s, account, to), Loaded(ctx, from - LOOK_BACK, to), day);
    }
  }

  /** The series that a rebuild stores. */
  method CalculateSeries(ghost s: State, rows: seq<Activity>, ctx: Context, account: nat, from: Day, to: Day,
                         anchor: Returns.Anchor, covered: bool, ghost stored: Day -> Values) returns (series: seq<Values>)
    requires multiset(rows) == multiset(Input(s, account, to)) && stored == Calculated(s, ctx, account, from, to)
    ensures |series| == Calculator.DaysIn(from, to)
    ensures forall i :: 0 <= i < |series| ==> series[i] == stored(from + i)
  {
    var window := Loaded(ctx, from - LOOK_BACK, to);
    var points := Calculator.Calculate(rows, window, from, to, anchor, covered);
    SameInput(s, rows, ctx, account, from, to);
    DaysReported(points, Calculator.Daily(AllLegs(rows), window), stored, from, anchor, covered);
    series := ValuesIn(points);
  }

  /** The first day on which any loaded activity takes effect. */
  function FirstEffect(rows: seq<Activity>): Option<Day>
    decreases |rows|
  {
    if rows == [] then None else EarlierDate(FirstEffect(rows[..|rows| - 1]), Calculator.ActivityDate(rows[|rows| - 1]))
  }

  lemma {:induction false} FirstEffectIsFirst(rows: seq<Activity>, i: nat)
    requires i < |rows|
    ensures NotAfter(FirstEffect(rows), Calculator.ActivityDate(rows[i]))
    decreases |rows|
  {
    if i < |rows| - 1 {
      FirstEffectIsFirst(rows[..|rows| - 1], i);
      assert rows[..|rows| - 1][i] == rows[i];
    }
  }

  /** A request without a start begins with the first loaded activity, or on its last day. */
  function StartOf(asked: Option<Day>, rows: seq<Activity>, to: Day): Day {
    if asked.Some? then asked.value else if FirstEffect(rows).Some? then FirstEffect(rows).value else to
  }

  method FindStart(asked: Option<Day>, rows: seq<Activity>, to: Day) returns (start: Day)
    ensures start == StartOf(asked, rows, to)
    ensures asked.None? ==> forall i :: 0 <= i < |rows| && Calculator.ActivityDate(rows[i]).Some? ==>
      start <= Calculator.ActivityDate(rows[i]).value
  {
    if asked.Some? {
      return asked.value;
    }
    var first: Option<Day> := None;
    for i := 0 to |rows|
      invariant first == FirstEffect(rows[..i])
    {
      assert rows[..i + 1][..i] == rows[..i];
      first := EarlierDate(first, Calculator.ActivityDate(rows[i]));
    }
    assert rows[..|rows|] == rows;
    forall i | 0 <= i < |rows| ensures NotAfter(first, Calculator.ActivityDate(rows[i])) {
      FirstEffectIsFirst(rows, i);
    }
    return if first.Some? then first.value else to;
  }

  /** One rebuild. Its input is what an earlier transaction loaded: `rows` in
    whatever order the query gave them, and the marks `marked` of that moment. The
    tables may have changed since. */
  method Rebuild(tables: Tables, ghost loaded: State, rows: seq<Activity>, marked: map<nat, Day>, ctx: Context,
                 account: nat, base: string, asked: Option<Day>, to: Day, today: Day, fromMark: bool,
                 anchor: Returns.Anchor, covered: bool) returns (r: Request, ok: bool)
    requires multiset(rows) == multiset(Input(loaded, account, to)) && marked == loaded.dirty
    modifies tables
    ensures r == Request(account, base, StartOf(asked, rows, to), to, today, fromMark)
    ensures ok <==> Accepted(r)
    ensures !ok ==> tables.points == old(tables.points) && tables.dirty == old(tables.dirty)
    ensures ok ==> var from := Boundary(marked, r);
      && tables.points == ReplaceSuffix(old(tables.points), r.account, r.base, from, r.to, Calculated(loaded, ctx, r.account, from, r.to))
      && tables.dirty == (if Clears(r) then ClearMark(old(tables.dirty), r.account) else old(tables.dirty))
  {
    var start := FindStart(asked, rows, to);
    r := Request(account, base, start, to, today, fromMark);
    if start > to || to > today {
      return r, false;
    }
    var from := start;
    if r.account in marked && (r.fromMark || marked[r.account] < from) {
      from := marked[r.account];
    }
    ghost var stored := Calculated(loaded, ctx, r.account, from, r.to);
    var series := CalculateSeries(loaded, rows, ctx, r.account, from, r.to, anchor, covered, stored);
    InsertedAlike(r.account, r.base, from, r.to, series, stored);
    tables.ReplaceSeries(r.account, r.base, from, series, r.to >= r.today);
    return r, true;
  }

  const UNKNOWN := Values(None, None, None, None)

  function ByDay(series: seq<Values>, from: Day): Day -> Values {
    d => if from <= d < from + |series| then series[d - from] else UNKNOWN
  }

  function Among<K, V>(m: map<K, V>, keys: set<K>): map<K, V> {
    map k | k in m && k in keys :: m[k]
  }

  lemma InsertedNext(account: nat, base: string, from: Day, i: nat, series: seq<Values>)
    requires i < |series|
    ensures Inserted(account, base, from, from + i, ByDay(series, from))
      == Inserted(account, base, from, from + i - 1, ByDay(series, from))[PointKey(account, base, from + i) := series[i]]
  {
  }

  lemma UnionUpdate<K, V>(m: map<K, V>, n: map<K, V>, k: K, v: V)
    ensures m + n[k := v] == (m + n)[k := v]
  {
  }

  lemma AmongNext<K, V>(m: map<K, V>, rest: set<K>, k: K)
    requires rest <= m.Keys && k in rest
    ensures k !in Among(m, m.Keys - rest)
    ensures Among(m, m.Keys - (rest - {k})) == Among(m, m.Keys - rest)[k := m[k]]
  {
  }

  function WithoutSuffix(points: Points, account: nat, from: Day): Points {
    map k | k in points && !(k.account == account && k.day >= from) :: points[k]
  }

  lemma DropNext(points: Points, done: map<nat, Day>, account: nat, from: Day)
    requires account !in done
    ensures DropFrom(points, done[account := from]) == WithoutSuffix(DropFrom(points, done), account, from)
  {
  }

  lemma MarkNext(dirty: map<nat, Day>, done: map<nat, Day>, account: nat, from: Day)
    requires account !in done
    ensures MarkAll(dirty, done[account := from]) == Ledger.MarkDirty(MarkAll(dirty, done), account, Some(from))
  {
  }
}

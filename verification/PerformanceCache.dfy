/** Stored daily points agree with a calculation from scratch.

  Market data are fixed. A rebuild writes one base currency of an account, while
  its dirty mark and the revocation of a source concern them all. */
module PerformanceCache {
  import opened Activities
  import opened Ledger
  import opened LedgerInvariant
  import opened Market
  import opened Valuation
  import opened Folds
  import Calculator
  import DirtyMarks
  import LedgerRuns

  datatype PointKey = PointKey(account: nat, base: string, day: Day)
  type Points = map<PointKey, Values>

  /** The fixed market data of each base currency. */
  type Markets = string -> Context

  datatype Cache = Cache(ledger: State, points: Points)

  // ------------------------------------------------------------------- input

  /** The current revision of `id`, when it is an activity of the account traded
    by `to`. A blank trade date sorts after every dated key, so it is never loaded. */
  predicate IsLoaded(s: State, account: nat, to: Day, id: nat) {
    && Tracked(s, id)
    && s.activities[id].account == account
    && Current(s, id).payload.tradeDate.Some?
    && Current(s, id).payload.tradeDate.value <= to
  }

  function LoadedActivity(s: State, account: nat, to: Day, id: nat): seq<Activity> {
    if IsLoaded(s, account, to, id) then [Current(s, id).payload] else []
  }

  function InputUpTo(s: State, account: nat, to: Day, n: nat): seq<Activity> {
    if n == 0 then [] else InputUpTo(s, account, to, n - 1) + LoadedActivity(s, account, to, n - 1)
  }

  /** What a calculation up to the day `to` reads from the ledger. */
  function Input(s: State, account: nat, to: Day): seq<Activity> {
    InputUpTo(s, account, to, s.nextActivity)
  }

  /** The day's figures, calculated from scratch over the current ledger. */
  ghost function Fresh(s: State, ctx: Context, account: nat, day: Day): Values {
    Calculator.StoredValues(ValuesAt(Input(s, account, day), ctx, day))
  }

  // ------------------------------------------------------------------- steps

  datatype Request = Request(account: nat, base: string, requested: Day, to: Day, today: Day, fromMark: bool)

  datatype Step =
    | Revise(step: Ledger.Step)
    | Revoke(boundaries: map<nat, Day>)
    | Rebuild(request: Request)

  /** A rebuild starts at the request, or at the mark when that is earlier or asked for. */
  function Boundary(dirty: map<nat, Day>, r: Request): Day {
    if r.account in dirty && (r.fromMark || dirty[r.account] < r.requested) then dirty[r.account] else r.requested
  }

  predicate Accepted(r: Request) {
    r.requested <= r.to <= r.today
  }

  /** The account's mark is removed when the rebuild reaches the present day. */
  predicate Clears(r: Request) {
    Accepted(r) && r.to >= r.today
  }

  /** Replaces one stored suffix, from `from` on, with the days up to `to`. */
  function ReplaceSuffix(points: Points, account: nat, base: string, from: Day, to: Day, value: Day -> Values): Points {
    Truncated(points, account, base, from) + Inserted(account, base, from, to, value)
  }

  function Truncated(points: Points, account: nat, base: string, from: Day): Points {
    map k | k in points && !(k.account == account && k.base == base && k.day >= from) :: points[k]
  }

  function Inserted(account: nat, base: string, from: Day, to: Day, value: Day -> Values): Points {
    map d | from <= d <= to :: PointKey(account, base, d) := value(d)
  }

  ghost function Calculated(s: State, ctx: Context, account: nat, from: Day, to: Day): Day -> Values {
    day => Calculator.StoredValues(ValuesAt(Input(s, account, to), Loaded(ctx, from - LOOK_BACK, to), day))
  }

  function ClearMark(dirty: map<nat, Day>, account: nat): map<nat, Day> {
    map a | a in dirty && a != account :: dirty[a]
  }

  /** A rebuild whose input was loaded from the ledger `loaded`. */
  ghost function RebuildFrom(c: Cache, loaded: State, markets: Markets, r: Request): Cache {
    if !Accepted(r) then c
    else
      var from := Boundary(loaded.dirty, r);
      Cache(
        if Clears(r) then c.ledger.(dirty := ClearMark(c.ledger.dirty, r.account)) else c.ledger,
        ReplaceSuffix(c.points, r.account, r.base, from, r.to, Calculated(loaded, markets(r.base), r.account, from, r.to)))
  }

  ghost function RebuildStep(c: Cache, markets: Markets, r: Request): Cache {
    RebuildFrom(c, c.ledger, markets, r)
  }

  function DropFrom(points: Points, boundaries: map<nat, Day>): Points {
    map k | k in points && !(k.account in boundaries && boundaries[k.account] <= k.day) :: points[k]
  }

  function MarkAll(dirty: map<nat, Day>, boundaries: map<nat, Day>): map<nat, Day> {
    map a | a in dirty.Keys + boundaries.Keys ::
      if a !in boundaries then dirty[a]
      else if a in dirty && dirty[a] <= boundaries[a] then dirty[a]
      else boundaries[a]
  }

  /** Drops every derived day from the first one that used a revoked source. */
  function RevokeStep(c: Cache, boundaries: map<nat, Day>): Cache {
    Cache(c.ledger.(dirty := MarkAll(c.ledger.dirty, boundaries)), DropFrom(c.points, boundaries))
  }

  ghost function Apply(c: Cache, markets: Markets, step: Step): Cache {
    match step
    case Revise(change) => c.(ledger := Ledger.Apply(c.ledger, change))
    case Revoke(boundaries) => RevokeStep(c, boundaries)
    case Rebuild(request) => RebuildStep(c, markets, request)
  }

  ghost function Run(c: Cache, markets: Markets, steps: seq<Step>): Cache
    decreases |steps|
  {
    if steps == [] then c else Run(Apply(c, markets, steps[0]), markets, steps[1..])
  }

  // --------------------------------------------------------------- invariant

  predicate Clean(dirty: map<nat, Day>, account: nat, day: Day) {
    account in dirty ==> day < dirty[account]
  }

  ghost predicate IsFresh(c: Cache, markets: Markets, k: PointKey)
    requires k in c.points
  {
    c.points[k] == Fresh(c.ledger, markets(k.base), k.account, k.day)
  }

  /** Every stored day before the mark is what a calculation from scratch would give. */
  ghost predicate Agrees(c: Cache, markets: Markets) {
    forall k | k in c.points && Clean(c.ledger.dirty, k.account, k.day) :: IsFresh(c, markets, k)
  }

  /** No leg takes effect before the trade date of its activity. */
  predicate TradeFirst(a: Activity) {
    forall i :: 0 <= i < |a.legs| && a.tradeDate.Some? && LegDate(a, a.legs[i]).Some? ==>
      a.tradeDate.value <= LegDate(a, a.legs[i]).value
  }

  ghost predicate AllTradeFirst(revisions: Revisions) {
    forall k :: k in revisions ==> TradeFirst(revisions[k].payload)
  }

  predicate TradedFirst(s: State, account: nat, id: nat) {
    Tracked(s, id) && s.activities[id].account == account ==> TradeFirst(Current(s, id).payload)
  }

  /** The same for the current revisions of one account. */
  ghost predicate TradesFirst(s: State, account: nat) {
    forall id :: TradedFirst(s, account, id)
  }

  /** A stored day that the mark covers and a rebuild in `base` does not rewrite. */
  predicate Overlooked(c: Cache, r: Request, k: PointKey) {
    k in c.points && k.account == r.account && k.base != r.base && !Clean(c.ledger.dirty, k.account, k.day)
  }

  /** A rebuild reads an account whose legs do not precede their trades, and clears
    the mark only when no other base currency still needs it. */
  ghost predicate Thorough(c: Cache, step: Step) {
    step.Rebuild? && Accepted(step.request) ==>
      && TradesFirst(c.ledger, step.request.account)
      && (Clears(step.request) ==> forall k :: !Overlooked(c, step.request, k))
  }

  ghost predicate ThoroughRun(c: Cache, markets: Markets, steps: seq<Step>)
    decreases |steps|
  {
    steps == [] || (Thorough(c, steps[0]) && ThoroughRun(Apply(c, markets, steps[0]), markets, steps[1..]))
  }

  // -------------------------------------------------- which legs a day can see

  function EarlyLegs(xs: seq<Activity>, day: Day): seq<DatedLeg> {
    Before(AllLegs(xs), day + 1)
  }

  /** A day's values depend only on the legs dated up to that day. */
  lemma EarlyLegsDecide(xs: seq<Activity>, ys: seq<Activity>, ctx: Context, day: Day)
    requires EarlyLegs(xs, day) == EarlyLegs(ys, day)
    ensures ValuesAt(xs, ctx, day) == ValuesAt(ys, ctx, day)
  {
    OnAmongEarly(AllLegs(xs), day);
    OnAmongEarly(AllLegs(ys), day);
  }

  lemma OnAmongEarly(legs: seq<DatedLeg>, day: Day)
    ensures On(Before(legs, day + 1), day) == On(legs, day)
  {
    FilterTwice(e => DatedBefore(e, day + 1), e => DatedOn(e, day), e => DatedOn(e, day), legs);
  }

  lemma EarlyLegsConcat(xs: seq<Activity>, ys: seq<Activity>, day: Day)
    ensures EarlyLegs(xs + ys, day) == EarlyLegs(xs, day) + EarlyLegs(ys, day)
  {
    AllLegsConcat(xs, ys);
    FilterConcat(e => DatedBefore(e, day + 1), AllLegs(xs), AllLegs(ys));
  }

  /** An activity none of whose legs is dated up to `day` is not seen on that day. */
  predicate Unseen(a: Activity, day: Day) {
    forall i :: 0 <= i < |a.legs| && LegDate(a, a.legs[i]).Some? ==> day < LegDate(a, a.legs[i]).value
  }

  lemma UnseenHasNoEarlyLegs(a: Activity, day: Day)
    requires Unseen(a, day)
    ensures EarlyLegs([a], day) == []
  {
    assert [a][..0] == [];
    assert AllLegs([a]) == LegsOf(a);
    FilterNone(e => DatedBefore(e, day + 1), LegsOf(a));
  }

  lemma NothingIsEarly(day: Day)
    ensures EarlyLegs([], day) == []
  {
  }

  /** What activity `id` contributes to a day of an account. */
  function Part(s: State, account: nat, to: Day, id: nat, day: Day): seq<DatedLeg> {
    EarlyLegs(LoadedActivity(s, account, to, id), day)
  }

  lemma NextPart(s: State, account: nat, to: Day, n: nat, day: Day)
    ensures EarlyLegs(InputUpTo(s, account, to, n + 1), day)
      == EarlyLegs(InputUpTo(s, account, to, n), day) + Part(s, account, to, n, day)
  {
    EarlyLegsConcat(InputUpTo(s, account, to, n), LoadedActivity(s, account, to, n), day);
  }

  function ConcatBelow(f: nat -> seq<DatedLeg>, n: nat): seq<DatedLeg> {
    if n == 0 then [] else ConcatBelow(f, n - 1) + f(n - 1)
  }

  lemma {:induction false} ConcatAlike(f: nat -> seq<DatedLeg>, g: nat -> seq<DatedLeg>, n: nat)
    requires forall id: nat :: id < n ==> f(id) == g(id)
    ensures ConcatBelow(f, n) == ConcatBelow(g, n)
  {
    if n > 0 {
      ConcatAlike(f, g, n - 1);
    }
  }

  function PartOf(s: State, account: nat, to: Day, day: Day): nat -> seq<DatedLeg> {
    (id: nat) => Part(s, account, to, id, day)
  }

  function SeenUpTo(s: State, account: nat, to: Day, day: Day): nat -> seq<DatedLeg> {
    (n: nat) => EarlyLegs(InputUpTo(s, account, to, n), day)
  }

  lemma {:induction false} ConcatBuildsUp(whole: nat -> seq<DatedLeg>, part: nat -> seq<DatedLeg>, n: nat)
    requires whole(0) == [] && forall k: nat :: whole(k + 1) == whole(k) + part(k)
    ensures whole(n) == ConcatBelow(part, n)
  {
    if n > 0 {
      ConcatBuildsUp(whole, part, n - 1);
      assert whole(n - 1 + 1) == whole(n - 1) + part(n - 1);
    }
  }

  lemma EarlyLegsAreParts(s: State, account: nat, to: Day, day: Day, n: nat)
    ensures EarlyLegs(InputUpTo(s, account, to, n), day) == ConcatBelow(PartOf(s, account, to, day), n)
  {
    NothingIsEarly(day);
    var whole, part := SeenUpTo(s, account, to, day), PartOf(s, account, to, day);
    forall k: nat ensures whole(k + 1) == whole(k) + part(k) {
      NextPart(s, account, to, k, day);
    }
    ConcatBuildsUp(whole, part, n);
  }

  lemma PartsDecide(s: State, t: State, account: nat, to: Day, to': Day, n: nat, day: Day)
    requires forall id: nat :: id < n ==> Part(s, account, to, id, day) == Part(t, account, to', id, day)
    ensures EarlyLegs(InputUpTo(s, account, to, n), day) == EarlyLegs(InputUpTo(t, account, to', n), day)
  {
    EarlyLegsAreParts(s, account, to, day, n);
    EarlyLegsAreParts(t, account, to', day, n);
    ConcatAlike(PartOf(s, account, to, day), PartOf(t, account, to', day), n);
  }

  lemma {:induction false} NothingBeyond(s: State, account: nat, to: Day, n: nat)
    requires Started(s.activities, s.nextActivity) && s.nextActivity <= n
    ensures InputUpTo(s, account, to, n) == Input(s, account, to)
  {
    if s.nextActivity < n {
      NothingBeyond(s, account, to, n - 1);
      assert n - 1 !in s.activities;
    }
  }

  lemma SameEarlyLegs(s: State, account: nat, to: Day, day: Day)
    requires day <= to && TradesFirst(s, account)
    ensures EarlyLegs(Input(s, account, to), day) == EarlyLegs(Input(s, account, day), day)
  {
    forall id: nat | id < s.nextActivity
      ensures Part(s, account, to, id, day) == Part(s, account, day, id, day)
    {
      if IsLoaded(s, account, to, id) && !IsLoaded(s, account, day, id) {
        assert TradedFirst(s, account, id);
        UnseenHasNoEarlyLegs(Current(s, id).payload, day);
        NothingIsEarly(day);
      }
    }
    PartsDecide(s, s, account, to, day, s.nextActivity, day);
  }

  /** The end of the calculation decides nothing about earlier days. */
  lemma EndIsIrrelevant(s: State, ctx: Context, account: nat, to: Day, day: Day)
    requires TradesFirst(s, account) && day <= to
    ensures ValuesAt(Input(s, account, to), ctx, day) == ValuesAt(Input(s, account, day), ctx, day)
  {
    SameEarlyLegs(s, account, to, day);
    EarlyLegsDecide(Input(s, account, to), Input(s, account, day), ctx, day);
  }

  // ------------------------------------------------- legs before their trade

  lemma EarlyLegIsSeen(a: Activity, i: nat, day: Day)
    requires i < |a.legs| && DatedBefore(DatedLeg(a, a.legs[i]), day + 1)
    ensures |EarlyLegs([a], day)| >= 1
  {
    assert [a][..0] == [];
    assert AllLegs([a]) == LegsOf(a);
    assert LegsOf(a)[i] in multiset(LegsOf(a));
    FilterCount(e => DatedBefore(e, day + 1), LegsOf(a), LegsOf(a)[i]);
  }

  function SumBelow(f: nat -> nat, n: nat): nat {
    if n == 0 then 0 else SumBelow(f, n - 1) + f(n - 1)
  }

  lemma {:induction false} SumsDiffer(f: nat -> nat, g: nat -> nat, n: nat, k: nat)
    requires forall i :: f(i) >= g(i)
    requires f(k) > g(k)
    ensures SumBelow(f, n) >= SumBelow(g, n) && (k < n ==> SumBelow(f, n) > SumBelow(g, n))
  {
    if n > 0 {
      SumsDiffer(f, g, n - 1, k);
    }
  }

  /** How many legs of an activity a day sees. */
  function SeenOf(s: State, account: nat, to: Day, day: Day): nat -> nat {
    id => |Part(s, account, to, id, day)|
  }

  lemma SeenNext(s: State, account: nat, to: Day, day: Day, n: nat)
    ensures |EarlyLegs(InputUpTo(s, account, to, n + 1), day)|
      == |EarlyLegs(InputUpTo(s, account, to, n), day)| + |Part(s, account, to, n, day)|
  {
    NextPart(s, account, to, n, day);
  }

  lemma {:induction false} SeenInAll(s: State, account: nat, to: Day, day: Day, n: nat, seen: nat -> nat)
    requires forall id: nat :: id < n ==> seen(id) == |Part(s, account, to, id, day)|
    ensures |EarlyLegs(InputUpTo(s, account, to, n), day)| == SumBelow(seen, n)
  {
    if n == 0 {
      NothingIsEarly(day);
    } else {
      SeenInAll(s, account, to, day, n - 1, seen);
      SeenNext(s, account, to, day, n - 1);
    }
  }

  /** A later end sees no fewer legs of any activity. */
  lemma LaterEndSeesMore(s: State, account: nat, to: Day, day: Day)
    requires day <= to
    ensures forall id :: SeenOf(s, account, to, day)(id) >= SeenOf(s, account, day, day)(id)
  {
    NothingIsEarly(day);
  }

  lemma LateLoadIsSeen(s: State, account: nat, to: Day, day: Day, id: nat)
    requires IsLoaded(s, account, to, id) && !IsLoaded(s, account, day, id)
    requires |EarlyLegs([Current(s, id).payload], day)| >= 1
    ensures SeenOf(s, account, to, day)(id) > SeenOf(s, account, day, day)(id)
  {
    NothingIsEarly(day);
  }

  ghost predicate EndNeverMatters(s: State, account: nat) {
    forall to, day | day <= to :: EarlyLegs(Input(s, account, to), day) == EarlyLegs(Input(s, account, day), day)
  }

  lemma EndMatters(s: State, account: nat, to: Day, day: Day, id: nat)
    requires day <= to && id < s.nextActivity
    requires SeenOf(s, account, to, day)(id) > SeenOf(s, account, day, day)(id)
    ensures EarlyLegs(Input(s, account, to), day) != EarlyLegs(Input(s, account, day), day)
  {
    LaterEndSeesMore(s, account, to, day);
    SumsDiffer(SeenOf(s, account, to, day), SeenOf(s, account, day, day), s.nextActivity, id);
    SeenInAll(s, account, to, day, s.nextActivity, SeenOf(s, account, to, day));
    SeenInAll(s, account, day, day, s.nextActivity, SeenOf(s, account, day, day));
  }

  lemma LateTradeMatters(s: State, account: nat, id: nat, i: nat)
    requires Valid(s) && Tracked(s, id) && s.activities[id].account == account
    requires var a := Current(s, id).payload;
      && i < |a.legs| && a.tradeDate.Some? && LegDate(a, a.legs[i]).Some?
      && LegDate(a, a.legs[i]).value < a.tradeDate.value
    ensures !EndNeverMatters(s, account)
  {
    var a := Current(s, id).payload;
    var day, to := LegDate(a, a.legs[i]).value, a.tradeDate.value;
    EarlyLegIsSeen(a, i, day);
    LateLoadIsSeen(s, account, to, day, id);
    EndMatters(s, account, to, day, id);
  }

  /** What a day sees is independent of the end of the calculation exactly when
    no leg of the account takes effect before its activity's trade date. */
  lemma EndMattersExactly(s: State, account: nat)
    requires Valid(s)
    ensures EndNeverMatters(s, account) <==> TradesFirst(s, account)
  {
    if TradesFirst(s, account) {
      forall to, day | day <= to
        ensures EarlyLegs(Input(s, account, to), day) == EarlyLegs(Input(s, account, day), day)
      {
        SameEarlyLegs(s, account, to, day);
      }
    } else {
      var id :| !TradedFirst(s, account, id);
      var a := Current(s, id).payload;
      var i :| 0 <= i < |a.legs| && a.tradeDate.Some? && LegDate(a, a.legs[i]).Some? &&
        LegDate(a, a.legs[i]).value < a.tradeDate.value;
      LateTradeMatters(s, account, id, i);
    }
  }

  // ------------------------------------------------------------ ledger steps

  lemma LateIsUnseen(a: Activity, dirty: map<nat, Day>, account: nat, day: Day)
    requires DirtyMarks.Covers(dirty, account, EarliestOf(a)) && Clean(dirty, account, day)
    ensures Unseen(a, day)
  {
    forall i | 0 <= i < |a.legs| && LegDate(a, a.legs[i]).Some? ensures day < LegDate(a, a.legs[i]).value {
      LegNotBeforeBoundary(a, i);
    }
  }

  lemma LateHasNoPart(s: State, dirty: map<nat, Day>, owner: nat, account: nat, to: Day, id: nat, day: Day)
    requires DirtyMarks.CoversCurrent(s.activities, s.revisions, dirty, owner, id) && s.activities[id].account == owner
    requires Clean(dirty, account, day)
    ensures Part(s, account, to, id, day) == []
  {
    NothingIsEarly(day);
    if IsLoaded(s, account, to, id) {
      LateIsUnseen(Current(s, id).payload, dirty, account, day);
      UnseenHasNoEarlyLegs(Current(s, id).payload, day);
    }
  }

  lemma SamePart(s: State, t: State, account: nat, to: Day, id: nat, day: Day)
    requires Numbered(s.activities, s.revisions) && Kept(s.revisions, t.revisions)
    requires RowsGrow(s.activities, t.activities) && Started(s.activities, s.nextActivity)
    requires DirtyMarks.MarksChanges(s.activities, s.revisions, t.activities, t.revisions, t.dirty)
    requires Clean(t.dirty, account, day)
    ensures Part(s, account, to, id, day) == Part(t, account, to, id, day)
  {
    NothingIsEarly(day);
    if id in t.activities && !DirtyMarks.Unchanged(s.activities, t.activities, id) {
      LateHasNoPart(t, t.dirty, t.activities[id].account, account, to, id, day);
      if id in s.activities {
        LateHasNoPart(s, t.dirty, t.activities[id].account, account, to, id, day);
      }
    } else if id in t.activities {
      assert CurrentKey(s, id) in s.revisions;
      assert Current(t, id) == Current(s, id);
    }
  }

  /** A ledger step changes no clean day. */
  lemma CleanDaysKept(s: State, change: Ledger.Step, ctx: Context, account: nat, day: Day)
    requires Valid(s) && Clean(Ledger.Apply(s, change).dirty, account, day)
    ensures Fresh(Ledger.Apply(s, change), ctx, account, day) == Fresh(s, ctx, account, day)
  {
    var t := Ledger.Apply(s, change);
    LedgerRuns.StepProgress(s, change);
    DirtyMarks.StepMarks(s, change);
    SameFresh(s, t, ctx, account, day);
  }

  lemma SameFresh(s: State, t: State, ctx: Context, account: nat, day: Day)
    requires Valid(s) && Valid(t) && Grows(s, t) && DirtyMarks.Marks(s, t) && Clean(t.dirty, account, day)
    ensures Fresh(t, ctx, account, day) == Fresh(s, ctx, account, day)
  {
    var n := if s.nextActivity <= t.nextActivity then t.nextActivity else s.nextActivity;
    forall id: nat | id < n ensures Part(s, account, day, id, day) == Part(t, account, day, id, day) {
      SamePart(s, t, account, day, id, day);
    }
    PartsDecide(s, t, account, day, day, n, day);
    NothingBeyond(s, account, day, n);
    NothingBeyond(t, account, day, n);
    EarlyLegsDecide(Input(s, account, day), Input(t, account, day), ctx, day);
  }

  lemma ReviseAgrees(c: Cache, markets: Markets, change: Ledger.Step)
    requires Valid(c.ledger) && Agrees(c, markets)
    ensures Agrees(c.(ledger := Ledger.Apply(c.ledger, change)), markets)
  {
    var t := c.(ledger := Ledger.Apply(c.ledger, change));
    DirtyMarks.StepMarks(c.ledger, change);
    forall k | k in t.points && Clean(t.ledger.dirty, k.account, k.day) ensures IsFresh(t, markets, k) {
      assert IsFresh(c, markets, k);
      CleanDaysKept(c.ledger, change, markets(k.base), k.account, k.day);
    }
  }

  // ----------------------------------------------------------------- rebuilds

  /** Marks are no part of what a calculation reads. */
  lemma {:induction false} MarksAreNotRead(s: State, dirty: map<nat, Day>, account: nat, to: Day, n: nat)
    ensures InputUpTo(s.(dirty := dirty), account, to, n) == InputUpTo(s, account, to, n)
  {
    if n > 0 {
      MarksAreNotRead(s, dirty, account, to, n - 1);
    }
  }

  lemma FreshIgnoresMarks(s: State, dirty: map<nat, Day>, ctx: Context, account: nat, day: Day)
    ensures Fresh(s.(dirty := dirty), ctx, account, day) == Fresh(s, ctx, account, day)
  {
    MarksAreNotRead(s, dirty, account, day, s.nextActivity);
  }

  lemma CalculatedIsFresh(s: State, ctx: Context, account: nat, from: Day, to: Day, day: Day)
    requires TradesFirst(s, account) && from <= day <= to
    ensures Calculated(s, ctx, account, from, to)(day) == Fresh(s, ctx, account, day)
  {
    LoadedValues(AllLegs(Input(s, account, to)), ctx, from, to, day);
    EndIsIrrelevant(s, ctx, account, to, day);
  }

  predicate Rewritten(r: Request, from: Day, k: PointKey) {
    k.account == r.account && k.base == r.base && from <= k.day <= r.to
  }

  /** A stored day that the present mark covers and the replacement leaves as it is. */
  predicate LeftBehind(c: Cache, r: Request, from: Day, k: PointKey) {
    k in c.points && k.account == r.account && !Clean(c.ledger.dirty, k.account, k.day) && !(k.base == r.base && k.day >= from)
  }

  /** On every day that the rebuild writes and that is then clean, the loaded ledger shows what the present one shows. */
  ghost predicate LoadIsCurrent(c: Cache, loaded: State, ctx: Context, r: Request) {
    forall day | Boundary(loaded.dirty, r) <= day <= r.to && (Clears(r) || Clean(c.ledger.dirty, r.account, day)) ::
      Fresh(c.ledger, ctx, r.account, day) == Fresh(loaded, ctx, r.account, day)
  }

  /** One day after a rebuild whose input may have been loaded earlier. */
  lemma ReplacedDay(c: Cache, loaded: State, markets: Markets, r: Request, k: PointKey)
    requires TradesFirst(loaded, r.account) && Accepted(r) && k in RebuildFrom(c, loaded, markets, r).points
    ensures var t, from := RebuildFrom(c, loaded, markets, r), Boundary(loaded.dirty, r);
      if Rewritten(r, from, k)
      then IsFresh(t, markets, k) <==>
           Fresh(c.ledger, markets(r.base), r.account, k.day) == Fresh(loaded, markets(r.base), r.account, k.day)
      else k in c.points && (IsFresh(t, markets, k) <==> IsFresh(c, markets, k))
           && (k.account == r.account && k.base == r.base ==> k.day < from)
  {
    var from := Boundary(loaded.dirty, r);
    var t := RebuildFrom(c, loaded, markets, r);
    var value := Calculated(loaded, markets(r.base), r.account, from, r.to);
    FreshIgnoresMarks(c.ledger, t.ledger.dirty, markets(k.base), k.account, k.day);
    if Rewritten(r, from, k) {
      SuffixHolds(c.points, r.account, r.base, from, r.to, value, k.day);
      CalculatedIsFresh(loaded, markets(r.base), r.account, from, r.to, k.day);
    } else {
      SuffixKeeps(c.points, r.account, r.base, from, r.to, value, k);
    }
  }

  lemma MarkAfter(c: Cache, loaded: State, markets: Markets, r: Request, account: nat, day: Day)
    requires Accepted(r)
    ensures Clean(RebuildFrom(c, loaded, markets, r).ledger.dirty, account, day) <==>
      (account == r.account && Clears(r)) || Clean(c.ledger.dirty, account, day)
  {
  }

  lemma KeptDay(c: Cache, loaded: State, markets: Markets, r: Request, k: PointKey)
    requires Accepted(r) && LeftBehind(c, r, Boundary(loaded.dirty, r), k)
    ensures k in RebuildFrom(c, loaded, markets, r).points && !Rewritten(r, Boundary(loaded.dirty, r), k)
  {
  }

  lemma WrittenDay(c: Cache, loaded: State, markets: Markets, r: Request, day: Day)
    requires Accepted(r) && Boundary(loaded.dirty, r) <= day <= r.to
    ensures PointKey(r.account, r.base, day) in RebuildFrom(c, loaded, markets, r).points
  {
    var from := Boundary(loaded.dirty, r);
    SuffixHolds(c.points, r.account, r.base, from, r.to, Calculated(loaded, markets(r.base), r.account, from, r.to), day);
  }

  lemma RebuildSuffices(c: Cache, loaded: State, markets: Markets, r: Request)
    requires TradesFirst(loaded, r.account) && Agrees(c, markets) && Accepted(r)
    requires LoadIsCurrent(c, loaded, markets(r.base), r)
    requires Clears(r) ==> forall k | LeftBehind(c, r, Boundary(loaded.dirty, r), k) :: IsFresh(c, markets, k)
    ensures Agrees(RebuildFrom(c, loaded, markets, r), markets)
  {
    var t, from := RebuildFrom(c, loaded, markets, r), Boundary(loaded.dirty, r);
    forall k | k in t.points && Clean(t.ledger.dirty, k.account, k.day) ensures IsFresh(t, markets, k) {
      ReplacedDay(c, loaded, markets, r, k);
      MarkAfter(c, loaded, markets, r, k.account, k.day);
      if !Rewritten(r, from, k) && Clean(c.ledger.dirty, k.account, k.day) {
        assert IsFresh(c, markets, k);
      }
    }
  }

  lemma RebuildNeedsLoad(c: Cache, loaded: State, markets: Markets, r: Request)
    requires TradesFirst(loaded, r.account) && Accepted(r) && Agrees(RebuildFrom(c, loaded, markets, r), markets)
    ensures LoadIsCurrent(c, loaded, markets(r.base), r)
  {
    var t := RebuildFrom(c, loaded, markets, r);
    forall day | Boundary(loaded.dirty, r) <= day <= r.to && (Clears(r) || Clean(c.ledger.dirty, r.account, day))
      ensures Fresh(c.ledger, markets(r.base), r.account, day) == Fresh(loaded, markets(r.base), r.account, day)
    {
      var k := PointKey(r.account, r.base, day);
      WrittenDay(c, loaded, markets, r, day);
      MarkAfter(c, loaded, markets, r, r.account, day);
      ReplacedDay(c, loaded, markets, r, k);
      assert IsFresh(t, markets, k);
    }
  }

  lemma RebuildNeedsRest(c: Cache, loaded: State, markets: Markets, r: Request, k: PointKey)
    requires TradesFirst(loaded, r.account) && Agrees(RebuildFrom(c, loaded, markets, r), markets)
    requires Clears(r) && LeftBehind(c, r, Boundary(loaded.dirty, r), k)
    ensures IsFresh(c, markets, k)
  {
    KeptDay(c, loaded, markets, r, k);
    MarkAfter(c, loaded, markets, r, k.account, k.day);
    ReplacedDay(c, loaded, markets, r, k);
    assert IsFresh(RebuildFrom(c, loaded, markets, r), markets, k);
  }

  /** Load and replacement are separate transactions. The stored days are right
    afterwards if and only if the loaded ledger still shows what the present one
    shows on the days written, and no outdated day that loses its mark is left. */
  lemma InterleavedRebuildExactly(c: Cache, loaded: State, markets: Markets, r: Request)
    requires TradesFirst(loaded, r.account) && Agrees(c, markets) && Accepted(r)
    ensures Agrees(RebuildFrom(c, loaded, markets, r), markets) <==>
      && LoadIsCurrent(c, loaded, markets(r.base), r)
      && (Clears(r) ==> forall k | LeftBehind(c, r, Boundary(loaded.dirty, r), k) :: IsFresh(c, markets, k))
  {
    if Agrees(RebuildFrom(c, loaded, markets, r), markets) {
      RebuildNeedsLoad(c, loaded, markets, r);
      forall k | Clears(r) && LeftBehind(c, r, Boundary(loaded.dirty, r), k) ensures IsFresh(c, markets, k) {
        RebuildNeedsRest(c, loaded, markets, r, k);
      }
    } else if LoadIsCurrent(c, loaded, markets(r.base), r)
        && (Clears(r) ==> forall k | LeftBehind(c, r, Boundary(loaded.dirty, r), k) :: IsFresh(c, markets, k)) {
      RebuildSuffices(c, loaded, markets, r);
    }
  }

  lemma OnlyOtherBasesAreLeft(c: Cache, r: Request, k: PointKey)
    requires k in c.points
    ensures LeftBehind(c, r, Boundary(c.ledger.dirty, r), k) <==> Overlooked(c, r, k)
  {
  }

  /** A rebuild in one step keeps the stored days right exactly when, in clearing
    the mark, it leaves no outdated day of another base currency behind. */
  lemma RebuildAgreesExactly(c: Cache, markets: Markets, r: Request)
    requires TradesFirst(c.ledger, r.account) && Agrees(c, markets)
    ensures Agrees(RebuildStep(c, markets, r), markets) <==>
      (Clears(r) ==> forall k | k in c.points && Overlooked(c, r, k) :: IsFresh(c, markets, k))
  {
    if Accepted(r) {
      InterleavedRebuildExactly(c, c.ledger, markets, r);
      forall k | k in c.points ensures LeftBehind(c, r, Boundary(c.ledger.dirty, r), k) <==> Overlooked(c, r, k) {
        OnlyOtherBasesAreLeft(c, r, k);
      }
    }
  }

  // ------------------------------------------------- a check that would suffice

  lemma UnmovedPart(s: State, t: State, account: nat, to: Day, id: nat, day: Day)
    requires Numbered(s.activities, s.revisions) && Started(s.activities, s.nextActivity)
    requires Kept(s.revisions, t.revisions) && RowsGrow(s.activities, t.activities)
    requires id in t.activities && t.activities[id].account == account ==> DirtyMarks.Unchanged(s.activities, t.activities, id)
    ensures Part(s, account, to, id, day) == Part(t, account, to, id, day)
  {
    NothingIsEarly(day);
    if id in s.activities && s.activities[id].account == account {
      assert CurrentKey(s, id) in s.revisions;
      assert Current(t, id) == Current(s, id);
    }
  }

  lemma UnmovedIsFresh(s: State, t: State, ctx: Context, account: nat, day: Day)
    requires Valid(s) && Valid(t) && Grows(s, t)
    requires forall id :: id in t.activities && t.activities[id].account == account ==> DirtyMarks.Unchanged(s.activities, t.activities, id)
    ensures Fresh(t, ctx, account, day) == Fresh(s, ctx, account, day)
  {
    var n := if s.nextActivity <= t.nextActivity then t.nextActivity else s.nextActivity;
    forall id: nat | id < n ensures Part(s, account, day, id, day) == Part(t, account, day, id, day) {
      UnmovedPart(s, t, account, day, id, day);
    }
    PartsDecide(s, t, account, day, day, n, day);
    NothingBeyond(s, account, day, n);
    NothingBeyond(t, account, day, n);
    EarlyLegsDecide(Input(s, account, day), Input(t, account, day), ctx, day);
  }

  /** While an account's generation is unchanged, so are its days and its mark. */
  lemma GenerationGuards(loaded: State, steps: seq<Ledger.Step>, ctx: Context, account: nat, day: Day)
    requires Valid(loaded) && Count(Ledger.Run(loaded, steps).generations, account) == Count(loaded.generations, account)
    ensures Fresh(Ledger.Run(loaded, steps), ctx, account, day) == Fresh(loaded, ctx, account, day)
    ensures DirtyMarks.MarkOf(Ledger.Run(loaded, steps).dirty, account) == DirtyMarks.MarkOf(loaded.dirty, account)
  {
    LedgerRuns.RunProgress(loaded, steps);
    DirtyMarks.RunMarks(loaded, steps);
    UnmovedIsFresh(loaded, Ledger.Run(loaded, steps), ctx, account, day);
  }

  lemma SameMarkSameBoundary(dirty: map<nat, Day>, dirty': map<nat, Day>, r: Request)
    requires DirtyMarks.MarkOf(dirty, r.account) == DirtyMarks.MarkOf(dirty', r.account)
    ensures Boundary(dirty, r) == Boundary(dirty', r)
  {
  }

  lemma SameFreshSameTrades(loaded: State, steps: seq<Ledger.Step>, account: nat)
    requires Valid(loaded) && Count(Ledger.Run(loaded, steps).generations, account) == Count(loaded.generations, account)
    requires TradesFirst(loaded, account)
    ensures TradesFirst(Ledger.Run(loaded, steps), account)
  {
    LedgerRuns.RunProgress(loaded, steps);
    DirtyMarks.RunMarks(loaded, steps);
    var t := Ledger.Run(loaded, steps);
    forall id ensures TradedFirst(t, account, id) {
      if Tracked(t, id) && t.activities[id].account == account {
        assert DirtyMarks.Unchanged(loaded.activities, t.activities, id);
        assert CurrentKey(loaded, id) in loaded.revisions;
        assert TradedFirst(loaded, account, id);
      }
    }
  }

  /** Comparing the generation read at load time before replacing would make an
    interleaved rebuild exactly as good as one in a single step. */
  lemma CheckedRebuildAgrees(c: Cache, loaded: State, steps: seq<Ledger.Step>, markets: Markets, r: Request)
    requires Valid(loaded) && c.ledger == Ledger.Run(loaded, steps)
    requires Count(c.ledger.generations, r.account) == Count(loaded.generations, r.account)
    requires TradesFirst(loaded, r.account) && Agrees(c, markets)
    ensures Agrees(RebuildFrom(c, loaded, markets, r), markets) <==> Agrees(RebuildStep(c, markets, r), markets)
  {
    if Accepted(r) {
      GenerationGuards(loaded, steps, markets(r.base), r.account, 0);
      SameMarkSameBoundary(loaded.dirty, c.ledger.dirty, r);
      SameFreshSameTrades(loaded, steps, r.account);
      forall day ensures Fresh(c.ledger, markets(r.base), r.account, day) == Fresh(loaded, markets(r.base), r.account, day) {
        GenerationGuards(loaded, steps, markets(r.base), r.account, day);
      }
      InterleavedRebuildExactly(c, loaded, markets, r);
      InterleavedRebuildExactly(c, c.ledger, markets, r);
    }
  }

  lemma SuffixKeeps(points: Points, account: nat, base: string, from: Day, to: Day, value: Day -> Values, k: PointKey)
    requires var stored := ReplaceSuffix(points, account, base, from, to, value); k in stored
    requires !(k.account == account && k.base == base && from <= k.day <= to)
    ensures k in points && ReplaceSuffix(points, account, base, from, to, value)[k] == points[k]
    ensures k.account == account && k.base == base ==> k.day < from
  {
  }

  lemma SuffixHolds(points: Points, account: nat, base: string, from: Day, to: Day, value: Day -> Values, day: Day)
    requires from <= day <= to
    ensures var stored := ReplaceSuffix(points, account, base, from, to, value);
      PointKey(account, base, day) in stored && stored[PointKey(account, base, day)] == value(day)
  {
  }

  /** A rebuild stores what it calculated and clears the mark. */
  lemma RebuildStores(c: Cache, markets: Markets, r: Request, day: Day)
    requires Accepted(r) && Clears(r) && Boundary(c.ledger.dirty, r) <= day <= r.to
    ensures var t, k := RebuildStep(c, markets, r), PointKey(r.account, r.base, day);
      && t.ledger == c.ledger.(dirty := t.ledger.dirty) && r.account !in t.ledger.dirty
      && k in t.points
      && t.points[k] == Calculated(c.ledger, markets(r.base), r.account, Boundary(c.ledger.dirty, r), r.to)(day)
  {
    var from := Boundary(c.ledger.dirty, r);
    var value := Calculated(c.ledger, markets(r.base), r.account, from, r.to);
    SuffixHolds(c.points, r.account, r.base, from, r.to, value, day);
  }

  lemma RevokeAgrees(c: Cache, markets: Markets, boundaries: map<nat, Day>)
    requires Agrees(c, markets)
    ensures Agrees(RevokeStep(c, boundaries), markets)
  {
    var t := RevokeStep(c, boundaries);
    forall k | k in t.points && Clean(t.ledger.dirty, k.account, k.day) ensures IsFresh(t, markets, k) {
      assert IsFresh(c, markets, k);
      FreshIgnoresMarks(c.ledger, t.ledger.dirty, markets(k.base), k.account, k.day);
    }
  }

  // --------------------------------------------------------------------- runs

  lemma ValidWithoutMarks(s: State, dirty: map<nat, Day>)
    requires Valid(s)
    ensures Valid(s.(dirty := dirty))
  {
  }

  lemma StepAgrees(c: Cache, markets: Markets, step: Step)
    requires Valid(c.ledger) && Agrees(c, markets) && Thorough(c, step)
    ensures Agrees(Apply(c, markets, step), markets)
  {
    match step
    case Revise(change) => ReviseAgrees(c, markets, change);
    case Revoke(boundaries) => RevokeAgrees(c, markets, boundaries);
    case Rebuild(request) => if Accepted(request) { RebuildAgreesExactly(c, markets, request); }
  }

  lemma StepKeepsRevisions(c: Cache, markets: Markets, step: Step)
    requires Valid(c.ledger)
    ensures Valid(Apply(c, markets, step).ledger)
    ensures Kept(c.ledger.revisions, Apply(c, markets, step).ledger.revisions)
  {
    match step
    case Revise(change) => LedgerRuns.StepProgress(c.ledger, change);
    case Revoke(boundaries) => ValidWithoutMarks(c.ledger, MarkAll(c.ledger.dirty, boundaries));
    case Rebuild(request) => ValidWithoutMarks(c.ledger, ClearMark(c.ledger.dirty, request.account));
  }

  lemma {:induction false} RunKeepsRevisions(c: Cache, markets: Markets, steps: seq<Step>)
    requires Valid(c.ledger)
    ensures Kept(c.ledger.revisions, Run(c, markets, steps).ledger.revisions)
    decreases |steps|
  {
    if steps != [] {
      StepKeepsRevisions(c, markets, steps[0]);
      RunKeepsRevisions(Apply(c, markets, steps[0]), markets, steps[1..]);
    }
  }

  /** After every run of ledger revisions, source revocations and rebuilds, each
    stored day before the mark, and each stored day of an unmarked account, has
    the values of a calculation from scratch over the ledger as it then is. */
  lemma {:induction false} StoredDaysAreFresh(c: Cache, markets: Markets, steps: seq<Step>)
    requires Valid(c.ledger) && Agrees(c, markets) && ThoroughRun(c, markets, steps)
    ensures Agrees(Run(c, markets, steps), markets)
    decreases |steps|
  {
    if steps != [] {
      StepAgrees(c, markets, steps[0]);
      StepKeepsRevisions(c, markets, steps[0]);
      StoredDaysAreFresh(Apply(c, markets, steps[0]), markets, steps[1..]);
    }
  }

  predicate InOneBase(points: Points, base: string) {
    forall k :: k in points ==> k.base == base
  }

  predicate RebuildsIn(steps: seq<Step>, base: string) {
    forall i :: 0 <= i < |steps| && steps[i].Rebuild? ==> steps[i].request.base == base
  }

  /** With a single base currency, and no leg before its trade in any revision of
    the final ledger, every run is thorough. */
  lemma {:induction false} OneBaseIsThorough(c: Cache, markets: Markets, steps: seq<Step>, base: string)
    requires Valid(c.ledger) && InOneBase(c.points, base) && RebuildsIn(steps, base)
    requires AllTradeFirst(Run(c, markets, steps).ledger.revisions)
    ensures ThoroughRun(c, markets, steps)
    decreases |steps|
  {
    if steps != [] {
      var next := Apply(c, markets, steps[0]);
      RunKeepsRevisions(c, markets, steps);
      StepKeepsRevisions(c, markets, steps[0]);
      assert InOneBase(next.points, base);
      assert RebuildsIn(steps[1..], base);
      OneBaseIsThorough(next, markets, steps[1..], base);
    }
  }

  const EMPTY_CACHE := Cache(EmptyLedger(), map[])

  /** From nothing on, in one base currency: every stored day before the mark is
    what a calculation from scratch over the present ledger gives. */
  lemma ReachableCacheAgrees(markets: Markets, steps: seq<Step>, base: string)
    requires RebuildsIn(steps, base)
    requires AllTradeFirst(Run(EMPTY_CACHE, markets, steps).ledger.revisions)
    ensures Agrees(Run(EMPTY_CACHE, markets, steps), markets)
  {
    OneBaseIsThorough(EMPTY_CACHE, markets, steps, base);
    StoredDaysAreFresh(EMPTY_CACHE, markets, steps);
  }
}

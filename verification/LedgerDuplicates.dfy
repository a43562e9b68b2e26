/** What an operator's answer to a possible duplicate is worth afterwards: which
  revision stands, what the ledger remembers and what still counts. */
module LedgerDuplicates {
  import opened Activities
  import opened Ledger
  import opened LedgerInvariant
  import EffectMatching
  import Folds
  import LedgerPriority
  import LedgerRuns
  import PerformanceCache
  import Reconciliation
  import Valuation

  function ActivityOf(s: State, issue: nat): nat
    requires issue in s.issues
  {
    s.issues[issue].activity
  }

  // ---------------------------------------------------------- what is answered

  /** The issue is an open doubt about the first booking of its record, and nothing else. */
  predicate Doubted(s: State, issue: nat) {
    && issue in s.issues && s.issues[issue].open
    && var i := s.issues[issue];
    && i.kind.Review? && i.kind.status == NeedsReview && i.kind.warnings != []
    && (forall w :: w in i.kind.warnings ==> w in ["ambiguous_duplicate", "potential_trade_fee_overlap"])
    && i.raw in s.raws && i.raw.account == i.account
    && i.activity in s.activities && s.activities[i.activity].account == i.account && Tracked(s, i.activity)
    && Current(s, i.activity).payload.status == NeedsReview
    && SourceKey(CurrentKey(s, i.activity), i.raw) in s.sources
    && s.sources[SourceKey(CurrentKey(s, i.activity), i.raw)] == Principal
    && var theirs, ours := s.raws[i.raw].record, Current(s, i.activity).payload.providerAccount;
    && theirs.providerAccount == ours && theirs.parsed.providerAccount in ["", ours]
  }

  /** The record as the operator would book it. */
  function Reading(s: State, issue: nat): Activity
    requires Doubted(s, issue)
  {
    var i := s.issues[issue];
    var current := Current(s, i.activity).payload;
    s.raws[i.raw].record.parsed.(
      id := i.activity, account := i.account, provider := current.provider,
      providerAccount := current.providerAccount, revision := current.revision + 1)
  }

  /** It can be told apart if its own record has a date and an effect and is fully understood. */
  predicate CanBeDistinct(s: State, issue: nat) {
    && Doubted(s, issue)
    && var a := Reading(s, issue);
    && a.status != Unsupported && a.tradeDate != None && (a.legs != [] || a.costs != [])
    && s.raws[s.issues[issue].raw].record.reviewable
  }

  /** It can be the same as another activity in force of the account whose effects contain its own. */
  predicate CanBeSame(s: State, issue: nat, target: nat) {
    && Doubted(s, issue) && target != s.issues[issue].activity
    && target in s.activities && s.activities[target].account == s.issues[issue].account && Tracked(s, target)
    && var a, other := Reading(s, issue), Current(s, target).payload;
    && (a.status == NeedsReview || (a.status == Effective && (a.legs != [] || a.costs != [])))
    && s.raws[s.issues[issue].raw].record.reviewable
    && other.account == s.issues[issue].account && other.status == Effective
    && EffectMatching.DatesMatch(a, other) && EffectMatching.EffectsContained(a, other)
  }

  lemma DistinctExactly(s: State, issue: nat, target: Option<nat>, user: int)
    ensures ResolveDuplicate(s, issue, ConfirmDistinct(target), user).Committed? <==>
      user >= 0 && target == None && CanBeDistinct(s, issue)
  {
    DoubtExactly(s, issue);
  }

  lemma SameExactly(s: State, issue: nat, target: Option<nat>, user: int)
    ensures ResolveDuplicate(s, issue, ConfirmSame(target), user).Committed? <==>
      user >= 0 && target.Some? && CanBeSame(s, issue, target.value)
  {
    DoubtExactly(s, issue);
  }

  lemma DoubtExactly(s: State, issue: nat)
    ensures Doubted(s, issue) <==>
      && issue in s.issues && s.issues[issue].open && DuplicateEvidence(s.issues[issue].kind)
      && var i := s.issues[issue];
      && i.raw in s.raws && i.raw.account == i.account
      && Tracked(s, i.activity) && s.activities[i.activity].account == i.account
      && Current(s, i.activity).payload.status.NeedsReview? && IsPrincipal(s, CurrentKey(s, i.activity), i.raw)
      && SameProviderAccount(s.raws[i.raw].record, Current(s, i.activity).payload)
  {
    if issue in s.issues && s.issues[issue].kind.Review? {
      WarningsAre(s.issues[issue].kind.warnings);
    }
  }

  lemma WarningsAre(warnings: seq<string>)
    ensures (forall w :: w in warnings ==> w in ["ambiguous_duplicate", "potential_trade_fee_overlap"]) <==>
      (forall i :: 0 <= i < |warnings| ==> warnings[i] == "ambiguous_duplicate" || warnings[i] == "potential_trade_fee_overlap")
  {
    if forall w :: w in warnings ==> w in ["ambiguous_duplicate", "potential_trade_fee_overlap"] {
      assert forall i :: 0 <= i < |warnings| ==> warnings[i] in warnings;
    }
  }

  // ---------------------------------------------------------- what is recorded

  /** The activity has the revision `a` of an operator, with the roles of its sources unchanged,
    and neither the issue nor the record waits for anything. */
  ghost predicate Answered(s: State, t: State, issue: nat, a: Activity)
    requires issue in s.issues && Tracked(s, s.issues[issue].activity)
  {
    var i := s.issues[issue];
    var from, to := CurrentKey(s, i.activity), RevisionKey(i.activity, a.revision);
    && t.activities == s.activities[i.activity := s.activities[i.activity].(current := a.revision)]
    && t.revisions == s.revisions[to := Revision(a, 1000, Current(s, i.activity).time, -1)]
    && (forall raw :: SourceKey(from, raw) in s.sources ==>
          SourceKey(to, raw) in t.sources && t.sources[SourceKey(to, raw)] == s.sources[SourceKey(from, raw)])
    && t.issues == s.issues[issue := i.(open := false)]
    && i.raw in t.raws && t.raws[i.raw].status == Done
    && t.nextActivity == s.nextActivity
  }

  lemma ReviewAnswers(s: State, issue: nat, a: Activity)
    requires issue in s.issues && Tracked(s, s.issues[issue].activity) && s.issues[issue].raw in s.raws
    ensures Answered(s, BookReview(s, issue, a), issue, a)
    ensures BookReview(s, issue, a).links == s.links
    ensures forall k :: k in s.sources && k.revision != RevisionKey(s.issues[issue].activity, a.revision) ==>
      k in BookReview(s, issue, a).sources && BookReview(s, issue, a).sources[k] == s.sources[k]
  {
  }

  /** Told apart, the activity takes effect as its own record reads, without a warning. */
  lemma DistinctTakesEffect(s: State, issue: nat, user: int)
    requires ResolveDuplicate(s, issue, ConfirmDistinct(None), user).Committed?
    ensures CanBeDistinct(s, issue)
    ensures var t := ResolveDuplicate(s, issue, ConfirmDistinct(None), user).state;
      var record, a := s.raws[s.issues[issue].raw].record, Reading(s, issue).(status := Effective, warnings := []);
      && Answered(s, t, issue, a) && t.links == s.links
      && a.legs == record.parsed.legs && a.costs == record.parsed.costs && a.warnings == []
      && Current(t, ActivityOf(s, issue)).payload == a
  {
    DistinctExactly(s, issue, None, user);
    var a := Reading(s, issue).(status := Effective, warnings := []);
    DistinctSteps(s, issue, user, a);
    ReviewAnswers(s, issue, a);
    ItStands(s, BookReview(s, issue, a), issue, a);
  }

  lemma DistinctSteps(s: State, issue: nat, user: int, a: Activity)
    requires ResolveDuplicate(s, issue, ConfirmDistinct(None), user).Committed?
    requires Doubted(s, issue) && a == Reading(s, issue).(status := Effective, warnings := [])
    ensures ResolveDuplicate(s, issue, ConfirmDistinct(None), user).state == BookReview(s, issue, a)
  {
    var i := s.issues[issue];
    var reviewed := Reviewed(s.raws[i.raw].record, Current(s, i.activity).payload, i.activity, i.account)
      .(status := Effective, warnings := []);
    assert reviewed == a;
    assert ResolveDuplicate(s, issue, ConfirmDistinct(None), user) == Committed(BookReview(s, issue, reviewed), Updated);
  }

  lemma SameSteps(s: State, issue: nat, target: nat, user: int, linked: State)
    requires ResolveDuplicate(s, issue, ConfirmSame(Some(target)), user).Committed?
    requires Doubted(s, issue) && Tracked(s, target) && linked == LinkDuplicate(s, s.issues[issue], target)
    ensures ResolveDuplicate(s, issue, ConfirmSame(Some(target)), user).state == BookReview(linked, issue, VoidedOf(s, issue))
  {
    var void := Void(Current(s, ActivityOf(s, issue)).payload);
    assert void == VoidedOf(s, issue);
    assert ResolveDuplicate(s, issue, ConfirmSame(Some(target)), user) == ConfirmSameActivity(s, issue, Some(target));
    assert ConfirmSameActivity(s, issue, Some(target)) == Committed(BookReview(linked, issue, void), Updated);
  }

  lemma ItStands(s: State, t: State, issue: nat, a: Activity)
    requires issue in s.issues && Tracked(s, s.issues[issue].activity) && Answered(s, t, issue, a)
    ensures Tracked(t, ActivityOf(s, issue)) && Current(t, ActivityOf(s, issue)).payload == a
  {
  }

  lemma OthersStand(s: State, t: State, issue: nat, a: Activity, other: nat)
    requires issue in s.issues && Tracked(s, s.issues[issue].activity) && Answered(s, t, issue, a)
    requires other != s.issues[issue].activity && Tracked(s, other)
    ensures Tracked(t, other) && CurrentKey(t, other) == CurrentKey(s, other) && Current(t, other) == Current(s, other)
  {
  }

  lemma AnsweredSince(s: State, linked: State, t: State, issue: nat, target: nat, a: Activity)
    requires issue in s.issues && Tracked(s, s.issues[issue].activity) && Tracked(s, target)
    requires linked == LinkDuplicate(s, s.issues[issue], target) && Answered(linked, t, issue, a)
    ensures Answered(s, t, issue, a)
  {
    LinkingIs(s, s.issues[issue], target);
  }

  /** What is left of an activity that is a duplicate. */
  function VoidedOf(s: State, issue: nat): Activity
    requires Doubted(s, issue)
  {
    var current := Current(s, ActivityOf(s, issue)).payload;
    current.(revision := current.revision + 1, status := Voided, warnings := ["duplicate_source_confirmed"])
  }

  /** Found to be the same, the activity is void, the other stands as it was, and the
    ledger remembers that the one duplicates the other and that its record backs it. */
  lemma SameIsVoid(s: State, issue: nat, target: nat, user: int)
    requires Valid(s) && ResolveDuplicate(s, issue, ConfirmSame(Some(target)), user).Committed?
    ensures CanBeSame(s, issue, target)
    ensures var t := ResolveDuplicate(s, issue, ConfirmSame(Some(target)), user).state;
      var id, raw := ActivityOf(s, issue), s.issues[issue].raw;
      && Answered(s, t, issue, VoidedOf(s, issue))
      && Tracked(t, id) && Current(t, id).payload == VoidedOf(s, issue) && !Counts(Current(t, id).payload)
      && Tracked(t, target) && Current(t, target) == Current(s, target)
      && t.links == s.links + {DuplicateOf(id, target)}
      && SourceKey(CurrentKey(s, target), raw) in t.sources
      && t.sources[SourceKey(CurrentKey(s, target), raw)] ==
           (if SourceKey(CurrentKey(s, target), raw) in s.sources then s.sources[SourceKey(CurrentKey(s, target), raw)] else Corroboration)
  {
    SameExactly(s, issue, Some(target), user);
    var linked, a := LinkDuplicate(s, s.issues[issue], target), VoidedOf(s, issue);
    SameSteps(s, issue, target, user, linked);
    LinkingIs(s, s.issues[issue], target);
    ReviewAnswers(linked, issue, a);
    var t := BookReview(linked, issue, a);
    AnsweredSince(s, linked, t, issue, target, a);
    ItStands(s, t, issue, a);
    OthersStand(s, t, issue, a, target);
  }

  lemma LinkingIs(s: State, i: Issue, target: nat)
    requires Tracked(s, target)
    ensures var t, source := LinkDuplicate(s, i, target), SourceKey(CurrentKey(s, target), i.raw);
      && t == s.(sources := t.sources, links := s.links + {DuplicateOf(i.activity, target)})
      && t.sources == (if source in s.sources then s.sources else s.sources[source := Corroboration])
  {
  }

  // ----------------------------------------------------------------- what counts

  /** The account's booked legs move the same: the same balances on every day, the same in every reconciliation. */
  ghost predicate CountsTheSame(s: State, t: State) {
    forall account, to :: SameBook(PerformanceCache.Input(s, account, to), PerformanceCache.Input(t, account, to))
  }

  ghost predicate SameBook(before: seq<Activity>, after: seq<Activity>) {
    && (forall day :: Valuation.Replay(Valuation.Before(Valuation.AllLegs(before), day))
                   == Valuation.Replay(Valuation.Before(Valuation.AllLegs(after), day)))
    && (forall unit :: Reconciliation.Deltas(before, unit) == Reconciliation.Deltas(after, unit))
  }

  predicate AllIdle(xs: seq<Activity>) {
    forall i :: 0 <= i < |xs| ==> !Counts(xs[i])
  }

  lemma {:induction false} FilterConcat<T>(p: T -> bool, xs: seq<T>, ys: seq<T>)
    ensures Folds.Filter(p, xs + ys) == Folds.Filter(p, xs) + Folds.Filter(p, ys)
    decreases |ys|
  {
    if ys == [] {
      assert xs + ys == xs;
    } else {
      var n := |ys| - 1;
      assert (xs + ys)[..|xs| + n] == xs + ys[..n];
      FilterConcat(p, xs, ys[..n]);
    }
  }

  predicate NoneCounts(legs: seq<Valuation.DatedLeg>) {
    forall i :: 0 <= i < |legs| ==> !Counts(legs[i].activity)
  }

  lemma {:induction false} IdleLegs(xs: seq<Activity>)
    requires AllIdle(xs)
    ensures NoneCounts(Valuation.AllLegs(xs))
    decreases |xs|
  {
    if xs != [] {
      IdleLegs(xs[..|xs| - 1]);
    }
  }

  lemma {:induction false} IdleFilter(p: Valuation.DatedLeg -> bool, legs: seq<Valuation.DatedLeg>)
    requires NoneCounts(legs)
    ensures NoneCounts(Folds.Filter(p, legs))
    decreases |legs|
  {
    if legs != [] {
      IdleFilter(p, legs[..|legs| - 1]);
    }
  }

  lemma {:induction false} IdleFold(b: Valuation.Book, legs: seq<Valuation.DatedLeg>)
    requires NoneCounts(legs)
    ensures Folds.Fold(Valuation.ApplyLeg, b, legs) == b
    decreases |legs|
  {
    if legs != [] {
      IdleFold(b, legs[..|legs| - 1]);
    }
  }

  lemma {:induction false} IdleDeltas(xs: seq<Activity>, unit: Reconciliation.Unit)
    requires AllIdle(xs)
    ensures Reconciliation.Deltas(xs, unit) == []
    decreases |xs|
  {
    if xs != [] {
      IdleDeltas(xs[..|xs| - 1], unit);
    }
  }

  /** What was replayed up to a day, as one more list of activities is read. */
  lemma ReplayConcat(xs: seq<Activity>, ys: seq<Activity>, day: Day)
    ensures Valuation.Replay(Valuation.Before(Valuation.AllLegs(xs + ys), day))
      == Folds.Fold(Valuation.ApplyLeg, Valuation.Replay(Valuation.Before(Valuation.AllLegs(xs), day)),
                    Valuation.Before(Valuation.AllLegs(ys), day))
  {
    Valuation.AllLegsConcat(xs, ys);
    FilterConcat(e => Valuation.DatedBefore(e, day), Valuation.AllLegs(xs), Valuation.AllLegs(ys));
    Folds.FoldConcat(Valuation.ApplyLeg, Valuation.EMPTY_BOOK, Valuation.Before(Valuation.AllLegs(xs), day),
                     Valuation.Before(Valuation.AllLegs(ys), day));
  }

  lemma BookGoesOn(xs: seq<Activity>, ys: seq<Activity>, more: seq<Activity>, more': seq<Activity>)
    requires SameBook(xs, ys) && (more == more' || (AllIdle(more) && AllIdle(more')))
    ensures SameBook(xs + more, ys + more')
  {
    forall day ensures Valuation.Replay(Valuation.Before(Valuation.AllLegs(xs + more), day))
      == Valuation.Replay(Valuation.Before(Valuation.AllLegs(ys + more'), day))
    {
      ReplayGoesOn(xs, ys, more, more', day);
    }
    forall unit ensures Reconciliation.Deltas(xs + more, unit) == Reconciliation.Deltas(ys + more', unit) {
      DeltasGoOn(xs, ys, more, more', unit);
    }
  }

  lemma ReplayGoesOn(xs: seq<Activity>, ys: seq<Activity>, more: seq<Activity>, more': seq<Activity>, day: Day)
    requires Valuation.Replay(Valuation.Before(Valuation.AllLegs(xs), day)) == Valuation.Replay(Valuation.Before(Valuation.AllLegs(ys), day))
    requires more == more' || (AllIdle(more) && AllIdle(more'))
    ensures Valuation.Replay(Valuation.Before(Valuation.AllLegs(xs + more), day))
      == Valuation.Replay(Valuation.Before(Valuation.AllLegs(ys + more'), day))
  {
    ReplayConcat(xs, more, day);
    ReplayConcat(ys, more', day);
    if more != more' {
      IdleReplay(Valuation.Replay(Valuation.Before(Valuation.AllLegs(xs), day)), more, day);
      IdleReplay(Valuation.Replay(Valuation.Before(Valuation.AllLegs(ys), day)), more', day);
    }
  }

  lemma DeltasGoOn(xs: seq<Activity>, ys: seq<Activity>, more: seq<Activity>, more': seq<Activity>, unit: Reconciliation.Unit)
    requires Reconciliation.Deltas(xs, unit) == Reconciliation.Deltas(ys, unit)
    requires more == more' || (AllIdle(more) && AllIdle(more'))
    ensures Reconciliation.Deltas(xs + more, unit) == Reconciliation.Deltas(ys + more', unit)
  {
    Reconciliation.DeltasConcat(xs, more, unit);
    Reconciliation.DeltasConcat(ys, more', unit);
    if more != more' {
      IdleDeltas(more, unit);
      IdleDeltas(more', unit);
    }
  }

  lemma IdleReplay(b: Valuation.Book, xs: seq<Activity>, day: Day)
    requires AllIdle(xs)
    ensures Folds.Fold(Valuation.ApplyLeg, b, Valuation.Before(Valuation.AllLegs(xs), day)) == b
  {
    IdleLegs(xs);
    IdleFilter(e => Valuation.DatedBefore(e, day), Valuation.AllLegs(xs));
    IdleFold(b, Valuation.Before(Valuation.AllLegs(xs), day));
  }

  type Reads = nat -> seq<Activity>

  /** What is read of the first `n` activities. */
  function Listed(read: Reads, n: nat): seq<Activity> {
    if n == 0 then [] else Listed(read, n - 1) + read(n - 1)
  }

  function ReadsOf(s: State, account: nat, to: Day): Reads {
    (id: nat) => PerformanceCache.LoadedActivity(s, account, to, id)
  }

  lemma {:induction false} InputIsListed(s: State, account: nat, to: Day, n: nat)
    ensures PerformanceCache.InputUpTo(s, account, to, n) == Listed(ReadsOf(s, account, to), n)
  {
    if n > 0 {
      InputIsListed(s, account, to, n - 1);
    }
  }

  /** Only `id` is read differently, and it counts neither way. */
  ghost predicate OnlyIdleDiffers(read: Reads, read': Reads, id: nat) {
    (forall x: nat :: x != id ==> read'(x) == read(x)) && AllIdle(read(id)) && AllIdle(read'(id))
  }

  lemma {:induction false} SameInput(read: Reads, read': Reads, id: nat, n: nat)
    requires OnlyIdleDiffers(read, read', id)
    ensures SameBook(Listed(read, n), Listed(read', n))
  {
    if n > 0 {
      SameInput(read, read', id, n - 1);
      BookGoesOn(Listed(read, n - 1), Listed(read', n - 1), read(n - 1), read'(n - 1));
    }
  }

  lemma AnsweredReads(s: State, t: State, issue: nat, a: Activity, account: nat, to: Day, x: nat)
    requires issue in s.issues && Tracked(s, s.issues[issue].activity) && Answered(s, t, issue, a)
    requires x != s.issues[issue].activity
    ensures PerformanceCache.LoadedActivity(t, account, to, x) == PerformanceCache.LoadedActivity(s, account, to, x)
  {
  }

  /** Confirming a duplicate moves no balance of any day and no reconciliation: what
    was in doubt never counted, and the other activity counts once, as before. */
  lemma SameCountsOnce(s: State, issue: nat, target: nat, user: int)
    requires Valid(s) && ResolveDuplicate(s, issue, ConfirmSame(Some(target)), user).Committed?
    ensures CountsTheSame(s, ResolveDuplicate(s, issue, ConfirmSame(Some(target)), user).state)
  {
    SameIsVoid(s, issue, target, user);
    var t, id := ResolveDuplicate(s, issue, ConfirmSame(Some(target)), user).state, ActivityOf(s, issue);
    VoidCountsTheSame(s, t, issue);
  }

  lemma VoidCountsTheSame(s: State, t: State, issue: nat)
    requires Doubted(s, issue) && Answered(s, t, issue, VoidedOf(s, issue))
    ensures CountsTheSame(s, t)
  {
    var id := ActivityOf(s, issue);
    ItStands(s, t, issue, VoidedOf(s, issue));
    forall account, to ensures SameBook(PerformanceCache.Input(s, account, to), PerformanceCache.Input(t, account, to)) {
      var before, after := ReadsOf(s, account, to), ReadsOf(t, account, to);
      forall x: nat | x != id ensures after(x) == before(x) {
        AnsweredReads(s, t, issue, VoidedOf(s, issue), account, to, x);
      }
      assert !Counts(Current(s, id).payload) && !Counts(Current(t, id).payload);
      SameInput(before, after, id, s.nextActivity);
      InputIsListed(s, account, to, s.nextActivity);
      InputIsListed(t, account, to, s.nextActivity);
    }
  }

  /** A confirmed duplicate never counts again, whatever run follows. */
  lemma SameNeverCounts(s: State, issue: nat, target: nat, user: int, steps: seq<Step>)
    requires Valid(s) && ResolveDuplicate(s, issue, ConfirmSame(Some(target)), user).Committed?
    ensures var u := Run(ResolveDuplicate(s, issue, ConfirmSame(Some(target)), user).state, steps);
      Tracked(u, ActivityOf(s, issue)) && !Counts(Current(u, ActivityOf(s, issue)).payload)
  {
    SameIsVoid(s, issue, target, user);
    var t := ResolveDuplicate(s, issue, ConfirmSame(Some(target)), user).state;
    LedgerRuns.StepProgress(s, Resolve(issue, ConfirmSame(Some(target)), user));
    assert Apply(s, Resolve(issue, ConfirmSame(Some(target)), user)) == t;
    LedgerPriority.ReviewedForever(t, steps, ActivityOf(s, issue));
  }

  /** What the activities move in a unit. */
  function Total(xs: seq<Activity>, unit: Reconciliation.Unit): int {
    Reconciliation.Sum(Reconciliation.Deltas(xs, unit))
  }

  type Movements = nat -> int

  /** What each reading moves in a unit. */
  function Movement(read: Reads, unit: Reconciliation.Unit): Movements {
    (id: nat) => Total(read(id), unit)
  }

  /** What the first `n` activities move. */
  function UpTo(moves: Movements, n: nat): int {
    if n == 0 then 0 else UpTo(moves, n - 1) + moves(n - 1)
  }

  lemma {:induction false} UpToIs(read: Reads, n: nat, unit: Reconciliation.Unit)
    ensures Total(Listed(read, n), unit) == UpTo(Movement(read, unit), n)
  {
    if n > 0 {
      UpToIs(read, n - 1, unit);
      TotalsAdd(Listed(read, n - 1), read(n - 1), unit);
    }
  }

  lemma TotalsAdd(xs: seq<Activity>, ys: seq<Activity>, unit: Reconciliation.Unit)
    ensures Total(xs + ys, unit) == Total(xs, unit) + Total(ys, unit)
  {
    Reconciliation.DeltasConcat(xs, ys, unit);
    Reconciliation.SumConcat(Reconciliation.Deltas(xs, unit), Reconciliation.Deltas(ys, unit));
  }

  lemma {:induction false} OneDiffers(moves: Movements, moves': Movements, id: nat, n: nat)
    requires forall x: nat :: x != id ==> moves'(x) == moves(x)
    ensures UpTo(moves', n) == UpTo(moves, n) + (if id < n then moves'(id) - moves(id) else 0)
  {
    if n > 0 {
      OneDiffers(moves, moves', id, n - 1);
    }
  }

  /** Told apart, the activity adds its own record's legs to what is reconciled, once it is booked and traded, and nothing else changes. */
  lemma DistinctCountsItself(s: State, issue: nat, user: int, to: Day, unit: Reconciliation.Unit)
    requires Valid(s) && ResolveDuplicate(s, issue, ConfirmDistinct(None), user).Committed?
    ensures CanBeDistinct(s, issue)
    ensures var t, a := ResolveDuplicate(s, issue, ConfirmDistinct(None), user).state, Reading(s, issue);
      var account := s.issues[issue].account;
      Total(PerformanceCache.Input(t, account, to), unit) == Total(PerformanceCache.Input(s, account, to), unit)
        + (if a.booking == Booked && a.tradeDate.value <= to then Reconciliation.Sum(Reconciliation.LegDeltas(a.legs, unit)) else 0)
  {
    DistinctTakesEffect(s, issue, user);
    var t := ResolveDuplicate(s, issue, ConfirmDistinct(None), user).state;
    EffectMoves(s, t, issue, Reading(s, issue).(status := Effective, warnings := []), to, unit);
  }

  lemma EffectMoves(s: State, t: State, issue: nat, a: Activity, to: Day, unit: Reconciliation.Unit)
    requires Valid(s) && Doubted(s, issue) && Answered(s, t, issue, a) && a.status == Effective && a.tradeDate.Some?
    ensures var account := s.issues[issue].account;
      Total(PerformanceCache.Input(t, account, to), unit) == Total(PerformanceCache.Input(s, account, to), unit)
        + (if a.booking == Booked && a.tradeDate.value <= to then Reconciliation.Sum(Reconciliation.LegDeltas(a.legs, unit)) else 0)
  {
    var account, id := s.issues[issue].account, ActivityOf(s, issue);
    var before, after := ReadsOf(s, account, to), ReadsOf(t, account, to);
    forall x: nat | x != id ensures Movement(after, unit)(x) == Movement(before, unit)(x) {
      AnsweredReads(s, t, issue, a, account, to, x);
    }
    OneDiffers(Movement(before, unit), Movement(after, unit), id, s.nextActivity);
    UpToIs(before, s.nextActivity, unit);
    UpToIs(after, s.nextActivity, unit);
    InputIsListed(s, account, to, s.nextActivity);
    InputIsListed(t, account, to, s.nextActivity);
    DoubtMovesNothing(s, issue, to, unit);
    AnswerMoves(s, t, issue, a, to, unit);
  }

  lemma DoubtMovesNothing(s: State, issue: nat, to: Day, unit: Reconciliation.Unit)
    requires Doubted(s, issue)
    ensures Total(PerformanceCache.LoadedActivity(s, s.issues[issue].account, to, ActivityOf(s, issue)), unit) == 0
  {
    IdleDeltas(PerformanceCache.LoadedActivity(s, s.issues[issue].account, to, ActivityOf(s, issue)), unit);
  }

  lemma AnswerMoves(s: State, t: State, issue: nat, a: Activity, to: Day, unit: Reconciliation.Unit)
    requires Doubted(s, issue) && Answered(s, t, issue, a) && a.status == Effective && a.tradeDate.Some?
    ensures Total(PerformanceCache.LoadedActivity(t, s.issues[issue].account, to, ActivityOf(s, issue)), unit)
      == if a.booking == Booked && a.tradeDate.value <= to then Reconciliation.Sum(Reconciliation.LegDeltas(a.legs, unit)) else 0
  {
    ItStands(s, t, issue, a);
    OneMoves(PerformanceCache.LoadedActivity(t, s.issues[issue].account, to, ActivityOf(s, issue)), a, unit);
  }

  lemma OneMoves(xs: seq<Activity>, a: Activity, unit: Reconciliation.Unit)
    requires (xs == [] || xs == [a]) && a.status == Effective
    ensures Reconciliation.Sum(Reconciliation.Deltas(xs, unit))
      == if xs == [a] && a.booking == Booked then Reconciliation.Sum(Reconciliation.LegDeltas(a.legs, unit)) else 0
  {
    if xs == [a] {
      assert [a][..0] == [];
      assert [] + Reconciliation.LegDeltas(a.legs, unit) == Reconciliation.LegDeltas(a.legs, unit);
    }
  }
}

/** What a changed activity does to its account: exactly one generation more, and
  a mark on exactly the first day that its old or its new form can move. */
module LedgerTouches {
  import opened Activities
  import opened Ledger
  import opened LedgerInvariant
  import LedgerPriority

  // ------------------------------------------------------------------- dates

  function DaysIn(d: Option<Day>): set<Day> {
    match d
    case None => {}
    case Some(day) => {day}
  }

  function LegDay(leg: Leg): Option<Day> {
    if leg.effective == None then leg.settlement else leg.effective
  }

  /** The days that an activity names: those of its legs and its own. */
  function DaysOf(a: Activity): set<Day> {
    (set leg | leg in a.legs && LegDay(leg).Some? :: LegDay(leg).value)
    + DaysIn(a.settlementDate) + DaysIn(a.tradeDate)
    + (if a.occurredAt.Some? then {a.occurredAt.value.day} else {})
  }

  predicate IsFirst(d: Option<Day>, days: set<Day>) {
    match d
    case None => days == {}
    case Some(day) => day in days && forall x :: x in days ==> day <= x
  }

  lemma FirstOfTwo(a: Option<Day>, b: Option<Day>, xs: set<Day>, ys: set<Day>)
    requires IsFirst(a, xs) && IsFirst(b, ys)
    ensures IsFirst(EarlierDate(a, b), xs + ys)
  {
  }

  function LegDays(legs: seq<Leg>): set<Day> {
    set leg | leg in legs && LegDay(leg).Some? :: LegDay(leg).value
  }

  lemma {:induction false} EarliestLegIs(legs: seq<Leg>)
    ensures IsFirst(EarliestLeg(legs), LegDays(legs))
    decreases |legs|
  {
    if legs != [] {
      var n := |legs| - 1;
      EarliestLegIs(legs[..n]);
      FirstOfTwo(EarliestLeg(legs[..n]), LegDay(legs[n]), LegDays(legs[..n]), DaysIn(LegDay(legs[n])));
      assert legs == legs[..n] + [legs[n]];
      assert LegDays(legs) == LegDays(legs[..n]) + DaysIn(LegDay(legs[n]));
    }
  }

  /** An activity can move balances from the first day on that it names. */
  lemma EarliestExactly(a: Activity)
    ensures IsFirst(EarliestOf(a), DaysOf(a))
  {
    EarliestLegIs(a.legs);
    FirstOfTwo(EarliestLeg(a.legs), a.settlementDate, LegDays(a.legs), DaysIn(a.settlementDate));
    var x, xs := EarlierDate(EarliestLeg(a.legs), a.settlementDate), LegDays(a.legs) + DaysIn(a.settlementDate);
    FirstOfTwo(x, a.tradeDate, xs, DaysIn(a.tradeDate));
    FirstOfTwo(EarlierDate(x, a.tradeDate), OccurredDay(a), xs + DaysIn(a.tradeDate), DaysIn(OccurredDay(a)));
  }

  // ------------------------------------------------------------------ touching

  function MarkOf(s: State, account: nat): Option<Day> {
    if account in s.dirty then Some(s.dirty[account]) else None
  }

  function GenerationOf(s: State, account: nat): nat {
    if account in s.generations then s.generations[account] else 0
  }

  /** The days that the activity names as it stands. */
  function CurrentDays(s: State, id: nat): set<Day> {
    if Tracked(s, id) then DaysOf(Current(s, id).payload) else {}
  }

  /** Of all activities only `id` changes. Its account, and no other, goes up one
    generation and is marked from the first of: its mark, and the days that the
    activity named and now names. */
  ghost predicate Touches(s: State, t: State, id: nat) {
    && Tracked(t, id) && t.activities == s.activities[id := t.activities[id]]
    && var account := t.activities[id].account;
    && t.generations == s.generations[account := GenerationOf(s, account) + 1]
    && (forall a :: a != account ==> MarkOf(t, a) == MarkOf(s, a))
    && IsFirst(MarkOf(t, account), DaysIn(MarkOf(s, account)) + CurrentDays(s, id) + CurrentDays(t, id))
  }

  predicate Untouched(s: State, t: State) {
    t.activities == s.activities && t.generations == s.generations && t.dirty == s.dirty
  }

  lemma MarkIs(s: State, account: nat, boundary: Option<Day>, days: set<Day>)
    requires IsFirst(boundary, days)
    ensures var marked := MarkDirty(s.dirty, account, boundary);
      && IsFirst(if account in marked then Some(marked[account]) else None, DaysIn(MarkOf(s, account)) + days)
      && forall a :: a != account ==> (a in marked <==> a in s.dirty) && (a in marked ==> marked[a] == s.dirty[a])
  {
  }

  /** A revision appended to an activity that stood before. */
  lemma AppendTouches(s: State, id: nat, r: Revision, roles: map<SourceKey, Role>, t: State)
    requires Tracked(s, id)
    requires var u := AddRevision(s, id, r, roles, EarlierDate(EarliestOf(Current(s, id).payload), EarliestOf(r.payload)));
      t.activities == u.activities && t.revisions == u.revisions && t.generations == u.generations && t.dirty == u.dirty
    ensures Touches(s, t, id)
  {
    var old', new' := Current(s, id).payload, r.payload;
    EarliestExactly(old');
    EarliestExactly(new');
    FirstOfTwo(EarliestOf(old'), EarliestOf(new'), DaysOf(old'), DaysOf(new'));
    MarkIs(s, s.activities[id].account, EarlierDate(EarliestOf(old'), EarliestOf(new')), DaysOf(old') + DaysOf(new'));
    assert Current(t, id) == r;
    assert DaysIn(MarkOf(s, s.activities[id].account)) + (DaysOf(old') + DaysOf(new'))
      == DaysIn(MarkOf(s, s.activities[id].account)) + CurrentDays(s, id) + CurrentDays(t, id);
  }

  /** The first revision of a new activity. */
  lemma StartTouches(s: State, account: nat, r: Revision, roles: map<SourceKey, Role>, t: State)
    requires s.nextActivity !in s.activities
    requires var u := AddRevision(StartRow(s, account), s.nextActivity, r, roles, EarliestOf(r.payload));
      t.activities == u.activities && t.revisions == u.revisions && t.generations == u.generations && t.dirty == u.dirty
    ensures Touches(s, t, s.nextActivity)
  {
    var id := s.nextActivity;
    EarliestExactly(r.payload);
    MarkIs(s, account, EarliestOf(r.payload), DaysOf(r.payload));
    assert Current(t, id) == r && CurrentDays(s, id) == {};
    assert DaysIn(MarkOf(s, account)) + DaysOf(r.payload) == DaysIn(MarkOf(s, account)) + {} + CurrentDays(t, id);
  }

  lemma BookTouches(s: State, job: nat, key: RawKey, rule: int)
    requires Valid(s) && key in s.raws && FeedProvider(s.raws[key].record.feed).Some?
    ensures Touches(s, Book(s, job, key, rule).state, s.nextActivity)
  {
    var record := s.raws[key].record;
    var a := Quarantine(s, key.account, record, Proposal(key, record, s.nextActivity, 0));
    StartTouches(s, key.account, Revision(a, FeedPriority(record.feed), record.time, rule),
                 map[SourceKey(RevisionKey(a.id, 1), key) := Principal], Book(s, job, key, rule).state);
  }

  lemma ReplaceTouches(s: State, job: nat, key: RawKey, id: nat, rule: int)
    requires key in s.raws && FeedProvider(s.raws[key].record.feed).Some? && Tracked(s, id)
    ensures Touches(s, Replace(s, job, key, id, rule).state, id)
  {
    var record := s.raws[key].record;
    var a := Proposal(key, record, id, s.activities[id].current);
    var to := RevisionKey(id, a.revision);
    AppendTouches(s, id, Revision(a, FeedPriority(record.feed), record.time, rule),
                  Corroborations(s.sources, CurrentKey(s, id), to)[SourceKey(to, key) := Principal],
                  Replace(s, job, key, id, rule).state);
  }

  lemma NormaliseTouches(s: State, lease: bool, job: nat, key: RawKey, rule: int) returns (id: nat)
    requires Valid(s)
    ensures var t := After(s, Normalize(s, lease, job, key, rule)); Untouched(s, t) || Touches(s, t, id)
  {
    id := 0;
    if LedgerPriority.IsFresh(s, lease, job, key) && Process(s, job, key, rule).Committed? {
      assert Normalize(s, lease, job, key, rule) == Process(s, job, key, rule);
      var m := FindActivity(s, key.account, RecordKeys(key, s.raws[key].record));
      if m.Unmatched? {
        id := s.nextActivity;
        BookTouches(s, job, key, rule);
      } else {
        id := m.id;
        ReplaceTouches(s, job, key, id, rule);
        EvidenceTouchesNothing(s, job, key, id, rule);
      }
    }
  }

  lemma EvidenceTouchesNothing(s: State, job: nat, key: RawKey, id: nat, rule: int)
    requires key in s.raws && FeedProvider(s.raws[key].record.feed).Some? && Tracked(s, id)
    ensures Untouched(s, Corroborate(s, job, key, id, rule).state)
  {
  }

  lemma ReviewTouches(s: State, issue: nat, reviewed: Activity)
    requires issue in s.issues && Tracked(s, s.issues[issue].activity) && s.issues[issue].raw in s.raws
    ensures Touches(s, BookReview(s, issue, reviewed), s.issues[issue].activity)
  {
    var i := s.issues[issue];
    var prior := Current(s, i.activity);
    AppendTouches(s, i.activity, Revision(reviewed, MANUAL_PRIORITY, prior.time, MANUAL_RULE),
                  CarriedRoles(s.sources, CurrentKey(s, i.activity), RevisionKey(i.activity, reviewed.revision)),
                  BookReview(s, issue, reviewed));
  }

  lemma LinkedTouches(s: State, linked: State, t: State, id: nat)
    requires linked == s.(sources := linked.sources, links := linked.links) && Touches(linked, t, id)
    ensures Touches(s, t, id)
  {
    assert CurrentDays(linked, id) == CurrentDays(s, id);
  }

  lemma ResolveTouches(s: State, issue: nat, action: Action, user: int) returns (id: nat)
    ensures var t := After(s, ResolveDuplicate(s, issue, action, user)); Untouched(s, t) || Touches(s, t, id)
  {
    id := 0;
    if ResolveDuplicate(s, issue, action, user).Committed? {
      var i := s.issues[issue];
      id := i.activity;
      var current := Current(s, id).payload;
      if action.ConfirmDistinct? {
        ReviewTouches(s, issue, Reviewed(s.raws[i.raw].record, current, id, i.account).(status := Effective, warnings := []));
      } else {
        SameTouches(s, issue, action.target, user);
      }
    }
  }

  lemma SameTouches(s: State, issue: nat, target: Option<nat>, user: int)
    requires ResolveDuplicate(s, issue, ConfirmSame(target), user).Committed?
    ensures Touches(s, ResolveDuplicate(s, issue, ConfirmSame(target), user).state, s.issues[issue].activity)
  {
    var i := s.issues[issue];
    var linked, void := LinkDuplicate(s, i, target.value), Void(Current(s, i.activity).payload);
    assert ResolveDuplicate(s, issue, ConfirmSame(target), user) == ConfirmSameActivity(s, issue, target);
    assert ConfirmSameActivity(s, issue, target) == Committed(BookReview(linked, issue, void), Updated);
    ReviewTouches(linked, issue, void);
    LinkedTouches(s, linked, BookReview(linked, issue, void), i.activity);
  }

  lemma AcceptTouches(s: State, issue: nat, user: int)
    requires AcceptRevision(s, issue, user).Committed?
    ensures Touches(s, AcceptRevision(s, issue, user).state, s.issues[issue].activity)
  {
    var i := s.issues[issue];
    var record, from := s.raws[i.raw].record, CurrentKey(s, i.activity);
    var accepted := Reviewed(record, Current(s, i.activity).payload, i.activity, i.account);
    var to := RevisionKey(i.activity, accepted.revision);
    AppendTouches(s, i.activity, Revision(accepted, ACCEPTED_PRIORITY, record.time, MANUAL_RULE),
                  Corroborations(s.sources, from, to)[SourceKey(to, i.raw) := Principal], AcceptRevision(s, issue, user).state);
  }

  /** A step touches one activity and its account, or none at all. */
  lemma StepTouches(s: State, step: Step) returns (id: nat)
    requires Valid(s)
    ensures Untouched(s, Apply(s, step)) || Touches(s, Apply(s, step), id)
  {
    id := 0;
    match step
    case Save(_, _, _, _) =>
    case Normalise(lease, job, key, rule) => id := NormaliseTouches(s, lease, job, key, rule);
    case Resolve(issue, action, user) => id := ResolveTouches(s, issue, action, user);
    case Accept(issue, user) =>
      if AcceptRevision(s, issue, user).Committed? {
        id := s.issues[issue].activity;
        AcceptTouches(s, issue, user);
      }
  }
}

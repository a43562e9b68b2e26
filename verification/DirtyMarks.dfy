/** Every committed ledger step that changes an activity raises the account's
  generation, and marks the account's derived days dirty from the earliest day
  that the step can have changed. */
module DirtyMarks {
  import opened Activities
  import opened Ledger
  import opened LedgerInvariant
  import LedgerRuns

  type Marked = map<nat, Day>

  /** The mark of `account` lies on or before `boundary`, when there is one. */
  predicate Covers(dirty: Marked, account: nat, boundary: Option<Day>) {
    boundary.Some? ==> account in dirty && dirty[account] <= boundary.value
  }

  ghost predicate Shrinks(dirty: Marked, dirty': Marked) {
    forall a :: a in dirty ==> a in dirty' && dirty'[a] <= dirty[a]
  }

  predicate Unchanged(rows: Rows, rows': Rows, id: nat) {
    id in rows && id in rows' && rows'[id] == rows[id]
  }

  predicate CoversCurrent(rows: Rows, revisions: Revisions, dirty: Marked, account: nat, id: nat) {
    && id in rows
    && RevisionKey(id, rows[id].current) in revisions
    && Covers(dirty, account, EarliestOf(revisions[RevisionKey(id, rows[id].current)].payload))
  }

  /** Every new or moved activity is covered, in its old form and its new one. */
  ghost predicate MarksChanges(rows: Rows, revisions: Revisions, rows': Rows, revisions': Revisions, dirty': Marked) {
    forall id | id in rows' && !Unchanged(rows, rows', id) ::
      && CoversCurrent(rows', revisions', dirty', rows'[id].account, id)
      && (id in rows ==> CoversCurrent(rows, revisions, dirty', rows'[id].account, id))
  }

  /** Every new or moved activity shows in its account's generation. */
  ghost predicate Shows(rows: Rows, g: map<nat, nat>, rows': Rows, g': map<nat, nat>) {
    forall id | id in rows' && !Unchanged(rows, rows', id) :: Count(g, rows'[id].account) < Count(g', rows'[id].account)
  }

  function MarkOf(dirty: Marked, account: nat): Option<Day> {
    if account in dirty then Some(dirty[account]) else None
  }

  /** So does every mark that moves. */
  ghost predicate MarksShow(dirty: Marked, g: map<nat, nat>, dirty': Marked, g': map<nat, nat>) {
    forall a | MarkOf(dirty, a) != MarkOf(dirty', a) :: Count(g, a) < Count(g', a)
  }

  ghost predicate Marks(s: State, t: State) {
    && MarksChanges(s.activities, s.revisions, t.activities, t.revisions, t.dirty)
    && Shrinks(s.dirty, t.dirty)
    && Shows(s.activities, s.generations, t.activities, t.generations)
    && MarksShow(s.dirty, s.generations, t.dirty, t.generations)
  }

  lemma NothingMoves(s: State, t: State)
    requires t.activities == s.activities && t.dirty == s.dirty
    ensures Marks(s, t)
  {
  }

  lemma EarlierCovers(dirty: Marked, account: nat, a: Option<Day>, b: Option<Day>)
    requires Covers(dirty, account, EarlierDate(a, b))
    ensures Covers(dirty, account, a) && Covers(dirty, account, b)
  {
  }

  lemma DirtyMarked(dirty: Marked, account: nat, from: Option<Day>)
    ensures Covers(MarkDirty(dirty, account, from), account, from) && Shrinks(dirty, MarkDirty(dirty, account, from))
    ensures forall a :: a != account ==> MarkOf(MarkDirty(dirty, account, from), a) == MarkOf(dirty, a)
  {
  }

  /** Appending a revision marks the earlier of the two boundaries. */
  lemma AppendMarks(s: State, id: nat, r: Revision, roles: map<SourceKey, Role>)
    requires Tracked(s, id)
    ensures Marks(s, AddRevision(s, id, r, roles, EarlierDate(EarliestOf(Current(s, id).payload), EarliestOf(r.payload))))
  {
    var prior, next := EarliestOf(Current(s, id).payload), EarliestOf(r.payload);
    var t := AddRevision(s, id, r, roles, EarlierDate(prior, next));
    DirtyMarked(s.dirty, s.activities[id].account, EarlierDate(prior, next));
    EarlierCovers(t.dirty, s.activities[id].account, prior, next);
  }

  lemma FirstMarks(s: State, account: nat, r: Revision, roles: map<SourceKey, Role>)
    requires s.nextActivity !in s.activities
    ensures Marks(s, AddRevision(StartRow(s, account), s.nextActivity, r, roles, EarliestOf(r.payload)))
  {
    DirtyMarked(s.dirty, account, EarliestOf(r.payload));
  }

  lemma BookMarks(s: State, job: nat, key: RawKey, rule: int)
    requires Valid(s) && key in s.raws && FeedProvider(s.raws[key].record.feed).Some?
    ensures Marks(s, Book(s, job, key, rule).state)
  {
    var record := s.raws[key].record;
    var a := Quarantine(s, key.account, record, Proposal(key, record, s.nextActivity, 0));
    FirstMarks(s, key.account, Revision(a, FeedPriority(record.feed), record.time, rule),
               map[SourceKey(RevisionKey(a.id, 1), key) := Principal]);
  }

  lemma ReviseMarks(s: State, key: RawKey, a: Activity, rule: int, upgrade: bool)
    requires key in s.raws && Tracked(s, a.id)
    ensures Marks(s, ReviseActivity(s, key, a, rule, upgrade))
  {
    var record := s.raws[key].record;
    var to := RevisionKey(a.id, a.revision);
    var roles := Corroborations(s.sources, CurrentKey(s, a.id), to)[SourceKey(to, key) := Principal];
    AppendMarks(s, a.id, Revision(a, FeedPriority(record.feed), record.time, rule), roles);
  }

  lemma ReplaceMarks(s: State, job: nat, key: RawKey, id: nat, rule: int)
    requires key in s.raws && FeedProvider(s.raws[key].record.feed).Some? && Tracked(s, id)
    ensures Marks(s, Replace(s, job, key, id, rule).state)
  {
    var record := s.raws[key].record;
    var a := Proposal(key, record, id, s.activities[id].current);
    ReviseMarks(s, key, a, rule, Decide(s, key, record, id, rule).upgrade);
  }

  lemma CorroborateMarks(s: State, job: nat, key: RawKey, id: nat, rule: int)
    requires key in s.raws && FeedProvider(s.raws[key].record.feed).Some? && Tracked(s, id)
    ensures Marks(s, Corroborate(s, job, key, id, rule).state)
  {
    NothingMoves(s, Corroborate(s, job, key, id, rule).state);
  }

  lemma ProcessMarks(s: State, job: nat, key: RawKey, rule: int)
    requires Valid(s) && key in s.raws
    ensures Marks(s, After(s, Process(s, job, key, rule)))
  {
    NothingMoves(s, s);
    if Process(s, job, key, rule).Committed? {
      var m := FindActivity(s, key.account, RecordKeys(key, s.raws[key].record));
      if m.Unmatched? {
        BookMarks(s, job, key, rule);
      } else {
        ReplaceMarks(s, job, key, m.id, rule);
        CorroborateMarks(s, job, key, m.id, rule);
      }
    }
  }

  lemma NormalizeMarks(s: State, lease: bool, job: nat, key: RawKey, rule: int)
    requires Valid(s)
    ensures Marks(s, After(s, Normalize(s, lease, job, key, rule)))
  {
    NothingMoves(s, s);
    if key in s.raws {
      ProcessMarks(s, job, key, rule);
    }
  }

  lemma BookReviewMarks(s: State, m: State, issue: nat, reviewed: Activity)
    requires issue in m.issues && Tracked(m, m.issues[issue].activity) && m.issues[issue].raw in m.raws
    requires m.activities == s.activities && m.revisions == s.revisions && m.dirty == s.dirty && m.generations == s.generations
    ensures Marks(s, BookReview(m, issue, reviewed))
  {
    var i := m.issues[issue];
    var to := RevisionKey(i.activity, reviewed.revision);
    AppendMarks(m, i.activity, Revision(reviewed, MANUAL_PRIORITY, Current(m, i.activity).time, MANUAL_RULE),
                CarriedRoles(m.sources, CurrentKey(m, i.activity), to));
  }

  lemma ResolveMarks(s: State, issue: nat, action: Action, user: int)
    ensures Marks(s, After(s, ResolveDuplicate(s, issue, action, user)))
  {
    NothingMoves(s, s);
    if ResolveDuplicate(s, issue, action, user).Committed? {
      var i := s.issues[issue];
      var current := Current(s, i.activity).payload;
      if action.ConfirmDistinct? {
        BookReviewMarks(s, s, issue, Reviewed(s.raws[i.raw].record, current, i.activity, i.account).(status := Effective, warnings := []));
      } else {
        BookReviewMarks(s, LinkDuplicate(s, i, action.target.value), issue, Void(current));
      }
    }
  }

  lemma AcceptMarks(s: State, issue: nat, user: int)
    ensures Marks(s, After(s, AcceptRevision(s, issue, user)))
  {
    NothingMoves(s, s);
    if AcceptRevision(s, issue, user).Committed? {
      var i := s.issues[issue];
      var record := s.raws[i.raw].record;
      var from := CurrentKey(s, i.activity);
      var accepted := Reviewed(record, Current(s, i.activity).payload, i.activity, i.account);
      var to := RevisionKey(i.activity, accepted.revision);
      var roles := Corroborations(s.sources, from, to)[SourceKey(to, i.raw) := Principal];
      AppendMarks(s, i.activity, Revision(accepted, ACCEPTED_PRIORITY, record.time, MANUAL_RULE), roles);
    }
  }

  /** No ledger step changes an activity without marking what it may have changed. */
  lemma StepMarks(s: State, step: Step)
    requires Valid(s)
    ensures Marks(s, Apply(s, step))
  {
    match step
    case Save(job, key, record, rule) => NothingMoves(s, Apply(s, step));
    case Normalise(lease, job, key, rule) => NormalizeMarks(s, lease, job, key, rule);
    case Resolve(issue, action, user) => ResolveMarks(s, issue, action, user);
    case Accept(issue, user) => AcceptMarks(s, issue, user);
  }

  // --------------------------------------------------------------------- runs

  lemma ShowsChains(rows: Rows, g: map<nat, nat>, rows': Rows, g': map<nat, nat>, rows'': Rows, g'': map<nat, nat>)
    requires RowsGrow(rows, rows') && RowsGrow(rows', rows'') && CountsGrow(g, g') && CountsGrow(g', g'')
    requires Shows(rows, g, rows', g') && Shows(rows', g', rows'', g'')
    ensures Shows(rows, g, rows'', g'')
  {
    forall id | id in rows'' && !Unchanged(rows, rows'', id)
      ensures Count(g, rows''[id].account) < Count(g'', rows''[id].account)
    {
      var a := rows''[id].account;
      assert Count(g, a) <= Count(g', a) <= Count(g'', a);
      if id in rows' && Unchanged(rows', rows'', id) {
        assert !Unchanged(rows, rows', id);
      }
    }
  }

  lemma MarksShowChains(d: Marked, g: map<nat, nat>, d': Marked, g': map<nat, nat>, d'': Marked, g'': map<nat, nat>)
    requires CountsGrow(g, g') && CountsGrow(g', g'') && MarksShow(d, g, d', g') && MarksShow(d', g', d'', g'')
    ensures MarksShow(d, g, d'', g'')
  {
    forall a | MarkOf(d, a) != MarkOf(d'', a) ensures Count(g, a) < Count(g'', a) {
      assert Count(g, a) <= Count(g', a) <= Count(g'', a);
      assert MarkOf(d, a) != MarkOf(d', a) || MarkOf(d', a) != MarkOf(d'', a);
    }
  }

  /** Over every run, each new or moved activity and each moved mark shows in its account's generation. */
  lemma {:induction false} RunMarks(s: State, steps: seq<Step>)
    requires Valid(s)
    ensures var t := Run(s, steps);
      && Shows(s.activities, s.generations, t.activities, t.generations)
      && MarksShow(s.dirty, s.generations, t.dirty, t.generations)
    decreases |steps|
  {
    if steps != [] {
      var m, t := Apply(s, steps[0]), Run(s, steps);
      LedgerRuns.StepProgress(s, steps[0]);
      LedgerRuns.RunProgress(m, steps[1..]);
      StepMarks(s, steps[0]);
      RunMarks(m, steps[1..]);
      ShowsChains(s.activities, s.generations, m.activities, m.generations, t.activities, t.generations);
      MarksShowChains(s.dirty, s.generations, m.dirty, m.generations, t.dirty, t.generations);
    }
  }
}

/** Who may replace whom: the priority of an activity's current revision over every run. */
module LedgerPriority {
  import opened Activities
  import opened Ledger
  import opened LedgerInvariant
  import LedgerRuns

  /** In a valid ledger every activity has a current revision. */
  lemma AllTracked(s: State, id: nat)
    requires Valid(s) && id in s.activities
    ensures Tracked(s, id)
  {
  }

  ghost function Priority(s: State, id: nat): int
    requires Valid(s) && id in s.activities
  {
    AllTracked(s, id);
    Current(s, id).priority
  }

  // ---------------------------------------------------------- one decision

  /** A record is judged against an existing activity. */
  predicate Reaches(s: State, key: RawKey, id: nat)
    requires key in s.raws
  {
    var record := s.raws[key].record;
    && FeedProvider(record.feed).Some?
    && (record.claimed.Some? ==> record.claimed == FeedProvider(record.feed))
    && FindActivity(s, key.account, RecordKeys(key, record)) == Matched(id)
    && Tracked(s, id)
  }

  /** A normalisation is neither refused nor already settled. */
  predicate IsFresh(s: State, lease: bool, job: nat, key: RawKey) {
    && lease
    && key in s.raws && ObservationKey(key, job) in s.observations
    && s.observations[ObservationKey(key, job)].None?
    && s.raws[key].status.Pending?
  }

  predicate Replaces(s: State, lease: bool, job: nat, key: RawKey, rule: int, id: nat) {
    IsFresh(s, lease, job, key) && Reaches(s, key, id) && Decide(s, key, s.raws[key].record, id, rule).replace
  }

  /** A replacement never touches a revision that a person accepted or reviewed,
    and a lower-ranked record replaces only by upgrading its own revision. */
  lemma ReplacementRule(s: State, key: RawKey, record: RawRecord, id: nat, rule: int)
    requires Valid(s) && Tracked(s, id) && FeedProvider(record.feed).Some?
    requires Decide(s, key, record, id, rule).replace
    ensures Current(s, id).priority < ACCEPTED_PRIORITY
    ensures FeedPriority(record.feed) >= Current(s, id).priority || Decide(s, key, record, id, rule).upgrade
  {
    assert FitsGrade(Current(s, id));
  }

  /** A conflict is raised only over different content, against a revision that no
    manual review made, and never together with a replacement. */
  lemma ConflictIsGenuine(s: State, key: RawKey, record: RawRecord, id: nat, rule: int)
    requires Valid(s) && Tracked(s, id) && FeedProvider(record.feed).Some?
    requires Decide(s, key, record, id, rule).conflict
    ensures !Decide(s, key, record, id, rule).replace && !MarkedDuplicate(s, id)
    ensures !SameContent(Proposal(key, record, id, s.activities[id].current), Current(s, id).payload)
    ensures Current(s, id).priority <= ACCEPTED_PRIORITY && FeedPriority(record.feed) <= Current(s, id).priority
  {
    assert FitsGrade(Current(s, id));
  }

  lemma BookRows(s: State, job: nat, key: RawKey, rule: int)
    requires key in s.raws && FeedProvider(s.raws[key].record.feed).Some?
    ensures Book(s, job, key, rule).Committed?
    ensures Book(s, job, key, rule).state.activities == s.activities[s.nextActivity := ActivityRow(key.account, 1)]
  {
    var record := s.raws[key].record;
    var a := Quarantine(s, key.account, record, Proposal(key, record, s.nextActivity, 0));
    assert a.revision == 1 && a.id == s.nextActivity;
  }

  lemma CorroborateRows(s: State, job: nat, key: RawKey, id: nat, rule: int)
    requires key in s.raws && FeedProvider(s.raws[key].record.feed).Some? && Tracked(s, id)
    ensures Corroborate(s, job, key, id, rule).Committed?
    ensures Corroborate(s, job, key, id, rule).state.activities == s.activities
  {
  }

  function ProposedRevision(s: State, key: RawKey, id: nat, rule: int): Revision
    requires key in s.raws && FeedProvider(s.raws[key].record.feed).Some? && id in s.activities
  {
    var record := s.raws[key].record;
    Revision(Proposal(key, record, id, s.activities[id].current), FeedPriority(record.feed), record.time, rule)
  }

  lemma ReviseRows(s: State, key: RawKey, a: Activity, rule: int, upgrade: bool)
    requires key in s.raws && Tracked(s, a.id)
    ensures var t := ReviseActivity(s, key, a, rule, upgrade);
      && t.activities == s.activities[a.id := s.activities[a.id].(current := a.revision)]
      && t.revisions == s.revisions[RevisionKey(a.id, a.revision) :=
           Revision(a, FeedPriority(s.raws[key].record.feed), s.raws[key].record.time, rule)]
      && t.raws == s.raws
  {
  }

  lemma ReplaceRows(s: State, job: nat, key: RawKey, id: nat, rule: int)
    requires key in s.raws && FeedProvider(s.raws[key].record.feed).Some? && Tracked(s, id)
    ensures var number := s.activities[id].current + 1;
      && Replace(s, job, key, id, rule).Committed?
      && Replace(s, job, key, id, rule).state.activities == s.activities[id := s.activities[id].(current := number)]
      && Replace(s, job, key, id, rule).state.revisions
         == s.revisions[RevisionKey(id, number) := ProposedRevision(s, key, id, rule)]
  {
    var a := ProposedRevision(s, key, id, rule).payload;
    var upgrade := Decide(s, key, s.raws[key].record, id, rule).upgrade;
    ReviseRows(s, key, a, rule, upgrade);
  }

  /** `t` follows `s` with `id` revised from the record. */
  predicate Revised(s: State, t: State, key: RawKey, rule: int, id: nat)
    requires key in s.raws && FeedProvider(s.raws[key].record.feed).Some? && id in s.activities
  {
    && id in t.activities
    && t.activities[id].current == s.activities[id].current + 1
    && CurrentKey(t, id) in t.revisions
    && t.revisions[CurrentKey(t, id)] == ProposedRevision(s, key, id, rule)
  }

  predicate Untouched(s: State, t: State, id: nat) {
    id in s.activities && id in t.activities && t.activities[id] == s.activities[id]
  }

  lemma BookEffect(s: State, job: nat, key: RawKey, rule: int, id: nat)
    requires Valid(s) && id in s.activities && key in s.raws && FeedProvider(s.raws[key].record.feed).Some?
    ensures Untouched(s, Book(s, job, key, rule).state, id)
  {
    BookRows(s, job, key, rule);
    assert id < s.nextActivity;
  }

  lemma ReplaceEffect(s: State, job: nat, key: RawKey, rule: int, id: nat, other: nat)
    requires key in s.raws && FeedProvider(s.raws[key].record.feed).Some? && Tracked(s, id) && other in s.activities
    ensures if other == id
      then Revised(s, Replace(s, job, key, id, rule).state, key, rule, id)
      else Untouched(s, Replace(s, job, key, id, rule).state, other)
  {
    ReplaceRows(s, job, key, id, rule);
    var t := Replace(s, job, key, id, rule).state;
    assert t.activities[id].current == s.activities[id].current + 1;
    assert CurrentKey(t, id) == RevisionKey(id, s.activities[id].current + 1);
  }

  /** What a pending record does to one existing activity, case by case. */
  lemma ProcessEffect(s: State, job: nat, key: RawKey, rule: int, id: nat)
    requires Valid(s) && id in s.activities && key in s.raws
    ensures var t := After(s, Process(s, job, key, rule));
      if Reaches(s, key, id) && Decide(s, key, s.raws[key].record, id, rule).replace
      then Revised(s, t, key, rule, id)
      else Untouched(s, t, id)
  {
    if Process(s, job, key, rule).Committed? {
      var m := FindActivity(s, key.account, RecordKeys(key, s.raws[key].record));
      if m.Unmatched? {
        assert Process(s, job, key, rule) == Book(s, job, key, rule);
        BookEffect(s, job, key, rule, id);
      } else if Decide(s, key, s.raws[key].record, m.id, rule).replace {
        assert Process(s, job, key, rule) == Replace(s, job, key, m.id, rule);
        ReplaceEffect(s, job, key, rule, m.id, id);
      } else {
        assert Process(s, job, key, rule) == Corroborate(s, job, key, m.id, rule);
        CorroborateRows(s, job, key, m.id, rule);
      }
    }
  }

  lemma NormaliseEffect(s: State, lease: bool, job: nat, key: RawKey, rule: int, id: nat)
    requires Valid(s) && id in s.activities
    ensures var t := After(s, Normalize(s, lease, job, key, rule));
      if Replaces(s, lease, job, key, rule, id) then Revised(s, t, key, rule, id) else Untouched(s, t, id)
  {
    if IsFresh(s, lease, job, key) {
      assert Normalize(s, lease, job, key, rule) == Process(s, job, key, rule);
      ProcessEffect(s, job, key, rule, id);
    }
  }

  lemma ReplacementPriority(s: State, job: nat, key: RawKey, rule: int, id: nat)
    requires Valid(s) && id in s.activities && Replaces(s, true, job, key, rule, id)
    ensures var t := Apply(s, Normalise(true, job, key, rule));
      Valid(t) && id in t.activities && Priority(t, id) == FeedPriority(s.raws[key].record.feed)
  {
    LedgerRuns.NormalizeProgress(s, true, job, key, rule);
    NormaliseEffect(s, true, job, key, rule, id);
  }

  // ------------------------------------------------------------ whole steps

  predicate Automatic(step: Step) {
    step.Save? || step.Normalise?
  }

  lemma SaveEffect(s: State, job: nat, key: RawKey, record: RawRecord, rule: int)
    ensures SaveRaw(s, job, key, record, rule).activities == s.activities
    ensures SaveRaw(s, job, key, record, rule).revisions == s.revisions
  {
  }

  /** A confirmed duplicate or distinct activity had no reviewed revision before, and has one after. */
  lemma ResolveEffect(s: State, issue: nat, action: Action, user: int, id: nat)
    requires Valid(s) && id in s.activities
    ensures var t := After(s, ResolveDuplicate(s, issue, action, user));
      id in t.activities &&
      (t.activities[id] != s.activities[id] ==>
        && Priority(s, id) < ACCEPTED_PRIORITY
        && CurrentKey(t, id) in t.revisions
        && t.revisions[CurrentKey(t, id)].priority == MANUAL_PRIORITY)
  {
    if ResolveDuplicate(s, issue, action, user).Committed? {
      AllTracked(s, id);
      assert FitsGrade(Current(s, id));
      ResolveRows(s, issue, action, user);
    }
  }

  lemma ResolveRows(s: State, issue: nat, action: Action, user: int)
    requires ResolveDuplicate(s, issue, action, user).Committed?
    ensures var id := s.issues[issue].activity;
      var t := ResolveDuplicate(s, issue, action, user).state;
      && Tracked(s, id) && Current(s, id).payload.status.NeedsReview?
      && id in t.activities && t.activities == s.activities[id := t.activities[id]]
      && CurrentKey(t, id) in t.revisions && Current(t, id).priority == MANUAL_PRIORITY
  {
    var i := s.issues[issue];
    var current := Current(s, i.activity).payload;
    if action.ConfirmSame? {
      var linked := LinkDuplicate(s, i, action.target.value);
      assert linked.activities == s.activities;
      assert ResolveDuplicate(s, issue, action, user).state == BookReview(linked, issue, Void(current));
    }
  }

  /** An accepted revision replaces one that no manual review had made. */
  lemma AcceptEffect(s: State, issue: nat, user: int, id: nat)
    requires Valid(s) && id in s.activities
    ensures var t := After(s, AcceptRevision(s, issue, user));
      id in t.activities &&
      (t.activities[id] != s.activities[id] ==>
        && Priority(s, id) <= ACCEPTED_PRIORITY
        && CurrentKey(t, id) in t.revisions
        && t.revisions[CurrentKey(t, id)].priority == ACCEPTED_PRIORITY)
  {
    AllTracked(s, id);
    var result := AcceptRevision(s, issue, user);
    if result.Committed? && s.issues[issue].activity == id {
      assert Undecided(s.issues[issue], s.revisions);
      assert Current(s, id).payload.revision == s.activities[id].current;
    }
  }

  /** Automatic normalisation lowers the priority of a current revision in
    exactly one situation: a changed parser version makes the revision's own
    record pending again, and that record now names a lower-ranked feed. */
  lemma LoweringIsUpgrade(s: State, step: Step, id: nat)
    requires Valid(s) && id in s.activities
    ensures Valid(Apply(s, step)) && id in Apply(s, step).activities
    ensures Priority(Apply(s, step), id) < Priority(s, id) <==>
      && step.Normalise?
      && Replaces(s, step.lease, step.job, step.key, step.rule, id)
      && FeedPriority(s.raws[step.key].record.feed) < Current(s, id).priority
    ensures Priority(Apply(s, step), id) < Priority(s, id) ==>
      Decide(s, step.key, s.raws[step.key].record, id, step.rule).upgrade
  {
    LedgerRuns.StepProgress(s, step);
    AllTracked(s, id);
    var t := Apply(s, step);
    match step
    case Save(job, key, record, rule) =>
      SaveEffect(s, job, key, record, rule);
    case Normalise(lease, job, key, rule) =>
      NormaliseEffect(s, lease, job, key, rule, id);
      if Replaces(s, lease, job, key, rule, id) {
        ReplacementRule(s, key, s.raws[key].record, id, rule);
      } else {
        assert t.revisions[CurrentKey(s, id)] == s.revisions[CurrentKey(s, id)];
      }
    case Resolve(issue, action, user) =>
      ResolveEffect(s, issue, action, user, id);
      assert t.revisions[CurrentKey(s, id)] == s.revisions[CurrentKey(s, id)];
    case Accept(issue, user) =>
      AcceptEffect(s, issue, user, id);
      assert t.revisions[CurrentKey(s, id)] == s.revisions[CurrentKey(s, id)];
  }

  /** A manually reviewed revision stays current whatever step follows, and an
    accepted one stays current through every automatic step. */
  lemma DecidedStays(s: State, step: Step, id: nat)
    requires Valid(s) && id in s.activities
    requires Priority(s, id) == MANUAL_PRIORITY || (Priority(s, id) == ACCEPTED_PRIORITY && Automatic(step))
    ensures Valid(Apply(s, step)) && id in Apply(s, step).activities
    ensures Apply(s, step).activities[id] == s.activities[id]
    ensures Priority(Apply(s, step), id) == Priority(s, id)
  {
    LedgerRuns.StepProgress(s, step);
    AllTracked(s, id);
    var t := Apply(s, step);
    match step
    case Save(job, key, record, rule) =>
      SaveEffect(s, job, key, record, rule);
    case Normalise(lease, job, key, rule) =>
      NormaliseEffect(s, lease, job, key, rule, id);
      if Replaces(s, lease, job, key, rule, id) {
        ReplacementRule(s, key, s.raws[key].record, id, rule);
      }
      assert t.revisions[CurrentKey(s, id)] == s.revisions[CurrentKey(s, id)];
    case Resolve(issue, action, user) =>
      ResolveEffect(s, issue, action, user, id);
      assert t.revisions[CurrentKey(s, id)] == s.revisions[CurrentKey(s, id)];
    case Accept(issue, user) =>
      AcceptEffect(s, issue, user, id);
      assert t.revisions[CurrentKey(s, id)] == s.revisions[CurrentKey(s, id)];
  }

  // ------------------------------------------------------------ whole runs

  /** The record behind an automatic revision comes from a feed of the revision's priority. */
  ghost predicate Backed(sources: map<SourceKey, Role>, revisions: Revisions, raws: map<RawKey, Raw>) {
    forall k :: k in sources && sources[k].Principal? ==> BackedBy(k, revisions, raws)
  }

  predicate BackedBy(k: SourceKey, revisions: Revisions, raws: map<RawKey, Raw>) {
    && k.revision in revisions
    && k.raw in raws
    && (revisions[k.revision].priority < ACCEPTED_PRIORITY ==>
          FeedPriority(raws[k.raw].record.feed) == revisions[k.revision].priority)
  }

  ghost predicate AllBacked(s: State) {
    Backed(s.sources, s.revisions, s.raws)
  }

  /** Evidence saved again by a newer parser comes from a feed of the same rank as before. */
  predicate Stable(s: State, step: Step) {
    step.Save? && step.key in s.raws && s.raws[step.key].rule != step.rule ==>
      FeedPriority(step.record.feed) == FeedPriority(s.raws[step.key].record.feed)
  }

  predicate StableRun(s: State, steps: seq<Step>)
    decreases |steps|
  {
    steps == [] || (Stable(s, steps[0]) && StableRun(Apply(s, steps[0]), steps[1..]))
  }

  /** New roles on a new revision keep every principal backed. */
  lemma BackedAppend(s: State, id: nat, r: Revision, roles: map<SourceKey, Role>, boundary: Option<Day>)
    requires AllBacked(s) && NextRevision(s, id, r, roles)
    requires RevisionKey(id, r.payload.revision) !in s.revisions
    requires r.priority >= ACCEPTED_PRIORITY ||
      forall k :: k in roles && roles[k].Principal? ==> FeedPriority(s.raws[k.raw].record.feed) == r.priority
    ensures AllBacked(AddRevision(s, id, r, roles, boundary))
  {
    var t := AddRevision(s, id, r, roles, boundary);
    forall k | k in t.sources && t.sources[k].Principal? ensures BackedBy(k, t.revisions, t.raws) {
      if k !in roles {
        assert BackedBy(k, s.revisions, s.raws);
      }
    }
  }

  lemma BackedKept(s: State, t: State)
    requires AllBacked(s)
    requires t.sources == s.sources && t.revisions == s.revisions
    requires forall k :: k in s.raws ==> k in t.raws && FeedPriority(t.raws[k].record.feed) == FeedPriority(s.raws[k].record.feed)
    ensures AllBacked(t)
  {
    forall k | k in t.sources && t.sources[k].Principal? ensures BackedBy(k, t.revisions, t.raws) {
      assert BackedBy(k, s.revisions, s.raws);
    }
  }

  lemma StartBacked(s: State, key: RawKey, a: Activity, rule: int)
    requires Valid(s) && AllBacked(s) && key in s.raws && a.id == s.nextActivity && a.revision == 1
    ensures AllBacked(StartActivity(s, key, a, rule))
  {
    var record := s.raws[key].record;
    var r := Revision(a, FeedPriority(record.feed), record.time, rule);
    var roles := map[SourceKey(RevisionKey(a.id, 1), key) := Principal];
    var started := StartRow(s, key.account);
    assert AllBacked(started);
    BackedAppend(started, a.id, r, roles, EarliestOf(a));
  }

  lemma BookBacked(s: State, job: nat, key: RawKey, rule: int)
    requires Valid(s) && AllBacked(s) && key in s.raws && FeedProvider(s.raws[key].record.feed).Some?
    ensures AllBacked(Book(s, job, key, rule).state)
  {
    var record := s.raws[key].record;
    var a := Quarantine(s, key.account, record, Proposal(key, record, s.nextActivity, 0));
    StartBacked(s, key, a, rule);
    BackedKept(StartActivity(s, key, a, rule), Book(s, job, key, rule).state);
  }

  lemma ReplaceBacked(s: State, job: nat, key: RawKey, id: nat, rule: int)
    requires Valid(s) && AllBacked(s) && key in s.raws && FeedProvider(s.raws[key].record.feed).Some? && Tracked(s, id)
    ensures AllBacked(Replace(s, job, key, id, rule).state)
  {
    var r := ProposedRevision(s, key, id, rule);
    var to := RevisionKey(id, r.payload.revision);
    var roles := Corroborations(s.sources, CurrentKey(s, id), to)[SourceKey(to, key) := Principal];
    var boundary := EarlierDate(EarliestOf(Current(s, id).payload), EarliestOf(r.payload));
    assert to !in s.revisions;
    BackedAppend(s, id, r, roles, boundary);
    BackedKept(AddRevision(s, id, r, roles, boundary), Replace(s, job, key, id, rule).state);
  }

  lemma EvidenceBacked(s: State, source: SourceKey)
    requires AllBacked(s)
    ensures AllBacked(AddEvidence(s, source))
  {
  }

  lemma CorroborateBacked(s: State, job: nat, key: RawKey, id: nat, rule: int)
    requires AllBacked(s) && key in s.raws && FeedProvider(s.raws[key].record.feed).Some? && Tracked(s, id)
    ensures AllBacked(Corroborate(s, job, key, id, rule).state)
  {
    var seen := AddEvidence(s, SourceKey(CurrentKey(s, id), key));
    EvidenceBacked(s, SourceKey(CurrentKey(s, id), key));
    BackedKept(seen, Corroborate(s, job, key, id, rule).state);
  }

  lemma NormaliseBacked(s: State, lease: bool, job: nat, key: RawKey, rule: int)
    requires Valid(s) && AllBacked(s)
    ensures AllBacked(After(s, Normalize(s, lease, job, key, rule)))
  {
    if IsFresh(s, lease, job, key) && Process(s, job, key, rule).Committed? {
      var m := FindActivity(s, key.account, RecordKeys(key, s.raws[key].record));
      if m.Unmatched? {
        BookBacked(s, job, key, rule);
      } else {
        ReplaceBacked(s, job, key, m.id, rule);
        CorroborateBacked(s, job, key, m.id, rule);
      }
    }
  }

  lemma BookReviewBacked(s: State, issue: nat, reviewed: Activity)
    requires Valid(s) && AllBacked(s)
    requires issue in s.issues && Tracked(s, s.issues[issue].activity) && s.issues[issue].raw in s.raws
    requires reviewed.id == s.issues[issue].activity
    requires reviewed.revision == s.activities[s.issues[issue].activity].current + 1
    requires reviewed.status.Effective? || reviewed.status.Voided?
    ensures AllBacked(BookReview(s, issue, reviewed))
  {
    var i := s.issues[issue];
    var prior := Current(s, i.activity);
    var to := RevisionKey(i.activity, reviewed.revision);
    var roles := CarriedRoles(s.sources, CurrentKey(s, i.activity), to);
    var r := Revision(reviewed, MANUAL_PRIORITY, prior.time, MANUAL_RULE);
    var boundary := EarlierDate(EarliestOf(prior.payload), EarliestOf(reviewed));
    assert to !in s.revisions;
    BackedAppend(s, i.activity, r, roles, boundary);
    BackedKept(AddRevision(s, i.activity, r, roles, boundary), BookReview(s, issue, reviewed));
  }

  lemma ResolveBacked(s: State, issue: nat, action: Action, user: int)
    requires Valid(s) && AllBacked(s)
    ensures AllBacked(After(s, ResolveDuplicate(s, issue, action, user)))
  {
    if ResolveDuplicate(s, issue, action, user).Committed? {
      var i := s.issues[issue];
      var current := Current(s, i.activity).payload;
      assert current.revision == s.activities[i.activity].current && current.id == i.activity;
      if action.ConfirmDistinct? {
        BookReviewBacked(s, issue,
          Reviewed(s.raws[i.raw].record, current, i.activity, i.account).(status := Effective, warnings := []));
      } else {
        var target := action.target.value;
        LedgerRuns.LinkKeeps(s, i, target);
        EvidenceBacked(s, SourceKey(CurrentKey(s, target), i.raw));
        BookReviewBacked(LinkDuplicate(s, i, target), issue, Void(current));
      }
    }
  }

  lemma AcceptBacked(s: State, issue: nat, user: int)
    requires Valid(s) && AllBacked(s)
    ensures AllBacked(After(s, AcceptRevision(s, issue, user)))
  {
    if AcceptRevision(s, issue, user).Committed? {
      var i := s.issues[issue];
      var record := s.raws[i.raw].record;
      var from := CurrentKey(s, i.activity);
      var current := Current(s, i.activity).payload;
      assert current.revision == s.activities[i.activity].current && current.id == i.activity;
      var accepted := Reviewed(record, current, i.activity, i.account);
      var to := RevisionKey(i.activity, accepted.revision);
      var roles := Corroborations(s.sources, from, to)[SourceKey(to, i.raw) := Principal];
      var r := Revision(accepted, ACCEPTED_PRIORITY, record.time, MANUAL_RULE);
      var boundary := EarlierDate(EarliestOf(current), EarliestOf(accepted));
      assert to !in s.revisions;
      BackedAppend(s, i.activity, r, roles, boundary);
      BackedKept(AddRevision(s, i.activity, r, roles, boundary), AcceptRevision(s, issue, user).state);
    }
  }

  lemma StepBacked(s: State, step: Step)
    requires Valid(s) && AllBacked(s) && Stable(s, step)
    ensures AllBacked(Apply(s, step))
  {
    match step
    case Save(job, key, record, rule) => BackedKept(s, SaveRaw(s, job, key, record, rule));
    case Normalise(lease, job, key, rule) => NormaliseBacked(s, lease, job, key, rule);
    case Resolve(issue, action, user) => ResolveBacked(s, issue, action, user);
    case Accept(issue, user) => AcceptBacked(s, issue, user);
  }

  /** An upgrade re-reads the revision's own record, so it keeps the rank of a backed revision. */
  lemma ReplacementKeepsRank(s: State, key: RawKey, id: nat, rule: int)
    requires Valid(s) && AllBacked(s) && Tracked(s, id) && key in s.raws && FeedProvider(s.raws[key].record.feed).Some?
    requires Decide(s, key, s.raws[key].record, id, rule).replace
    ensures FeedPriority(s.raws[key].record.feed) >= Current(s, id).priority
  {
    ReplacementRule(s, key, s.raws[key].record, id, rule);
    if Decide(s, key, s.raws[key].record, id, rule).upgrade {
      assert BackedBy(SourceKey(CurrentKey(s, id), key), s.revisions, s.raws);
    }
  }

  lemma StepPriority(s: State, step: Step, id: nat)
    requires Valid(s) && AllBacked(s) && id in s.activities
    ensures Valid(Apply(s, step)) && id in Apply(s, step).activities
    ensures Priority(s, id) <= Priority(Apply(s, step), id)
  {
    LoweringIsUpgrade(s, step, id);
    if step.Normalise? && Replaces(s, step.lease, step.job, step.key, step.rule, id) {
      ReplacementKeepsRank(s, step.key, id, step.rule);
    }
  }

  /** Over every run whose re-saved evidence keeps its rank, the priority of an
    activity's current revision never decreases. */
  lemma {:induction false} RunPriority(s: State, steps: seq<Step>, id: nat)
    requires Valid(s) && AllBacked(s) && StableRun(s, steps) && id in s.activities
    ensures Valid(Run(s, steps)) && id in Run(s, steps).activities
    ensures Priority(s, id) <= Priority(Run(s, steps), id)
    decreases |steps|
  {
    if steps != [] {
      StepPriority(s, steps[0], id);
      StepBacked(s, steps[0]);
      RunPriority(Apply(s, steps[0]), steps[1..], id);
    }
  }

  lemma {:induction false} StableRunBacked(s: State, steps: seq<Step>)
    requires Valid(s) && AllBacked(s) && StableRun(s, steps)
    ensures Valid(Run(s, steps)) && AllBacked(Run(s, steps))
    decreases |steps|
  {
    if steps != [] {
      LedgerRuns.StepProgress(s, steps[0]);
      StepBacked(s, steps[0]);
      StableRunBacked(Apply(s, steps[0]), steps[1..]);
    }
  }

  /** From the empty ledger on: between any two moments of a stable run, no
    activity's current source priority has fallen. */
  lemma ReachablePriority(before: seq<Step>, after: seq<Step>, id: nat)
    requires StableRun(EmptyLedger(), before) && StableRun(Run(EmptyLedger(), before), after)
    requires id in Run(EmptyLedger(), before).activities
    ensures var s := Run(EmptyLedger(), before);
      var t := Run(s, after);
      Valid(s) && Valid(t) && id in t.activities && Priority(s, id) <= Priority(t, id)
  {
    StableRunBacked(EmptyLedger(), before);
    RunPriority(Run(EmptyLedger(), before), after, id);
  }

  // ---------------------------------------------------- ranks by namespace

  type Ranking = string -> int

  /** The rank of a saved record is fixed by the namespace of its key. */
  predicate Ranked(step: Step, rank: Ranking) {
    step.Save? ==> FeedPriority(step.record.feed) == rank(step.key.identity.namespace)
  }

  ghost predicate AllRanked(raws: map<RawKey, Raw>, rank: Ranking) {
    forall k :: k in raws ==> FeedPriority(raws[k].record.feed) == rank(k.identity.namespace)
  }

  lemma SettledRecords(s: State, t: State, job: nat, key: RawKey, outcome: Outcome)
    requires OnlySettles(s, t, job, key, outcome)
    ensures SameRecords(s.raws, t.raws)
  {
  }

  lemma NormaliseKeepsRecords(s: State, lease: bool, job: nat, key: RawKey, rule: int)
    ensures SameRecords(s.raws, After(s, Normalize(s, lease, job, key, rule)).raws)
  {
    if IsFresh(s, lease, job, key) && Process(s, job, key, rule).Committed? {
      var r := Process(s, job, key, rule);
      assert Normalize(s, lease, job, key, rule) == r;
      SettledRecords(s, r.state, job, key, r.outcome);
    }
  }

  lemma ResolveKeepsRecords(s: State, issue: nat, action: Action, user: int)
    ensures SameRecords(s.raws, After(s, ResolveDuplicate(s, issue, action, user)).raws)
  {
  }

  lemma AcceptKeepsRecords(s: State, issue: nat, user: int)
    ensures SameRecords(s.raws, After(s, AcceptRevision(s, issue, user)).raws)
  {
  }

  lemma StepRanked(s: State, step: Step, rank: Ranking)
    requires AllRanked(s.raws, rank) && Ranked(step, rank)
    ensures AllRanked(Apply(s, step).raws, rank)
  {
    match step
    case Save(job, key, record, rule) =>
    case Normalise(lease, job, key, rule) => NormaliseKeepsRecords(s, lease, job, key, rule);
    case Resolve(issue, action, user) => ResolveKeepsRecords(s, issue, action, user);
    case Accept(issue, user) => AcceptKeepsRecords(s, issue, user);
  }

  /** Feeds that keep their namespaces apart by rank never lower a row's rank by saving it again. */
  lemma {:induction false} RankedRunIsStable(s: State, steps: seq<Step>, rank: Ranking)
    requires AllRanked(s.raws, rank) && forall i :: 0 <= i < |steps| ==> Ranked(steps[i], rank)
    ensures StableRun(s, steps) && AllRanked(Run(s, steps).raws, rank)
    decreases |steps|
  {
    if steps != [] {
      StepRanked(s, steps[0], rank);
      assert Stable(s, steps[0]);
      RankedRunIsStable(Apply(s, steps[0]), steps[1..], rank);
    }
  }

  /** What the adapters deliver: each names its own namespace. */
  predicate FromAdapter(step: Step) {
    step.Save? ==>
      var ns := step.key.identity.namespace;
      match step.record.feed
      case Gateway => ns == "ibkr.execution"
      case Flex | Xml => ns == "ibkr.flex"
      case Schwab => ns == "schwab.transaction"
      case Alpaca => ns == "alpaca.activity"
      case UnknownFeed => false
  }

  function AdapterRank(ns: string): int {
    if ns == "ibkr.flex" then REPORT_PRIORITY else FEED_PRIORITY
  }

  lemma AdapterIsRanked(step: Step)
    requires FromAdapter(step)
    ensures Ranked(step, AdapterRank)
  {
  }

  lemma AdaptersAreStable(s: State, steps: seq<Step>)
    requires AllRanked(s.raws, AdapterRank) && forall i :: 0 <= i < |steps| ==> FromAdapter(steps[i])
    ensures StableRun(s, steps) && AllRanked(Run(s, steps).raws, AdapterRank)
  {
    forall i | 0 <= i < |steps| ensures Ranked(steps[i], AdapterRank) {
      AdapterIsRanked(steps[i]);
    }
    RankedRunIsStable(s, steps, AdapterRank);
  }

  /** Over every run on what the adapters deliver, from the empty ledger on, no
    activity's current source priority ever falls. */
  lemma AdaptersNeverLower(before: seq<Step>, after: seq<Step>, id: nat)
    requires forall i :: 0 <= i < |before| ==> FromAdapter(before[i])
    requires forall i :: 0 <= i < |after| ==> FromAdapter(after[i])
    requires id in Run(EmptyLedger(), before).activities
    ensures var s := Run(EmptyLedger(), before);
      var t := Run(s, after);
      Valid(s) && Valid(t) && id in t.activities && Priority(s, id) <= Priority(t, id)
  {
    AdaptersAreStable(EmptyLedger(), before);
    AdaptersAreStable(Run(EmptyLedger(), before), after);
    ReachablePriority(before, after, id);
  }

  /** Over every run at all, a manually reviewed revision stays the current one. */
  lemma {:induction false} ReviewedForever(s: State, steps: seq<Step>, id: nat)
    requires Valid(s) && id in s.activities && Priority(s, id) == MANUAL_PRIORITY
    ensures Valid(Run(s, steps)) && id in Run(s, steps).activities
    ensures Run(s, steps).activities[id] == s.activities[id] && Current(Run(s, steps), id) == Current(s, id)
    decreases |steps|
  {
    if steps != [] {
      DecidedStays(s, steps[0], id);
      LedgerRuns.StepProgress(s, steps[0]);
      assert Apply(s, steps[0]).revisions[CurrentKey(s, id)] == s.revisions[CurrentKey(s, id)];
      ReviewedForever(Apply(s, steps[0]), steps[1..], id);
    }
  }

  /** Over every run of automatic steps, an accepted revision stays the current one. */
  lemma {:induction false} AcceptedThroughAutomation(s: State, steps: seq<Step>, id: nat)
    requires Valid(s) && id in s.activities && Priority(s, id) == ACCEPTED_PRIORITY
    requires forall i :: 0 <= i < |steps| ==> Automatic(steps[i])
    ensures Valid(Run(s, steps)) && id in Run(s, steps).activities
    ensures Run(s, steps).activities[id] == s.activities[id] && Current(Run(s, steps), id) == Current(s, id)
    decreases |steps|
  {
    if steps != [] {
      DecidedStays(s, steps[0], id);
      LedgerRuns.StepProgress(s, steps[0]);
      assert Apply(s, steps[0]).revisions[CurrentKey(s, id)] == s.revisions[CurrentKey(s, id)];
      AcceptedThroughAutomation(Apply(s, steps[0]), steps[1..], id);
    }
  }

  // --------------------------------------------------------- counterexample

  function SampleActivity(amount: int): Activity {
    Activity(0, 1, Ibkr, "U1", "deposit", Effective, Booked, Some(1), None, None, 0,
             [Leg(Cash, "cash", 0, "USD", amount, Some(1), None)], [], [], 0)
  }

  function SampleRecord(feed: Feed, amount: int): RawRecord {
    RawRecord(feed, None, "U1", [], Blank, SampleActivity(amount), SampleActivity(amount), true)
  }

  const SAMPLE_KEY := RawKey(1, IdentityKey("n", "k", "x"), 7)

  lemma RunOfTwo(s: State, a: Step, b: Step)
    ensures Run(s, [a, b]) == Apply(Apply(s, a), b)
  {
    assert [a, b][1..] == [b];
    assert Run(Apply(s, a), [b]) == Run(Apply(Apply(s, a), b), []);
  }

  /** A re-read record that no longer agrees with its own revision replaces it, whatever its feed. */
  lemma UpgradeReplaces(s: State, key: RawKey, record: RawRecord, id: nat, rule: int)
    requires Tracked(s, id) && FeedProvider(record.feed).Some? && s.links == {}
    requires Current(s, id).rule != rule && Current(s, id).priority < ACCEPTED_PRIORITY
    requires IsPrincipal(s, CurrentKey(s, id), key)
    requires record.booked.legs != Current(s, id).payload.legs
    ensures Decide(s, key, record, id, rule).replace
  {
    assert !SameContent(Proposal(key, record, id, s.activities[id].current), Current(s, id).payload);
  }

  /** The ledger after one first booking. */
  lemma FirstBooking(s: State, job: nat, key: RawKey, rule: int)
    requires s.activities == map[] && s.nextActivity == 0 && key in s.raws && s.raws[key].record.identities == []
    requires FeedProvider(s.raws[key].record.feed).Some? && s.raws[key].record.booked.status.Effective?
    ensures var record := s.raws[key].record;
      var a := Proposal(key, record, 0, 0);
      Book(s, job, key, rule) == Committed(Settle(StartActivity(s, key, a, rule), key, job, Done, Added), Added)
  {
    var record := s.raws[key].record;
    var a := Proposal(key, record, 0, 0);
    assert Quarantine(s, key.account, record, a) == a;
  }

  lemma OnlyIdentity(account: nat, key: IdentityKey, id: nat)
    requires key.external != ""
    ensures AddIdentities(map[], account, [key], id) == map[OwnedKey(account, key) := id]
  {
    assert [key][..0] == [];
    assert AddIdentities(map[], account, [], id) == map[];
  }

  const SAMPLE_START := [Save(1, SAMPLE_KEY, SampleRecord(Flex, 5), 1), Normalise(true, 1, SAMPLE_KEY, 1)]

  /** What the sample record leaves in the ledger's tables. */
  ghost predicate SampleBooks(s: State) {
    && Tracked(s, 0) && s.links == {}
    && Current(s, 0).rule == 1 && Current(s, 0).priority == REPORT_PRIORITY
    && Current(s, 0).payload.legs == SampleActivity(5).legs
    && IsPrincipal(s, CurrentKey(s, 0), SAMPLE_KEY)
    && SAMPLE_KEY in s.raws && s.raws[SAMPLE_KEY].rule == 1 && ObservationKey(SAMPLE_KEY, 2) !in s.observations
    && s.identities == map[OwnedKey(1, SAMPLE_KEY.identity) := 0]
  }

  lemma SampleBooked()
    ensures SampleBooks(Run(EmptyLedger(), SAMPLE_START))
  {
    var e := EmptyLedger();
    var key := SAMPLE_KEY;
    var record := SampleRecord(Flex, 5);
    var saved := SaveRaw(e, 1, key, record, 1);
    RunOfTwo(e, SAMPLE_START[0], SAMPLE_START[1]);
    assert SAMPLE_START == [SAMPLE_START[0], SAMPLE_START[1]];
    assert RecordKeys(key, record) == [key.identity];
    assert FindActivity(saved, 1, [key.identity]) == Unmatched;
    assert Normalize(saved, true, 1, key, 1) == Book(saved, 1, key, 1);
    FirstBooking(saved, 1, key, 1);
    OnlyIdentity(1, key.identity, 0);
    var m := StartActivity(saved, key, Proposal(key, record, 0, 0), 1);
    assert m.identities == map[OwnedKey(1, key.identity) := 0];
    assert CurrentKey(m, 0) == RevisionKey(0, 1);
  }

  lemma SampleValid()
    ensures Valid(Run(EmptyLedger(), SAMPLE_START)) && AllBacked(Run(EmptyLedger(), SAMPLE_START))
  {
    var e := EmptyLedger();
    LedgerRuns.StepProgress(e, SAMPLE_START[0]);
    StepBacked(e, SAMPLE_START[0]);
    LedgerRuns.StepProgress(Apply(e, SAMPLE_START[0]), SAMPLE_START[1]);
    StepBacked(Apply(e, SAMPLE_START[0]), SAMPLE_START[1]);
    RunOfTwo(e, SAMPLE_START[0], SAMPLE_START[1]);
    assert SAMPLE_START == [SAMPLE_START[0], SAMPLE_START[1]];
  }

  lemma SampleReplaces(s: State)
    requires SampleBooks(s)
    ensures Replaces(SaveRaw(s, 2, SAMPLE_KEY, SampleRecord(Gateway, 6), 2), true, 2, SAMPLE_KEY, 2, 0)
  {
    var key := SAMPLE_KEY;
    var record := SampleRecord(Gateway, 6);
    var saved := SaveRaw(s, 2, key, record, 2);
    assert RecordKeys(key, record) == [key.identity];
    assert FindActivity(saved, 1, [key.identity]) == Matched(0);
    assert record.booked.legs[0].amount == 6 && Current(saved, 0).payload.legs[0].amount == 5;
    UpgradeReplaces(saved, key, record, 0, 2);
  }

  /** A report's row, saved again by a newer parser under a lower-ranked feed,
    then replaces its own revision and lowers the priority from 30 to 10: the
    unique key of raw evidence does not include the feed. */
  lemma ResavedFeedLowersPriority()
    ensures var s := Run(EmptyLedger(), SAMPLE_START);
      var t := Run(s, [Save(2, SAMPLE_KEY, SampleRecord(Gateway, 6), 2), Normalise(true, 2, SAMPLE_KEY, 2)]);
      && Valid(s) && AllBacked(s) && 0 in s.activities && Priority(s, 0) == REPORT_PRIORITY
      && Valid(t) && 0 in t.activities && Priority(t, 0) == FEED_PRIORITY
  {
    SampleBooked();
    SampleValid();
    SampleLowered(Run(EmptyLedger(), SAMPLE_START));
    RunOfTwo(Run(EmptyLedger(), SAMPLE_START),
             Save(2, SAMPLE_KEY, SampleRecord(Gateway, 6), 2), Normalise(true, 2, SAMPLE_KEY, 2));
  }

  lemma SampleLowered(s: State)
    requires SampleBooks(s) && Valid(s)
    ensures var t := Apply(Apply(s, Save(2, SAMPLE_KEY, SampleRecord(Gateway, 6), 2)), Normalise(true, 2, SAMPLE_KEY, 2));
      Valid(t) && 0 in t.activities && Priority(t, 0) == FEED_PRIORITY
  {
    var resave := Save(2, SAMPLE_KEY, SampleRecord(Gateway, 6), 2);
    var saved := Apply(s, resave);
    SampleReplaces(s);
    assert saved.raws[SAMPLE_KEY].record.feed == Gateway;
    LedgerRuns.StepProgress(s, resave);
    ReplacementPriority(saved, 2, SAMPLE_KEY, 2, 0);
  }
}
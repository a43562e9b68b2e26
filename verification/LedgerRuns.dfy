/** Every committed step keeps the ledger's invariant and only ever adds to it;
  by induction the same holds over every run. */
module LedgerRuns {
  import opened Activities
  import opened Ledger
  import opened LedgerInvariant

  ghost predicate Progress(s: State, t: State) {
    Valid(t) && Grows(s, t)
  }

  lemma ProgressRefl(s: State)
    requires Valid(s)
    ensures Progress(s, s)
  {
    GrowsRefl(s);
  }

  lemma IssueAdded(issues: map<nat, Issue>, revisions: Revisions, n: nat, issue: Issue)
    requires ConflictsUndecided(issues, revisions) && Undecided(issue, revisions)
    ensures ConflictsUndecided(issues[n := issue], revisions)
  {
  }

  lemma IssuesClosed(issues: map<nat, Issue>, revisions: Revisions, raw: RawKey)
    requires ConflictsUndecided(issues, revisions)
    ensures ConflictsUndecided(CloseIssues(issues, raw), revisions)
  {
    forall i | i in issues ensures Undecided(CloseIssues(issues, raw)[i], revisions) {
      assert Undecided(issues[i], revisions);
    }
  }

  lemma IdentitiesOwned(s: State, t: State, account: nat, keys: seq<IdentityKey>, id: nat)
    requires Owned(s.identities, t.activities) && id in t.activities && t.activities[id].account == account
    ensures Owned(AddIdentities(s.identities, account, keys, id), t.activities)
    ensures Kept(s.identities, AddIdentities(s.identities, account, keys, id))
  {
    IdentitiesKept(s.identities, account, keys, id);
  }

  /** Recording a verdict on a raw record, with or without an issue, keeps the ledger. */
  lemma SettleKeeps(s: State, m: State, issue: Option<Issue>, key: RawKey, job: nat, status: RawStatus, outcome: Outcome)
    requires Valid(m) && Grows(s, m) && key in m.raws && !status.Pending?
    requires issue.Some? ==> Undecided(issue.value, m.revisions)
    ensures Progress(s, Settle(OpenIssue(m, issue), key, job, status, outcome))
  {
    var t := Settle(OpenIssue(m, issue), key, job, status, outcome);
    if issue.Some? {
      IssueAdded(m.issues, m.revisions, m.nextIssue, issue.value);
    }
    BookkeepingKeeps(s, m, t);
  }

  lemma LearnKeeps(s: State, m: State, key: RawKey, record: RawRecord, id: nat)
    requires Valid(m) && Grows(s, m) && id in m.activities && m.activities[id].account == key.account
    ensures Progress(s, Learn(m, key, record, id))
  {
    IdentitiesOwned(m, m, key.account, RecordKeys(key, record), id);
    BookkeepingKeeps(s, m, Learn(m, key, record, id));
  }

  lemma ConcludeKeeps(s: State, m: State, job: nat, key: RawKey, a: Activity, outcome: Outcome)
    requires Valid(m) && Grows(s, m) && key in m.raws
    ensures Conclude(m, job, key, a, outcome).Committed?
    ensures Progress(s, Conclude(m, job, key, a, outcome).state)
  {
    if Unsettled(a.status) {
      SettleKeeps(s, m, Some(Issue(key.account, a.id, key, Review(a.status, a.warnings), true)),
                  key, job, ReviewStatus(a.status), ReviewOutcome(a.status));
    } else {
      SettleKeeps(s, m, None, key, job, Done, outcome);
    }
  }

  lemma StartedKeeps(s: State, account: nat)
    requires Valid(s)
    ensures AlmostValid(StartRow(s, account), s.nextActivity) && Grows(s, StartRow(s, account))
  {
    var t := StartRow(s, account);
    assert Numbered(t.activities, t.revisions);
    assert RowsGrow(s.activities, t.activities);
  }

  lemma FirstRevisionKeeps(s: State, account: nat, r: Revision, roles: map<SourceKey, Role>, boundary: Option<Day>)
    requires Valid(s) && NextRevision(StartRow(s, account), s.nextActivity, r, roles)
    ensures Progress(s, AddRevision(StartRow(s, account), s.nextActivity, r, roles, boundary))
  {
    StartedKeeps(s, account);
    AppendKeeps(StartRow(s, account), s.nextActivity, r, roles, boundary);
    GrowsTransitive(s, StartRow(s, account), AddRevision(StartRow(s, account), s.nextActivity, r, roles, boundary));
  }

  lemma StartActivityKeeps(s: State, key: RawKey, a: Activity, rule: int)
    requires Valid(s) && key in s.raws && a.id == s.nextActivity && a.revision == 1
    ensures Progress(s, StartActivity(s, key, a, rule))
  {
    var record := s.raws[key].record;
    var r := Revision(a, FeedPriority(record.feed), record.time, rule);
    var roles := map[SourceKey(RevisionKey(a.id, 1), key) := Principal];
    FirstRevisionKeeps(s, key.account, r, roles, EarliestOf(a));
    LearnKeeps(s, AddRevision(StartRow(s, key.account), a.id, r, roles, EarliestOf(a)), key, record, a.id);
  }

  lemma BookProgress(s: State, job: nat, key: RawKey, rule: int)
    requires Valid(s)
    requires key in s.raws && FeedProvider(s.raws[key].record.feed).Some?
    ensures Progress(s, Book(s, job, key, rule).state)
  {
    var record := s.raws[key].record;
    var a := Quarantine(s, key.account, record, Proposal(key, record, s.nextActivity, 0));
    StartActivityKeeps(s, key, a, rule);
    ConcludeKeeps(s, StartActivity(s, key, a, rule), job, key, a, Added);
  }

  lemma ReviseActivityKeeps(s: State, key: RawKey, a: Activity, rule: int, upgrade: bool)
    requires Valid(s) && key in s.raws && Tracked(s, a.id) && a.revision == s.activities[a.id].current + 1
    requires s.activities[a.id].account == key.account
    ensures Progress(s, ReviseActivity(s, key, a, rule, upgrade))
  {
    var record := s.raws[key].record;
    var to := RevisionKey(a.id, a.revision);
    var roles := Corroborations(s.sources, CurrentKey(s, a.id), to)[SourceKey(to, key) := Principal];
    var r := Revision(a, FeedPriority(record.feed), record.time, rule);
    var boundary := EarlierDate(EarliestOf(Current(s, a.id).payload), EarliestOf(a));
    AppendKeeps(s, a.id, r, roles, boundary);
    var revised := AddRevision(s, a.id, r, roles, boundary);
    LearnKeeps(s, revised, key, record, a.id);
    IssuesClosed(s.issues, revised.revisions, key);
    BookkeepingKeeps(s, Learn(revised, key, record, a.id), ReviseActivity(s, key, a, rule, upgrade));
  }

  lemma ReplaceProgress(s: State, job: nat, key: RawKey, id: nat, rule: int)
    requires Valid(s)
    requires key in s.raws && FeedProvider(s.raws[key].record.feed).Some? && Tracked(s, id)
    requires s.activities[id].account == key.account
    ensures Progress(s, Replace(s, job, key, id, rule).state)
  {
    var record := s.raws[key].record;
    var a := Proposal(key, record, id, s.activities[id].current);
    var upgrade := Decide(s, key, record, id, rule).upgrade;
    ReviseActivityKeeps(s, key, a, rule, upgrade);
    ConcludeKeeps(s, ReviseActivity(s, key, a, rule, upgrade), job, key, a, Updated);
  }

  lemma EvidenceKeeps(s: State, source: SourceKey)
    requires Valid(s) && source.revision in s.revisions && source.raw in s.raws
    ensures Progress(s, AddEvidence(s, source))
  {
    GrowsRefl(s);
    var t := AddEvidence(s, source);
    assert Sourced(t.sources, t.revisions, t.raws);
    assert Kept(s.sources, t.sources);
  }

  lemma ConflictUndecided(s: State, key: RawKey, id: nat, rule: int)
    requires Valid(s) && Tracked(s, id) && key in s.raws && FeedProvider(s.raws[key].record.feed).Some?
    requires Decide(s, key, s.raws[key].record, id, rule).conflict
    ensures forall a :: Undecided(ConflictIssue(s, key, id, a), s.revisions)
  {
    assert Current(s, id).priority <= ACCEPTED_PRIORITY;
  }

  lemma CorroborateProgress(s: State, job: nat, key: RawKey, id: nat, rule: int)
    requires Valid(s)
    requires key in s.raws && FeedProvider(s.raws[key].record.feed).Some? && Tracked(s, id)
    requires s.activities[id].account == key.account
    ensures Progress(s, Corroborate(s, job, key, id, rule).state)
  {
    var record := s.raws[key].record;
    var source := SourceKey(CurrentKey(s, id), key);
    EvidenceKeeps(s, source);
    LearnKeeps(s, AddEvidence(s, source), key, record, id);
    WitnessSettles(s, job, key, id, rule, Learn(AddEvidence(s, source), key, record, id));
  }

  lemma WitnessSettles(s: State, job: nat, key: RawKey, id: nat, rule: int, known: State)
    requires Valid(s)
    requires key in s.raws && FeedProvider(s.raws[key].record.feed).Some? && Tracked(s, id)
    requires known == Learn(AddEvidence(s, SourceKey(CurrentKey(s, id), key)), key, s.raws[key].record, id)
    requires Progress(s, known)
    ensures Progress(s, Corroborate(s, job, key, id, rule).state)
  {
    var record := s.raws[key].record;
    var a := Proposal(key, record, id, s.activities[id].current);
    var verdict := Decide(s, key, record, id, rule);
    if verdict.conflict {
      ConflictUndecided(s, key, id, rule);
      SettleKeeps(s, known, Some(ConflictIssue(s, key, id, a)), key, job, InReview, OutcomeReview);
    } else if verdict.upgrade && Unsettled(a.status) {
      SettleKeeps(s, known, None, key, job, ReviewStatus(a.status), ReviewOutcome(a.status));
    } else {
      SettleKeeps(s, known, None, key, job, Done, Duplicate);
    }
  }

  lemma ProcessProgress(s: State, job: nat, key: RawKey, rule: int)
    requires Valid(s) && key in s.raws
    ensures Progress(s, After(s, Process(s, job, key, rule)))
  {
    ProgressRefl(s);
    if Process(s, job, key, rule).Committed? {
      var m := FindActivity(s, key.account, RecordKeys(key, s.raws[key].record));
      if m.Unmatched? {
        BookProgress(s, job, key, rule);
      } else {
        FoundIsTracked(s, key.account, RecordKeys(key, s.raws[key].record));
        ReplaceProgress(s, job, key, m.id, rule);
        CorroborateProgress(s, job, key, m.id, rule);
      }
    }
  }

  lemma NormalizeProgress(s: State, lease: bool, job: nat, key: RawKey, rule: int)
    requires Valid(s)
    ensures Progress(s, After(s, Normalize(s, lease, job, key, rule)))
  {
    ProgressRefl(s);
    if key in s.raws {
      ProcessProgress(s, job, key, rule);
      var seen := ObservationKey(key, job);
      if seen in s.observations && s.observations[seen].None? && !s.raws[key].status.Pending? {
        BookkeepingKeeps(s, s, s.(observations := s.observations[seen := Some(RepeatOutcome(s.raws[key].status))]));
      }
    }
  }

  lemma SaveProgress(s: State, job: nat, key: RawKey, record: RawRecord, rule: int)
    requires Valid(s)
    ensures Progress(s, SaveRaw(s, job, key, record, rule))
  {
    GrowsRefl(s);
    var t := SaveRaw(s, job, key, record, rule);
    assert Sourced(t.sources, t.revisions, t.raws);
  }

  lemma CloseIssueKeeps(s: State, m: State, issue: nat, raw: RawKey)
    requires Valid(m) && Grows(s, m) && issue in m.issues && raw in m.raws
    ensures Progress(s, CloseIssue(m, issue, raw))
  {
    var t := CloseIssue(m, issue, raw);
    assert Undecided(m.issues[issue], m.revisions);
    IssueAdded(m.issues, m.revisions, issue, m.issues[issue].(open := false));
    BookkeepingKeeps(s, m, t);
  }

  lemma BookReviewProgress(s: State, issue: nat, reviewed: Activity)
    requires Valid(s)
    requires issue in s.issues && Tracked(s, s.issues[issue].activity) && s.issues[issue].raw in s.raws
    requires reviewed.id == s.issues[issue].activity
    requires reviewed.revision == s.activities[s.issues[issue].activity].current + 1
    requires reviewed.status.Effective? || reviewed.status.Voided?
    ensures Progress(s, BookReview(s, issue, reviewed))
  {
    var i := s.issues[issue];
    var prior := Current(s, i.activity);
    var to := RevisionKey(i.activity, reviewed.revision);
    var roles := CarriedRoles(s.sources, CurrentKey(s, i.activity), to);
    var r := Revision(reviewed, MANUAL_PRIORITY, prior.time, MANUAL_RULE);
    var boundary := EarlierDate(EarliestOf(prior.payload), EarliestOf(reviewed));
    AppendKeeps(s, i.activity, r, roles, boundary);
    CloseIssueKeeps(s, AddRevision(s, i.activity, r, roles, boundary), issue, i.raw);
  }

  lemma LinkKeeps(s: State, i: Issue, target: nat)
    requires Valid(s) && i.activity in s.activities && i.raw in s.raws && Tracked(s, target)
    ensures Progress(s, LinkDuplicate(s, i, target))
  {
    var source := SourceKey(CurrentKey(s, target), i.raw);
    EvidenceKeeps(s, source);
    var seen := AddEvidence(s, source);
    var t := LinkDuplicate(s, i, target);
    GrowsRefl(seen);
    assert Linked(t.links, t.activities);
    GrowsTransitive(s, seen, t);
  }

  lemma ResolveProgress(s: State, issue: nat, action: Action, user: int)
    requires Valid(s)
    ensures Progress(s, After(s, ResolveDuplicate(s, issue, action, user)))
  {
    ProgressRefl(s);
    if ResolveDuplicate(s, issue, action, user).Committed? {
      var i := s.issues[issue];
      var current := Current(s, i.activity).payload;
      assert current.revision == s.activities[i.activity].current && current.id == i.activity;
      if action.ConfirmDistinct? {
        var reviewed := Reviewed(s.raws[i.raw].record, current, i.activity, i.account).(status := Effective, warnings := []);
        BookReviewProgress(s, issue, reviewed);
      } else {
        LinkKeeps(s, i, action.target.value);
        var linked := LinkDuplicate(s, i, action.target.value);
        BookReviewProgress(linked, issue, Void(current));
        GrowsTransitive(s, linked, BookReview(linked, issue, Void(current)));
      }
    }
  }

  lemma AcceptProgress(s: State, issue: nat, user: int)
    requires Valid(s)
    ensures Progress(s, After(s, AcceptRevision(s, issue, user)))
  {
    ProgressRefl(s);
    if AcceptRevision(s, issue, user).Committed? {
      var i := s.issues[issue];
      var record := s.raws[i.raw].record;
      var from := CurrentKey(s, i.activity);
      var current := Current(s, i.activity).payload;
      assert current.revision == s.activities[i.activity].current && current.id == i.activity;
      var accepted := Reviewed(record, current, i.activity, i.account);
      var to := RevisionKey(i.activity, accepted.revision);
      var roles := Corroborations(s.sources, from, to)[SourceKey(to, i.raw) := Principal];
      var r := Revision(accepted, ACCEPTED_PRIORITY, record.time, MANUAL_RULE);
      var boundary := EarlierDate(EarliestOf(current), EarliestOf(accepted));
      AppendKeeps(s, i.activity, r, roles, boundary);
      CloseIssueKeeps(s, AddRevision(s, i.activity, r, roles, boundary), issue, i.raw);
    }
  }

  lemma StepProgress(s: State, step: Step)
    requires Valid(s)
    ensures Progress(s, Apply(s, step))
  {
    match step
    case Save(job, key, record, rule) => SaveProgress(s, job, key, record, rule);
    case Normalise(lease, job, key, rule) => NormalizeProgress(s, lease, job, key, rule);
    case Resolve(issue, action, user) => ResolveProgress(s, issue, action, user);
    case Accept(issue, user) => AcceptProgress(s, issue, user);
  }

  /** Over every run: revisions stay numbered without gaps, no earlier revision
    and no identity ever changes, and every change of a current revision raises
    the account's generation. */
  lemma {:induction false} RunProgress(s: State, steps: seq<Step>)
    requires Valid(s)
    ensures Progress(s, Run(s, steps))
    decreases |steps|
  {
    if steps == [] {
      ProgressRefl(s);
    } else {
      StepProgress(s, steps[0]);
      RunProgress(Apply(s, steps[0]), steps[1..]);
      GrowsTransitive(s, Apply(s, steps[0]), Run(s, steps));
    }
  }

  /** The invariant holds in every reachable ledger. */
  lemma ReachableIsValid(steps: seq<Step>)
    ensures Valid(Run(EmptyLedger(), steps))
  {
    RunProgress(EmptyLedger(), steps);
  }
}

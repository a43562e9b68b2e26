/** What an operator's answer completes: exactly when an ordering conflict that
  normalisation raised can be accepted, how it is then booked, and the conflict
  that can never be accepted. */
module LedgerReview {
  import opened Activities
  import opened Ledger
  import opened LedgerInvariant
  import LedgerPriority
  import LedgerRuns

  /** What raising a conflict leaves behind. */
  lemma ConflictRaised(s: State, job: nat, key: RawKey, id: nat, rule: int)
    requires key in s.raws && FeedProvider(s.raws[key].record.feed).Some? && Tracked(s, id)
    requires Decide(s, key, s.raws[key].record, id, rule).conflict
    ensures var t := Corroborate(s, job, key, id, rule).state;
      var a := Proposal(key, s.raws[key].record, id, s.activities[id].current);
      && t.activities == s.activities && t.revisions == s.revisions
      && t.sources == AddEvidence(s, SourceKey(CurrentKey(s, id), key)).sources
      && t.issues == s.issues[s.nextIssue := ConflictIssue(s, key, id, a)]
      && key in t.raws && t.raws[key] == s.raws[key].(status := InReview)
      && t.links == s.links && t.nextIssue == s.nextIssue + 1
      && t.observations == s.observations[ObservationKey(key, job) := Some(OutcomeReview)]
      && t.identities == AddIdentities(s.identities, key.account, RecordKeys(key, s.raws[key].record), id)
  {
  }

  /** The operator's stricter reading of the record agrees with the booked one. */
  predicate Acceptable(record: RawRecord, current: Activity, proposed: Activity, id: nat, account: nat) {
    && SameProviderAccount(record, current)
    && record.reviewable
    && Reviewed(record, current, id, account) == proposed
    && (proposed.status.Effective? || proposed.status.Voided?)
    && (proposed.status.Effective? ==> HasEffect(proposed))
  }

  /** The proposal is the accepted current revision, its record the principal, and the issue is closed. */
  predicate BookedAs(r: Result, issue: nat, id: nat, key: RawKey, proposed: Activity) {
    && r.Committed? && Tracked(r.state, id)
    && Current(r.state, id).payload == proposed && Current(r.state, id).priority == ACCEPTED_PRIORITY
    && IsPrincipal(r.state, CurrentKey(r.state, id), key)
    && key in r.state.raws && r.state.raws[key].status == Done
    && issue in r.state.issues && !r.state.issues[issue].open
  }

  /** The accepted revision as it is written. */
  function AcceptedRevision(t: State, id: nat, key: RawKey, proposed: Activity): State
    requires Tracked(t, id) && key in t.raws
  {
    var from, to := CurrentKey(t, id), RevisionKey(id, proposed.revision);
    AddRevision(t, id, Revision(proposed, ACCEPTED_PRIORITY, t.raws[key].record.time, MANUAL_RULE),
                Corroborations(t.sources, from, to)[SourceKey(to, key) := Principal],
                EarlierDate(EarliestOf(Current(t, id).payload), EarliestOf(proposed)))
  }

  lemma AcceptedIsBooked(t: State, issue: nat, id: nat, key: RawKey, proposed: Activity)
    requires Tracked(t, id) && key in t.raws && issue in t.issues
    ensures BookedAs(Committed(CloseIssue(AcceptedRevision(t, id, key, proposed), issue, key), Updated), issue, id, key, proposed)
  {
    var m := AcceptedRevision(t, id, key, proposed);
    assert CurrentKey(m, id) == RevisionKey(id, proposed.revision);
    assert SourceKey(CurrentKey(m, id), key) in m.sources;
  }

  lemma AcceptingCommits(t: State, issue: nat, user: int, id: nat, key: RawKey, proposed: Activity)
    requires user >= 0 && Tracked(t, id) && t.activities[id].account == key.account && key in t.raws
    requires issue in t.issues
    requires t.issues[issue] == Issue(key.account, id, key, RevisionConflict(Current(t, id).payload.revision, proposed), true)
    requires Current(t, id).payload.revision > 0
    requires SourceKey(CurrentKey(t, id), key) in t.sources && !IsPrincipal(t, CurrentKey(t, id), key)
    requires Acceptable(t.raws[key].record, Current(t, id).payload, proposed, id, key.account)
    ensures BookedAs(AcceptRevision(t, issue, user), issue, id, key, proposed)
  {
    assert AcceptRevision(t, issue, user) == Committed(CloseIssue(AcceptedRevision(t, id, key, proposed), issue, key), Updated);
    AcceptedIsBooked(t, issue, id, key, proposed);
  }

  /** What the record proposes, should it be accepted. */
  function Proposed(s: State, key: RawKey, id: nat): Activity
    requires key in s.raws && FeedProvider(s.raws[key].record.feed).Some? && id in s.activities
  {
    Proposal(key, s.raws[key].record, id, s.activities[id].current)
  }

  /** The raised issue is as fresh as can be; what else acceptance asks for decides. */
  lemma AcceptingExactly(t: State, issue: nat, user: int, id: nat, key: RawKey, proposed: Activity)
    requires user >= 0 && Tracked(t, id) && t.activities[id].account == key.account && key in t.raws
    requires issue in t.issues
    requires t.issues[issue] == Issue(key.account, id, key, RevisionConflict(Current(t, id).payload.revision, proposed), true)
    requires Current(t, id).payload.revision > 0 && SourceKey(CurrentKey(t, id), key) in t.sources
    ensures AcceptRevision(t, issue, user).Committed? <==>
      !IsPrincipal(t, CurrentKey(t, id), key) && Acceptable(t.raws[key].record, Current(t, id).payload, proposed, id, key.account)
  {
  }

  /** A conflict that normalisation raised can be accepted if and only if its record
    is not itself the principal of the revision in dispute and reads for the
    operator as it was booked; it then becomes the current revision as proposed. */
  lemma ConflictAcceptedExactly(s: State, job: nat, key: RawKey, id: nat, rule: int, user: int)
    requires Valid(s) && LedgerPriority.IsFresh(s, true, job, key) && LedgerPriority.Reaches(s, key, id)
    requires Decide(s, key, s.raws[key].record, id, rule).conflict && user >= 0
    ensures var t := Ledger.Apply(s, Normalise(true, job, key, rule));
      var r := AcceptRevision(t, s.nextIssue, user);
      && (r.Committed? <==>
            !IsPrincipal(s, CurrentKey(s, id), key) &&
            Acceptable(s.raws[key].record, Current(s, id).payload, Proposed(s, key, id), id, key.account))
      && (r.Committed? ==> BookedAs(r, s.nextIssue, id, key, Proposed(s, key, id)))
  {
    FoundIsTracked(s, key.account, RecordKeys(key, s.raws[key].record));
    ConflictSteps(s, job, key, id, rule);
    ConflictRaised(s, job, key, id, rule);
    var t := Corroborate(s, job, key, id, rule).state;
    assert Current(t, id) == Current(s, id) && CurrentKey(t, id) == CurrentKey(s, id);
    assert IsPrincipal(t, CurrentKey(t, id), key) == IsPrincipal(s, CurrentKey(s, id), key);
    AcceptingExactly(t, s.nextIssue, user, id, key, Proposed(s, key, id));
    if AcceptRevision(t, s.nextIssue, user).Committed? {
      AcceptingCommits(t, s.nextIssue, user, id, key, Proposed(s, key, id));
    }
  }

  lemma ConflictSteps(s: State, job: nat, key: RawKey, id: nat, rule: int)
    requires Valid(s) && LedgerPriority.IsFresh(s, true, job, key) && LedgerPriority.Reaches(s, key, id)
    requires Decide(s, key, s.raws[key].record, id, rule).conflict
    ensures Ledger.Apply(s, Normalise(true, job, key, rule)) == Corroborate(s, job, key, id, rule).state
  {
    LedgerPriority.ConflictIsGenuine(s, key, s.raws[key].record, id, rule);
    assert Normalize(s, true, job, key, rule) == Process(s, job, key, rule);
    assert Process(s, job, key, rule) == Corroborate(s, job, key, id, rule);
  }

  /** An open conflict about the revision that is still current, with a record of the account that backs it without leading it. */
  predicate InConflict(s: State, issue: nat) {
    && issue in s.issues && s.issues[issue].open
    && var i := s.issues[issue];
    && i.kind.RevisionConflict? && i.kind.current > 0
    && i.raw in s.raws && i.raw.account == i.account
    && i.activity in s.activities && s.activities[i.activity].account == i.account && Tracked(s, i.activity)
    && Current(s, i.activity).payload.revision == i.kind.current
    && SourceKey(CurrentKey(s, i.activity), i.raw) in s.sources
    && s.sources[SourceKey(CurrentKey(s, i.activity), i.raw)] == Corroboration
  }

  /** What acceptance leaves: the proposal is the next revision at priority 100, under
    its record's time and with its record as principal, everything that backed the
    former one backs it, and neither issue nor record waits. */
  ghost predicate AcceptedInto(s: State, t: State, issue: nat)
    requires issue in s.issues && s.issues[issue].kind.RevisionConflict? && s.issues[issue].raw in s.raws
    requires s.issues[issue].activity in s.activities
  {
    var i := s.issues[issue];
    var a := i.kind.proposed;
    var from, to := CurrentKey(s, i.activity), RevisionKey(i.activity, a.revision);
    && t.activities == s.activities[i.activity := s.activities[i.activity].(current := a.revision)]
    && t.revisions == s.revisions[to := Revision(a, 100, s.raws[i.raw].record.time, -1)]
    && SourceKey(to, i.raw) in t.sources && t.sources[SourceKey(to, i.raw)] == Principal
    && (forall raw :: raw != i.raw && SourceKey(from, raw) in s.sources ==>
          SourceKey(to, raw) in t.sources && t.sources[SourceKey(to, raw)] == Corroboration)
    && t.issues == s.issues[issue := i.(open := false)]
    && i.raw in t.raws && t.raws[i.raw].status == Done
    && t.links == s.links && t.identities == s.identities
  }

  /** A conflict is accepted exactly while it is open about the current revision and
    the operator's reading of the record is acceptable and equal to the proposal. */
  lemma AcceptExactly(s: State, issue: nat, user: int)
    ensures AcceptRevision(s, issue, user).Committed? <==>
      && user >= 0 && InConflict(s, issue)
      && var i := s.issues[issue];
         Acceptable(s.raws[i.raw].record, Current(s, i.activity).payload, i.kind.proposed, i.activity, i.account)
    ensures AcceptRevision(s, issue, user).Committed? ==> AcceptedInto(s, AcceptRevision(s, issue, user).state, issue)
  {
    if AcceptRevision(s, issue, user).Committed? {
      AcceptingIs(s, issue, user);
    }
  }

  lemma AcceptingIs(s: State, issue: nat, user: int)
    requires AcceptRevision(s, issue, user).Committed?
    ensures InConflict(s, issue) && AcceptedInto(s, AcceptRevision(s, issue, user).state, issue)
  {
    var i := s.issues[issue];
    var m := AcceptedRevision(s, i.activity, i.raw, i.kind.proposed);
    assert AcceptRevision(s, issue, user) == Committed(CloseIssue(m, issue, i.raw), Updated);
  }

  // ------------------------------------------------- a conflict with oneself

  /** An accepted revision's own report row, read again by a newer parser with
    another result, is no upgrade: it disputes the revision it stands behind. */
  lemma OwnRowDisputes(s: State, job: nat, key: RawKey, record: RawRecord, id: nat, rule: int)
    requires Tracked(s, id) && Current(s, id).priority == ACCEPTED_PRIORITY && !MarkedDuplicate(s, id)
    requires IsPrincipal(s, CurrentKey(s, id), key) && FeedPriority(record.feed) == REPORT_PRIORITY
    requires record.time == Current(s, id).time && record.booked.legs != Current(s, id).payload.legs
    ensures var t := SaveRaw(s, job, key, record, rule);
      Tracked(t, id) && Decide(t, key, record, id, rule).conflict && IsPrincipal(t, CurrentKey(t, id), key)
  {
    var t := SaveRaw(s, job, key, record, rule);
    assert !SameContent(Proposal(key, record, id, t.activities[id].current), Current(t, id).payload);
  }

  // ---------------------------------------------------------- issues over runs

  /** Issue numbers are given out once. */
  ghost predicate IssuesNumbered(s: State) {
    forall i :: i in s.issues ==> i < s.nextIssue
  }

  /** An issue is only ever closed, never altered or reopened. */
  ghost predicate IssuesKept(s: State, t: State) {
    && s.nextIssue <= t.nextIssue
    && (forall i :: i in s.issues ==>
          i in t.issues && t.issues[i] == s.issues[i].(open := t.issues[i].open) && (t.issues[i].open ==> s.issues[i].open))
  }

  ghost predicate IssuesGrow(s: State, t: State) {
    IssuesNumbered(t) && IssuesKept(s, t)
  }

  lemma SameIssues(s: State, t: State)
    requires IssuesNumbered(s) && t.issues == s.issues && t.nextIssue == s.nextIssue
    ensures IssuesGrow(s, t)
  {
  }

  lemma IssueOpened(s: State, m: State, t: State, issue: Option<Issue>)
    requires IssuesGrow(s, m) && t.issues == OpenIssue(m, issue).issues && t.nextIssue == OpenIssue(m, issue).nextIssue
    ensures IssuesGrow(s, t)
  {
  }

  lemma ConcludeIssues(s: State, m: State, job: nat, key: RawKey, a: Activity, outcome: Outcome)
    requires IssuesGrow(s, m) && key in m.raws
    ensures IssuesGrow(s, Conclude(m, job, key, a, outcome).state)
  {
    var review := Issue(key.account, a.id, key, Review(a.status, a.warnings), true);
    IssueOpened(s, m, Conclude(m, job, key, a, outcome).state, if Unsettled(a.status) then Some(review) else None);
  }

  lemma BookIssues(s: State, job: nat, key: RawKey, rule: int)
    requires IssuesNumbered(s) && key in s.raws && FeedProvider(s.raws[key].record.feed).Some?
    ensures IssuesGrow(s, Book(s, job, key, rule).state)
  {
    var record := s.raws[key].record;
    var a := Quarantine(s, key.account, record, Proposal(key, record, s.nextActivity, 0));
    SameIssues(s, StartActivity(s, key, a, rule));
    ConcludeIssues(s, StartActivity(s, key, a, rule), job, key, a, Added);
  }

  lemma ReplaceIssues(s: State, job: nat, key: RawKey, id: nat, rule: int)
    requires IssuesNumbered(s) && key in s.raws && FeedProvider(s.raws[key].record.feed).Some? && Tracked(s, id)
    ensures IssuesGrow(s, Replace(s, job, key, id, rule).state)
  {
    var record := s.raws[key].record;
    var a := Proposal(key, record, id, s.activities[id].current);
    var m := ReviseActivity(s, key, a, rule, Decide(s, key, record, id, rule).upgrade);
    assert IssuesGrow(s, m);
    ConcludeIssues(s, m, job, key, a, Updated);
  }

  lemma CorroborateIssues(s: State, job: nat, key: RawKey, id: nat, rule: int)
    requires IssuesNumbered(s) && key in s.raws && FeedProvider(s.raws[key].record.feed).Some? && Tracked(s, id)
    ensures IssuesGrow(s, Corroborate(s, job, key, id, rule).state)
  {
    var a := Proposed(s, key, id);
    var conflict := Decide(s, key, s.raws[key].record, id, rule).conflict;
    SameIssues(s, s);
    IssueOpened(s, s, Corroborate(s, job, key, id, rule).state, if conflict then Some(ConflictIssue(s, key, id, a)) else None);
  }

  lemma NormaliseIssues(s: State, lease: bool, job: nat, key: RawKey, rule: int)
    requires IssuesNumbered(s)
    ensures IssuesGrow(s, After(s, Normalize(s, lease, job, key, rule)))
  {
    SameIssues(s, s);
    if LedgerPriority.IsFresh(s, lease, job, key) && Process(s, job, key, rule).Committed? {
      var m := FindActivity(s, key.account, RecordKeys(key, s.raws[key].record));
      if m.Unmatched? {
        BookIssues(s, job, key, rule);
      } else {
        ReplaceIssues(s, job, key, m.id, rule);
        CorroborateIssues(s, job, key, m.id, rule);
      }
    }
  }

  lemma ClosingIssues(s: State, t: State, issue: nat)
    requires IssuesNumbered(s) && issue in s.issues && t.nextIssue == s.nextIssue
    requires t.issues == s.issues[issue := s.issues[issue].(open := false)]
    ensures IssuesGrow(s, t)
  {
  }

  lemma ResolveIssues(s: State, issue: nat, action: Action, user: int)
    requires IssuesNumbered(s)
    ensures IssuesGrow(s, After(s, ResolveDuplicate(s, issue, action, user)))
  {
    SameIssues(s, s);
    if ResolveDuplicate(s, issue, action, user).Committed? {
      ClosingIssues(s, ResolveDuplicate(s, issue, action, user).state, issue);
    }
  }

  lemma AcceptIssues(s: State, issue: nat, user: int)
    requires IssuesNumbered(s)
    ensures IssuesGrow(s, After(s, AcceptRevision(s, issue, user)))
  {
    SameIssues(s, s);
    if AcceptRevision(s, issue, user).Committed? {
      ClosingIssues(s, AcceptRevision(s, issue, user).state, issue);
    }
  }

  lemma StepIssues(s: State, step: Step)
    requires IssuesNumbered(s)
    ensures IssuesGrow(s, Ledger.Apply(s, step))
  {
    match step
    case Save(job, key, record, rule) => SameIssues(s, SaveRaw(s, job, key, record, rule));
    case Normalise(lease, job, key, rule) => NormaliseIssues(s, lease, job, key, rule);
    case Resolve(issue, action, user) => ResolveIssues(s, issue, action, user);
    case Accept(issue, user) => AcceptIssues(s, issue, user);
  }

  lemma KeptChains(s: State, m: State, t: State)
    requires IssuesKept(s, m) && IssuesKept(m, t)
    ensures IssuesKept(s, t)
  {
  }

  lemma {:induction false} RunIssues(s: State, steps: seq<Step>)
    requires IssuesNumbered(s)
    ensures IssuesGrow(s, Ledger.Run(s, steps))
    decreases |steps|
  {
    if steps != [] {
      StepIssues(s, steps[0]);
      RunIssues(Ledger.Apply(s, steps[0]), steps[1..]);
      KeptChains(s, Ledger.Apply(s, steps[0]), Ledger.Run(s, steps));
    }
  }

  /** The issue disputes a revision behind which its own record stands. */
  predicate DisputesItself(s: State, issue: nat) {
    && issue in s.issues
    && s.issues[issue].kind.RevisionConflict?
    && IsPrincipal(s, RevisionKey(s.issues[issue].activity, s.issues[issue].kind.current), s.issues[issue].raw)
  }

  lemma SelfDisputeRefused(t: State, issue: nat, user: int)
    requires Labelled(t.revisions) && DisputesItself(t, issue)
    ensures AcceptRevision(t, issue, user).Rejected?
  {
  }

  /** Over every run at all, a conflict of a record with its own revision is never accepted. */
  lemma SelfDisputeNeverAccepted(s: State, steps: seq<Step>, issue: nat, user: int)
    requires Valid(s) && IssuesNumbered(s) && DisputesItself(s, issue)
    ensures AcceptRevision(Ledger.Run(s, steps), issue, user).Rejected?
  {
    LedgerRuns.RunProgress(s, steps);
    RunIssues(s, steps);
    var t := Ledger.Run(s, steps);
    assert t.issues[issue].kind == s.issues[issue].kind && t.issues[issue].raw == s.issues[issue].raw;
    SelfDisputeRefused(t, issue, user);
  }

  // -------------------------------------------------------------- such a run

  const FIRST := LedgerPriority.SAMPLE_KEY
  const SECOND := RawKey(1, IdentityKey("n", "k", "y"), 8)

  /** A second report of the deposit, with another amount and the identity of the first. */
  function SecondReport(amount: int): RawRecord {
    LedgerPriority.SampleRecord(Flex, amount).(identities := [FIRST.identity])
  }

  /** The deposit as booked from the first report. */
  predicate FirstBooked(s: State) {
    && s.activities == map[0 := ActivityRow(1, 1)] && Tracked(s, 0)
    && Current(s, 0).payload == LedgerPriority.SampleActivity(5).(revision := 1)
    && Current(s, 0).priority == REPORT_PRIORITY && Current(s, 0).time == Blank && Current(s, 0).rule == 1
    && s.identities == map[OwnedKey(1, FIRST.identity) := 0] && s.links == {}
    && SECOND !in s.raws && s.issues == map[] && s.nextIssue == 0
    && (forall k :: k in s.sources ==> k.raw == FIRST)
    && (forall o :: o in s.observations ==> o.raw == FIRST)
  }

  /** What starting the activity leaves in the tables. */
  lemma FirstStarted(saved: State)
    requires saved == SaveRaw(EmptyLedger(), 1, FIRST, LedgerPriority.SampleRecord(Flex, 5), 1)
    ensures var m := StartActivity(saved, FIRST, LedgerPriority.SampleActivity(5).(revision := 1), 1);
      && m.activities == map[0 := ActivityRow(1, 1)] && Tracked(m, 0)
      && m.revisions == map[RevisionKey(0, 1) := Revision(LedgerPriority.SampleActivity(5).(revision := 1), REPORT_PRIORITY, Blank, 1)]
      && m.sources == map[SourceKey(RevisionKey(0, 1), FIRST) := Principal]
      && m.identities == map[OwnedKey(1, FIRST.identity) := 0]
      && m.links == {} && m.issues == map[] && m.nextIssue == 0
      && m.raws == saved.raws && m.observations == saved.observations
  {
    var record := LedgerPriority.SampleRecord(Flex, 5);
    assert RecordKeys(FIRST, record) == [FIRST.identity];
    LedgerPriority.OnlyIdentity(1, FIRST.identity, 0);
  }

  lemma FirstSettled(m: State, job: nat)
    requires FIRST in m.raws && m.raws.Keys == {FIRST} && m.observations.Keys == {ObservationKey(FIRST, job)}
    requires m.activities == map[0 := ActivityRow(1, 1)] && Tracked(m, 0)
    requires m.revisions == map[RevisionKey(0, 1) := Revision(LedgerPriority.SampleActivity(5).(revision := 1), REPORT_PRIORITY, Blank, 1)]
    requires m.sources == map[SourceKey(RevisionKey(0, 1), FIRST) := Principal]
    requires m.identities == map[OwnedKey(1, FIRST.identity) := 0] && m.links == {} && m.issues == map[] && m.nextIssue == 0
    ensures FirstBooked(Settle(m, FIRST, job, Done, Added))
  {
  }

  lemma FirstNormalised(saved: State)
    requires saved == SaveRaw(EmptyLedger(), 1, FIRST, LedgerPriority.SampleRecord(Flex, 5), 1)
    ensures After(saved, Normalize(saved, true, 1, FIRST, 1))
      == Settle(StartActivity(saved, FIRST, LedgerPriority.SampleActivity(5).(revision := 1), 1), FIRST, 1, Done, Added)
  {
    var record := LedgerPriority.SampleRecord(Flex, 5);
    assert RecordKeys(FIRST, record) == [FIRST.identity];
    assert FindActivity(saved, 1, [FIRST.identity]) == Unmatched;
    assert Normalize(saved, true, 1, FIRST, 1) == Book(saved, 1, FIRST, 1);
    assert Proposal(FIRST, record, 0, 0) == LedgerPriority.SampleActivity(5).(revision := 1);
    LedgerPriority.FirstBooking(saved, 1, FIRST, 1);
  }

  lemma FirstReportBooked(saved: State)
    requires saved == SaveRaw(EmptyLedger(), 1, FIRST, LedgerPriority.SampleRecord(Flex, 5), 1)
    ensures FirstBooked(Ledger.Apply(saved, Normalise(true, 1, FIRST, 1)))
  {
    FirstNormalised(saved);
    FirstStarted(saved);
    FirstSettled(StartActivity(saved, FIRST, LedgerPriority.SampleActivity(5).(revision := 1), 1), 1);
  }

  lemma SecondFound(s: State, amount: int)
    requires OwnedKey(1, FIRST.identity) in s.identities && s.identities[OwnedKey(1, FIRST.identity)] == 0
    requires OwnedKey(1, SECOND.identity) in s.identities ==> s.identities[OwnedKey(1, SECOND.identity)] == 0
    ensures FindActivity(s, 1, RecordKeys(SECOND, SecondReport(amount))) == Matched(0)
  {
    var keys := [SECOND.identity, FIRST.identity];
    assert RecordKeys(SECOND, SecondReport(amount)) == keys;
    assert keys[..1] == [SECOND.identity] && keys[..1][..0] == [];
    assert FindActivity(s, 1, []) == Unmatched;
  }

  /** The second report disputes the first, and its acceptance goes through. */
  lemma SecondDisputes(s: State)
    requires Valid(s) && FirstBooked(s)
    ensures var m := SaveRaw(s, 2, SECOND, SecondReport(6), 1);
      && LedgerPriority.IsFresh(m, true, 2, SECOND) && LedgerPriority.Reaches(m, SECOND, 0)
      && Decide(m, SECOND, SecondReport(6), 0, 1).conflict && !IsPrincipal(m, CurrentKey(m, 0), SECOND)
      && Acceptable(SecondReport(6), Current(m, 0).payload, Proposed(m, SECOND, 0), 0, 1)
  {
    var m := SaveRaw(s, 2, SECOND, SecondReport(6), 1);
    SecondFound(m, 6);
    assert LedgerPriority.SampleActivity(6).legs[0].amount == 6 && LedgerPriority.SampleActivity(5).legs[0].amount == 5;
    assert !SameContent(Proposed(m, SECOND, 0), Current(m, 0).payload);
    assert Proposed(m, SECOND, 0) == LedgerPriority.SampleActivity(6).(revision := 2);
  }

  /** The deposit as accepted from the second report. */
  predicate SecondAccepted(s: State) {
    && Tracked(s, 0) && Current(s, 0).priority == ACCEPTED_PRIORITY && Current(s, 0).time == Blank
    && Current(s, 0).payload == LedgerPriority.SampleActivity(6).(revision := 2)
    && IsPrincipal(s, CurrentKey(s, 0), SECOND) && s.links == {}
    && SECOND in s.raws && s.raws[SECOND].rule == 1 && ObservationKey(SECOND, 3) !in s.observations
    && OwnedKey(1, FIRST.identity) in s.identities && s.identities[OwnedKey(1, FIRST.identity)] == 0
    && (OwnedKey(1, SECOND.identity) in s.identities ==> s.identities[OwnedKey(1, SECOND.identity)] == 0)
    && s.nextIssue == 1
  }

  /** What an acceptance writes besides the revision. */
  lemma AcceptedTables(t: State, issue: nat, user: int)
    requires AcceptRevision(t, issue, user).Committed?
    ensures var u, i := AcceptRevision(t, issue, user).state, t.issues[issue];
      && Tracked(u, i.activity) && i.raw in t.raws && Current(u, i.activity).time == t.raws[i.raw].record.time
      && u.links == t.links && u.identities == t.identities && u.observations == t.observations && u.nextIssue == t.nextIssue
      && i.raw in u.raws && u.raws[i.raw].rule == t.raws[i.raw].rule
  {
  }

  lemma SecondConflict(s: State, m: State)
    requires Valid(s) && FirstBooked(s) && m == SaveRaw(s, 2, SECOND, SecondReport(6), 1) && Valid(m)
    ensures var t := Ledger.Apply(m, Normalise(true, 2, SECOND, 1));
      BookedAs(AcceptRevision(t, 0, 0), 0, 0, SECOND, LedgerPriority.SampleActivity(6).(revision := 2))
  {
    SecondDisputes(s);
    ConflictAcceptedExactly(m, 2, SECOND, 0, 1, 0);
  }

  /** After the dispute is raised and accepted the second report stands behind the deposit. */
  lemma SecondIsAccepted(s: State, m: State, t: State)
    requires Valid(s) && FirstBooked(s) && m == SaveRaw(s, 2, SECOND, SecondReport(6), 1)
    requires SECOND in m.raws && Tracked(m, 0) && t == Corroborate(m, 2, SECOND, 0, 1).state
    requires BookedAs(AcceptRevision(t, 0, 0), 0, 0, SECOND, LedgerPriority.SampleActivity(6).(revision := 2))
    ensures SecondAccepted(AcceptRevision(t, 0, 0).state)
  {
    SecondDisputes(s);
    ConflictRaised(m, 2, SECOND, 0, 1);
    SecondTables(s, m, t);
  }

  lemma SecondTables(s: State, m: State, t: State)
    requires FirstBooked(s) && m == SaveRaw(s, 2, SECOND, SecondReport(6), 1)
    requires t.links == m.links && t.nextIssue == m.nextIssue + 1
    requires SECOND in t.raws && t.raws[SECOND] == m.raws[SECOND].(status := InReview)
    requires t.observations == m.observations[ObservationKey(SECOND, 2) := Some(OutcomeReview)]
    requires t.identities == AddIdentities(m.identities, 1, RecordKeys(SECOND, SecondReport(6)), 0)
    requires BookedAs(AcceptRevision(t, 0, 0), 0, 0, SECOND, LedgerPriority.SampleActivity(6).(revision := 2))
    requires 0 in t.issues && t.issues[0].activity == 0 && t.issues[0].raw == SECOND
    ensures SecondAccepted(AcceptRevision(t, 0, 0).state)
  {
    IdentitiesKept(m.identities, 1, RecordKeys(SECOND, SecondReport(6)), 0);
    AcceptedTables(t, 0, 0);
  }

  /** The newer parser's reading of the accepted row disputes that row's own revision. */
  lemma RereadDisputes(s: State, m: State)
    requires SecondAccepted(s) && Valid(s) && Valid(m) && m == SaveRaw(s, 3, SECOND, SecondReport(7), 2)
    ensures var t := Ledger.Apply(m, Normalise(true, 3, SECOND, 2)); DisputesItself(t, 1) && t.issues[1].open
  {
    SecondFound(m, 7);
    assert LedgerPriority.SampleActivity(7).legs[0].amount == 7 && LedgerPriority.SampleActivity(6).legs[0].amount == 6;
    OwnRowDisputes(s, 3, SECOND, SecondReport(7), 0, 2);
    assert LedgerPriority.IsFresh(m, true, 3, SECOND) && LedgerPriority.Reaches(m, SECOND, 0);
    ConflictSteps(m, 3, SECOND, 0, 2);
    ConflictRaised(m, 3, SECOND, 0, 2);
  }

  ghost predicate Sound(s: State) {
    Valid(s) && IssuesNumbered(s)
  }

  /** The three parts of the dispute. */
  const BOOKING: seq<Step> := [Save(1, FIRST, LedgerPriority.SampleRecord(Flex, 5), 1), Normalise(true, 1, FIRST, 1)]
  const ACCEPTANCE: seq<Step> := [Save(2, SECOND, SecondReport(6), 1), Normalise(true, 2, SECOND, 1), Accept(0, 0)]
  const REREADING: seq<Step> := [Save(3, SECOND, SecondReport(7), 2), Normalise(true, 3, SECOND, 2)]

  lemma {:induction false} StaysSoundThroughout(s: State, steps: seq<Step>)
    requires Sound(s)
    ensures Sound(Ledger.Run(s, steps))
  {
    LedgerRuns.RunProgress(s, steps);
    RunIssues(s, steps);
  }

  lemma RunOfTwo(s: State, a: Step, b: Step)
    ensures Ledger.Run(s, [a, b]) == Ledger.Apply(Ledger.Apply(s, a), b)
  {
    LedgerPriority.RunOfTwo(s, a, b);
  }

  lemma RunOfThree(s: State, a: Step, b: Step, c: Step)
    ensures Ledger.Run(s, [a, b, c]) == Ledger.Apply(Ledger.Apply(Ledger.Apply(s, a), b), c)
  {
    assert [a, b, c][1..] == [b, c];
    RunOfTwo(Ledger.Apply(s, a), b, c);
  }

  lemma {:induction false} RunConcat(s: State, xs: seq<Step>, ys: seq<Step>)
    ensures Ledger.Run(s, xs + ys) == Ledger.Run(Ledger.Run(s, xs), ys)
    decreases |xs|
  {
    if xs == [] {
      assert xs + ys == ys;
    } else {
      assert (xs + ys)[1..] == xs[1..] + ys;
      RunConcat(Ledger.Apply(s, xs[0]), xs[1..], ys);
    }
  }

  lemma DisputeBegins()
    ensures FirstBooked(Ledger.Run(EmptyLedger(), BOOKING))
  {
    RunOfTwo(EmptyLedger(), BOOKING[0], BOOKING[1]);
    FirstReportBooked(SaveRaw(EmptyLedger(), 1, FIRST, LedgerPriority.SampleRecord(Flex, 5), 1));
  }

  lemma SecondGoesThrough(s: State, m: State, t: State)
    requires Valid(s) && FirstBooked(s) && m == SaveRaw(s, 2, SECOND, SecondReport(6), 1) && Valid(m)
    requires t == Ledger.Apply(m, Normalise(true, 2, SECOND, 1))
    ensures SecondAccepted(Ledger.Apply(t, Accept(0, 0)))
  {
    SecondDisputes(s);
    SecondConflict(s, m);
    ConflictSteps(m, 2, SECOND, 0, 1);
    SecondIsAccepted(s, m, t);
    AcceptApplies(t);
  }

  lemma AcceptApplies(t: State)
    requires AcceptRevision(t, 0, 0).Committed?
    ensures Ledger.Apply(t, Accept(0, 0)) == AcceptRevision(t, 0, 0).state
  {
  }

  lemma SavedIs(s: State, job: nat, key: RawKey, record: RawRecord, rule: int)
    ensures Ledger.Apply(s, Save(job, key, record, rule)) == SaveRaw(s, job, key, record, rule)
  {
  }

  lemma DisputeIsAccepted(s: State)
    requires Valid(s) && FirstBooked(s)
    ensures SecondAccepted(Ledger.Run(s, ACCEPTANCE))
  {
    var m := SaveRaw(s, 2, SECOND, SecondReport(6), 1);
    LedgerRuns.SaveProgress(s, 2, SECOND, SecondReport(6), 1);
    SavedIs(s, 2, SECOND, SecondReport(6), 1);
    RunOfThree(s, ACCEPTANCE[0], ACCEPTANCE[1], ACCEPTANCE[2]);
    SecondGoesThrough(s, m, Ledger.Apply(m, Normalise(true, 2, SECOND, 1)));
  }

  lemma DisputeReturns(s: State)
    requires Valid(s) && SecondAccepted(s)
    ensures var t := Ledger.Run(s, REREADING); DisputesItself(t, 1) && t.issues[1].open
  {
    LedgerRuns.SaveProgress(s, 3, SECOND, SecondReport(7), 2);
    RunOfTwo(s, REREADING[0], REREADING[1]);
    RereadDisputes(s, SaveRaw(s, 3, SECOND, SecondReport(7), 2));
  }

  /** The first report is booked, the second disputes it and is accepted, and the
    second's row is then read again by a newer parser. */
  function Disputed(): State {
    Ledger.Run(Ledger.Run(Ledger.Run(EmptyLedger(), BOOKING), ACCEPTANCE), REREADING)
  }

  lemma DisputeIsARun()
    ensures Disputed() == Ledger.Run(EmptyLedger(), BOOKING + ACCEPTANCE + REREADING)
  {
    RunConcat(EmptyLedger(), BOOKING + ACCEPTANCE, REREADING);
    RunConcat(EmptyLedger(), BOOKING, ACCEPTANCE);
  }

  lemma BookingSound()
    ensures Sound(Ledger.Run(EmptyLedger(), BOOKING)) && FirstBooked(Ledger.Run(EmptyLedger(), BOOKING))
  {
    StaysSoundThroughout(EmptyLedger(), BOOKING);
    DisputeBegins();
  }

  lemma AcceptanceSound(s: State)
    requires Sound(s) && FirstBooked(s)
    ensures Sound(Ledger.Run(s, ACCEPTANCE)) && SecondAccepted(Ledger.Run(s, ACCEPTANCE))
  {
    StaysSoundThroughout(s, ACCEPTANCE);
    DisputeIsAccepted(s);
  }

  lemma RereadingSound(s: State)
    requires Sound(s) && SecondAccepted(s)
    ensures var t := Ledger.Run(s, REREADING); Sound(t) && DisputesItself(t, 1) && t.issues[1].open
  {
    StaysSoundThroughout(s, REREADING);
    DisputeReturns(s);
  }

  lemma DisputeStands()
    ensures Sound(Disputed()) && DisputesItself(Disputed(), 1) && Disputed().issues[1].open
  {
    BookingSound();
    AcceptanceSound(Ledger.Run(EmptyLedger(), BOOKING));
    RereadingSound(Ledger.Run(Ledger.Run(EmptyLedger(), BOOKING), ACCEPTANCE));
  }

  /** A run that ends with an open conflict which no operator can ever accept,
    whatever happens afterwards. */
  lemma ConflictNobodyCanAccept(steps: seq<Step>, user: int)
    ensures var s := Ledger.Run(EmptyLedger(), BOOKING + ACCEPTANCE + REREADING);
      && 1 in s.issues && s.issues[1].open && s.issues[1].kind.RevisionConflict?
      && AcceptRevision(Ledger.Run(s, steps), 1, user).Rejected?
  {
    DisputeIsARun();
    DisputeStands();
    SelfDisputeNeverAccepted(Disputed(), steps, 1, user);
  }
}

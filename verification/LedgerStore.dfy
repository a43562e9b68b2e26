/** The ledger's tables and the transactions that update them in place. Each
  method is proved to have the effect of the corresponding function of
  `Ledger`; a rejected transaction changes nothing. */
module LedgerStore {
  import opened Activities
  import opened Ledger
  import EffectMatching
  import LedgerJobs

  class ActivityStore {
    var activities: map<nat, ActivityRow>
    var revisions: map<RevisionKey, Revision>
    var sources: map<SourceKey, Role>
    var identities: map<OwnedKey, nat>
    var links: set<Link>
    var raws: map<RawKey, Raw>
    var observations: map<ObservationKey, Option<Outcome>>
    var issues: map<nat, Issue>
    var generations: map<nat, nat>
    var dirty: map<nat, Day>
    var nextActivity: nat
    var nextIssue: nat

    function View(): State
      reads this
    {
      State(activities, revisions, sources, identities, links, raws, observations, issues,
            generations, dirty, nextActivity, nextIssue)
    }

    constructor ()
      ensures View() == EmptyLedger()
    {
      activities, revisions, sources, identities, links := map[], map[], map[], map[], {};
      raws, observations, issues, generations, dirty := map[], map[], map[], map[], map[];
      nextActivity, nextIssue := 0, 0;
    }

    // ------------------------------------------------------------- look-ups

    method FindByIdentity(account: nat, keys: seq<IdentityKey>) returns (m: Match)
      ensures m == FindActivity(View(), account, keys)
    {
      m := Unmatched;
      for i := 0 to |keys|
        invariant m == FindActivity(View(), account, keys[..i])
        invariant !m.Clash?
      {
        assert keys[..i + 1][..i] == keys[..i];
        var owned := OwnedKey(account, keys[i]);
        if keys[i].external != "" && owned in identities {
          if m.Matched? && m.id != identities[owned] {
            ClashStays(View(), account, keys, i + 1);
            return Clash;
          }
          m := Matched(identities[owned]);
        }
      }
      assert keys[..|keys|] == keys;
    }

    /** Looks for a booked lookalike that no identity tells apart. */
    method DetectWeakDuplicate(account: nat, record: RawRecord, a: Activity) returns (weak: bool)
      ensures weak == WeakDuplicate(View(), account, record, a)
    {
      weak := false;
      var rest := activities.Keys;
      while rest != {}
        invariant rest <= activities.Keys
        invariant weak <==>
          exists other | other in activities.Keys - rest ::
            Lookalike(View(), account, a, other) && Indistinct(View(), record, other)
        decreases |rest|
      {
        var other :| other in rest;
        if Lookalike(View(), account, a, other) && Indistinct(View(), record, other) {
          weak := true;
        }
        rest := rest - {other};
      }
    }

    // ------------------------------------------------------------- decision

    /** The decision as the code takes it: one flag after another is set and overruled. */
    method Judge(key: RawKey, record: RawRecord, id: nat, rule: int) returns (verdict: Verdict)
      requires Tracked(View(), id) && FeedProvider(record.feed).Some?
      ensures verdict == Decide(View(), key, record, id, rule)
    {
      var prior := revisions[RevisionKey(id, activities[id].current)];
      var next := Proposal(key, record, id, activities[id].current);
      var priority := FeedPriority(record.feed);
      var upgrade := false;
      if prior.rule != rule && prior.priority < ACCEPTED_PRIORITY {
        upgrade := IsPrincipal(View(), CurrentKey(View(), id), key);
      }
      var newer := false;
      if record.time.At? && prior.time.At? {
        newer := record.time.instant > prior.time.instant;
      }
      var replace := priority > prior.priority || (priority == prior.priority && newer);
      var conflict := false;
      if (priority == prior.priority && !newer) || (prior.priority == ACCEPTED_PRIORITY && priority >= REPORT_PRIORITY) {
        conflict := !SameContent(next, prior.payload) &&
          (prior.time.Blank? || record.time.Blank? || prior.time == record.time ||
           (prior.priority == ACCEPTED_PRIORITY && newer));
      }
      if prior.priority != ACCEPTED_PRIORITY && priority >= prior.priority {
        var enriches := TransferCostOnlyEnrichment(prior.payload, next);
        if enriches {
          replace, conflict := true, false;
        }
      }
      if MarkedDuplicate(View(), id) {
        replace, conflict := false, false;
      } else if upgrade {
        replace, conflict := true, false;
      }
      if replace && SameContent(next, prior.payload) {
        replace := false;
      }
      return Verdict(replace, conflict, upgrade);
    }

    // --------------------------------------------------------------- writes

    method MarkPerformanceDirty(account: nat, from: Option<Day>)
      modifies this`dirty
      ensures dirty == MarkDirty(old(dirty), account, from)
    {
      if from.Some? {
        if account !in dirty || from.value < dirty[account] {
          dirty := dirty[account := from.value];
        }
      }
    }

    method InsertIdentities(account: nat, keys: seq<IdentityKey>, id: nat)
      modifies this`identities
      ensures identities == AddIdentities(old(identities), account, keys, id)
    {
      for i := 0 to |keys|
        invariant identities == AddIdentities(old(identities), account, keys[..i], id)
      {
        assert keys[..i + 1][..i] == keys[..i];
        var owned := OwnedKey(account, keys[i]);
        if keys[i].external != "" && owned !in identities {
          identities := identities[owned := id];
        }
      }
      assert keys[..|keys|] == keys;
    }

    method RaiseGeneration(account: nat)
      modifies this`generations
      ensures generations == old(generations)[account := Count(old(generations), account) + 1]
    {
      generations := generations[account := Count(generations, account) + 1];
    }

    method InsertRevision(id: nat, r: Revision, roles: map<SourceKey, Role>, boundary: Option<Day>)
      requires id in activities
      modifies this
      ensures View() == AddRevision(old(View()), id, r, roles, boundary)
    {
      var account := activities[id].account;
      MarkPerformanceDirty(account, boundary);
      RaiseGeneration(account);
      revisions := revisions[RevisionKey(id, r.payload.revision) := r];
      sources := sources + roles;
      activities := activities[id := activities[id].(current := r.payload.revision)];
    }

    method RecordOutcome(key: RawKey, job: nat, issue: Option<Issue>, status: RawStatus, outcome: Outcome)
      requires key in raws && !status.Pending?
      modifies this`issues, this`nextIssue, this`raws, this`observations
      ensures View() == Settle(OpenIssue(old(View()), issue), key, job, status, outcome)
    {
      if issue.Some? {
        issues := issues[nextIssue := issue.value];
        nextIssue := nextIssue + 1;
      }
      raws := raws[key := raws[key].(status := status)];
      observations := observations[ObservationKey(key, job) := Some(outcome)];
    }

    method ConcludeBooking(job: nat, key: RawKey, a: Activity, booked: Outcome) returns (outcome: Outcome)
      requires key in raws
      modifies this`issues, this`nextIssue, this`raws, this`observations
      ensures Committed(View(), outcome) == Conclude(old(View()), job, key, a, booked)
    {
      if Unsettled(a.status) {
        outcome := ReviewOutcome(a.status);
        RecordOutcome(key, job, Some(Issue(key.account, a.id, key, Review(a.status, a.warnings), true)),
                      ReviewStatus(a.status), outcome);
      } else {
        outcome := booked;
        RecordOutcome(key, job, None, Done, outcome);
      }
    }

    method BookRecord(job: nat, key: RawKey, rule: int) returns (outcome: Outcome)
      requires key in raws && FeedProvider(raws[key].record.feed).Some?
      modifies this
      ensures Committed(View(), outcome) == Book(old(View()), job, key, rule)
    {
      var record := raws[key].record;
      var a := Proposal(key, record, nextActivity, 0);
      if a.status.Effective? {
        var weak := DetectWeakDuplicate(key.account, record, a);
        if weak {
          a := a.(status := NeedsReview, warnings := a.warnings + ["ambiguous_duplicate"]);
        }
      }
      assert a == Quarantine(View(), key.account, record, Proposal(key, record, nextActivity, 0));
      activities := activities[a.id := ActivityRow(key.account, 0)];
      nextActivity := nextActivity + 1;
      assert View() == StartRow(old(View()), key.account);
      InsertRevision(a.id, Revision(a, FeedPriority(record.feed), record.time, rule),
                     map[SourceKey(RevisionKey(a.id, 1), key) := Principal], EarliestOf(a));
      InsertIdentities(key.account, RecordKeys(key, record), a.id);
      assert View() == StartActivity(old(View()), key, a, rule);
      outcome := ConcludeBooking(job, key, a, Added);
    }

    method ReplaceRevision(job: nat, key: RawKey, id: nat, rule: int, upgrade: bool) returns (outcome: Outcome)
      requires key in raws && FeedProvider(raws[key].record.feed).Some? && Tracked(View(), id)
      requires upgrade == Decide(View(), key, raws[key].record, id, rule).upgrade
      modifies this
      ensures Committed(View(), outcome) == Replace(old(View()), job, key, id, rule)
    {
      var record := raws[key].record;
      var from := RevisionKey(id, activities[id].current);
      var prior := revisions[from];
      var a := Proposal(key, record, id, activities[id].current);
      var to := RevisionKey(id, a.revision);
      var roles := Corroborations(sources, from, to)[SourceKey(to, key) := Principal];
      InsertRevision(id, Revision(a, FeedPriority(record.feed), record.time, rule), roles,
                     EarlierDate(EarliestOf(prior.payload), EarliestOf(a)));
      if upgrade {
        issues := CloseIssues(issues, key);
      }
      InsertIdentities(key.account, RecordKeys(key, record), id);
      assert View() == ReviseActivity(old(View()), key, a, rule, upgrade);
      outcome := ConcludeBooking(job, key, a, Updated);
    }

    method KeepAsEvidence(job: nat, key: RawKey, id: nat, rule: int, verdict: Verdict) returns (outcome: Outcome)
      requires key in raws && FeedProvider(raws[key].record.feed).Some? && Tracked(View(), id)
      requires verdict == Decide(View(), key, raws[key].record, id, rule)
      modifies this
      ensures Committed(View(), outcome) == Corroborate(old(View()), job, key, id, rule)
    {
      var record := raws[key].record;
      var a := Proposal(key, record, id, activities[id].current);
      var conflict := ConflictIssue(View(), key, id, a);
      var source := SourceKey(RevisionKey(id, activities[id].current), key);
      if source !in sources {
        sources := sources[source := Corroboration];
      }
      InsertIdentities(key.account, RecordKeys(key, record), id);
      assert View() == Learn(AddEvidence(old(View()), source), key, record, id);
      if verdict.conflict {
        outcome := OutcomeReview;
        RecordOutcome(key, job, Some(conflict), InReview, outcome);
      } else if verdict.upgrade && Unsettled(a.status) {
        outcome := ReviewOutcome(a.status);
        RecordOutcome(key, job, None, ReviewStatus(a.status), outcome);
      } else {
        outcome := Duplicate;
        RecordOutcome(key, job, None, Done, outcome);
      }
    }

    /** One record of one job: a transaction guarded by the job's lease. */
    method NormalizeHistoryRecord(lease: bool, job: nat, key: RawKey, rule: int)
      returns (error: Option<Error>, outcome: Outcome)
      modifies this
      ensures Reported(error, View(), outcome) == Normalize(old(View()), lease, job, key, rule)
      ensures error.Some? ==> View() == old(View())
    {
      var seen := ObservationKey(key, job);
      if !lease {
        return Some(LeaseLost), Duplicate;
      }
      if key !in raws || seen !in observations {
        return Some(NotFound), Duplicate;
      }
      if observations[seen].Some? {
        return None, observations[seen].value;
      }
      if !raws[key].status.Pending? {
        outcome := RepeatOutcome(raws[key].status);
        observations := observations[seen := Some(outcome)];
        return None, outcome;
      }
      var record := raws[key].record;
      if FeedProvider(record.feed).None? {
        return Some(SourceNotSupported), Duplicate;
      }
      if record.claimed.Some? && record.claimed != FeedProvider(record.feed) {
        return Some(ProviderMismatch), Duplicate;
      }
      error, outcome := ProcessRecord(job, key, rule);
    }

    method ProcessRecord(job: nat, key: RawKey, rule: int) returns (error: Option<Error>, outcome: Outcome)
      requires key in raws && FeedProvider(raws[key].record.feed).Some?
      requires raws[key].record.claimed.Some? ==> raws[key].record.claimed == FeedProvider(raws[key].record.feed)
      modifies this
      ensures match Process(old(View()), job, key, rule)
        case Rejected(e) => error == Some(e) && View() == old(View())
        case Committed(t, o) => error == None && outcome == o && View() == t
    {
      error, outcome := None, Duplicate;
      var m := FindByIdentity(key.account, RecordKeys(key, raws[key].record));
      match m
      case Clash => error := Some(IdentityConflict);
      case Unmatched => outcome := BookRecord(job, key, rule);
      case Matched(id) =>
        if !Tracked(View(), id) {
          error := Some(NotFound);
        } else {
          var verdict := Judge(key, raws[key].record, id, rule);
          if verdict.replace {
            outcome := ReplaceRevision(job, key, id, rule, verdict.upgrade);
          } else {
            outcome := KeepAsEvidence(job, key, id, rule, verdict);
          }
        }
    }

    /** All records of a job; the first rejected one stops it. The lease is checked
      in every transaction and is lost after `held` of them. */
    method NormalizeHistoryJob(job: nat, rows: seq<RawKey>, held: nat, rule: int)
      returns (counts: LedgerJobs.Counts, error: Option<Error>)
      modifies this
      ensures LedgerJobs.JobResult(View(), counts, error) == LedgerJobs.NormalizeJob(old(View()), job, rows, held, rule)
    {
      counts, error := LedgerJobs.NO_COUNTS, None;
      ghost var start, done := View(), LedgerJobs.JobResult(View(), counts, None);
      for i := 0 to |rows|
        invariant error.None? && i <= held
        invariant done == LedgerJobs.JobResult(View(), counts, None)
        invariant done == Normalized(start, job, rows, rule, i)
      {
        counts := counts.(records := counts.records + 1);
        var failed, outcome := NormalizeHistoryRecord(i < held, job, rows[i], rule);
        ghost var r := Reported(failed, View(), outcome);
        JobStep(start, job, rows, held, rule, i, done, r);
        done := LedgerJobs.Advance(done, r);
        if failed.Some? {
          error := failed;
          return;
        }
        counts := LedgerJobs.Tally(counts, outcome);
      }
      JobEnds(start, job, rows, held, rule);
    }

    // ----------------------------------------------------------- resolution

    method CloseReviewedIssue(issue: nat, raw: RawKey)
      requires issue in issues && raw in raws
      modifies this`raws, this`issues
      ensures View() == CloseIssue(old(View()), issue, raw)
    {
      raws := raws[raw := raws[raw].(status := Done)];
      issues := issues[issue := issues[issue].(open := false)];
    }

    method InsertReview(issue: nat, reviewed: Activity)
      requires issue in issues && Tracked(View(), issues[issue].activity) && issues[issue].raw in raws
      modifies this
      ensures View() == BookReview(old(View()), issue, reviewed)
    {
      var i := issues[issue];
      var from := RevisionKey(i.activity, activities[i.activity].current);
      var prior := revisions[from];
      var roles := CarriedRoles(sources, from, RevisionKey(i.activity, reviewed.revision));
      InsertRevision(i.activity, Revision(reviewed, MANUAL_PRIORITY, prior.time, MANUAL_RULE), roles,
                     EarlierDate(EarliestOf(prior.payload), EarliestOf(reviewed)));
      CloseReviewedIssue(issue, i.raw);
    }

    /** An operator's decision on a possible duplicate. */
    method ResolveHistoryDuplicate(issue: nat, action: Action, user: int) returns (error: Option<Error>)
      modifies this
      ensures match ResolveDuplicate(old(View()), issue, action, user)
        case Rejected(e) => error == Some(e) && View() == old(View())
        case Committed(t, _) => error == None && View() == t
    {
      if user < 0 { return Some(RequiresEvidence); }
      if issue !in issues { return Some(NotFound); }
      var i := issues[issue];
      if !i.open { return Some(AlreadyResolved); }
      if !DuplicateEvidence(i.kind) { return Some(RequiresEvidence); }
      if i.raw !in raws || i.raw.account != i.account { return Some(NotFound); }
      if !Tracked(View(), i.activity) || activities[i.activity].account != i.account { return Some(NotFound); }
      var record := raws[i.raw].record;
      var current := Current(View(), i.activity).payload;
      if !current.status.NeedsReview? || !IsPrincipal(View(), CurrentKey(View(), i.activity), i.raw) {
        return Some(RevisionStale);
      }
      if !SameProviderAccount(record, current) { return Some(RequiresEvidence); }
      match action
      case ConfirmDistinct(target) =>
        if target.Some? { return Some(InvalidTarget); }
        var reviewed := Reviewed(record, current, i.activity, i.account);
        if reviewed.status.Unsupported? { return Some(RequiresEvidence); }
        reviewed := reviewed.(status := Effective, warnings := []);
        if reviewed.tradeDate.None? || !record.reviewable || !HasEffect(reviewed) { return Some(RequiresEvidence); }
        InsertReview(issue, reviewed);
        return None;
      case ConfirmSame(target) =>
        error := ConfirmSameSource(issue, target);
    }

    /** Proves that a source is already represented, links it and voids its own booking. */
    method ConfirmSameSource(issue: nat, target: Option<nat>) returns (error: Option<Error>)
      requires issue in issues && Tracked(View(), issues[issue].activity) && issues[issue].raw in raws
      modifies this
      ensures match ConfirmSameActivity(old(View()), issue, target)
        case Rejected(e) => error == Some(e) && View() == old(View())
        case Committed(t, _) => error == None && View() == t
    {
      var i := issues[issue];
      var record := raws[i.raw].record;
      var current := Current(View(), i.activity).payload;
      var candidate := record.parsed.(account := i.account, provider := current.provider, providerAccount := current.providerAccount);
      if target.None? || target.value == i.activity { return Some(InvalidTarget); }
      if !candidate.status.Effective? && !candidate.status.NeedsReview? { return Some(RequiresEvidence); }
      if !record.reviewable || (candidate.status.Effective? && !HasEffect(candidate)) { return Some(RequiresEvidence); }
      if !Tracked(View(), target.value) || activities[target.value].account != i.account { return Some(NotFound); }
      var other := Current(View(), target.value).payload;
      if other.account != i.account || !other.status.Effective? || !EffectMatching.DatesMatch(candidate, other) {
        return Some(RequiresEvidence);
      }
      var contained := EffectMatching.ActivityEffectsContained(candidate, other);
      if !contained { return Some(EffectMismatch); }
      var evidence := SourceKey(CurrentKey(View(), target.value), i.raw);
      if evidence !in sources {
        sources := sources[evidence := Corroboration];
      }
      links := links + {DuplicateOf(i.activity, target.value)};
      assert View() == LinkDuplicate(old(View()), i, target.value);
      InsertReview(issue, Void(current));
      return None;
    }

    /** Accepts the record behind an ordering conflict. */
    method ResolveHistoryRevisionConflict(issue: nat, user: int) returns (error: Option<Error>)
      modifies this
      ensures match AcceptRevision(old(View()), issue, user)
        case Rejected(e) => error == Some(e) && View() == old(View())
        case Committed(t, _) => error == None && View() == t
    {
      if user < 0 { return Some(RequiresEvidence); }
      if issue !in issues { return Some(NotFound); }
      var i := issues[issue];
      if !i.open { return Some(AlreadyResolved); }
      if !i.kind.RevisionConflict? || i.kind.current == 0 { return Some(RequiresEvidence); }
      if i.raw !in raws || i.raw.account != i.account { return Some(NotFound); }
      if !Tracked(View(), i.activity) || activities[i.activity].account != i.account { return Some(NotFound); }
      var record := raws[i.raw].record;
      var from := CurrentKey(View(), i.activity);
      var current := revisions[from].payload;
      if current.revision != i.kind.current || SourceKey(from, i.raw) !in sources || sources[SourceKey(from, i.raw)].Principal? {
        return Some(RevisionStale);
      }
      if !SameProviderAccount(record, current) { return Some(RequiresEvidence); }
      var accepted := Reviewed(record, current, i.activity, i.account);
      if !accepted.status.Effective? && !accepted.status.Voided? { return Some(RequiresEvidence); }
      if !record.reviewable || (accepted.status.Effective? && !HasEffect(accepted)) { return Some(RequiresEvidence); }
      if i.kind.proposed != accepted { return Some(RequiresEvidence); }
      var to := RevisionKey(i.activity, accepted.revision);
      var roles := Corroborations(sources, from, to)[SourceKey(to, i.raw) := Principal];
      InsertRevision(i.activity, Revision(accepted, ACCEPTED_PRIORITY, record.time, MANUAL_RULE), roles,
                     EarlierDate(EarliestOf(current), EarliestOf(accepted)));
      CloseReviewedIssue(issue, i.raw);
      return None;
    }

    /** Stores one row of evidence, or refreshes it when the parser version changed. */
    method UpsertRaw(job: nat, key: RawKey, record: RawRecord, rule: int)
      modifies this`raws, this`observations
      ensures View() == SaveRaw(old(View()), job, key, record, rule)
    {
      if key !in raws {
        raws := raws[key := Raw(record, Pending, rule, record.feed)];
      } else if raws[key].rule != rule {
        raws := raws[key := Raw(record, Pending, rule, raws[key].source)];
      }
      var seen := ObservationKey(key, job);
      if seen !in observations {
        observations := observations[seen := None];
      }
    }

    /** Stores the records up to the first refusal. */
    method UpsertBatch(d: Directory, job: Job, batch: seq<Evidence>, rule: int) returns (error: Option<Error>)
      modifies this`raws, this`observations
      ensures error == FirstRefusal(d, job, batch)
      ensures error.None? ==> View() == Run(old(View()), Saves(d, job, batch, rule))
    {
      for i := 0 to |batch|
        invariant FirstRefusal(d, job, batch[..i]).None?
        invariant View() == Run(old(View()), Saves(d, job, batch[..i], rule))
      {
        OneMoreRefusal(d, job, batch, i);
        if Refusal(d, job, batch[i]).Some? {
          return Refusal(d, job, batch[i]);
        }
        OneMoreSave(old(View()), d, job, batch, i, rule);
        UpsertRaw(job.id, RowOf(d, batch[i]), batch[i].record, rule);
      }
      assert batch[..|batch|] == batch;
      error := None;
    }

    /** Stores a batch in one transaction: all of it or, after a refusal, none. */
    method SaveHistoryRaw(lease: bool, d: Directory, job: Job, batch: seq<Evidence>, rule: int) returns (error: Option<Error>)
      modifies this`raws, this`observations
      ensures error == if lease then FirstRefusal(d, job, batch) else Some(LeaseLost)
      ensures View() == if error.None? then Run(old(View()), Saves(d, job, batch, rule)) else old(View())
    {
      if !lease {
        return Some(LeaseLost);
      }
      var before, seen := raws, observations;
      error := UpsertBatch(d, job, batch, rule);
      if error.Some? {
        raws, observations := before, seen;
      }
    }
  }

  // ------------------------------------------------------------------ batches

  /** A record to be saved, with its identity, the hash of its payload and whether that payload is JSON. */
  datatype Evidence = Evidence(identity: IdentityKey, hash: int, isJson: bool, record: RawRecord)

  datatype BrokerAccount = BrokerAccount(provider: Provider, number: string)
  datatype AccountLink = AccountLink(account: nat, connection: nat)

  /** The account table, unique by provider and account number, and the links to connections. */
  datatype Directory = Directory(accounts: map<BrokerAccount, nat>, links: set<AccountLink>)

  /** A job asks for some accounts, or for all by naming none, through one connection or none. */
  datatype Job = Job(id: nat, accounts: seq<nat>, connection: Option<nat>)

  /** The account that a record names. */
  function AccountOf(d: Directory, e: Evidence): Option<nat> {
    if FeedProvider(e.record.feed).None? then None
    else
      var named := BrokerAccount(FeedProvider(e.record.feed).value, e.record.providerAccount);
      if named in d.accounts then Some(d.accounts[named]) else None
  }

  function Refusal(d: Directory, job: Job, e: Evidence): Option<Error> {
    if FeedProvider(e.record.feed).None? then Some(SourceNotSupported)
    else if e.record.claimed.Some? && e.record.claimed != FeedProvider(e.record.feed) then Some(ProviderMismatch)
    else if AccountOf(d, e).None? then Some(AccountNotFound)
    else if job.accounts != [] && AccountOf(d, e).value !in job.accounts then Some(Forbidden)
    else if job.connection.Some? && AccountLink(AccountOf(d, e).value, job.connection.value) !in d.links then Some(Forbidden)
    else if e.identity.external == "" || e.identity.namespace == "" then Some(IdentityRequired)
    else if !e.isJson then Some(InvalidPayload)
    else None
  }

  /** The first refusal of a batch. */
  function FirstRefusal(d: Directory, job: Job, batch: seq<Evidence>): Option<Error> {
    if batch == [] then None
    else if Refusal(d, job, batch[0]).Some? then Refusal(d, job, batch[0])
    else FirstRefusal(d, job, batch[1..])
  }

  /** Whether a job may write into an account. */
  predicate InScope(d: Directory, job: Job, account: nat) {
    && account in d.accounts.Values
    && (job.accounts != [] ==> account in job.accounts)
    && (job.connection.Some? ==> AccountLink(account, job.connection.value) in d.links)
  }

  /** The row that a record is stored in, unless it is refused for its account. */
  function RowOf(d: Directory, e: Evidence): RawKey {
    RawKey(if AccountOf(d, e).Some? then AccountOf(d, e).value else 0, e.identity, e.hash)
  }

  function Saves(d: Directory, job: Job, batch: seq<Evidence>, rule: int): seq<Step> {
    seq(|batch|, i requires 0 <= i < |batch| => Save(job.id, RowOf(d, batch[i]), batch[i].record, rule))
  }

  /** The refusals after `i` records depend on the next one alone, if there was none before. */
  lemma {:induction false} OneMoreRefusal(d: Directory, job: Job, batch: seq<Evidence>, i: nat)
    requires i < |batch| && FirstRefusal(d, job, batch[..i]).None?
    ensures FirstRefusal(d, job, batch[..i + 1]) == Refusal(d, job, batch[i])
    ensures Refusal(d, job, batch[i]).Some? ==> FirstRefusal(d, job, batch) == Refusal(d, job, batch[i])
    decreases i
  {
    if i > 0 {
      assert batch[..i][1..] == batch[1..][..i - 1] && batch[..i + 1][1..] == batch[1..][..i];
      assert Refusal(d, job, batch[0]).None?;
      OneMoreRefusal(d, job, batch[1..], i - 1);
    } else {
      assert batch[..1][1..] == [];
    }
  }

  lemma OneMoreSave(s: State, d: Directory, job: Job, batch: seq<Evidence>, i: nat, rule: int)
    requires i < |batch|
    ensures Run(s, Saves(d, job, batch[..i + 1], rule))
      == SaveRaw(Run(s, Saves(d, job, batch[..i], rule)), job.id, RowOf(d, batch[i]), batch[i].record, rule)
  {
    var step := Save(job.id, RowOf(d, batch[i]), batch[i].record, rule);
    assert Saves(d, job, batch[..i + 1], rule) == Saves(d, job, batch[..i], rule) + [step];
    LedgerJobs.RunSnoc(s, Saves(d, job, batch[..i], rule), step);
  }

  /** What a stored batch leaves: every record is on file, observed by the job and derived by the
    present parser; each touched row belongs to an account in the job's scope; nothing else moves. */
  ghost predicate Stored(s: State, t: State, d: Directory, job: Job, batch: seq<Evidence>, rule: int) {
    && t == s.(raws := t.raws, observations := t.observations)
    && (forall i :: 0 <= i < |batch| ==> OnFile(t, d, job, batch[i], rule))
    && (forall key :: key in s.raws ==> key in t.raws)
    && TouchedInScope(s.raws, t.raws, d, job, batch)
    && (forall seen :: seen in s.observations ==> seen in t.observations && t.observations[seen] == s.observations[seen])
  }

  ghost predicate TouchedInScope(before: map<RawKey, Raw>, after: map<RawKey, Raw>, d: Directory, job: Job, batch: seq<Evidence>) {
    forall key :: key in after && (key !in before || after[key] != before[key]) ==>
      InScope(d, job, key.account) && Delivered(d, batch, key, after[key].record)
  }

  predicate OnFile(t: State, d: Directory, job: Job, e: Evidence, rule: int) {
    var key := RowOf(d, e);
    key in t.raws && t.raws[key].rule == rule && ObservationKey(key, job.id) in t.observations
  }

  ghost predicate Delivered(d: Directory, batch: seq<Evidence>, key: RawKey, record: RawRecord) {
    exists i :: 0 <= i < |batch| && RowOf(d, batch[i]) == key && batch[i].record == record
  }

  lemma {:induction false} BatchIsStored(s: State, d: Directory, job: Job, batch: seq<Evidence>, rule: int)
    requires FirstRefusal(d, job, batch).None?
    ensures Stored(s, Run(s, Saves(d, job, batch, rule)), d, job, batch, rule)
    decreases |batch|
  {
    if batch != [] {
      var n := |batch| - 1;
      FrontAccepted(d, job, batch);
      var t := Run(s, Saves(d, job, batch[..n], rule));
      BatchIsStored(s, d, job, batch[..n], rule);
      OneMoreSave(s, d, job, batch, n, rule);
      assert batch[..n + 1] == batch;
      StoredGoesOn(s, t, d, job, batch, rule);
    }
  }

  lemma FrontAccepted(d: Directory, job: Job, batch: seq<Evidence>)
    requires batch != [] && FirstRefusal(d, job, batch).None?
    ensures FirstRefusal(d, job, batch[..|batch| - 1]).None? && Refusal(d, job, batch[|batch| - 1]).None?
  {
    AcceptedExactly(d, job, batch);
    AcceptedExactly(d, job, batch[..|batch| - 1]);
  }

  /** A batch passes exactly when each of its records does. */
  lemma {:induction false} AcceptedExactly(d: Directory, job: Job, batch: seq<Evidence>)
    ensures FirstRefusal(d, job, batch).None? <==> forall i :: 0 <= i < |batch| ==> Refusal(d, job, batch[i]).None?
  {
    if batch != [] {
      AcceptedExactly(d, job, batch[1..]);
      assert forall i :: 0 < i < |batch| ==> batch[i] == batch[1..][i - 1];
    }
  }

  lemma StoredGoesOn(s: State, t: State, d: Directory, job: Job, batch: seq<Evidence>, rule: int)
    requires batch != [] && Stored(s, t, d, job, batch[..|batch| - 1], rule)
    requires Refusal(d, job, batch[|batch| - 1]).None?
    ensures var e := batch[|batch| - 1]; Stored(s, SaveRaw(t, job.id, RowOf(d, e), e.record, rule), d, job, batch, rule)
  {
    var e := batch[|batch| - 1];
    var u := SaveRaw(t, job.id, RowOf(d, e), e.record, rule);
    TouchedGoesOn(s.raws, t.raws, u.raws, d, job, batch);
    forall i | 0 <= i < |batch|
      ensures OnFile(u, d, job, batch[i], rule)
    {
      if i < |batch| - 1 {
        assert batch[i] == batch[..|batch| - 1][i];
        StaysOnFile(t, d, job, batch[i], e, rule);
      }
    }
  }

  lemma StaysOnFile(t: State, d: Directory, job: Job, filed: Evidence, e: Evidence, rule: int)
    requires OnFile(t, d, job, filed, rule)
    ensures OnFile(SaveRaw(t, job.id, RowOf(d, e), e.record, rule), d, job, filed, rule)
  {
  }

  lemma TouchedGoesOn(before: map<RawKey, Raw>, mid: map<RawKey, Raw>, after: map<RawKey, Raw>,
                      d: Directory, job: Job, batch: seq<Evidence>)
    requires batch != [] && TouchedInScope(before, mid, d, job, batch[..|batch| - 1])
    requires Refusal(d, job, batch[|batch| - 1]).None?
    requires forall key :: key in after ==>
      || (key in mid && after[key] == mid[key])
      || (key == RowOf(d, batch[|batch| - 1]) && after[key].record == batch[|batch| - 1].record)
    ensures TouchedInScope(before, after, d, job, batch)
  {
    var n := |batch| - 1;
    forall key | key in after && (key !in before || after[key] != before[key])
      ensures InScope(d, job, key.account) && Delivered(d, batch, key, after[key].record)
    {
      if key in mid && after[key] == mid[key] {
        StillDelivered(d, batch, n, key, mid[key].record);
      } else {
        assert batch[n].record == after[key].record;
      }
    }
  }

  lemma StillDelivered(d: Directory, batch: seq<Evidence>, n: nat, key: RawKey, record: RawRecord)
    requires n <= |batch| && Delivered(d, batch[..n], key, record)
    ensures Delivered(d, batch, key, record)
  {
    var i :| 0 <= i < n && RowOf(d, batch[..n][i]) == key && batch[..n][i].record == record;
    assert batch[i] == batch[..n][i];
  }

  // -------------------------------------------------------------- stand-alone

  predicate Indistinct(s: State, record: RawRecord, other: nat) {
    record.identities == [] || (FromAnotherFamily(s, other, record.feed) && !ComparableIds(s, other, record.identities))
  }

  lemma {:induction false} ClashStays(s: State, account: nat, keys: seq<IdentityKey>, n: nat)
    requires n <= |keys| && FindActivity(s, account, keys[..n]).Clash?
    ensures FindActivity(s, account, keys).Clash?
    decreases |keys| - n
  {
    if n == |keys| {
      assert keys[..n] == keys;
    } else {
      assert keys[..n + 1][..n] == keys[..n];
      ClashStays(s, account, keys, n + 1);
    }
  }

  lemma {:induction false} StoppedStays(f: LedgerJobs.Normalizer, s: State, rows: seq<RawKey>, n: nat, m: nat)
    requires n <= m <= |rows| && LedgerJobs.Fold(f, s, rows[..n]).error.Some?
    ensures LedgerJobs.Fold(f, s, rows[..m]) == LedgerJobs.Fold(f, s, rows[..n])
    decreases m - n
  {
    if n < m {
      assert rows[..n + 1][..n] == rows[..n];
      StoppedStays(f, s, rows, n + 1, m);
    }
  }

  /** The job's result after its first `n` records, while the lease holds. */
  function Normalized(s: State, job: nat, rows: seq<RawKey>, rule: int, n: nat): LedgerJobs.JobResult
    requires n <= |rows|
  {
    LedgerJobs.Fold(LedgerJobs.Normalizing(job, rule), s, rows[..n])
  }

  function Reported(failed: Option<Error>, t: State, outcome: Outcome): Result {
    if failed.Some? then Rejected(failed.value) else Committed(t, outcome)
  }

  lemma JobGoesOn(s: State, job: nat, rows: seq<RawKey>, rule: int, i: nat, before: LedgerJobs.JobResult)
    requires i < |rows| && before.error.None? && before == Normalized(s, job, rows, rule, i)
    ensures Normalized(s, job, rows, rule, i + 1)
      == LedgerJobs.Advance(before, Normalize(before.state, true, job, rows[i], rule))
  {
    assert rows[..i + 1][..i] == rows[..i];
  }

  lemma JobEnds(s: State, job: nat, rows: seq<RawKey>, held: nat, rule: int)
    requires |rows| <= held
    ensures LedgerJobs.NormalizeJob(s, job, rows, held, rule) == Normalized(s, job, rows, rule, |rows|)
  {
  }

  /** One more record: the job goes on, or this record decides its result. */
  lemma JobStep(s: State, job: nat, rows: seq<RawKey>, held: nat, rule: int, i: nat, before: LedgerJobs.JobResult, r: Result)
    requires i < |rows| && i <= held && before.error.None? && before == Normalized(s, job, rows, rule, i)
    requires r == Normalize(before.state, i < held, job, rows[i], rule)
    ensures r.Committed? ==> i < held && Normalized(s, job, rows, rule, i + 1) == LedgerJobs.Advance(before, r)
    ensures r.Rejected? ==> LedgerJobs.NormalizeJob(s, job, rows, held, rule) == LedgerJobs.Advance(before, r)
  {
    if i < held {
      JobGoesOn(s, job, rows, rule, i, before);
      if r.Rejected? {
        StoppedStays(LedgerJobs.Normalizing(job, rule), s, rows, i + 1, LedgerJobs.Shorter(held, rows));
      }
    }
  }

  /** Whether a later report only adds lot costs to a transfer. */
  method TransferCostOnlyEnrichment(prior: Activity, next: Activity) returns (only: bool)
    ensures only == CostOnlyEnrichment(prior, next)
  {
    if prior.kind != "security_transfer" || !prior.status.Effective? || prior.costs != [] || next.costs == [] {
      return false;
    }
    for i := 0 to |next.costs|
      invariant forall k :: 0 <= k < i ==>
        next.costs[k].allocation == "reported_transfer_lots" && next.costs[k].basisDelta.Some? && next.costs[k].evidence != ""
    {
      var cost := next.costs[i];
      if cost.allocation != "reported_transfer_lots" || cost.basisDelta.None? || cost.evidence == "" {
        return false;
      }
    }
    var filtered: seq<string> := [];
    for i := 0 to |prior.warnings|
      invariant filtered + WithoutWarning(prior.warnings[i..], "transferred_cost_basis_unknown")
        == WithoutWarning(prior.warnings, "transferred_cost_basis_unknown")
    {
      assert prior.warnings[i..][1..] == prior.warnings[i + 1..];
      if prior.warnings[i] != "transferred_cost_basis_unknown" {
        filtered := filtered + [prior.warnings[i]];
      }
    }
    only := next.(revision := prior.revision, costs := []) == prior.(warnings := filtered);
  }
}

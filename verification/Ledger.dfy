/** The activity ledger: raw broker records become numbered revisions of
  activities, and operators resolve what the rules could not decide.

  `State` is the content of the ledger's tables. Each function below is one
  committed transaction; a rejected transaction leaves no trace. */
module Ledger {
  import opened Activities
  import EffectMatching

  const MANUAL_PRIORITY := 1000
  const ACCEPTED_PRIORITY := 100
  const REPORT_PRIORITY := 30
  const FEED_PRIORITY := 10
  const MANUAL_RULE := -1

  datatype Feed = Gateway | Flex | Xml | Schwab | Alpaca | UnknownFeed

  function FeedPriority(feed: Feed): int {
    if feed.Flex? || feed.Xml? then REPORT_PRIORITY else FEED_PRIORITY
  }

  function FeedProvider(feed: Feed): Option<Provider> {
    match feed
    case Gateway | Flex | Xml => Some(Ibkr)
    case Schwab => Some(SchwabBroker)
    case Alpaca => Some(AlpacaBroker)
    case UnknownFeed => None
  }

  /** XML imports and Flex downloads are the same family of reports. */
  function Family(feed: Feed): Feed {
    if feed.Xml? then Flex else feed
  }

  /** A source timestamp is blank, an instant with its spelling, or text that is no timestamp. */
  datatype SourceTime = Blank | At(instant: int, text: int) | Unparsed(text: int)

  datatype IdentityKey = IdentityKey(namespace: string, kind: string, external: string)

  /** One parsed broker record. `booked` is the activity that instrument
    resolution, validation and quarantine make of it for booking; `parsed` is
    the record's own activity with instruments resolved, and `reviewable` says
    whether an operator's stricter resolution and validation accept it. */
  datatype RawRecord = RawRecord(
    feed: Feed,
    claimed: Option<Provider>,
    providerAccount: string,
    identities: seq<IdentityKey>,
    time: SourceTime,
    booked: Activity,
    parsed: Activity,
    reviewable: bool)

  datatype RawStatus = Pending | Done | InReview | NotSupported

  /** Raw evidence is unique per account, source identity and payload hash; the feed is no part of the key. */
  datatype RawKey = RawKey(account: nat, identity: IdentityKey, hash: int)
  /** `source` is the feed that first delivered the row; saving it again never changes that column. */
  datatype Raw = Raw(record: RawRecord, status: RawStatus, rule: int, source: Feed)

  datatype ActivityRow = ActivityRow(account: nat, current: nat)
  datatype RevisionKey = RevisionKey(activity: nat, number: nat)
  datatype Revision = Revision(payload: Activity, priority: int, time: SourceTime, rule: int)

  datatype Role = Principal | Corroboration
  datatype SourceKey = SourceKey(revision: RevisionKey, raw: RawKey)

  datatype OwnedKey = OwnedKey(account: nat, key: IdentityKey)
  datatype Link = DuplicateOf(duplicate: nat, original: nat)

  datatype IssueKind =
    | Review(status: Status, warnings: seq<string>)
    | RevisionConflict(current: nat, proposed: Activity)
  datatype Issue = Issue(account: nat, activity: nat, raw: RawKey, kind: IssueKind, open: bool)

  datatype ObservationKey = ObservationKey(raw: RawKey, job: nat)
  datatype Outcome = Added | Updated | Duplicate | OutcomeUnsupported | OutcomeReview

  datatype State = State(
    activities: map<nat, ActivityRow>,
    revisions: map<RevisionKey, Revision>,
    sources: map<SourceKey, Role>,
    identities: map<OwnedKey, nat>,
    links: set<Link>,
    raws: map<RawKey, Raw>,
    observations: map<ObservationKey, Option<Outcome>>,
    issues: map<nat, Issue>,
    generations: map<nat, nat>,
    dirty: map<nat, Day>,
    nextActivity: nat,
    nextIssue: nat)

  datatype Error =
    | LeaseLost | NotFound | SourceNotSupported | ProviderMismatch | IdentityConflict
    | AlreadyResolved | RequiresEvidence | RevisionStale | InvalidTarget | EffectMismatch
    | AccountNotFound | Forbidden | IdentityRequired | InvalidPayload
  datatype Result = Rejected(error: Error) | Committed(state: State, outcome: Outcome)

  // ---------------------------------------------------------------- reading

  function CurrentKey(s: State, id: nat): RevisionKey
    requires id in s.activities
  {
    RevisionKey(id, s.activities[id].current)
  }

  predicate Tracked(s: State, id: nat) {
    id in s.activities && CurrentKey(s, id) in s.revisions
  }

  function Current(s: State, id: nat): Revision
    requires Tracked(s, id)
  {
    s.revisions[CurrentKey(s, id)]
  }

  /** An account that was never changed is at generation zero. */
  function Count(generations: map<nat, nat>, account: nat): nat {
    if account in generations then generations[account] else 0
  }

  function RecordKeys(key: RawKey, record: RawRecord): seq<IdentityKey> {
    [key.identity] + record.identities
  }

  datatype Match = Unmatched | Matched(id: nat) | Clash

  /** The activity that the identities of a record lead to. Blank identities say nothing. */
  function FindActivity(s: State, account: nat, keys: seq<IdentityKey>): Match {
    if keys == [] then Unmatched
    else
      var n := |keys| - 1;
      var before := FindActivity(s, account, keys[..n]);
      var owned := OwnedKey(account, keys[n]);
      if keys[n].external == "" || owned !in s.identities || before.Clash? then before
      else if before.Matched? && before.id != s.identities[owned] then Clash
      else Matched(s.identities[owned])
  }

  /** The activity a record proposes as the revision after `number` of `id`. */
  function Proposal(key: RawKey, record: RawRecord, id: nat, number: nat): Activity
    requires FeedProvider(record.feed).Some?
  {
    record.booked.(
      id := id,
      account := key.account,
      provider := FeedProvider(record.feed).value,
      providerAccount := record.providerAccount,
      revision := number + 1)
  }

  // --------------------------------------------------------- weak duplicates

  predicate Lookalike(s: State, account: nat, a: Activity, other: nat) {
    && Tracked(s, other)
    && other != a.id
    && s.activities[other].account == account
    && var c := Current(s, other).payload;
       c.legs == a.legs && c.tradeDate == a.tradeDate && c.kind == a.kind
  }

  predicate FromAnotherFamily(s: State, other: nat, feed: Feed) {
    exists k :: k in s.sources && k.revision.activity == other && s.sources[k].Principal? &&
      k.raw in s.raws && Family(s.raws[k.raw].source) != Family(feed)
  }

  predicate ComparableIds(s: State, other: nat, keys: seq<IdentityKey>) {
    exists i, o :: 0 <= i < |keys| && o in s.identities && s.identities[o] == other &&
      o.key.namespace == keys[i].namespace && o.key.kind == keys[i].kind
  }

  /** A first booking that looks like one already held, with no identity that tells them apart. */
  predicate WeakDuplicate(s: State, account: nat, record: RawRecord, a: Activity) {
    exists other :: other in s.activities && Lookalike(s, account, a, other) &&
      (record.identities == [] ||
       (FromAnotherFamily(s, other, record.feed) && !ComparableIds(s, other, record.identities)))
  }

  function Quarantine(s: State, account: nat, record: RawRecord, a: Activity): Activity {
    if a.status.Effective? && WeakDuplicate(s, account, record, a)
    then a.(status := NeedsReview, warnings := a.warnings + ["ambiguous_duplicate"])
    else a
  }

  // --------------------------------------------------------------- decision

  predicate Newer(next: SourceTime, prior: SourceTime) {
    next.At? && prior.At? && next.instant > prior.instant
  }

  predicate SameContent(next: Activity, prior: Activity) {
    next.(revision := prior.revision) == prior
  }

  function WithoutWarning(warnings: seq<string>, w: string): seq<string> {
    if warnings == [] then []
    else if warnings[0] == w then WithoutWarning(warnings[1..], w)
    else [warnings[0]] + WithoutWarning(warnings[1..], w)
  }

  predicate ReportedLots(costs: seq<CostAdjustment>) {
    costs != [] && forall i :: 0 <= i < |costs| ==>
      costs[i].allocation == "reported_transfer_lots" && costs[i].basisDelta.Some? && costs[i].evidence != ""
  }

  /** `next` only adds lot costs to a transfer that had none. */
  predicate CostOnlyEnrichment(prior: Activity, next: Activity) {
    && prior.kind == "security_transfer"
    && prior.status.Effective?
    && prior.costs == []
    && ReportedLots(next.costs)
    && next.(revision := prior.revision, costs := [])
       == prior.(warnings := WithoutWarning(prior.warnings, "transferred_cost_basis_unknown"))
  }

  predicate IsPrincipal(s: State, revision: RevisionKey, raw: RawKey) {
    SourceKey(revision, raw) in s.sources && s.sources[SourceKey(revision, raw)].Principal?
  }

  predicate MarkedDuplicate(s: State, id: nat) {
    exists l :: l in s.links && l.duplicate == id
  }

  datatype Verdict = Verdict(replace: bool, conflict: bool, upgrade: bool)

  /** What a further observation does to the current revision of an activity. */
  function Decide(s: State, key: RawKey, record: RawRecord, id: nat, rule: int): Verdict
    requires Tracked(s, id)
    requires FeedProvider(record.feed).Some?
  {
    var prior := Current(s, id);
    var next := Proposal(key, record, id, s.activities[id].current);
    var priority := FeedPriority(record.feed);
    var newer := Newer(record.time, prior.time);
    var same := SameContent(next, prior.payload);
    var upgrade := prior.rule != rule && prior.priority < ACCEPTED_PRIORITY && IsPrincipal(s, CurrentKey(s, id), key);
    var contested :=
      && ((priority == prior.priority && !newer) || (prior.priority == ACCEPTED_PRIORITY && priority >= REPORT_PRIORITY))
      && !same
      && (prior.time.Blank? || record.time.Blank? || prior.time == record.time
          || (prior.priority == ACCEPTED_PRIORITY && newer));
    var enriches := prior.priority != ACCEPTED_PRIORITY && priority >= prior.priority && CostOnlyEnrichment(prior.payload, next);
    var outranks := priority > prior.priority || (priority == prior.priority && newer);
    if MarkedDuplicate(s, id) then Verdict(false, false, upgrade)
    else if upgrade || enriches then Verdict(!same, false, upgrade)
    else Verdict(outranks && !same, contested, upgrade)
  }

  // ----------------------------------------------------------------- writing

  function MarkDirty(dirty: map<nat, Day>, account: nat, from: Option<Day>): map<nat, Day> {
    if from.None? || (account in dirty && dirty[account] <= from.value) then dirty
    else dirty[account := from.value]
  }

  /** Appends a revision, moves the activity to it and invalidates what was derived from the account. */
  function AddRevision(s: State, id: nat, r: Revision, roles: map<SourceKey, Role>, boundary: Option<Day>): State
    requires id in s.activities
  {
    var account := s.activities[id].account;
    s.(activities := s.activities[id := s.activities[id].(current := r.payload.revision)],
       revisions := s.revisions[RevisionKey(id, r.payload.revision) := r],
       sources := s.sources + roles,
       generations := s.generations[account := Count(s.generations, account) + 1],
       dirty := MarkDirty(s.dirty, account, boundary))
  }

  /** Every source of `from`, carried to `to` as corroboration. */
  function Corroborations(sources: map<SourceKey, Role>, from: RevisionKey, to: RevisionKey): map<SourceKey, Role> {
    map k | k in sources && k.revision == from :: SourceKey(to, k.raw) := Corroboration
  }

  /** Every source of `from`, carried to `to` in its own role. */
  function CarriedRoles(sources: map<SourceKey, Role>, from: RevisionKey, to: RevisionKey): map<SourceKey, Role> {
    map k | k in sources && k.revision == from :: SourceKey(to, k.raw) := sources[k]
  }

  function AddIdentities(identities: map<OwnedKey, nat>, account: nat, keys: seq<IdentityKey>, id: nat): map<OwnedKey, nat> {
    if keys == [] then identities
    else
      var n := |keys| - 1;
      var before := AddIdentities(identities, account, keys[..n], id);
      var owned := OwnedKey(account, keys[n]);
      if keys[n].external == "" || owned in before then before else before[owned := id]
  }

  function CloseIssues(issues: map<nat, Issue>, raw: RawKey): map<nat, Issue> {
    map i | i in issues :: if issues[i].raw == raw then issues[i].(open := false) else issues[i]
  }

  predicate SameRecords(raws: map<RawKey, Raw>, raws': map<RawKey, Raw>) {
    raws'.Keys == raws.Keys && forall k :: k in raws ==> raws'[k].record == raws[k].record
  }

  predicate SameEvidence(s: State, t: State) {
    t.raws == s.raws && t.observations == s.observations
  }

  /** Of all evidence, only this record's status and its outcome in this job differ. */
  predicate OnlySettles(s: State, t: State, job: nat, key: RawKey, outcome: Outcome) {
    && key in s.raws && key in t.raws
    && t.raws == s.raws[key := s.raws[key].(status := t.raws[key].status)] && !t.raws[key].status.Pending?
    && t.observations == s.observations[ObservationKey(key, job) := Some(outcome)]
  }

  /** Only evidence bookkeeping differs: issues, raw statuses and recorded outcomes. */
  predicate SameBooks(s: State, t: State) {
    && t.activities == s.activities && t.revisions == s.revisions && t.sources == s.sources
    && t.identities == s.identities && t.links == s.links && t.generations == s.generations
    && t.dirty == s.dirty && t.nextActivity == s.nextActivity && SameRecords(s.raws, t.raws)
  }

  function OpenIssue(s: State, issue: Option<Issue>): (t: State)
    ensures SameBooks(s, t) && SameEvidence(s, t)
  {
    if issue.None? then s
    else s.(issues := s.issues[s.nextIssue := issue.value], nextIssue := s.nextIssue + 1)
  }

  /** Records what became of a raw record in this job. */
  function Settle(s: State, key: RawKey, job: nat, status: RawStatus, outcome: Outcome): (t: State)
    requires key in s.raws && !status.Pending?
    ensures SameBooks(s, t) && t.issues == s.issues
    ensures OnlySettles(s, t, job, key, outcome)
  {
    s.(raws := s.raws[key := s.raws[key].(status := status)],
       observations := s.observations[ObservationKey(key, job) := Some(outcome)])
  }

  predicate Unsettled(status: Status) {
    status.NeedsReview? || status.Unsupported?
  }

  function ReviewStatus(status: Status): (r: RawStatus)
    ensures !r.Pending?
  {
    if status.Unsupported? then NotSupported else InReview
  }

  function ReviewOutcome(status: Status): Outcome {
    if status.Unsupported? then OutcomeUnsupported else OutcomeReview
  }

  /** A booked revision is settled, unless its own status asks for a review. */
  function Conclude(s: State, job: nat, key: RawKey, a: Activity, outcome: Outcome): (r: Result)
    requires key in s.raws
    ensures r.Committed? && SameBooks(s, r.state) && OnlySettles(s, r.state, job, key, r.outcome)
  {
    if Unsettled(a.status)
    then Committed(Settle(OpenIssue(s, Some(Issue(key.account, a.id, key, Review(a.status, a.warnings), true))),
                          key, job, ReviewStatus(a.status), ReviewOutcome(a.status)),
                   ReviewOutcome(a.status))
    else Committed(Settle(s, key, job, Done, outcome), outcome)
  }

  function Learn(s: State, key: RawKey, record: RawRecord, id: nat): State
  {
    s.(identities := AddIdentities(s.identities, key.account, RecordKeys(key, record), id))
  }

  function StartRow(s: State, account: nat): State {
    s.(activities := s.activities[s.nextActivity := ActivityRow(account, 0)], nextActivity := s.nextActivity + 1)
  }

  /** Starts an activity with `a` as its first revision. */
  function StartActivity(s: State, key: RawKey, a: Activity, rule: int): (t: State)
    requires key in s.raws && a.id == s.nextActivity
    ensures SameEvidence(s, t)
    ensures t.activities == s.activities[a.id := ActivityRow(key.account, a.revision)]
  {
    var record := s.raws[key].record;
    var started := StartRow(s, key.account);
    var revision := Revision(a, FeedPriority(record.feed), record.time, rule);
    var roles := map[SourceKey(RevisionKey(a.id, 1), key) := Principal];
    Learn(AddRevision(started, a.id, revision, roles, EarliestOf(a)), key, record, a.id)
  }

  /** First booking of a record that no identity matches. */
  function Book(s: State, job: nat, key: RawKey, rule: int): (r: Result)
    requires key in s.raws && FeedProvider(s.raws[key].record.feed).Some?
    ensures r.Committed? && OnlySettles(s, r.state, job, key, r.outcome)
  {
    var record := s.raws[key].record;
    var a := Quarantine(s, key.account, record, Proposal(key, record, s.nextActivity, 0));
    Conclude(StartActivity(s, key, a, rule), job, key, a, Added)
  }

  /** Makes `a` the next revision of its activity, with the record as its principal. */
  function ReviseActivity(s: State, key: RawKey, a: Activity, rule: int, upgrade: bool): (t: State)
    requires key in s.raws && Tracked(s, a.id)
    ensures SameEvidence(s, t)
  {
    var record := s.raws[key].record;
    var to := RevisionKey(a.id, a.revision);
    var roles := Corroborations(s.sources, CurrentKey(s, a.id), to)[SourceKey(to, key) := Principal];
    var revision := Revision(a, FeedPriority(record.feed), record.time, rule);
    var boundary := EarlierDate(EarliestOf(Current(s, a.id).payload), EarliestOf(a));
    Learn(AddRevision(s, a.id, revision, roles, boundary), key, record, a.id)
      .(issues := if upgrade then CloseIssues(s.issues, key) else s.issues)
  }

  /** A further observation that becomes the next revision. */
  function Replace(s: State, job: nat, key: RawKey, id: nat, rule: int): (r: Result)
    requires key in s.raws && FeedProvider(s.raws[key].record.feed).Some? && Tracked(s, id)
    ensures r.Committed? && OnlySettles(s, r.state, job, key, r.outcome)
  {
    var record := s.raws[key].record;
    var a := Proposal(key, record, id, s.activities[id].current);
    Conclude(ReviseActivity(s, key, a, rule, Decide(s, key, record, id, rule).upgrade), job, key, a, Updated)
  }

  function AddEvidence(s: State, source: SourceKey): State {
    s.(sources := if source in s.sources then s.sources else s.sources[source := Corroboration])
  }

  /** A further observation kept as evidence of the current revision. */
  function Corroborate(s: State, job: nat, key: RawKey, id: nat, rule: int): (r: Result)
    requires key in s.raws && FeedProvider(s.raws[key].record.feed).Some? && Tracked(s, id)
    ensures r.Committed? && OnlySettles(s, r.state, job, key, r.outcome)
  {
    var record := s.raws[key].record;
    var a := Proposal(key, record, id, s.activities[id].current);
    var verdict := Decide(s, key, record, id, rule);
    var known := Learn(AddEvidence(s, SourceKey(CurrentKey(s, id), key)), key, record, id);
    if verdict.conflict
    then Committed(Settle(OpenIssue(known, Some(ConflictIssue(s, key, id, a))), key, job, InReview, OutcomeReview), OutcomeReview)
    else if verdict.upgrade && Unsettled(a.status)
    then Committed(Settle(known, key, job, ReviewStatus(a.status), ReviewOutcome(a.status)), ReviewOutcome(a.status))
    else Committed(Settle(known, key, job, Done, Duplicate), Duplicate)
  }

  function ConflictIssue(s: State, key: RawKey, id: nat, proposed: Activity): Issue
    requires Tracked(s, id)
  {
    Issue(key.account, id, key, RevisionConflict(Current(s, id).payload.revision, proposed), true)
  }

  /** The outcome of a raw record that an earlier job already normalised. */
  function RepeatOutcome(status: RawStatus): Outcome {
    match status
    case InReview => OutcomeReview
    case NotSupported => OutcomeUnsupported
    case _ => Duplicate
  }

  /** A pending record either starts an activity or is judged against the one it belongs to. */
  function Process(s: State, job: nat, key: RawKey, rule: int): (r: Result)
    requires key in s.raws
    ensures r.Committed? ==> OnlySettles(s, r.state, job, key, r.outcome)
  {
    var record := s.raws[key].record;
    if FeedProvider(record.feed).None? then Rejected(SourceNotSupported)
    else if record.claimed.Some? && record.claimed != FeedProvider(record.feed) then Rejected(ProviderMismatch)
    else
      match FindActivity(s, key.account, RecordKeys(key, record))
      case Clash => Rejected(IdentityConflict)
      case Unmatched => Book(s, job, key, rule)
      case Matched(id) =>
        if !Tracked(s, id) then Rejected(NotFound)
        else if Decide(s, key, record, id, rule).replace then Replace(s, job, key, id, rule)
        else Corroborate(s, job, key, id, rule)
  }

  /** One record of one job, under the lease that the job must still hold. */
  function Normalize(s: State, lease: bool, job: nat, key: RawKey, rule: int): Result {
    if !lease then Rejected(LeaseLost)
    else if key !in s.raws || ObservationKey(key, job) !in s.observations then Rejected(NotFound)
    else
      var raw := s.raws[key];
      var seen := s.observations[ObservationKey(key, job)];
      if seen.Some? then Committed(s, seen.value)
      else if !raw.status.Pending? then
        var outcome := RepeatOutcome(raw.status);
        Committed(s.(observations := s.observations[ObservationKey(key, job) := Some(outcome)]), outcome)
      else Process(s, job, key, rule)
  }

  /** Stores evidence before it is normalised. A changed parser version replaces
    the derived record and makes it pending again. */
  function SaveRaw(s: State, job: nat, key: RawKey, record: RawRecord, rule: int): State {
    var seen := ObservationKey(key, job);
    s.(raws :=
         if key !in s.raws then s.raws[key := Raw(record, Pending, rule, record.feed)]
         else if s.raws[key].rule != rule then s.raws[key := Raw(record, Pending, rule, s.raws[key].source)]
         else s.raws,
       observations := if seen in s.observations then s.observations else s.observations[seen := None])
  }

  // -------------------------------------------------------------- resolution

  datatype Action = ConfirmDistinct(target: Option<nat>) | ConfirmSame(target: Option<nat>)

  /** Only duplicate and fee-overlap doubts can be resolved by an operator. */
  predicate DuplicateEvidence(kind: IssueKind) {
    && kind.Review?
    && kind.status.NeedsReview?
    && kind.warnings != []
    && forall i :: 0 <= i < |kind.warnings| ==>
         kind.warnings[i] == "ambiguous_duplicate" || kind.warnings[i] == "potential_trade_fee_overlap"
  }

  predicate HasEffect(a: Activity) {
    a.legs != [] || a.costs != []
  }

  predicate SameProviderAccount(record: RawRecord, current: Activity) {
    && record.providerAccount == current.providerAccount
    && (record.parsed.providerAccount == "" || record.parsed.providerAccount == current.providerAccount)
  }

  /** The record's own activity under the identity of the activity it belongs to. */
  function Reviewed(record: RawRecord, current: Activity, id: nat, account: nat): Activity {
    record.parsed.(
      id := id, account := account, provider := current.provider,
      providerAccount := current.providerAccount, revision := current.revision + 1)
  }

  function CloseIssue(s: State, issue: nat, raw: RawKey): (t: State)
    requires issue in s.issues && raw in s.raws
    ensures SameBooks(s, t)
  {
    s.(issues := s.issues[issue := s.issues[issue].(open := false)],
       raws := s.raws[raw := s.raws[raw].(status := Done)])
  }

  /** Books an operator's decision as a revision that nothing replaces any more. */
  function BookReview(s: State, issue: nat, reviewed: Activity): (t: State)
    requires issue in s.issues && Tracked(s, s.issues[issue].activity) && s.issues[issue].raw in s.raws
    ensures var id := s.issues[issue].activity;
      && t.activities == s.activities[id := s.activities[id].(current := reviewed.revision)]
      && CurrentKey(t, id) in t.revisions && Current(t, id).priority == MANUAL_PRIORITY
  {
    var i := s.issues[issue];
    var prior := Current(s, i.activity);
    var to := RevisionKey(i.activity, reviewed.revision);
    CloseIssue(
      AddRevision(s, i.activity, Revision(reviewed, MANUAL_PRIORITY, prior.time, MANUAL_RULE),
                  CarriedRoles(s.sources, CurrentKey(s, i.activity), to),
                  EarlierDate(EarliestOf(prior.payload), EarliestOf(reviewed))),
      issue, i.raw)
  }

  function ResolveDuplicate(s: State, issue: nat, action: Action, user: int): Result {
    if user < 0 then Rejected(RequiresEvidence)
    else if issue !in s.issues then Rejected(NotFound)
    else if !s.issues[issue].open then Rejected(AlreadyResolved)
    else if !DuplicateEvidence(s.issues[issue].kind) then Rejected(RequiresEvidence)
    else
      var i := s.issues[issue];
      if i.raw !in s.raws || i.raw.account != i.account then Rejected(NotFound)
      else if !Tracked(s, i.activity) || s.activities[i.activity].account != i.account then Rejected(NotFound)
      else
        var record := s.raws[i.raw].record;
        var current := Current(s, i.activity).payload;
        if !current.status.NeedsReview? || !IsPrincipal(s, CurrentKey(s, i.activity), i.raw) then Rejected(RevisionStale)
        else if !SameProviderAccount(record, current) then Rejected(RequiresEvidence)
        else if action.ConfirmDistinct? then
          var reviewed := Reviewed(record, current, i.activity, i.account).(status := Effective, warnings := []);
          if action.target.Some? then Rejected(InvalidTarget)
          else if record.parsed.status.Unsupported? || reviewed.tradeDate.None? || !record.reviewable || !HasEffect(reviewed)
          then Rejected(RequiresEvidence)
          else Committed(BookReview(s, issue, reviewed), Updated)
        else ConfirmSameActivity(s, issue, action.target)
  }

  function LinkDuplicate(s: State, i: Issue, target: nat): State
    requires Tracked(s, target)
  {
    var seen := AddEvidence(s, SourceKey(CurrentKey(s, target), i.raw));
    seen.(links := seen.links + {DuplicateOf(i.activity, target)})
  }

  function Void(a: Activity): Activity {
    a.(revision := a.revision + 1, status := Voided, warnings := ["duplicate_source_confirmed"])
  }

  function ConfirmSameActivity(s: State, issue: nat, target: Option<nat>): Result
    requires issue in s.issues && Tracked(s, s.issues[issue].activity) && s.issues[issue].raw in s.raws
  {
    var i := s.issues[issue];
    var record := s.raws[i.raw].record;
    var current := Current(s, i.activity).payload;
    var candidate := record.parsed.(account := i.account, provider := current.provider, providerAccount := current.providerAccount);
    if target.None? || target.value == i.activity then Rejected(InvalidTarget)
    else if !(candidate.status.Effective? || candidate.status.NeedsReview?) then Rejected(RequiresEvidence)
    else if !record.reviewable || (candidate.status.Effective? && !HasEffect(candidate)) then Rejected(RequiresEvidence)
    else if !Tracked(s, target.value) || s.activities[target.value].account != i.account then Rejected(NotFound)
    else
      var other := Current(s, target.value).payload;
      if other.account != i.account || !other.status.Effective? || !EffectMatching.DatesMatch(candidate, other)
      then Rejected(RequiresEvidence)
      else if !EffectMatching.EffectsContained(candidate, other) then Rejected(EffectMismatch)
      else
        var linked := LinkDuplicate(s, i, target.value);
        Committed(BookReview(linked, issue, Void(current)), Updated)
  }

  /** Accepts the record behind an ordering conflict, exactly as it was proposed. */
  function AcceptRevision(s: State, issue: nat, user: int): Result {
    if user < 0 then Rejected(RequiresEvidence)
    else if issue !in s.issues then Rejected(NotFound)
    else if !s.issues[issue].open then Rejected(AlreadyResolved)
    else
      var i := s.issues[issue];
      if !i.kind.RevisionConflict? || i.kind.current == 0 then Rejected(RequiresEvidence)
      else if i.raw !in s.raws || i.raw.account != i.account then Rejected(NotFound)
      else if !Tracked(s, i.activity) || s.activities[i.activity].account != i.account then Rejected(NotFound)
      else
        var record := s.raws[i.raw].record;
        var from := CurrentKey(s, i.activity);
        var current := Current(s, i.activity).payload;
        var accepted := Reviewed(record, current, i.activity, i.account);
        var to := RevisionKey(i.activity, accepted.revision);
        if current.revision != i.kind.current || SourceKey(from, i.raw) !in s.sources || IsPrincipal(s, from, i.raw)
        then Rejected(RevisionStale)
        else if !SameProviderAccount(record, current) then Rejected(RequiresEvidence)
        else if !(accepted.status.Effective? || accepted.status.Voided?) then Rejected(RequiresEvidence)
        else if !record.reviewable || (accepted.status.Effective? && !HasEffect(accepted)) then Rejected(RequiresEvidence)
        else if i.kind.proposed != accepted then Rejected(RequiresEvidence)
        else
          var roles := Corroborations(s.sources, from, to)[SourceKey(to, i.raw) := Principal];
          Committed(
            CloseIssue(
              AddRevision(s, i.activity, Revision(accepted, ACCEPTED_PRIORITY, record.time, MANUAL_RULE), roles,
                          EarlierDate(EarliestOf(current), EarliestOf(accepted))),
              issue, i.raw),
            Updated)
  }

  // -------------------------------------------------------------------- runs

  datatype Step =
    | Save(job: nat, key: RawKey, record: RawRecord, rule: int)
    | Normalise(lease: bool, job: nat, key: RawKey, rule: int)
    | Resolve(issue: nat, action: Action, user: int)
    | Accept(issue: nat, user: int)

  function After(s: State, r: Result): State {
    if r.Committed? then r.state else s
  }

  function Apply(s: State, step: Step): State {
    match step
    case Save(job, key, record, rule) => SaveRaw(s, job, key, record, rule)
    case Normalise(lease, job, key, rule) => After(s, Normalize(s, lease, job, key, rule))
    case Resolve(issue, action, user) => After(s, ResolveDuplicate(s, issue, action, user))
    case Accept(issue, user) => After(s, AcceptRevision(s, issue, user))
  }

  function Run(s: State, steps: seq<Step>): State
    decreases |steps|
  {
    if steps == [] then s else Run(Apply(s, steps[0]), steps[1..])
  }

  function EmptyLedger(): State {
    State(map[], map[], map[], map[], {}, map[], map[], map[], map[], map[], 0, 0)
  }
}

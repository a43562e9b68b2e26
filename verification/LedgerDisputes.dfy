/** What a pending record does to the activity it belongs to: when it becomes the
  next revision, when it opens a dispute and when it is only filed as evidence. */
module LedgerDisputes {
  import opened Activities
  import opened Ledger
  import opened LedgerInvariant
  import opened LedgerPriority
  import LedgerReview
  import Folds

  // -------------------------------------------------------- in plain terms

  predicate IsReport(feed: Feed) {
    feed == Flex || feed == Xml
  }

  /** Reports count 30 and every other feed 10. */
  function RankOf(feed: Feed): int {
    if IsReport(feed) then 30 else 10
  }

  /** The time of `a` is known to be later than that of `b`. */
  predicate Follows(a: SourceTime, b: SourceTime) {
    match (a, b)
    case (At(i, _), At(j, _)) => j < i
    case _ => false
  }

  /** Nothing says which of the two came first. */
  predicate OrderUnknown(a: SourceTime, b: SourceTime) {
    a == Blank || b == Blank || a == b
  }

  /** A pending record, first seen by this job, that its identities lead to the activity `id`. */
  ghost predicate Arrives(s: State, job: nat, key: RawKey, id: nat) {
    Valid(s) && IsFresh(s, true, job, key) && Reaches(s, key, id)
  }

  function Record(s: State, key: RawKey): RawRecord
    requires key in s.raws
  {
    s.raws[key].record
  }

  /** What the record would make of the activity, as revision `number`. */
  function Made(record: RawRecord, account: nat, id: nat, number: nat): Activity
    requires FeedProvider(record.feed).Some?
  {
    record.booked.(id := id, account := account, provider := FeedProvider(record.feed).value,
                   providerAccount := record.providerAccount, revision := number)
  }

  predicate Differs(s: State, key: RawKey, id: nat)
    requires key in s.raws && FeedProvider(Record(s, key).feed).Some? && Tracked(s, id)
  {
    Made(Record(s, key), key.account, id, Current(s, id).payload.revision) != Current(s, id).payload
  }

  /** Another parser version reads the record that stands behind the current revision. */
  predicate Rereads(s: State, key: RawKey, id: nat, rule: int)
    requires Tracked(s, id)
  {
    && Current(s, id).rule != rule && Current(s, id).priority < 100
    && SourceKey(CurrentKey(s, id), key) in s.sources && s.sources[SourceKey(CurrentKey(s, id), key)] == Principal
  }

  predicate DuplicateLinked(s: State, id: nat) {
    exists l :: l in s.links && l.duplicate == id
  }

  const UNKNOWN_BASIS := "transferred_cost_basis_unknown"

  /** The record tells of a booked transfer what its lots cost, and nothing else that is new. */
  predicate AddsLotCosts(prior: Activity, next: Activity) {
    && prior.kind == "security_transfer" && prior.status == Effective
    && prior.costs == [] && next.costs != []
    && (forall c :: c in next.costs ==> c.allocation == "reported_transfer_lots" && c.basisDelta != None && c.evidence != "")
    && next == prior.(revision := next.revision, costs := next.costs,
                      warnings := Folds.Filter(w => w != UNKNOWN_BASIS, prior.warnings))
  }

  predicate Enriches(s: State, key: RawKey, id: nat)
    requires key in s.raws && FeedProvider(Record(s, key).feed).Some? && Tracked(s, id)
  {
    AddsLotCosts(Current(s, id).payload, Made(Record(s, key), key.account, id, s.activities[id].current + 1))
  }

  // ---------------------------------------------------------------- outcomes

  /** The record became the next revision, under its own rank and time. */
  predicate Revises(s: State, t: State, key: RawKey, id: nat, rule: int)
    requires key in s.raws && FeedProvider(Record(s, key).feed).Some? && id in s.activities
  {
    var record, number := Record(s, key), s.activities[id].current + 1;
    && t.activities == s.activities[id := s.activities[id].(current := number)]
    && t.revisions == s.revisions[RevisionKey(id, number) :=
         Revision(Made(record, key.account, id, number), RankOf(record.feed), record.time, rule)]
  }

  /** The record is the principal of the new revision, and whatever backed the former one corroborates it. */
  ghost predicate Succeeds(s: State, t: State, key: RawKey, id: nat)
    requires id in s.activities && id in t.activities
  {
    var from, to := CurrentKey(s, id), CurrentKey(t, id);
    && SourceKey(to, key) in t.sources && t.sources[SourceKey(to, key)] == Principal
    && (forall raw :: raw != key && SourceKey(from, raw) in s.sources ==>
          SourceKey(to, raw) in t.sources && t.sources[SourceKey(to, raw)] == Corroboration)
  }

  /** A revision that needs a review opens one; any other is settled. */
  predicate Concludes(s: State, t: State, outcome: Outcome, key: RawKey, a: Activity, otherwise: Outcome) {
    && key in t.raws
    && match a.status
       case NeedsReview => OpensReview(s, t, key, a) && t.raws[key].status == InReview && outcome == OutcomeReview
       case Unsupported => OpensReview(s, t, key, a) && t.raws[key].status == NotSupported && outcome == OutcomeUnsupported
       case _ => t.issues.Keys == s.issues.Keys && t.raws[key].status == Done && outcome == otherwise
  }

  predicate OpensReview(s: State, t: State, key: RawKey, a: Activity) {
    && t.issues.Keys == s.issues.Keys + {s.nextIssue}
    && t.issues[s.nextIssue] == Issue(key.account, a.id, key, Review(a.status, a.warnings), true)
  }

  /** The books are as before, and the record backs the current revision. */
  predicate Backs(s: State, t: State, key: RawKey, id: nat)
    requires Tracked(s, id)
  {
    var source := SourceKey(CurrentKey(s, id), key);
    && t.activities == s.activities && t.revisions == s.revisions
    && t.sources == (if source in s.sources then s.sources else s.sources[source := Corroboration])
  }

  /** A conflict between the record and the current revision is open for an operator. */
  predicate Disputed(s: State, t: State, key: RawKey, id: nat)
    requires key in s.raws && FeedProvider(Record(s, key).feed).Some? && Tracked(s, id)
  {
    var proposed := Made(Record(s, key), key.account, id, s.activities[id].current + 1);
    && t.issues == s.issues[s.nextIssue :=
         Issue(key.account, id, key, RevisionConflict(Current(s, id).payload.revision, proposed), true)]
    && key in t.raws && t.raws[key].status == InReview
  }

  datatype Fate = Becomes | Disputes | Files

  /** What became of the record is one thing and no other. */
  ghost predicate Meets(s: State, r: Result, key: RawKey, id: nat, rule: int, fate: Fate)
    requires key in s.raws && FeedProvider(Record(s, key).feed).Some? && Tracked(s, id)
  {
    && r.Committed?
    && match fate
       case Becomes =>
         && Revises(s, r.state, key, id, rule) && Succeeds(s, r.state, key, id)
         && Concludes(s, r.state, r.outcome, key, Made(Record(s, key), key.account, id, s.activities[id].current + 1), Updated)
       case Disputes => Backs(s, r.state, key, id) && Disputed(s, r.state, key, id) && r.outcome == OutcomeReview
       case Files =>
         && Backs(s, r.state, key, id) && r.outcome == Duplicate && r.state.issues == s.issues
         && key in r.state.raws && r.state.raws[key].status == Done
  }

  // ---------------------------------------------------------------- mechanics

  lemma Steps(s: State, job: nat, key: RawKey, id: nat, rule: int)
    requires Arrives(s, job, key, id)
    ensures Normalize(s, true, job, key, rule) ==
      if Decide(s, key, Record(s, key), id, rule).replace then Replace(s, job, key, id, rule) else Corroborate(s, job, key, id, rule)
  {
    assert Normalize(s, true, job, key, rule) == Process(s, job, key, rule);
  }

  lemma RevisionIs(s: State, key: RawKey, id: nat, rule: int, upgrade: bool)
    requires key in s.raws && FeedProvider(Record(s, key).feed).Some? && Tracked(s, id)
    ensures var a := Made(Record(s, key), key.account, id, s.activities[id].current + 1);
      var t := ReviseActivity(s, key, a, rule, upgrade);
      && Revises(s, t, key, id, rule) && Succeeds(s, t, key, id)
      && t.issues.Keys == s.issues.Keys && t.nextIssue == s.nextIssue && key in t.raws
  {
    var a := Made(Record(s, key), key.account, id, s.activities[id].current + 1);
    ReviseRows(s, key, a, rule, upgrade);
    var t := ReviseActivity(s, key, a, rule, upgrade);
    assert CurrentKey(t, id) == RevisionKey(id, s.activities[id].current + 1);
  }

  lemma ConclusionIs(s: State, m: State, job: nat, key: RawKey, a: Activity, booked: Outcome)
    requires m.issues.Keys == s.issues.Keys && m.nextIssue == s.nextIssue && key in m.raws
    ensures var r := Conclude(m, job, key, a, booked);
      && Concludes(s, r.state, r.outcome, key, a, booked)
      && r.state.activities == m.activities && r.state.revisions == m.revisions && r.state.sources == m.sources
  {
    ConcludedIssues(m, job, key, a, booked);
    var t := Conclude(m, job, key, a, booked).state;
    if Unsettled(a.status) {
      OneMoreKey(s.issues, m.issues, t.issues, s.nextIssue, Issue(key.account, a.id, key, Review(a.status, a.warnings), true));
    }
  }

  lemma OneMoreKey(before: map<nat, Issue>, mid: map<nat, Issue>, after: map<nat, Issue>, n: nat, issue: Issue)
    requires before.Keys == mid.Keys && after == mid[n := issue]
    ensures after.Keys == before.Keys + {n} && after[n] == issue
  {
  }

  lemma ConcludedIssues(m: State, job: nat, key: RawKey, a: Activity, booked: Outcome)
    requires key in m.raws
    ensures var r := Conclude(m, job, key, a, booked);
      && key in r.state.raws
      && (Unsettled(a.status) ==>
            && r.state.issues == m.issues[m.nextIssue := Issue(key.account, a.id, key, Review(a.status, a.warnings), true)]
            && r.state.raws[key].status == ReviewStatus(a.status) && r.outcome == ReviewOutcome(a.status))
      && (!Unsettled(a.status) ==> r.state.issues == m.issues && r.state.raws[key].status == Done && r.outcome == booked)
  {
  }

  lemma ReplacingIs(s: State, job: nat, key: RawKey, id: nat, rule: int)
    requires Arrives(s, job, key, id) && Decide(s, key, Record(s, key), id, rule).replace
    ensures Meets(s, Normalize(s, true, job, key, rule), key, id, rule, Becomes)
  {
    Steps(s, job, key, id, rule);
    var a := Made(Record(s, key), key.account, id, s.activities[id].current + 1);
    var upgrade := Decide(s, key, Record(s, key), id, rule).upgrade;
    RevisionIs(s, key, id, rule, upgrade);
    var m := ReviseActivity(s, key, a, rule, upgrade);
    ConclusionIs(s, m, job, key, a, Updated);
    assert Replace(s, job, key, id, rule) == Conclude(m, job, key, a, Updated);
  }

  lemma ConflictIs(s: State, job: nat, key: RawKey, id: nat, rule: int)
    requires Arrives(s, job, key, id)
    requires !Decide(s, key, Record(s, key), id, rule).replace && Decide(s, key, Record(s, key), id, rule).conflict
    ensures Meets(s, Normalize(s, true, job, key, rule), key, id, rule, Disputes)
  {
    Steps(s, job, key, id, rule);
    LedgerReview.ConflictRaised(s, job, key, id, rule);
    RaisedIs(s, Corroborate(s, job, key, id, rule).state, key, id);
    OutcomeIs(s, job, key, id, rule);
  }

  lemma RaisedIs(s: State, t: State, key: RawKey, id: nat)
    requires key in s.raws && FeedProvider(Record(s, key).feed).Some? && Tracked(s, id)
    requires t.activities == s.activities && t.revisions == s.revisions
    requires t.sources == AddEvidence(s, SourceKey(CurrentKey(s, id), key)).sources
    requires t.issues == s.issues[s.nextIssue := ConflictIssue(s, key, id, Proposal(key, Record(s, key), id, s.activities[id].current))]
    requires key in t.raws && t.raws[key] == s.raws[key].(status := InReview)
    ensures Backs(s, t, key, id) && Disputed(s, t, key, id)
  {
  }

  lemma OutcomeIs(s: State, job: nat, key: RawKey, id: nat, rule: int)
    requires key in s.raws && FeedProvider(Record(s, key).feed).Some? && Tracked(s, id)
    requires Decide(s, key, Record(s, key), id, rule).conflict
    ensures Corroborate(s, job, key, id, rule).outcome == OutcomeReview
  {
  }

  lemma FilingIs(s: State, job: nat, key: RawKey, id: nat, rule: int)
    requires Arrives(s, job, key, id)
    requires Decide(s, key, Record(s, key), id, rule) == Verdict(false, false, false)
    ensures Meets(s, Normalize(s, true, job, key, rule), key, id, rule, Files)
  {
    Steps(s, job, key, id, rule);
  }

  function FateOf(verdict: Verdict): Fate {
    if verdict.replace then Becomes else if verdict.conflict then Disputes else Files
  }

  /** Whatever the verdict, the record meets the fate that it names. */
  lemma VerdictIs(s: State, job: nat, key: RawKey, id: nat, rule: int, verdict: Verdict)
    requires Arrives(s, job, key, id) && verdict == Decide(s, key, Record(s, key), id, rule) && !verdict.upgrade
    ensures Meets(s, Normalize(s, true, job, key, rule), key, id, rule, FateOf(verdict))
  {
    if verdict.replace {
      ReplacingIs(s, job, key, id, rule);
    } else if verdict.conflict {
      ConflictIs(s, job, key, id, rule);
    } else {
      FilingIs(s, job, key, id, rule);
    }
  }

  lemma {:induction false} WarningsFiltered(warnings: seq<string>)
    ensures WithoutWarning(warnings, UNKNOWN_BASIS) == Folds.Filter(w => w != UNKNOWN_BASIS, warnings)
    decreases |warnings|
  {
    if warnings != [] {
      WarningsFiltered(warnings[1..]);
      FilterFirst(warnings, w => w != UNKNOWN_BASIS);
    }
  }

  lemma {:induction false} FilterFirst<T>(xs: seq<T>, p: T -> bool)
    requires xs != []
    ensures Folds.Filter(p, xs) == (if p(xs[0]) then [xs[0]] else []) + Folds.Filter(p, xs[1..])
    decreases |xs|
  {
    var n := |xs| - 1;
    if n > 0 {
      FilterFirst(xs[..n], p);
      assert xs[..n][1..] == xs[1..][..n - 1] && xs[..n][0] == xs[0] && xs[1..][n - 1] == xs[n];
    }
  }

  lemma LotsAre(costs: seq<CostAdjustment>)
    ensures (forall i :: 0 <= i < |costs| ==>
               costs[i].allocation == "reported_transfer_lots" && costs[i].basisDelta.Some? && costs[i].evidence != "")
      == (forall c :: c in costs ==> c.allocation == "reported_transfer_lots" && c.basisDelta != None && c.evidence != "")
  {
  }

  lemma EnrichmentIs(prior: Activity, next: Activity)
    ensures CostOnlyEnrichment(prior, next) <==> AddsLotCosts(prior, next)
  {
    WarningsFiltered(prior.warnings);
    LotsAre(next.costs);
  }

  // --------------------------------------------------------------------- laws

  lemma AcceptedVerdict(s: State, key: RawKey, id: nat, rule: int)
    requires key in s.raws && Reaches(s, key, id) && !DuplicateLinked(s, id) && Current(s, id).priority == 100
    ensures var time, prior := Record(s, key).time, Current(s, id).time;
      var verdict := Decide(s, key, Record(s, key), id, rule);
      var disputed := IsReport(Record(s, key).feed) && Differs(s, key, id) && (OrderUnknown(time, prior) || Follows(time, prior));
      FateOf(verdict) == (if disputed then Disputes else Files) && !verdict.upgrade
  {
  }

  /** Against a revision that an operator accepted, a report of other content is
    disputed if it is later or the order is unknown; everything else is filed. */
  lemma AcceptedIsDisputedExactly(s: State, job: nat, key: RawKey, id: nat, rule: int)
    requires Arrives(s, job, key, id) && !DuplicateLinked(s, id) && Current(s, id).priority == 100
    ensures var time, prior := Record(s, key).time, Current(s, id).time;
      var disputed := IsReport(Record(s, key).feed) && Differs(s, key, id) && (OrderUnknown(time, prior) || Follows(time, prior));
      Meets(s, Normalize(s, true, job, key, rule), key, id, rule, if disputed then Disputes else Files)
  {
    AcceptedVerdict(s, key, id, rule);
    VerdictIs(s, job, key, id, rule, Decide(s, key, Record(s, key), id, rule));
  }

  lemma EqualRankVerdict(s: State, key: RawKey, id: nat, rule: int)
    requires key in s.raws && Reaches(s, key, id) && !DuplicateLinked(s, id) && Current(s, id).priority == RankOf(Record(s, key).feed)
    requires !Rereads(s, key, id, rule) && !Enriches(s, key, id)
    ensures var time, prior := Record(s, key).time, Current(s, id).time;
      var verdict := Decide(s, key, Record(s, key), id, rule);
      && !verdict.upgrade
      && FateOf(verdict) ==
           if !Differs(s, key, id) then Files
           else if Follows(time, prior) then Becomes
           else if OrderUnknown(time, prior) then Disputes
           else Files
  {
    EnrichmentIs(Current(s, id).payload, Made(Record(s, key), key.account, id, s.activities[id].current + 1));
  }

  /** Of two observations of equal rank the later one holds. If nothing says which
    is later they are disputed, and an earlier one is filed. */
  lemma EqualRankExactly(s: State, job: nat, key: RawKey, id: nat, rule: int)
    requires Arrives(s, job, key, id) && !DuplicateLinked(s, id) && Current(s, id).priority == RankOf(Record(s, key).feed)
    requires !Rereads(s, key, id, rule) && !Enriches(s, key, id)
    ensures var time, prior := Record(s, key).time, Current(s, id).time;
      Meets(s, Normalize(s, true, job, key, rule), key, id, rule,
            if !Differs(s, key, id) then Files
            else if Follows(time, prior) then Becomes
            else if OrderUnknown(time, prior) then Disputes
            else Files)
  {
    EqualRankVerdict(s, key, id, rule);
    VerdictIs(s, job, key, id, rule, Decide(s, key, Record(s, key), id, rule));
  }

  /** A report replaces what a feed of lower rank said, whenever that was. */
  lemma ReportReplacesFeed(s: State, job: nat, key: RawKey, id: nat, rule: int)
    requires Arrives(s, job, key, id) && !DuplicateLinked(s, id) && !Rereads(s, key, id, rule)
    requires Current(s, id).priority == 10 && IsReport(Record(s, key).feed)
    ensures Meets(s, Normalize(s, true, job, key, rule), key, id, rule, if Differs(s, key, id) then Becomes else Files)
  {
    VerdictIs(s, job, key, id, rule, Decide(s, key, Record(s, key), id, rule));
  }

  lemma LowerVerdict(s: State, key: RawKey, id: nat, rule: int)
    requires key in s.raws && Reaches(s, key, id) && !Rereads(s, key, id, rule)
    requires
      || DuplicateLinked(s, id)
      || Current(s, id).priority == 1000
      || (Current(s, id).priority == 30 && !IsReport(Record(s, key).feed))
    ensures var v := Decide(s, key, Record(s, key), id, rule);
      !v.replace && !v.conflict
  {
  }

  /** A feed of lower rank never changes what a report said, nor anything what an
    operator reviewed, nor anything an activity that was found to be a duplicate. */
  lemma LowerIsFiled(s: State, job: nat, key: RawKey, id: nat, rule: int)
    requires Arrives(s, job, key, id) && !Rereads(s, key, id, rule)
    requires
      || DuplicateLinked(s, id)
      || Current(s, id).priority == 1000
      || (Current(s, id).priority == 30 && !IsReport(Record(s, key).feed))
    ensures Meets(s, Normalize(s, true, job, key, rule), key, id, rule, Files)
  {
    LowerVerdict(s, key, id, rule);
    VerdictIs(s, job, key, id, rule, Decide(s, key, Record(s, key), id, rule));
  }

  lemma LotCostsVerdict(s: State, key: RawKey, id: nat, rule: int)
    requires key in s.raws && Reaches(s, key, id) && !DuplicateLinked(s, id) && !Rereads(s, key, id, rule)
    requires Current(s, id).priority <= RankOf(Record(s, key).feed) && Enriches(s, key, id)
    ensures Decide(s, key, Record(s, key), id, rule) == Verdict(true, false, false)
  {
    EnrichmentIs(Current(s, id).payload, Made(Record(s, key), key.account, id, s.activities[id].current + 1));
  }

  /** What a transfer's lots cost is taken over from any source of no lower rank, whenever it came. */
  lemma LotCostsAreTaken(s: State, job: nat, key: RawKey, id: nat, rule: int)
    requires Arrives(s, job, key, id) && !DuplicateLinked(s, id) && !Rereads(s, key, id, rule)
    requires Current(s, id).priority <= RankOf(Record(s, key).feed) && Enriches(s, key, id)
    ensures Meets(s, Normalize(s, true, job, key, rule), key, id, rule, Becomes)
  {
    LotCostsVerdict(s, key, id, rule);
    VerdictIs(s, job, key, id, rule, Decide(s, key, Record(s, key), id, rule));
  }

  // ------------------------------------------------------------- read again

  /** Every issue about the row is closed, and no other changes. */
  predicate IssuesOf(s: State, t: State, key: RawKey) {
    forall i :: i in s.issues ==>
      i in t.issues && t.issues[i] == (if s.issues[i].raw == key then s.issues[i].(open := false) else s.issues[i])
  }

  lemma ClosedIssues(s: State, job: nat, key: RawKey, id: nat, rule: int)
    requires Arrives(s, job, key, id) && LedgerReview.IssuesNumbered(s)
    requires Decide(s, key, Record(s, key), id, rule).replace && Decide(s, key, Record(s, key), id, rule).upgrade
    ensures IssuesOf(s, Normalize(s, true, job, key, rule).state, key)
  {
    Steps(s, job, key, id, rule);
    var a := Made(Record(s, key), key.account, id, s.activities[id].current + 1);
    ConcludedIssues(ReviseActivity(s, key, a, rule, true), job, key, a, Updated);
  }

  /** A newer parser's reading of the record behind the current revision becomes the
    next revision if it differs, whatever its rank and time, and settles all doubts
    about the row. If it does not differ, or the activity is a known duplicate, the
    books stay as they are and the row is as settled as its own reading. */
  lemma RereadingExactly(s: State, job: nat, key: RawKey, id: nat, rule: int)
    requires Arrives(s, job, key, id) && LedgerReview.IssuesNumbered(s) && Rereads(s, key, id, rule)
    ensures var r := Normalize(s, true, job, key, rule);
      var status := Record(s, key).booked.status;
      if !DuplicateLinked(s, id) && Differs(s, key, id)
      then Meets(s, r, key, id, rule, Becomes) && IssuesOf(s, r.state, key)
      else
        && r.Committed? && Backs(s, r.state, key, id) && r.state.issues == s.issues && key in r.state.raws
        && r.state.raws[key].status == (if status == NeedsReview then InReview else if status == Unsupported then NotSupported else Done)
        && r.outcome == (if status == NeedsReview then OutcomeReview else if status == Unsupported then OutcomeUnsupported else Duplicate)
  {
    RereadVerdict(s, key, id, rule);
    if Decide(s, key, Record(s, key), id, rule).replace {
      ReplacingIs(s, job, key, id, rule);
      ClosedIssues(s, job, key, id, rule);
    } else {
      SameReading(s, job, key, id, rule);
    }
  }

  lemma RereadVerdict(s: State, key: RawKey, id: nat, rule: int)
    requires key in s.raws && Reaches(s, key, id) && Rereads(s, key, id, rule)
    ensures Decide(s, key, Record(s, key), id, rule) == Verdict(!DuplicateLinked(s, id) && Differs(s, key, id), false, true)
  {
  }

  lemma SameReading(s: State, job: nat, key: RawKey, id: nat, rule: int)
    requires Arrives(s, job, key, id) && Decide(s, key, Record(s, key), id, rule) == Verdict(false, false, true)
    ensures var r := Normalize(s, true, job, key, rule);
      var status := Record(s, key).booked.status;
      && r.Committed? && Backs(s, r.state, key, id) && r.state.issues == s.issues && key in r.state.raws
      && r.state.raws[key].status == (if status == NeedsReview then InReview else if status == Unsupported then NotSupported else Done)
      && r.outcome == (if status == NeedsReview then OutcomeReview else if status == Unsupported then OutcomeUnsupported else Duplicate)
  {
    Steps(s, job, key, id, rule);
  }

  // ------------------------------------------------------------ first booking

  /** One of the identities, not blank, belongs to the activity. */
  predicate Names(s: State, account: nat, keys: seq<IdentityKey>, id: nat) {
    exists i :: 0 <= i < |keys| && OwnedBy(s, account, keys[i], id)
  }

  predicate OwnedBy(s: State, account: nat, key: IdentityKey, id: nat) {
    key.external != "" && OwnedKey(account, key) in s.identities && s.identities[OwnedKey(account, key)] == id
  }

  lemma NamesNext(s: State, account: nat, keys: seq<IdentityKey>, n: nat, id: nat)
    requires n + 1 == |keys|
    ensures Names(s, account, keys, id) <==> Names(s, account, keys[..n], id) || OwnedBy(s, account, keys[n], id)
  {
    assert forall i :: 0 <= i < n ==> keys[..n][i] == keys[i];
    if Names(s, account, keys[..n], id) {
      var i :| 0 <= i < n && OwnedBy(s, account, keys[..n][i], id);
      assert OwnedBy(s, account, keys[i], id);
    }
  }

  /** Identities lead nowhere, to the one activity that all of them name, or to a clash between two. */
  ghost predicate LeadsTo(s: State, account: nat, keys: seq<IdentityKey>, m: Match) {
    match m
    case Unmatched => forall id :: !Names(s, account, keys, id)
    case Matched(found) => forall id :: Names(s, account, keys, id) <==> id == found
    case Clash => Contradicts(s, account, keys)
  }

  lemma {:induction false} FindExactly(s: State, account: nat, keys: seq<IdentityKey>)
    ensures LeadsTo(s, account, keys, FindActivity(s, account, keys))
    decreases |keys|
  {
    if keys != [] {
      var n := |keys| - 1;
      FindExactly(s, account, keys[..n]);
      forall id ensures Names(s, account, keys, id) <==> Names(s, account, keys[..n], id) || OwnedBy(s, account, keys[n], id) {
        NamesNext(s, account, keys, n, id);
      }
      FoundNext(s, account, keys, n);
    }
  }

  lemma FoundNext(s: State, account: nat, keys: seq<IdentityKey>, n: nat)
    requires n + 1 == |keys| && LeadsTo(s, account, keys[..n], FindActivity(s, account, keys[..n]))
    requires forall id :: Names(s, account, keys, id) <==> Names(s, account, keys[..n], id) || OwnedBy(s, account, keys[n], id)
    ensures LeadsTo(s, account, keys, FindActivity(s, account, keys))
  {
    var owned := OwnedKey(account, keys[n]);
    if FindActivity(s, account, keys).Clash? {
      if FindActivity(s, account, keys[..n]).Matched? {
        assert Names(s, account, keys, FindActivity(s, account, keys[..n]).id) && Names(s, account, keys, s.identities[owned]);
      } else {
        var a, b :| a != b && Names(s, account, keys[..n], a) && Names(s, account, keys[..n], b);
        assert Names(s, account, keys, a) && Names(s, account, keys, b);
      }
    }
  }

  /** Another activity of the account looks the same. */
  predicate LooksLike(s: State, account: nat, a: Activity, other: nat) {
    && other in s.activities && Tracked(s, other) && s.activities[other].account == account
    && Current(s, other).payload.legs == a.legs && Current(s, other).payload.tradeDate == a.tradeDate
    && Current(s, other).payload.kind == a.kind
  }

  /** A principal record of the activity came from another family of sources; imports and downloads of reports are one. */
  predicate FromElsewhere(s: State, other: nat, feed: Feed) {
    exists k :: k in s.sources && k.revision.activity == other && s.sources[k] == Principal &&
      k.raw in s.raws && !SameFamily(s.raws[k.raw].source, feed)
  }

  predicate SameFamily(a: Feed, b: Feed) {
    a == b || (IsReport(a) && IsReport(b))
  }

  /** The activity has an identity of the same namespace and kind as one of the record's. */
  predicate ToldApart(s: State, other: nat, identities: seq<IdentityKey>) {
    exists o, k :: o in s.identities && s.identities[o] == other && k in identities &&
      o.key.namespace == k.namespace && o.key.kind == k.kind
  }

  /** The record may be a second report of what is booked already. */
  predicate MayBeHeld(s: State, account: nat, record: RawRecord, a: Activity) {
    exists other :: other in s.activities && LooksLike(s, account, a, other) && NotToldApart(s, record, other)
  }

  predicate NotToldApart(s: State, record: RawRecord, other: nat) {
    record.identities == [] || (FromElsewhere(s, other, record.feed) && !ToldApart(s, other, record.identities))
  }

  /** The activity as first booked: in doubt if it takes effect and may be held already. */
  function FirstMade(s: State, key: RawKey): Activity
    requires key in s.raws && FeedProvider(Record(s, key).feed).Some?
  {
    var a := Made(Record(s, key), key.account, s.nextActivity, 1);
    if a.status == Effective && MayBeHeld(s, key.account, Record(s, key), a)
    then a.(status := NeedsReview, warnings := a.warnings + ["ambiguous_duplicate"]) else a
  }

  lemma DoubtIs(s: State, account: nat, record: RawRecord, a: Activity)
    requires a.id !in s.activities
    ensures WeakDuplicate(s, account, record, a) <==> MayBeHeld(s, account, record, a)
  {
    forall other | other in s.activities
      ensures Lookalike(s, account, a, other) <==> LooksLike(s, account, a, other)
      ensures FromAnotherFamily(s, other, record.feed) <==> FromElsewhere(s, other, record.feed)
      ensures ComparableIds(s, other, record.identities) <==> ToldApart(s, other, record.identities)
    {
      ComparableIs(s, other, record.identities);
    }
  }

  lemma ComparableIs(s: State, other: nat, identities: seq<IdentityKey>)
    ensures ComparableIds(s, other, identities) <==> ToldApart(s, other, identities)
  {
    if ToldApart(s, other, identities) {
      var o, k :| o in s.identities && s.identities[o] == other && k in identities &&
        o.key.namespace == k.namespace && o.key.kind == k.kind;
      var i :| 0 <= i < |identities| && identities[i] == k;
      assert o.key.namespace == identities[i].namespace;
    }
  }

  /** Identities that are not blank and nobody's yet become the activity's; all others stay. */
  predicate Learned(before: map<OwnedKey, nat>, after: map<OwnedKey, nat>, account: nat, keys: seq<IdentityKey>, id: nat) {
    && (forall o :: o in before ==> o in after && after[o] == before[o])
    && (forall o :: o in after && o !in before ==> o.account == account && o.key in keys && o.key.external != "" && after[o] == id)
    && (forall k :: k in keys && k.external != "" ==> OwnedKey(account, k) in after)
  }

  lemma {:induction false} AddingLearns(before: map<OwnedKey, nat>, account: nat, keys: seq<IdentityKey>, id: nat)
    ensures Learned(before, AddIdentities(before, account, keys, id), account, keys, id)
    decreases |keys|
  {
    if keys != [] {
      var n := |keys| - 1;
      AddingLearns(before, account, keys[..n], id);
      assert forall k :: k in keys ==> k in keys[..n] || k == keys[n];
    }
  }

  /** A pending record, first seen by this job, whose identities lead nowhere. */
  ghost predicate ArrivesNew(s: State, job: nat, key: RawKey) {
    && Valid(s) && IsFresh(s, true, job, key)
    && FeedProvider(Record(s, key).feed).Some?
    && (Record(s, key).claimed.Some? ==> Record(s, key).claimed == FeedProvider(Record(s, key).feed))
    && forall id :: !Names(s, key.account, RecordKeys(key, Record(s, key)), id)
  }

  lemma StartIs(s: State, key: RawKey, a: Activity, rule: int)
    requires key in s.raws && a.id == s.nextActivity && a.revision == 1
    ensures var n, record := s.nextActivity, Record(s, key);
      var t := StartActivity(s, key, a, rule);
      && t.activities == s.activities[n := ActivityRow(key.account, 1)]
      && t.revisions == s.revisions[RevisionKey(n, 1) := Revision(a, RankOf(record.feed), record.time, rule)]
      && t.sources == s.sources[SourceKey(RevisionKey(n, 1), key) := Principal]
      && t.issues.Keys == s.issues.Keys && t.nextIssue == s.nextIssue && key in t.raws
      && t.identities == AddIdentities(s.identities, key.account, RecordKeys(key, record), n)
  {
    var started, record := StartRow(s, key.account), Record(s, key);
    var source := SourceKey(RevisionKey(a.id, 1), key);
    UnionOne(s.sources, source, Principal);
    SetTwice(s.activities, a.id, ActivityRow(key.account, 0), ActivityRow(key.account, 1));
    var m := AddRevision(started, a.id, Revision(a, FeedPriority(record.feed), record.time, rule), map[source := Principal], EarliestOf(a));
    assert StartActivity(s, key, a, rule) == Learn(m, key, record, a.id);
  }

  lemma UnionOne<K, V>(m: map<K, V>, k: K, v: V)
    ensures m + map[k := v] == m[k := v]
  {
  }

  lemma SetTwice<K, V>(m: map<K, V>, k: K, v: V, w: V)
    ensures m[k := v][k := w] == m[k := w]
  {
  }

  lemma UnledIs(s: State, account: nat, keys: seq<IdentityKey>)
    requires forall id :: !Names(s, account, keys, id)
    ensures FindActivity(s, account, keys) == Unmatched
  {
    LedIs(s, account, keys);
  }

  lemma LedIs(s: State, account: nat, keys: seq<IdentityKey>)
    ensures FindActivity(s, account, keys).Matched? ==> Names(s, account, keys, FindActivity(s, account, keys).id)
    ensures FindActivity(s, account, keys).Clash? ==> exists id :: Names(s, account, keys, id)
  {
    FindExactly(s, account, keys);
  }

  lemma FirstIs(s: State, key: RawKey)
    requires Valid(s) && key in s.raws && FeedProvider(Record(s, key).feed).Some?
    ensures Quarantine(s, key.account, Record(s, key), Proposal(key, Record(s, key), s.nextActivity, 0)) == FirstMade(s, key)
    ensures FirstMade(s, key).id == s.nextActivity && FirstMade(s, key).revision == 1
  {
    DoubtIs(s, key.account, Record(s, key), Made(Record(s, key), key.account, s.nextActivity, 1));
  }

  lemma BookingSteps(s: State, job: nat, key: RawKey, rule: int)
    requires ArrivesNew(s, job, key)
    ensures FirstMade(s, key).id == s.nextActivity && FirstMade(s, key).revision == 1
    ensures Normalize(s, true, job, key, rule) == Conclude(StartActivity(s, key, FirstMade(s, key), rule), job, key, FirstMade(s, key), Added)
  {
    UnledIs(s, key.account, RecordKeys(key, Record(s, key)));
    FirstIs(s, key);
    assert Normalize(s, true, job, key, rule) == Process(s, job, key, rule) == Book(s, job, key, rule);
  }

  /** A record that no identity leads anywhere starts an activity of its own, under
    its own rank and time and with itself as principal. It is booked in doubt
    exactly if it may be a second report of something held, and from then on all
    its identities lead somewhere, those that were free to the new activity. */
  lemma FirstBookingExactly(s: State, job: nat, key: RawKey, rule: int)
    requires ArrivesNew(s, job, key)
    ensures var r, n, a := Normalize(s, true, job, key, rule), s.nextActivity, FirstMade(s, key);
      && r.Committed?
      && r.state.activities == s.activities[n := ActivityRow(key.account, 1)]
      && r.state.revisions == s.revisions[RevisionKey(n, 1) := Revision(a, RankOf(Record(s, key).feed), Record(s, key).time, rule)]
      && r.state.sources == s.sources[SourceKey(RevisionKey(n, 1), key) := Principal]
      && Concludes(s, r.state, r.outcome, key, a, Added)
      && Learned(s.identities, r.state.identities, key.account, RecordKeys(key, Record(s, key)), n)
  {
    BookingSteps(s, job, key, rule);
    StartIs(s, key, FirstMade(s, key), rule);
    ConclusionIs(s, StartActivity(s, key, FirstMade(s, key), rule), job, key, FirstMade(s, key), Added);
    AddingLearns(s.identities, key.account, RecordKeys(key, Record(s, key)), s.nextActivity);
  }

  /** Every further observation teaches the activity its identities, whatever else becomes of it. */
  lemma ArrivalLearns(s: State, job: nat, key: RawKey, id: nat, rule: int)
    requires Arrives(s, job, key, id)
    ensures Learned(s.identities, Normalize(s, true, job, key, rule).state.identities, key.account, RecordKeys(key, Record(s, key)), id)
  {
    Steps(s, job, key, id, rule);
    AddingLearns(s.identities, key.account, RecordKeys(key, Record(s, key)), id);
  }

  /** Why a pending record is refused: an unknown feed, a provider that contradicts
    it, or identities of two activities. Nothing else refuses one under its lease. */
  lemma RefusedExactly(s: State, job: nat, key: RawKey, rule: int)
    requires Valid(s) && IsFresh(s, true, job, key)
    ensures var r, record := Normalize(s, true, job, key, rule), Record(s, key);
      if record.feed == UnknownFeed then r == Rejected(SourceNotSupported)
      else if record.claimed.Some? && record.claimed != Some(ProviderOf(record.feed)) then r == Rejected(ProviderMismatch)
      else if Contradicts(s, key.account, RecordKeys(key, record)) then r == Rejected(IdentityConflict)
      else r.Committed?
  {
    var record := Record(s, key);
    FindExactly(s, key.account, RecordKeys(key, record));
    FoundIsTracked(s, key.account, RecordKeys(key, record));
    FreshIsProcessed(s, job, key, rule);
    ProcessRefuses(s, job, key, rule, FindActivity(s, key.account, RecordKeys(key, record)));
  }

  lemma FreshIsProcessed(s: State, job: nat, key: RawKey, rule: int)
    requires IsFresh(s, true, job, key)
    ensures Normalize(s, true, job, key, rule) == Process(s, job, key, rule)
  {
  }

  lemma ProcessRefuses(s: State, job: nat, key: RawKey, rule: int, m: Match)
    requires key in s.raws && m == FindActivity(s, key.account, RecordKeys(key, Record(s, key)))
    requires m.Matched? ==> Tracked(s, m.id)
    ensures var r, record := Process(s, job, key, rule), Record(s, key);
      if record.feed == UnknownFeed then r == Rejected(SourceNotSupported)
      else if record.claimed.Some? && record.claimed != Some(ProviderOf(record.feed)) then r == Rejected(ProviderMismatch)
      else if m.Clash? then r == Rejected(IdentityConflict)
      else r.Committed?
  {
  }

  ghost predicate Contradicts(s: State, account: nat, keys: seq<IdentityKey>) {
    exists a, b :: a != b && Names(s, account, keys, a) && Names(s, account, keys, b)
  }

  function ProviderOf(feed: Feed): Provider
    requires feed != UnknownFeed
  {
    if feed == Schwab then SchwabBroker else if feed == Alpaca then AlpacaBroker else Ibkr
  }
}

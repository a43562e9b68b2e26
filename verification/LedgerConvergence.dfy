/** Observations of one event may arrive in any order, in any jobs and among any
  unrelated records: the ledger settles on the best of them. */
module LedgerConvergence {
  import opened Activities
  import opened Ledger
  import opened LedgerInvariant
  import LedgerRuns
  import LedgerPriority

  // ---------------------------------------------------------------- ranking

  /** A higher-ranked feed wins; within a rank, the later source time. */
  predicate Outranks(a: RawRecord, b: RawRecord) {
    FeedPriority(a.feed) > FeedPriority(b.feed) ||
    (FeedPriority(a.feed) == FeedPriority(b.feed) && Newer(a.time, b.time))
  }

  /** What an activity does, without the labels that the ledger itself gives it. */
  function Effects(a: Activity): Activity {
    a.(id := 0, account := 0, provider := Ibkr, providerAccount := "", status := Effective, warnings := [], revision := 0)
  }

  /** `b` is `a` with lot costs added. */
  predicate CostOnlyPair(a: Activity, b: Activity) {
    a.kind == "security_transfer" && a.costs == [] && b.costs != [] && Effects(b.(costs := [])) == Effects(a)
  }

  /** Two observations that the replacement rules can tell apart and order. */
  predicate Comparable(a: RawRecord, b: RawRecord) {
    && (Outranks(a, b) || Outranks(b, a))
    && Effects(a.booked) != Effects(b.booked)
    && !CostOnlyPair(a.booked, b.booked)
    && !CostOnlyPair(b.booked, a.booked)
  }

  predicate Processable(record: RawRecord) {
    FeedProvider(record.feed).Some? && (record.claimed.Some? ==> record.claimed == FeedProvider(record.feed))
  }

  function Record(s: State, key: RawKey): RawRecord
    requires key in s.raws
  {
    s.raws[key].record
  }

  predicate Unheld(s: State, account: nat, keys: seq<IdentityKey>) {
    forall i :: 0 <= i < |keys| && keys[i].external != "" ==> OwnedKey(account, keys[i]) !in s.identities
  }

  predicate HeldBy(s: State, account: nat, keys: seq<IdentityKey>, id: nat) {
    forall i :: 0 <= i < |keys| && keys[i].external != "" && OwnedKey(account, keys[i]) in s.identities ==>
      s.identities[OwnedKey(account, keys[i])] == id
  }

  /** Observations of one event: they share an identity, and the rules can tell and order any two of them. */
  datatype Lineage = Lineage(account: nat, shared: IdentityKey, rule: int, records: map<RawKey, RawRecord>)

  ghost predicate WellFormed(l: Lineage) {
    && l.shared.external != ""
    && (forall k :: k in l.records ==>
          k.account == l.account && Processable(l.records[k]) && l.shared in RecordKeys(k, l.records[k]))
    && (forall a, b :: a in l.records && b in l.records && a != b ==> Comparable(l.records[a], l.records[b]))
  }

  /** An identity that some observation of the lineage carries. */
  predicate Mine(l: Lineage, o: OwnedKey) {
    o.account == l.account && o.key.external != "" && exists k :: k in l.records && o.key in RecordKeys(k, l.records[k])
  }

  /** A record that shares no identity with the lineage. */
  ghost predicate Apart(l: Lineage, key: RawKey, record: RawRecord) {
    forall i :: i in RecordKeys(key, record) ==> !Mine(l, OwnedKey(key.account, i))
  }

  /** The steps of a run: any job may save and normalise an observation of the
    lineage, any number of times, and may do what it likes with unrelated records. */
  ghost predicate Belongs(l: Lineage, step: Step) {
    match step
    case Save(_, key, record, rule) =>
      if key in l.records then record == l.records[key] && rule == l.rule else Apart(l, key, record)
    case Normalise(_, _, key, rule) => key in l.records ==> rule == l.rule
    case Resolve(_, _, _) => false
    case Accept(_, _) => false
  }

  // -------------------------------------------------------- identity lookup

  lemma {:induction false} FindNone(s: State, account: nat, keys: seq<IdentityKey>)
    requires Unheld(s, account, keys)
    ensures FindActivity(s, account, keys) == Unmatched
    decreases |keys|
  {
    if keys != [] {
      FindNone(s, account, keys[..|keys| - 1]);
    }
  }

  lemma {:induction false} FindHolder(s: State, account: nat, keys: seq<IdentityKey>, id: nat)
    requires HeldBy(s, account, keys, id)
    ensures FindActivity(s, account, keys) == Unmatched || FindActivity(s, account, keys) == Matched(id)
    ensures (exists i :: 0 <= i < |keys| && keys[i].external != "" && OwnedKey(account, keys[i]) in s.identities) ==>
      FindActivity(s, account, keys) == Matched(id)
    decreases |keys|
  {
    if keys != [] {
      var n := |keys| - 1;
      FindHolder(s, account, keys[..n], id);
      if i :| 0 <= i < |keys| && keys[i].external != "" && OwnedKey(account, keys[i]) in s.identities {
        if i < n {
          assert keys[..n][i] == keys[i];
        }
      }
    }
  }

  lemma {:induction false} IdentitiesLearnt(identities: map<OwnedKey, nat>, account: nat, keys: seq<IdentityKey>, id: nat, i: nat)
    requires i < |keys| && keys[i].external != ""
    ensures OwnedKey(account, keys[i]) in AddIdentities(identities, account, keys, id)
    decreases |keys|
  {
    if i < |keys| - 1 {
      assert keys[..|keys| - 1][i] == keys[i];
      IdentitiesLearnt(identities, account, keys[..|keys| - 1], id, i);
    }
  }

  // ------------------------------------------------------------ single steps

  /** `best` is the observation behind the current revision of `id`. */
  ghost predicate Leads(s: State, id: nat, best: RawKey, record: RawRecord, rule: int) {
    && Tracked(s, id)
    && Current(s, id).priority == FeedPriority(record.feed)
    && Current(s, id).time == record.time
    && Current(s, id).rule == rule
    && Effects(Current(s, id).payload) == Effects(record.booked)
    && IsPrincipal(s, CurrentKey(s, id), best)
  }

  predicate Unlinked(s: State, id: nat) {
    forall l :: l in s.links ==> l.duplicate != id
  }

  lemma StartLeads(s: State, key: RawKey, a: Activity, rule: int)
    requires key in s.raws && a.id == s.nextActivity && a.revision == 1
    requires Effects(a) == Effects(Record(s, key).booked)
    ensures var t := StartActivity(s, key, a, rule);
      && Leads(t, a.id, key, Record(s, key), rule)
      && t.identities == AddIdentities(s.identities, key.account, RecordKeys(key, Record(s, key)), a.id)
      && t.links == s.links
  {
    var t := StartActivity(s, key, a, rule);
    assert CurrentKey(t, a.id) == RevisionKey(a.id, 1);
  }

  lemma BookLeads(s: State, job: nat, key: RawKey, rule: int)
    requires key in s.raws && Processable(Record(s, key))
    ensures var t := Book(s, job, key, rule).state;
      && Leads(t, s.nextActivity, key, Record(s, key), rule)
      && t.identities == AddIdentities(s.identities, key.account, RecordKeys(key, Record(s, key)), s.nextActivity)
      && t.links == s.links
  {
    var record := Record(s, key);
    var a := Quarantine(s, key.account, record, Proposal(key, record, s.nextActivity, 0));
    assert Effects(a) == Effects(record.booked);
    StartLeads(s, key, a, rule);
    ConcludeLeads(StartActivity(s, key, a, rule), job, key, a, Added, s.nextActivity, key, record, rule);
  }

  lemma ConcludeLeads(
    s: State, job: nat, key: RawKey, a: Activity, outcome: Outcome, id: nat, best: RawKey, record: RawRecord, rule: int)
    requires key in s.raws && Leads(s, id, best, record, rule)
    ensures Leads(Conclude(s, job, key, a, outcome).state, id, best, record, rule)
  {
  }

  lemma ReviseLeads(s: State, key: RawKey, a: Activity, rule: int, upgrade: bool)
    requires key in s.raws && Tracked(s, a.id) && Effects(a) == Effects(Record(s, key).booked)
    ensures var t := ReviseActivity(s, key, a, rule, upgrade);
      && Leads(t, a.id, key, Record(s, key), rule)
      && t.identities == AddIdentities(s.identities, key.account, RecordKeys(key, Record(s, key)), a.id)
      && t.links == s.links
  {
    var t := ReviseActivity(s, key, a, rule, upgrade);
    assert CurrentKey(t, a.id) == RevisionKey(a.id, a.revision);
    assert SourceKey(CurrentKey(t, a.id), key) in t.sources;
  }

  lemma ReplaceLeads(s: State, job: nat, key: RawKey, id: nat, rule: int)
    requires key in s.raws && Processable(Record(s, key)) && Tracked(s, id)
    ensures var t := Replace(s, job, key, id, rule).state;
      && Leads(t, id, key, Record(s, key), rule)
      && t.identities == AddIdentities(s.identities, key.account, RecordKeys(key, Record(s, key)), id)
      && t.links == s.links
  {
    var record := Record(s, key);
    var a := Proposal(key, record, id, s.activities[id].current);
    var upgrade := Decide(s, key, record, id, rule).upgrade;
    ReviseLeads(s, key, a, rule, upgrade);
    ConcludeLeads(ReviseActivity(s, key, a, rule, upgrade), job, key, a, Updated, id, key, record, rule);
  }

  lemma CorroborateKeepsLead(s: State, job: nat, key: RawKey, id: nat, rule: int, best: RawKey, record: RawRecord)
    requires key in s.raws && Processable(Record(s, key)) && Leads(s, id, best, record, rule)
    ensures var t := Corroborate(s, job, key, id, rule).state;
      Leads(t, id, best, record, rule)
  {
    var known := Learn(AddEvidence(s, SourceKey(CurrentKey(s, id), key)), key, Record(s, key), id);
    assert Leads(known, id, best, record, rule);
    assert SameBooks(known, Corroborate(s, job, key, id, rule).state);
  }

  lemma CorroborateLearns(s: State, job: nat, key: RawKey, id: nat, rule: int)
    requires key in s.raws && Processable(Record(s, key)) && Tracked(s, id)
    ensures var t := Corroborate(s, job, key, id, rule).state;
      && t.identities == AddIdentities(s.identities, key.account, RecordKeys(key, Record(s, key)), id)
      && t.links == s.links
  {
  }

  lemma ProposalEffects(key: RawKey, record: RawRecord, id: nat, number: nat)
    requires FeedProvider(record.feed).Some?
    ensures Effects(Proposal(key, record, id, number)) == Effects(record.booked)
  {
  }

  lemma SameContentSameEffects(next: Activity, prior: Activity)
    requires SameContent(next, prior)
    ensures Effects(next) == Effects(prior)
  {
    assert Effects(next.(revision := prior.revision)) == Effects(next);
  }

  lemma EnrichmentIsCostOnly(next: Activity, prior: Activity, a: Activity, b: Activity)
    requires CostOnlyEnrichment(prior, next) && Effects(prior) == Effects(a) && Effects(next) == Effects(b)
    ensures CostOnlyPair(a, b)
  {
    assert Effects(prior.(warnings := WithoutWarning(prior.warnings, "transferred_cost_basis_unknown"))) == Effects(prior);
    assert Effects(next.(revision := prior.revision, costs := [])) == Effects(next).(costs := []);
    assert Effects(b.(costs := [])) == Effects(b).(costs := []);
    assert Effects(prior).kind == prior.kind && Effects(prior).costs == prior.costs && Effects(next).costs == next.costs;
    assert Effects(a).kind == a.kind && Effects(a).costs == a.costs && Effects(b).costs == b.costs;
  }

  /** Between comparable observations only rank decides. */
  lemma RankDecides(s: State, key: RawKey, record: RawRecord, id: nat, rule: int, best: RawKey, leader: RawRecord)
    requires Leads(s, id, best, leader, rule) && FeedProvider(record.feed).Some? && Unlinked(s, id)
    requires Comparable(leader, record)
    ensures Decide(s, key, record, id, rule).replace <==> Outranks(record, leader)
  {
    var prior := Current(s, id).payload;
    var next := Proposal(key, record, id, s.activities[id].current);
    ProposalEffects(key, record, id, s.activities[id].current);
    if SameContent(next, prior) {
      SameContentSameEffects(next, prior);
    }
    if CostOnlyEnrichment(prior, next) {
      EnrichmentIsCostOnly(next, prior, leader.booked, record.booked);
    }
  }

  // --------------------------------------------------------------- invariant

  /** Rows of the lineage hold its records; all other rows are unrelated. */
  ghost predicate EvidenceFits(l: Lineage, raws: map<RawKey, Raw>) {
    forall k :: k in raws ==>
      if k in l.records then raws[k].record == l.records[k] && raws[k].rule == l.rule else Apart(l, k, raws[k].record)
  }

  /** The observations of the lineage that have been normalised. */
  function Done(l: Lineage, raws: map<RawKey, Raw>): set<RawKey> {
    set k | k in l.records && k in raws && !raws[k].status.Pending?
  }

  /** The observation that outranks all the others. */
  ghost predicate BestOf(l: Lineage, done: set<RawKey>, best: RawKey) {
    && best in done && best in l.records
    && (forall k :: k in done && k != best ==> k in l.records && Outranks(l.records[best], l.records[k]))
  }

  ghost predicate Unstarted(l: Lineage, identities: map<OwnedKey, nat>) {
    forall o :: o in identities ==> !Mine(l, o)
  }

  /** The identities of the lineage, and only they, lead to `id`. */
  ghost predicate Identified(l: Lineage, identities: map<OwnedKey, nat>, id: nat) {
    && OwnedKey(l.account, l.shared) in identities
    && (forall o :: o in identities ==> (Mine(l, o) <==> identities[o] == id))
  }

  /** The best observation so far is behind the current revision of `id`. */
  ghost predicate Led(l: Lineage, t: State, id: nat, best: RawKey) {
    && BestOf(l, Done(l, t.raws), best)
    && Leads(t, id, best, l.records[best], l.rule)
    && Unlinked(t, id)
    && Identified(l, t.identities, id)
  }

  ghost predicate Converged(l: Lineage, t: State) {
    && Valid(t)
    && EvidenceFits(l, t.raws)
    && (if Done(l, t.raws) == {} then Unstarted(l, t.identities) else exists id, best :: Led(l, t, id, best))
  }

  // ------------------------------------------------------------------- tables

  /** What settling a record does to the evidence. */
  lemma SettlingDone(l: Lineage, t: State, u: State, job: nat, key: RawKey, outcome: Outcome)
    requires EvidenceFits(l, t.raws) && OnlySettles(t, u, job, key, outcome)
    ensures EvidenceFits(l, u.raws)
    ensures Done(l, u.raws) == if key in l.records then Done(l, t.raws) + {key} else Done(l, t.raws)
  {
  }

  lemma BestGrows(l: Lineage, done: set<RawKey>, best: RawKey, key: RawKey)
    requires BestOf(l, done, best) && key in l.records
    requires Outranks(l.records[key], l.records[best]) || Outranks(l.records[best], l.records[key])
    ensures BestOf(l, done + {key}, if Outranks(l.records[key], l.records[best]) then key else best)
  {
  }

  /** Learning the identities of one of its own records keeps a lineage identified. */
  lemma OwnIdentities(l: Lineage, identities: map<OwnedKey, nat>, key: RawKey, id: nat)
    requires WellFormed(l) && key in l.records
    requires forall o :: o in identities ==> (Mine(l, o) <==> identities[o] == id)
    ensures Identified(l, AddIdentities(identities, l.account, RecordKeys(key, l.records[key]), id), id)
  {
    var keys := RecordKeys(key, l.records[key]);
    IdentitiesKept(identities, l.account, keys, id);
    var i :| 0 <= i < |keys| && keys[i] == l.shared;
    IdentitiesLearnt(identities, l.account, keys, id, i);
  }

  /** An unrelated record brings none of the lineage's identities. */
  lemma OtherIdentities(l: Lineage, identities: map<OwnedKey, nat>, key: RawKey, record: RawRecord, other: nat)
    requires Apart(l, key, record)
    ensures var known := AddIdentities(identities, key.account, RecordKeys(key, record), other);
      && (Unstarted(l, identities) ==> Unstarted(l, known))
      && (forall id :: id != other && Identified(l, identities, id) ==> Identified(l, known, id))
  {
    IdentitiesKept(identities, key.account, RecordKeys(key, record), other);
  }

  lemma {:induction false} FoundByOwn(s: State, account: nat, keys: seq<IdentityKey>)
    ensures FindActivity(s, account, keys).Matched? ==>
      exists i :: 0 <= i < |keys| && keys[i].external != "" && OwnedKey(account, keys[i]) in s.identities &&
        s.identities[OwnedKey(account, keys[i])] == FindActivity(s, account, keys).id
    decreases |keys|
  {
    if keys != [] {
      var n := |keys| - 1;
      FoundByOwn(s, account, keys[..n]);
      var m := FindActivity(s, account, keys);
      if m.Matched? && m == FindActivity(s, account, keys[..n]) {
        var i :| 0 <= i < n && keys[..n][i].external != "" && OwnedKey(account, keys[..n][i]) in s.identities &&
          s.identities[OwnedKey(account, keys[..n][i])] == m.id;
        assert keys[i] == keys[..n][i];
      }
    }
  }

  /** An unrelated record never leads to the lineage's activity. */
  lemma OtherNotFound(l: Lineage, t: State, id: nat, key: RawKey, record: RawRecord)
    requires Identified(l, t.identities, id) && Apart(l, key, record)
    ensures FindActivity(t, key.account, RecordKeys(key, record)) != Matched(id)
  {
    FoundByOwn(t, key.account, RecordKeys(key, record));
  }

  lemma LeadsKept(t: State, u: State, id: nat, best: RawKey, record: RawRecord, rule: int)
    requires Leads(t, id, best, record, rule) && Grows(t, u) && LedgerPriority.Untouched(t, u, id)
    ensures Leads(u, id, best, record, rule)
  {
    assert CurrentKey(u, id) == CurrentKey(t, id);
  }

  // --------------------------------------------------------- unrelated records

  /** Tables that a processed record leaves to the identities it learnt. */
  lemma ProcessLearns(t: State, job: nat, key: RawKey, rule: int)
    requires key in t.raws && Process(t, job, key, rule).Committed?
    ensures var record := Record(t, key);
      var m := FindActivity(t, key.account, RecordKeys(key, record));
      var u := Process(t, job, key, rule).state;
      && !m.Clash?
      && u.links == t.links
      && u.identities == AddIdentities(t.identities, key.account, RecordKeys(key, record),
                                       if m.Matched? then m.id else t.nextActivity)
  {
    var m := FindActivity(t, key.account, RecordKeys(key, Record(t, key)));
    if m.Unmatched? {
      BookLeads(t, job, key, rule);
    } else if Decide(t, key, Record(t, key), m.id, rule).replace {
      ReplaceLeads(t, job, key, m.id, rule);
    } else {
      CorroborateLearns(t, job, key, m.id, rule);
    }
  }

  lemma OtherProcessed(l: Lineage, t: State, job: nat, key: RawKey, rule: int)
    requires Converged(l, t) && key in t.raws && key !in l.records && Process(t, job, key, rule).Committed?
    ensures Converged(l, Process(t, job, key, rule).state)
  {
    var u := Process(t, job, key, rule).state;
    var record := Record(t, key);
    var m := FindActivity(t, key.account, RecordKeys(key, record));
    var other := if m.Matched? then m.id else t.nextActivity;
    LedgerRuns.ProcessProgress(t, job, key, rule);
    SettlingDone(l, t, u, job, key, Process(t, job, key, rule).outcome);
    ProcessLearns(t, job, key, rule);
    OtherIdentities(l, t.identities, key, record, other);
    if Done(l, t.raws) != {} {
      var id, best :| Led(l, t, id, best);
      OtherNotFound(l, t, id, key, record);
      LedgerPriority.ProcessEffect(t, job, key, rule, id);
      LeadsKept(t, u, id, best, l.records[best], l.rule);
      assert Led(l, u, id, best);
    }
  }

  // ------------------------------------------------------------- own records

  lemma FirstProcessed(l: Lineage, t: State, job: nat, key: RawKey)
    requires WellFormed(l) && Converged(l, t) && key in l.records && key in t.raws && Done(l, t.raws) == {}
    ensures Process(t, job, key, l.rule).Committed? && Converged(l, Process(t, job, key, l.rule).state)
  {
    var keys := RecordKeys(key, l.records[key]);
    forall i | 0 <= i < |keys| && keys[i].external != "" ensures OwnedKey(l.account, keys[i]) !in t.identities {
      assert Mine(l, OwnedKey(l.account, keys[i]));
    }
    FindNone(t, l.account, keys);
    assert Process(t, job, key, l.rule) == Book(t, job, key, l.rule);
    BookLeads(t, job, key, l.rule);
    FirstLed(l, t, Book(t, job, key, l.rule).state, job, key, Book(t, job, key, l.rule).outcome);
    LedgerRuns.ProcessProgress(t, job, key, l.rule);
    assert Led(l, Book(t, job, key, l.rule).state, t.nextActivity, key);
  }

  /** What booking the first observation leaves behind. */
  lemma FirstLed(l: Lineage, t: State, u: State, job: nat, key: RawKey, outcome: Outcome)
    requires WellFormed(l) && Valid(t) && EvidenceFits(l, t.raws) && Unstarted(l, t.identities)
    requires key in l.records && Done(l, t.raws) == {} && OnlySettles(t, u, job, key, outcome)
    requires Leads(u, t.nextActivity, key, l.records[key], l.rule) && u.links == t.links
    requires u.identities == AddIdentities(t.identities, l.account, RecordKeys(key, l.records[key]), t.nextActivity)
    ensures EvidenceFits(l, u.raws) && Done(l, u.raws) == {key} && Led(l, u, t.nextActivity, key)
  {
    SettlingDone(l, t, u, job, key, outcome);
    FirstIdentified(l, t, key);
    LedByFirst(l, u, t.nextActivity, key);
  }

  lemma LedByFirst(l: Lineage, u: State, id: nat, key: RawKey)
    requires key in l.records && Done(l, u.raws) == {key} && Leads(u, id, key, l.records[key], l.rule)
    requires Unlinked(u, id) && Identified(l, u.identities, id)
    ensures Led(l, u, id, key)
  {
  }

  lemma FirstIdentified(l: Lineage, t: State, key: RawKey)
    requires WellFormed(l) && Valid(t) && Unstarted(l, t.identities) && key in l.records
    ensures Identified(l, AddIdentities(t.identities, l.account, RecordKeys(key, l.records[key]), t.nextActivity), t.nextActivity)
    ensures Unlinked(t, t.nextActivity)
  {
    forall o | o in t.identities ensures t.identities[o] != t.nextActivity {
      assert t.identities[o] in t.activities;
    }
    OwnIdentities(l, t.identities, key, t.nextActivity);
  }

  /** A further observation leads to the lineage's activity. */
  lemma OwnFound(l: Lineage, t: State, id: nat, key: RawKey)
    requires WellFormed(l) && key in l.records && Identified(l, t.identities, id)
    ensures FindActivity(t, l.account, RecordKeys(key, l.records[key])) == Matched(id)
  {
    var keys := RecordKeys(key, l.records[key]);
    forall i | 0 <= i < |keys| && keys[i].external != "" && OwnedKey(l.account, keys[i]) in t.identities
      ensures t.identities[OwnedKey(l.account, keys[i])] == id
    {
      assert Mine(l, OwnedKey(l.account, keys[i]));
    }
    var i :| 0 <= i < |keys| && keys[i] == l.shared;
    FindHolder(t, l.account, keys, id);
  }

  lemma ReplacementLeads(l: Lineage, t: State, job: nat, key: RawKey, id: nat)
    requires WellFormed(l) && key in l.records && key in t.raws && EvidenceFits(l, t.raws) && Tracked(t, id)
    requires Unlinked(t, id) && Identified(l, t.identities, id)
    requires BestOf(l, Done(l, t.raws) + {key}, key)
    ensures var r := Replace(t, job, key, id, l.rule); Led(l, r.state, id, key) && EvidenceFits(l, r.state.raws)
  {
    var r := Replace(t, job, key, id, l.rule);
    ReplaceLeads(t, job, key, id, l.rule);
    OwnIdentities(l, t.identities, key, id);
    SettlingDone(l, t, r.state, job, key, r.outcome);
  }

  lemma LeaderStays(l: Lineage, t: State, job: nat, key: RawKey, id: nat, best: RawKey)
    requires WellFormed(l) && key in l.records && key in t.raws && EvidenceFits(l, t.raws)
    requires Unlinked(t, id) && Identified(l, t.identities, id)
    requires best in l.records && Leads(t, id, best, l.records[best], l.rule)
    requires BestOf(l, Done(l, t.raws) + {key}, best)
    ensures var r := Corroborate(t, job, key, id, l.rule); Led(l, r.state, id, best) && EvidenceFits(l, r.state.raws)
  {
    var r := Corroborate(t, job, key, id, l.rule);
    CorroborateKeepsLead(t, job, key, id, l.rule, best, l.records[best]);
    CorroborateLearns(t, job, key, id, l.rule);
    OwnIdentities(l, t.identities, key, id);
    SettlingDone(l, t, r.state, job, key, r.outcome);
  }

  lemma MatchedVerdict(t: State, job: nat, key: RawKey, id: nat, rule: int)
    requires key in t.raws && Processable(Record(t, key)) && Tracked(t, id)
    requires FindActivity(t, key.account, RecordKeys(key, Record(t, key))) == Matched(id)
    ensures Process(t, job, key, rule) ==
      if Decide(t, key, Record(t, key), id, rule).replace then Replace(t, job, key, id, rule) else Corroborate(t, job, key, id, rule)
  {
  }

  /** One more observation: the better of it and the leader leads. */
  lemma NextProcessed(l: Lineage, t: State, job: nat, key: RawKey, id: nat, best: RawKey)
    requires WellFormed(l) && EvidenceFits(l, t.raws) && Led(l, t, id, best)
    requires key in l.records && key in t.raws && key != best
    ensures var leader := if Outranks(l.records[key], l.records[best]) then key else best;
      && Process(t, job, key, l.rule).Committed?
      && Led(l, Process(t, job, key, l.rule).state, id, leader)
      && EvidenceFits(l, Process(t, job, key, l.rule).state.raws)
  {
    OwnFound(l, t, id, key);
    MatchedVerdict(t, job, key, id, l.rule);
    RankDecides(t, key, l.records[key], id, l.rule, best, l.records[best]);
    BestGrows(l, Done(l, t.raws), best, key);
    if Outranks(l.records[key], l.records[best]) {
      ReplacementLeads(l, t, job, key, id);
    } else {
      LeaderStays(l, t, job, key, id, best);
    }
  }

  lemma OwnProcessed(l: Lineage, t: State, job: nat, key: RawKey)
    requires WellFormed(l) && Converged(l, t)
    requires key in l.records && key in t.raws && t.raws[key].status.Pending?
    ensures Process(t, job, key, l.rule).Committed? && Converged(l, Process(t, job, key, l.rule).state)
  {
    if Done(l, t.raws) == {} {
      FirstProcessed(l, t, job, key);
    } else {
      var id, best :| Led(l, t, id, best);
      NextProcessed(l, t, job, key, id, best);
      LedgerRuns.ProcessProgress(t, job, key, l.rule);
      var leader := if Outranks(l.records[key], l.records[best]) then key else best;
      assert Led(l, Process(t, job, key, l.rule).state, id, leader);
    }
  }

  // -------------------------------------------------------------------- steps

  /** The same ledger, evidence and links. */
  lemma SameTables(l: Lineage, t: State, u: State)
    requires Converged(l, t) && Valid(u) && EvidenceFits(l, u.raws) && Done(l, u.raws) == Done(l, t.raws)
    requires u.activities == t.activities && u.revisions == t.revisions && u.sources == t.sources
    requires u.identities == t.identities && u.links == t.links
    ensures Converged(l, u)
  {
    if Done(l, t.raws) != {} {
      var id, best :| Led(l, t, id, best);
      assert Led(l, u, id, best);
    }
  }

  lemma SavedEvidence(l: Lineage, t: State, job: nat, key: RawKey, record: RawRecord, rule: int)
    requires EvidenceFits(l, t.raws) && Belongs(l, Save(job, key, record, rule))
    ensures var raws := SaveRaw(t, job, key, record, rule).raws; EvidenceFits(l, raws) && Done(l, raws) == Done(l, t.raws)
  {
    SavedRow(l, t.raws, SaveRaw(t, job, key, record, rule).raws, key, record, rule);
  }

  /** A row saved with its lineage's record stays fitting, and pending or not as it was. */
  lemma SavedRow(l: Lineage, raws: map<RawKey, Raw>, raws': map<RawKey, Raw>, key: RawKey, record: RawRecord, rule: int)
    requires EvidenceFits(l, raws) && Belongs(l, Save(0, key, record, rule))
    requires raws'.Keys == raws.Keys + {key} && forall k :: k in raws && k != key ==> raws'[k] == raws[k]
    requires if key in raws && raws[key].rule == rule then raws'[key] == raws[key]
      else raws'[key].record == record && raws'[key].rule == rule && raws'[key].status.Pending?
    ensures EvidenceFits(l, raws') && Done(l, raws') == Done(l, raws)
  {
  }

  lemma SaveConverges(l: Lineage, t: State, job: nat, key: RawKey, record: RawRecord, rule: int)
    requires Converged(l, t) && Belongs(l, Save(job, key, record, rule))
    ensures Converged(l, SaveRaw(t, job, key, record, rule))
  {
    LedgerRuns.SaveProgress(t, job, key, record, rule);
    SavedEvidence(l, t, job, key, record, rule);
    SameTables(l, t, SaveRaw(t, job, key, record, rule));
  }

  lemma NotFreshChangesNothing(t: State, lease: bool, job: nat, key: RawKey, rule: int)
    requires !LedgerPriority.IsFresh(t, lease, job, key)
    ensures var u := After(t, Normalize(t, lease, job, key, rule)); u == t.(observations := u.observations)
  {
  }

  lemma NormaliseConverges(l: Lineage, t: State, lease: bool, job: nat, key: RawKey, rule: int)
    requires WellFormed(l) && Converged(l, t) && Belongs(l, Normalise(lease, job, key, rule))
    ensures Converged(l, After(t, Normalize(t, lease, job, key, rule)))
  {
    var u := After(t, Normalize(t, lease, job, key, rule));
    LedgerRuns.NormalizeProgress(t, lease, job, key, rule);
    if LedgerPriority.IsFresh(t, lease, job, key) {
      assert Normalize(t, lease, job, key, rule) == Process(t, job, key, rule);
      if key in l.records {
        OwnProcessed(l, t, job, key);
      } else if Process(t, job, key, rule).Committed? {
        OtherProcessed(l, t, job, key, rule);
      }
    } else {
      NotFreshChangesNothing(t, lease, job, key, rule);
      SameTables(l, t, u);
    }
  }

  lemma StepConverges(l: Lineage, t: State, step: Step)
    requires WellFormed(l) && Converged(l, t) && Belongs(l, step)
    ensures Converged(l, Apply(t, step))
  {
    match step
    case Save(job, key, record, rule) => SaveConverges(l, t, job, key, record, rule);
    case Normalise(lease, job, key, rule) => NormaliseConverges(l, t, lease, job, key, rule);
  }

  /** Over every run, whatever the jobs, the order of saving and normalising, the
    repetitions and the unrelated records in between: the best observation
    normalised so far is the principal record of the activity's current revision. */
  lemma {:induction false} BestObservationLeads(l: Lineage, s: State, steps: seq<Step>)
    requires WellFormed(l) && Converged(l, s) && forall i :: 0 <= i < |steps| ==> Belongs(l, steps[i])
    ensures Converged(l, Run(s, steps))
    decreases |steps|
  {
    if steps != [] {
      StepConverges(l, s, steps[0]);
      BestObservationLeads(l, Apply(s, steps[0]), steps[1..]);
    }
  }

  /** A lineage that nothing is known of yet has converged. */
  lemma EmptyConverges(l: Lineage)
    ensures Converged(l, EmptyLedger())
  {
  }

  /** From the empty ledger on. */
  lemma ReachableBestLeads(l: Lineage, steps: seq<Step>)
    requires WellFormed(l) && forall i :: 0 <= i < |steps| ==> Belongs(l, steps[i])
    ensures Converged(l, Run(EmptyLedger(), steps))
  {
    EmptyConverges(l);
    BestObservationLeads(l, EmptyLedger(), steps);
  }

  /** Once a report of the event has been normalised, the report leads, whichever feeds came before or after it. */
  lemma ReportWins(l: Lineage, t: State, report: RawKey)
    requires WellFormed(l) && Converged(l, t) && report in Done(l, t.raws)
    requires FeedPriority(l.records[report].feed) == REPORT_PRIORITY
    ensures OwnedKey(l.account, l.shared) in t.identities
    ensures var id := t.identities[OwnedKey(l.account, l.shared)];
      Tracked(t, id) && Current(t, id).priority == REPORT_PRIORITY
  {
    var id, best :| Led(l, t, id, best);
    SharedIsMine(l, Done(l, t.raws), best);
  }

  // ------------------------------------------------------------------ arrival

  function LineageActivity(l: Lineage, t: State): nat
    requires OwnedKey(l.account, l.shared) in t.identities
  {
    t.identities[OwnedKey(l.account, l.shared)]
  }

  /** The two ledgers show the same for the lineage. */
  ghost predicate Agree(l: Lineage, t: State, u: State) {
    && OwnedKey(l.account, l.shared) in t.identities && OwnedKey(l.account, l.shared) in u.identities
    && var a, b := LineageActivity(l, t), LineageActivity(l, u);
    && Tracked(t, a) && Tracked(u, b)
    && Effects(Current(t, a).payload) == Effects(Current(u, b).payload)
    && Current(t, a).priority == Current(u, b).priority && Current(t, a).time == Current(u, b).time
    && exists best :: IsPrincipal(t, CurrentKey(t, a), best) && IsPrincipal(u, CurrentKey(u, b), best)
  }

  lemma SharedIsMine(l: Lineage, done: set<RawKey>, best: RawKey)
    requires WellFormed(l) && BestOf(l, done, best)
    ensures Mine(l, OwnedKey(l.account, l.shared))
  {
  }

  /** What was normalised decides what is shown. */
  lemma SameDoneSameLeader(l: Lineage, t: State, u: State)
    requires WellFormed(l) && Converged(l, t) && Converged(l, u)
    requires Done(l, t.raws) == Done(l, u.raws) != {}
    ensures Agree(l, t, u)
  {
    var a, best :| Led(l, t, a, best);
    var b, other :| Led(l, u, b, other);
    assert best == other;
    SharedIsMine(l, Done(l, t.raws), best);
    assert LineageActivity(l, t) == a && LineageActivity(l, u) == b;
  }

  /** Two runs, from whatever ledgers and in whatever order and jobs, that have
    normalised the same observations end with the same principal and the same effects. */
  lemma ArrivalOrderIsIrrelevant(l: Lineage, s: State, steps: seq<Step>, s': State, steps': seq<Step>)
    requires WellFormed(l) && Converged(l, s) && Converged(l, s')
    requires forall i :: 0 <= i < |steps| ==> Belongs(l, steps[i])
    requires forall i :: 0 <= i < |steps'| ==> Belongs(l, steps'[i])
    requires Done(l, Run(s, steps).raws) == Done(l, Run(s', steps').raws) != {}
    ensures Agree(l, Run(s, steps), Run(s', steps'))
  {
    BestObservationLeads(l, s, steps);
    BestObservationLeads(l, s', steps');
    SameDoneSameLeader(l, Run(s, steps), Run(s', steps'));
  }

  /** One observation fetched by one job. */
  datatype Arrival = Arrival(job: nat, key: RawKey)

  /** Each arrival is saved and then normalised, as a job does. */
  function Fetches(l: Lineage, order: seq<Arrival>): seq<Step>
    requires forall i :: 0 <= i < |order| ==> order[i].key in l.records
    decreases |order|
  {
    if order == [] then []
    else [Save(order[0].job, order[0].key, l.records[order[0].key], l.rule), Normalise(true, order[0].job, order[0].key, l.rule)]
         + Fetches(l, order[1..])
  }

  /** Nothing of the lineage's observation `k` is in the tables yet. */
  ghost predicate Unseen(s: State, k: RawKey) {
    k !in s.raws && forall job :: ObservationKey(k, job) !in s.observations
  }

  lemma ArrivalSaved(l: Lineage, s: State, a: Arrival)
    requires a.key in l.records && Unseen(s, a.key)
    ensures var m := SaveRaw(s, a.job, a.key, l.records[a.key], l.rule);
      && LedgerPriority.IsFresh(m, true, a.job, a.key)
      && Normalize(m, true, a.job, a.key, l.rule) == Process(m, a.job, a.key, l.rule)
      && (forall k :: k != a.key && Unseen(s, k) ==> Unseen(m, k))
  {
  }

  lemma OthersStayUnseen(m: State, t: State, a: Arrival, outcome: Outcome)
    requires OnlySettles(m, t, a.job, a.key, outcome)
    ensures forall k :: k != a.key && Unseen(m, k) ==> Unseen(t, k)
  {
  }

  function Fetched(l: Lineage, s: State, a: Arrival): State
    requires a.key in l.records
  {
    Apply(Apply(s, Save(a.job, a.key, l.records[a.key], l.rule)), Normalise(true, a.job, a.key, l.rule))
  }

  lemma OneArrival(l: Lineage, s: State, a: Arrival)
    requires WellFormed(l) && Converged(l, s) && a.key in l.records && Unseen(s, a.key)
    ensures var t := Fetched(l, s, a);
      && Converged(l, t) && Done(l, t.raws) == Done(l, s.raws) + {a.key}
      && (forall k :: k != a.key && Unseen(s, k) ==> Unseen(t, k))
  {
    var m := SaveRaw(s, a.job, a.key, l.records[a.key], l.rule);
    SaveConverges(l, s, a.job, a.key, l.records[a.key], l.rule);
    SavedEvidence(l, s, a.job, a.key, l.records[a.key], l.rule);
    FetchedIsProcessed(l, s, a, m);
    ArrivalProcessed(l, m, a);
  }

  lemma FetchedIsProcessed(l: Lineage, s: State, a: Arrival, m: State)
    requires a.key in l.records && Unseen(s, a.key) && m == SaveRaw(s, a.job, a.key, l.records[a.key], l.rule)
    ensures a.key in m.raws && m.raws[a.key].status.Pending?
    ensures Fetched(l, s, a) == After(m, Process(m, a.job, a.key, l.rule))
    ensures forall k :: k != a.key && Unseen(s, k) ==> Unseen(m, k)
  {
    ArrivalSaved(l, s, a);
  }

  lemma ArrivalProcessed(l: Lineage, m: State, a: Arrival)
    requires WellFormed(l) && Converged(l, m) && a.key in l.records
    requires a.key in m.raws && m.raws[a.key].status.Pending?
    ensures var t := After(m, Process(m, a.job, a.key, l.rule));
      && Converged(l, t) && Done(l, t.raws) == Done(l, m.raws) + {a.key}
      && (forall k :: k != a.key && Unseen(m, k) ==> Unseen(t, k))
  {
    OwnProcessed(l, m, a.job, a.key);
    var r := Process(m, a.job, a.key, l.rule);
    SettlingDone(l, m, r.state, a.job, a.key, r.outcome);
    OthersStayUnseen(m, r.state, a, r.outcome);
  }

  predicate Distinct(order: seq<Arrival>) {
    forall i, j :: 0 <= i < j < |order| ==> order[i].key != order[j].key
  }

  function KeysOf(order: seq<Arrival>): set<RawKey> {
    set a | a in order :: a.key
  }

  /** The ledger after all arrivals. */
  function FetchedAll(l: Lineage, s: State, order: seq<Arrival>): State
    requires forall i :: 0 <= i < |order| ==> order[i].key in l.records
    decreases |order|
  {
    if order == [] then s else FetchedAll(l, Fetched(l, s, order[0]), order[1..])
  }

  lemma {:induction false} FetchesRun(l: Lineage, s: State, order: seq<Arrival>)
    requires forall i :: 0 <= i < |order| ==> order[i].key in l.records
    ensures Run(s, Fetches(l, order)) == FetchedAll(l, s, order)
    decreases |order|
  {
    if order != [] {
      var a := order[0];
      var save, normalise := Save(a.job, a.key, l.records[a.key], l.rule), Normalise(true, a.job, a.key, l.rule);
      RunOfTwoMore(s, save, normalise, Fetches(l, order[1..]));
      FetchesRun(l, Fetched(l, s, a), order[1..]);
    }
  }

  lemma RunOfTwoMore(s: State, a: Step, b: Step, rest: seq<Step>)
    ensures Run(s, [a, b] + rest) == Run(Apply(Apply(s, a), b), rest)
  {
    var steps := [a, b] + rest;
    assert steps[1..] == [b] + rest && steps[1..][1..] == rest;
  }

  ghost predicate Ready(l: Lineage, s: State, order: seq<Arrival>) {
    && Converged(l, s) && Distinct(order)
    && (forall i :: 0 <= i < |order| ==> order[i].key in l.records && Unseen(s, order[i].key))
  }

  lemma ReadyNext(l: Lineage, s: State, order: seq<Arrival>)
    requires WellFormed(l) && Ready(l, s, order) && order != []
    ensures Ready(l, Fetched(l, s, order[0]), order[1..])
    ensures Done(l, Fetched(l, s, order[0]).raws) == Done(l, s.raws) + {order[0].key}
  {
    OneArrival(l, s, order[0]);
    RestUnseen(l, s, Fetched(l, s, order[0]), order);
  }

  lemma RestUnseen(l: Lineage, s: State, t: State, order: seq<Arrival>)
    requires order != [] && Distinct(order)
    requires forall i :: 0 <= i < |order| ==> order[i].key in l.records && Unseen(s, order[i].key)
    requires forall k :: k != order[0].key && Unseen(s, k) ==> Unseen(t, k)
    ensures Distinct(order[1..])
    ensures forall i :: 0 <= i < |order[1..]| ==> order[1..][i].key in l.records && Unseen(t, order[1..][i].key)
  {
    forall i | 0 <= i < |order[1..]| ensures order[1..][i].key in l.records && Unseen(t, order[1..][i].key) {
      assert order[1..][i] == order[i + 1];
      assert Unseen(s, order[i + 1].key) && order[i + 1].key != order[0].key;
    }
  }

  /** Every arrival is in fact normalised. */
  lemma {:induction false} ArrivalsAreNormalised(l: Lineage, s: State, order: seq<Arrival>)
    requires WellFormed(l) && Ready(l, s, order)
    ensures Converged(l, FetchedAll(l, s, order))
    ensures Done(l, FetchedAll(l, s, order).raws) == Done(l, s.raws) + KeysOf(order)
    decreases |order|
  {
    if order != [] {
      ReadyNext(l, s, order);
      ArrivalsAreNormalised(l, Fetched(l, s, order[0]), order[1..]);
      KeysSplit(Done(l, s.raws), order);
    }
  }

  lemma KeysSplit(done: set<RawKey>, order: seq<Arrival>)
    requires order != []
    ensures done + KeysOf(order) == done + {order[0].key} + KeysOf(order[1..])
  {
    assert order == [order[0]] + order[1..];
  }

  lemma FetchedAgree(l: Lineage, s: State, order: seq<Arrival>, other: seq<Arrival>)
    requires WellFormed(l) && Ready(l, s, order) && Ready(l, s, other) && order != []
    requires KeysOf(order) == KeysOf(other)
    ensures Agree(l, FetchedAll(l, s, order), FetchedAll(l, s, other))
  {
    ArrivalsAreNormalised(l, s, order);
    ArrivalsAreNormalised(l, s, other);
    assert order[0].key in KeysOf(order);
    SameDoneSameLeader(l, FetchedAll(l, s, order), FetchedAll(l, s, other));
  }

  /** The same observations, fetched by whatever jobs in whatever order, show the same. */
  lemma FetchOrderIsIrrelevant(l: Lineage, s: State, order: seq<Arrival>, other: seq<Arrival>)
    requires WellFormed(l) && Ready(l, s, order) && Ready(l, s, other) && order != []
    requires KeysOf(order) == KeysOf(other)
    ensures Agree(l, Run(s, Fetches(l, order)), Run(s, Fetches(l, other)))
  {
    FetchedAgree(l, s, order, other);
    FetchesRun(l, s, order);
    FetchesRun(l, s, other);
  }
}

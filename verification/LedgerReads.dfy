/** A job reads its records before the first transaction. What that means when
  other jobs and operators work on the ledger in between. */
module LedgerReads {
  import opened Activities
  import opened Ledger

  function WithRecord(s: State, key: RawKey, record: RawRecord): State
    requires key in s.raws
  {
    s.(raws := s.raws[key := s.raws[key].(record := record)])
  }

  /** One record's transaction on what the job has read of it: the row's status
    and outcome are read again, the derived record is not. */
  function NormalizeRead(s: State, lease: bool, job: nat, key: RawKey, read: RawRecord, rule: int): Result {
    if key !in s.raws then Normalize(s, lease, job, key, rule)
    else
      var r := Normalize(WithRecord(s, key, read), lease, job, key, rule);
      if r.Committed? && key in r.state.raws
      then Committed(WithRecord(r.state, key, s.raws[key].record), r.outcome) else r
  }

  /** Normalising touches no row but its own, and of that only the status. */
  lemma NormalizeKeepsRows(s: State, lease: bool, job: nat, key: RawKey, rule: int)
    ensures var t := After(s, Normalize(s, lease, job, key, rule));
      && t.raws.Keys == s.raws.Keys
      && forall k :: k in s.raws ==> t.raws[k] == s.raws[k].(status := t.raws[k].status)
  {
    var r := Normalize(s, lease, job, key, rule);
    if r.Committed? && r.state.raws != s.raws {
      assert r == Process(s, job, key, rule);
    }
  }

  lemma CurrentReadIsNormalize(s: State, lease: bool, job: nat, key: RawKey, rule: int)
    requires key in s.raws
    ensures NormalizeRead(s, lease, job, key, s.raws[key].record, rule) == Normalize(s, lease, job, key, rule)
  {
    assert WithRecord(s, key, s.raws[key].record) == s;
    NormalizeKeepsRows(s, lease, job, key, rule);
    var r := Normalize(s, lease, job, key, rule);
    if r.Committed? {
      assert WithRecord(r.state, key, s.raws[key].record) == r.state;
    }
  }

  /** Saving a row: a new one waits for normalisation with the feed that delivered it;
    one that is known takes over the record and waits again exactly if another parser
    read it, and otherwise stays as it is. The job has observed it either way. */
  lemma SavedExactly(s: State, job: nat, key: RawKey, record: RawRecord, rule: int)
    ensures var t, seen := Apply(s, Save(job, key, record, rule)), ObservationKey(key, job);
      && t == s.(raws := t.raws, observations := t.observations)
      && (forall k :: k != key ==> (k in t.raws <==> k in s.raws) && (k in s.raws ==> t.raws[k] == s.raws[k]))
      && key in t.raws
      && (key !in s.raws ==> t.raws[key] == Raw(record, Pending, rule, record.feed))
      && (key in s.raws && s.raws[key].rule != rule ==> t.raws[key] == Raw(record, Pending, rule, s.raws[key].source))
      && (key in s.raws && s.raws[key].rule == rule ==> t.raws[key] == s.raws[key])
      && t.observations == (if seen in s.observations then s.observations else s.observations[seen := None])
  {
  }

  /** A record that needs no work: the outcome on file is repeated without a trace, and
    one that another job settled is noted for this job under the word for its status. */
  lemma RepeatedExactly(s: State, lease: bool, job: nat, key: RawKey, rule: int)
    requires key in s.raws && ObservationKey(key, job) in s.observations
    ensures var seen := ObservationKey(key, job);
      var r, filed := Normalize(s, lease, job, key, rule), s.observations[seen];
      && (!lease ==> r == Rejected(LeaseLost))
      && (lease && filed.Some? ==> r == Committed(s, filed.value))
      && (lease && filed.None? && s.raws[key].status != Pending ==>
            var outcome := match s.raws[key].status
              case InReview => OutcomeReview
              case NotSupported => OutcomeUnsupported
              case _ => Duplicate;
            r == Committed(s.(observations := s.observations[seen := Some(outcome)]), outcome))
  {
  }

  /** A record that is not stored, or that the job has not observed, is refused. */
  lemma UnobservedIsRefused(s: State, lease: bool, job: nat, key: RawKey, rule: int)
    requires key !in s.raws || ObservationKey(key, job) !in s.observations
    ensures Normalize(s, lease, job, key, rule) == Rejected(if lease then NotFound else LeaseLost)
  {
  }

  /** The step saves the row again under another parser version. */
  predicate Rereads(step: Step, key: RawKey, rule: int) {
    step.Save? && step.key == key && step.rule != rule
  }

  /** The row holds the same derived record, and is not pending again. */
  predicate RowKept(rows: map<RawKey, Raw>, rows': map<RawKey, Raw>, key: RawKey) {
    && key in rows && key in rows'
    && rows'[key].record == rows[key].record && rows'[key].rule == rows[key].rule
    && (!rows[key].status.Pending? ==> !rows'[key].status.Pending?)
  }

  lemma NormaliseKeepsRow(s: State, lease: bool, job: nat, k: RawKey, rule: int, key: RawKey)
    requires key in s.raws
    ensures RowKept(s.raws, After(s, Normalize(s, lease, job, k, rule)).raws, key)
  {
    NormalizeKeepsRows(s, lease, job, k, rule);
    var r := Normalize(s, lease, job, k, rule);
    if r.Committed? && r.state.raws != s.raws {
      assert r == Process(s, job, k, rule);
    }
  }

  lemma ReviewKeepsRow(s: State, issue: nat, reviewed: Activity, key: RawKey)
    requires issue in s.issues && Tracked(s, s.issues[issue].activity) && s.issues[issue].raw in s.raws && key in s.raws
    ensures RowKept(s.raws, BookReview(s, issue, reviewed).raws, key)
  {
  }

  lemma LinkedReviewKeepsRow(s: State, linked: State, issue: nat, reviewed: Activity, key: RawKey)
    requires issue in linked.issues && Tracked(linked, linked.issues[issue].activity) && linked.issues[issue].raw in linked.raws
    requires linked.raws == s.raws && key in s.raws
    ensures RowKept(s.raws, BookReview(linked, issue, reviewed).raws, key)
  {
    ReviewKeepsRow(linked, issue, reviewed, key);
  }

  lemma ConfirmKeepsRow(s: State, issue: nat, target: Option<nat>, key: RawKey)
    requires issue in s.issues && Tracked(s, s.issues[issue].activity) && s.issues[issue].raw in s.raws && key in s.raws
    ensures RowKept(s.raws, After(s, ConfirmSameActivity(s, issue, target)).raws, key)
  {
    if ConfirmSameActivity(s, issue, target).Committed? {
      var i := s.issues[issue];
      var linked := LinkDuplicate(s, i, target.value);
      var void := Void(Current(s, i.activity).payload);
      assert ConfirmSameActivity(s, issue, target) == Committed(BookReview(linked, issue, void), Updated);
      LinkedReviewKeepsRow(s, linked, issue, void, key);
    }
  }

  lemma ResolveKeepsRow(s: State, issue: nat, action: Action, user: int, key: RawKey)
    requires key in s.raws
    ensures RowKept(s.raws, After(s, ResolveDuplicate(s, issue, action, user)).raws, key)
  {
    if ResolveDuplicate(s, issue, action, user).Committed? {
      if action.ConfirmDistinct? {
        var i := s.issues[issue];
        var current := Current(s, i.activity).payload;
        ReviewKeepsRow(s, issue, Reviewed(s.raws[i.raw].record, current, i.activity, i.account).(status := Effective, warnings := []), key);
      } else {
        ConfirmKeepsRow(s, issue, action.target, key);
      }
    }
  }

  lemma AcceptKeepsRow(s: State, issue: nat, user: int, key: RawKey)
    requires key in s.raws
    ensures RowKept(s.raws, After(s, AcceptRevision(s, issue, user)).raws, key)
  {
  }

  lemma StepKeepsRow(s: State, step: Step, key: RawKey)
    requires key in s.raws && !Rereads(step, key, s.raws[key].rule)
    ensures RowKept(s.raws, Apply(s, step).raws, key)
  {
    match step
    case Save(_, _, _, _) =>
    case Normalise(lease, job, k, rule) => NormaliseKeepsRow(s, lease, job, k, rule, key);
    case Resolve(issue, action, user) => ResolveKeepsRow(s, issue, action, user, key);
    case Accept(issue, user) => AcceptKeepsRow(s, issue, user, key);
  }

  lemma {:induction false} RunKeepsRow(s: State, steps: seq<Step>, key: RawKey)
    requires key in s.raws && forall i :: 0 <= i < |steps| ==> !Rereads(steps[i], key, s.raws[key].rule)
    ensures RowKept(s.raws, Run(s, steps).raws, key)
    decreases |steps|
  {
    if steps != [] {
      StepKeepsRow(s, steps[0], key);
      RunKeepsRow(Apply(s, steps[0]), steps[1..], key);
    }
  }

  /** Whatever happens between the read and the transaction, the job's own earlier
    transactions included: unless the row was saved again under another parser
    version, reading first is the same as reading inside the transaction. */
  lemma EarlyReadIsHarmless(s: State, steps: seq<Step>, lease: bool, job: nat, key: RawKey, rule: int)
    requires key in s.raws && forall i :: 0 <= i < |steps| ==> !Rereads(steps[i], key, s.raws[key].rule)
    ensures var t := Run(s, steps);
      NormalizeRead(t, lease, job, key, s.raws[key].record, rule) == Normalize(t, lease, job, key, rule)
  {
    RunKeepsRow(s, steps, key);
    CurrentReadIsNormalize(Run(s, steps), lease, job, key, rule);
  }

  /** The record is pending, and this job has not settled it. */
  predicate Waiting(s: State, job: nat, key: RawKey) {
    && key in s.raws && s.raws[key].status.Pending?
    && ObservationKey(key, job) in s.observations && s.observations[ObservationKey(key, job)].None?
  }

  /** If it was, the outdated record is what gets booked, and the row counts as settled with the new one in it. */
  lemma OutdatedReadSettles(s: State, job: nat, key: RawKey, read: RawRecord, rule: int)
    requires Waiting(s, job, key)
    ensures var r, was := NormalizeRead(s, true, job, key, read, rule), Process(WithRecord(s, key, read), job, key, rule);
      && (r.Committed? <==> was.Committed?)
      && (r.Committed? ==>
            && r.state == was.state.(raws := r.state.raws)
            && RowKept(s.raws, r.state.raws, key) && !r.state.raws[key].status.Pending?)
  {
    var was := Process(WithRecord(s, key, read), job, key, rule);
    assert Normalize(WithRecord(s, key, read), true, job, key, rule) == was;
  }

  /** A settled row is never booked from again, by any job of any run, until it is
    saved under yet another parser version. So a record that replaced the one
    read is lost once the outdated one has been booked. */
  lemma SettledIsNeverBooked(s: State, steps: seq<Step>, lease: bool, job: nat, key: RawKey, rule: int)
    requires key in s.raws && !s.raws[key].status.Pending?
    requires forall i :: 0 <= i < |steps| ==> !Rereads(steps[i], key, s.raws[key].rule)
    ensures var t := Run(s, steps);
      var u := After(t, Normalize(t, lease, job, key, rule));
      u == t.(observations := u.observations)
  {
    RunKeepsRow(s, steps, key);
  }
}

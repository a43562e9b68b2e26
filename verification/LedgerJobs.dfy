/** Normalising all records of one job, and running it again after a crash. */
module LedgerJobs {
  import opened Activities
  import opened Ledger

  datatype Counts = Counts(
    records: nat, added: nat, updated: nat, duplicates: nat, unsupported: nat, conflicts: nat)

  const NO_COUNTS := Counts(0, 0, 0, 0, 0, 0)

  function Tally(c: Counts, outcome: Outcome): Counts {
    match outcome
    case Added => c.(added := c.added + 1)
    case Updated => c.(updated := c.updated + 1)
    case Duplicate => c.(duplicates := c.duplicates + 1)
    case OutcomeUnsupported => c.(unsupported := c.unsupported + 1)
    case OutcomeReview => c.(conflicts := c.conflicts + 1)
  }

  datatype JobResult = JobResult(state: State, counts: Counts, error: Option<Error>)

  type Normalizer = (State, RawKey) -> Result

  /** The records in order; the first rejected one stops the job, its predecessors stay committed. */
  function Fold(f: Normalizer, s: State, rows: seq<RawKey>): JobResult
    decreases |rows|
  {
    if rows == [] then JobResult(s, NO_COUNTS, None)
    else
      var before := Fold(f, s, rows[..|rows| - 1]);
      if before.error.Some? then before else Advance(before, f(before.state, rows[|rows| - 1]))
  }

  function Advance(before: JobResult, r: Result): JobResult {
    var counted := before.counts.(records := before.counts.records + 1);
    match r
    case Rejected(e) => JobResult(before.state, counted, Some(e))
    case Committed(t, outcome) => JobResult(t, Tally(counted, outcome), None)
  }

  /** One record, under a lease that is still held. */
  function Normalizing(job: nat, rule: int): Normalizer {
    (t, key) => Normalize(t, true, job, key, rule)
  }

  function Shorter(held: nat, rows: seq<RawKey>): nat {
    if held < |rows| then held else |rows|
  }

  /** All records of one job, whose lease is lost after `held` of them: from then
    on every transaction is refused. */
  function NormalizeJob(s: State, job: nat, rows: seq<RawKey>, held: nat, rule: int): JobResult {
    var done := Fold(Normalizing(job, rule), s, rows[..Shorter(held, rows)]);
    if done.error.Some? || held >= |rows| then done else Advance(done, Rejected(LeaseLost))
  }

  function Sum(c: Counts): nat {
    c.added + c.updated + c.duplicates + c.unsupported + c.conflicts
  }

  /** Every counted record has exactly one outcome, but for the one that stopped the job. */
  lemma {:induction false} CountsAddUp(f: Normalizer, s: State, rows: seq<RawKey>)
    ensures AddsUp(Fold(f, s, rows), |rows|)
    decreases |rows|
  {
    if rows != [] {
      var n := |rows| - 1;
      var before := Fold(f, s, rows[..n]);
      CountsAddUp(f, s, rows[..n]);
      if before.error.None? {
        OneMoreAddsUp(before, f(before.state, rows[n]), n);
      }
    }
  }

  /** Of `n` records at most one, the one that stopped the job, has no outcome. */
  predicate AddsUp(r: JobResult, n: nat) {
    && r.counts.records == Sum(r.counts) + (if r.error.Some? then 1 else 0)
    && (r.error.None? ==> r.counts.records == n)
  }

  lemma OneMoreAddsUp(before: JobResult, last: Result, n: nat)
    requires AddsUp(before, n) && before.error.None?
    ensures AddsUp(Advance(before, last), n + 1)
  {
  }

  lemma JobCountsAddUp(s: State, job: nat, rows: seq<RawKey>, held: nat, rule: int)
    ensures var r := NormalizeJob(s, job, rows, held, rule);
      && r.counts.records == Sum(r.counts) + (if r.error.Some? then 1 else 0)
      && (r.error.None? ==> r.counts.records == |rows|)
  {
    var f, some := Normalizing(job, rule), rows[..Shorter(held, rows)];
    CountsAddUp(f, s, some);
    AddedUp(Fold(f, s, some), NormalizeJob(s, job, rows, held, rule), |some|, |rows|);
  }

  lemma AddedUp(done: JobResult, r: JobResult, some: nat, all: nat)
    requires AddsUp(done, some)
    requires (r == done && (done.error.Some? || some == all)) || (done.error.None? && r == Advance(done, Rejected(LeaseLost)))
    ensures r.counts.records == Sum(r.counts) + (if r.error.Some? then 1 else 0)
    ensures r.error.None? ==> r.counts.records == all
  {
  }

  // ------------------------------------------------------------- what a job is

  lemma {:induction false} RunSnoc(s: State, steps: seq<Step>, step: Step)
    ensures Run(s, steps + [step]) == Apply(Run(s, steps), step)
    decreases |steps|
  {
    if steps == [] {
      assert steps + [step] == [step] && [step][1..] == [];
    } else {
      assert (steps + [step])[1..] == steps[1..] + [step];
      RunSnoc(Apply(s, steps[0]), steps[1..], step);
    }
  }

  /** The outcomes of the records that the job committed. */
  function Outcomes(f: Normalizer, s: State, rows: seq<RawKey>): seq<Outcome>
    decreases |rows|
  {
    if rows == [] then []
    else
      var n := |rows| - 1;
      var before := Fold(f, s, rows[..n]);
      if before.error.Some? || f(before.state, rows[n]).Rejected? then Outcomes(f, s, rows[..n])
      else Outcomes(f, s, rows[..n]) + [f(before.state, rows[n]).outcome]
  }

  function HowMany(outcomes: seq<Outcome>, o: Outcome): nat
    decreases |outcomes|
  {
    if outcomes == [] then 0
    else HowMany(outcomes[..|outcomes| - 1], o) + (if outcomes[|outcomes| - 1] == o then 1 else 0)
  }

  lemma HowManyNext(outcomes: seq<Outcome>, last: Outcome, o: Outcome)
    ensures HowMany(outcomes + [last], o) == HowMany(outcomes, o) + (if last == o then 1 else 0)
  {
    assert (outcomes + [last])[..|outcomes|] == outcomes;
  }

  predicate CountsOf(c: Counts, outcomes: seq<Outcome>) {
    && c.added == HowMany(outcomes, Added) && c.updated == HowMany(outcomes, Updated)
    && c.duplicates == HowMany(outcomes, Duplicate) && c.unsupported == HowMany(outcomes, OutcomeUnsupported)
    && c.conflicts == HowMany(outcomes, OutcomeReview)
  }

  lemma CountsNext(c: Counts, outcomes: seq<Outcome>, last: Outcome, records: nat)
    requires CountsOf(c, outcomes)
    ensures CountsOf(Tally(c.(records := records), last), outcomes + [last])
  {
    HowManyNext(outcomes, last, Added);
    HowManyNext(outcomes, last, Updated);
    HowManyNext(outcomes, last, Duplicate);
    HowManyNext(outcomes, last, OutcomeUnsupported);
    HowManyNext(outcomes, last, OutcomeReview);
  }

  function NormaliseSteps(job: nat, rows: seq<RawKey>, rule: int): seq<Step> {
    seq(|rows|, i requires 0 <= i < |rows| => Normalise(true, job, rows[i], rule))
  }

  /** `r` is what the job has come to after its records `rows`, of which it committed the first `k`. */
  ghost predicate CameTo(s: State, job: nat, rows: seq<RawKey>, rule: int, r: JobResult, outcomes: seq<Outcome>) {
    var k := |outcomes|;
    && k <= |rows| && CountsOf(r.counts, outcomes) && r.state == Run(s, NormaliseSteps(job, rows[..k], rule))
    && (r.error.None? ==> k == |rows|)
    && (r.error.Some? ==> k < |rows| && Normalize(r.state, true, job, rows[k], rule) == Rejected(r.error.value))
  }

  lemma NormalizingIs(f: Normalizer, t: State, job: nat, key: RawKey, rule: int)
    requires f == Normalizing(job, rule)
    ensures f(t, key) == Normalize(t, true, job, key, rule)
  {
  }

  lemma FoldLast(f: Normalizer, s: State, rows: seq<RawKey>, n: nat)
    requires n + 1 == |rows|
    ensures var before, outcomes := Fold(f, s, rows[..n]), Outcomes(f, s, rows[..n]);
      var last := f(before.state, rows[n]);
      && Fold(f, s, rows) == (if before.error.Some? then before else Advance(before, last))
      && Outcomes(f, s, rows) == (if before.error.Some? || last.Rejected? then outcomes else outcomes + [last.outcome])
  {
  }

  lemma {:induction false} FoldCameTo(f: Normalizer, s: State, job: nat, rows: seq<RawKey>, rule: int)
    requires f == Normalizing(job, rule)
    ensures CameTo(s, job, rows, rule, Fold(f, s, rows), Outcomes(f, s, rows))
    decreases |rows|
  {
    if rows == [] {
      NothingCameTo(s, job, rule, Fold(f, s, rows), Outcomes(f, s, rows));
    } else {
      var n := |rows| - 1;
      var before := Fold(f, s, rows[..n]);
      FoldCameTo(f, s, job, rows[..n], rule);
      NormalizingIs(f, before.state, job, rows[n], rule);
      FoldLast(f, s, rows, n);
      LastCameTo(s, job, rows, n, rule, before, Outcomes(f, s, rows[..n]), f(before.state, rows[n]),
                 Fold(f, s, rows), Outcomes(f, s, rows));
    }
  }

  lemma NothingCameTo(s: State, job: nat, rule: int, r: JobResult, outcomes: seq<Outcome>)
    requires r == JobResult(s, NO_COUNTS, None) && outcomes == []
    ensures CameTo(s, job, [], rule, r, outcomes)
  {
    assert NormaliseSteps(job, [], rule) == [];
  }

  lemma LastCameTo(s: State, job: nat, rows: seq<RawKey>, n: nat, rule: int, before: JobResult, outcomes: seq<Outcome>,
                   last: Result, r: JobResult, outcomes': seq<Outcome>)
    requires n + 1 == |rows| && CameTo(s, job, rows[..n], rule, before, outcomes)
    requires last == Normalize(before.state, true, job, rows[n], rule)
    requires r == if before.error.Some? then before else Advance(before, last)
    requires outcomes' == if before.error.Some? || last.Rejected? then outcomes else outcomes + [last.outcome]
    ensures CameTo(s, job, rows, rule, r, outcomes')
  {
    if before.error.Some? {
      StoppedCameTo(s, job, rows, n, rule, before, outcomes);
    } else {
      NextCameTo(s, job, rows, n, rule, before, outcomes, last);
    }
  }

  lemma StoppedCameTo(s: State, job: nat, rows: seq<RawKey>, n: nat, rule: int, r: JobResult, outcomes: seq<Outcome>)
    requires n + 1 == |rows| && r.error.Some? && CameTo(s, job, rows[..n], rule, r, outcomes)
    ensures CameTo(s, job, rows, rule, r, outcomes)
  {
    assert rows[..n][..|outcomes|] == rows[..|outcomes|];
  }

  lemma NextCameTo(s: State, job: nat, rows: seq<RawKey>, n: nat, rule: int, before: JobResult, outcomes: seq<Outcome>, r: Result)
    requires n + 1 == |rows| && before.error.None? && CameTo(s, job, rows[..n], rule, before, outcomes)
    requires r == Normalize(before.state, true, job, rows[n], rule)
    ensures CameTo(s, job, rows, rule, Advance(before, r), if r.Rejected? then outcomes else outcomes + [r.outcome])
  {
    assert rows[..n][..n] == rows[..n] && rows[..n + 1] == rows;
    if r.Committed? {
      CountsNext(before.counts, outcomes, r.outcome, before.counts.records + 1);
      StepsNext(s, job, rows, n, rule);
    }
  }

  lemma StepsNext(s: State, job: nat, rows: seq<RawKey>, n: nat, rule: int)
    requires n + 1 == |rows|
    ensures Run(s, NormaliseSteps(job, rows, rule))
      == Apply(Run(s, NormaliseSteps(job, rows[..n], rule)), Normalise(true, job, rows[n], rule))
  {
    var step := Normalise(true, job, rows[n], rule);
    assert NormaliseSteps(job, rows, rule) == NormaliseSteps(job, rows[..n], rule) + [step];
    RunSnoc(s, NormaliseSteps(job, rows[..n], rule), step);
  }

  /** A job is a run: it normalises its records in order up to the first that is
    refused, or whose transaction finds the lease lost, and counts each outcome
    under its own name. */
  lemma JobIsARun(s: State, job: nat, rows: seq<RawKey>, held: nat, rule: int) returns (outcomes: seq<Outcome>)
    ensures var r, k := NormalizeJob(s, job, rows, held, rule), |outcomes|;
      && k <= |rows| && k <= held && CountsOf(r.counts, outcomes) && r.state == Run(s, NormaliseSteps(job, rows[..k], rule))
      && (r.error.None? ==> k == |rows|)
      && (r.error.Some? ==> k < |rows| && Normalize(r.state, k < held, job, rows[k], rule) == Rejected(r.error.value))
  {
    var some := rows[..Shorter(held, rows)];
    var f := Normalizing(job, rule);
    outcomes := Outcomes(f, s, some);
    FoldCameTo(f, s, job, some, rule);
    assert some[..|outcomes|] == rows[..|outcomes|];
  }

  // ------------------------------------------------------------------ restart

  /** The record's outcome in this job is on file. */
  predicate OnFile(s: State, job: nat, key: RawKey, outcome: Outcome) {
    key in s.raws && ObservationKey(key, job) in s.observations && s.observations[ObservationKey(key, job)] == Some(outcome)
  }

  ghost predicate FilesKept(s: State, t: State, job: nat) {
    forall key, outcome :: OnFile(s, job, key, outcome) ==> OnFile(t, job, key, outcome)
  }

  /** A normaliser that files what it did and repeats what is on file. */
  ghost predicate Memoising(f: Normalizer, job: nat) {
    && (forall s, key :: f(s, key).Committed? ==>
          OnFile(f(s, key).state, job, key, f(s, key).outcome) && FilesKept(s, f(s, key).state, job))
    && (forall s, key, outcome :: OnFile(s, job, key, outcome) ==> f(s, key) == Committed(s, outcome))
  }

  lemma NormalizeFiles(s: State, job: nat, key: RawKey, rule: int)
    requires Normalize(s, true, job, key, rule).Committed?
    ensures var r := Normalize(s, true, job, key, rule);
      OnFile(r.state, job, key, r.outcome) && FilesKept(s, r.state, job)
  {
    if s.raws[key].status.Pending? && s.observations[ObservationKey(key, job)].None? {
      var r := Process(s, job, key, rule);
      assert Normalize(s, true, job, key, rule) == r;
      SettlingFiles(s, r.state, job, key, r.outcome);
    }
  }

  /** Settling a record that has no outcome yet files one and keeps all others. */
  lemma SettlingFiles(s: State, t: State, job: nat, key: RawKey, outcome: Outcome)
    requires OnlySettles(s, t, job, key, outcome)
    requires ObservationKey(key, job) in s.observations && s.observations[ObservationKey(key, job)].None?
    ensures OnFile(t, job, key, outcome) && FilesKept(s, t, job)
  {
  }

  lemma NormalizeMemoises(job: nat, rule: int)
    ensures Memoising(Normalizing(job, rule), job)
  {
    var f := Normalizing(job, rule);
    forall s, key | f(s, key).Committed?
      ensures OnFile(f(s, key).state, job, key, f(s, key).outcome) && FilesKept(s, f(s, key).state, job)
    {
      NormalizeFiles(s, job, key, rule);
    }
  }

  /** Running on from a stop: the prefix is repeated from the file, without a change. */
  lemma {:induction false} ReplayPrefix(f: Normalizer, job: nat, s: State, rows: seq<RawKey>, t: State)
    requires Memoising(f, job) && Fold(f, s, rows).error.None?
    requires FilesKept(Fold(f, s, rows).state, t, job)
    ensures Fold(f, t, rows) == JobResult(t, Fold(f, s, rows).counts, None)
    decreases |rows|
  {
    if rows != [] {
      var n := |rows| - 1;
      var before := Fold(f, s, rows[..n]);
      assert f(before.state, rows[n]).Committed?;
      assert FilesKept(before.state, f(before.state, rows[n]).state, job);
      ReplayPrefix(f, job, s, rows[..n], t);
      assert OnFile(t, job, rows[n], f(before.state, rows[n]).outcome);
    }
  }

  /** Running again from where a whole run ended, well or not, repeats it. */
  lemma {:induction false} RepeatFold(f: Normalizer, job: nat, s: State, rows: seq<RawKey>)
    requires Memoising(f, job)
    ensures Fold(f, Fold(f, s, rows).state, rows) == Fold(f, s, rows)
    decreases |rows|
  {
    if rows != [] {
      var n := |rows| - 1;
      var before := Fold(f, s, rows[..n]);
      if before.error.Some? {
        RepeatFold(f, job, s, rows[..n]);
      } else if f(before.state, rows[n]).Rejected? {
        ReplayPrefix(f, job, s, rows[..n], before.state);
      } else {
        ReplayPrefix(f, job, s, rows, Fold(f, s, rows).state);
      }
    }
  }

  lemma {:induction false} RestartFold(f: Normalizer, job: nat, s: State, rows: seq<RawKey>, done: nat)
    requires done <= |rows| && Memoising(f, job)
    ensures Fold(f, Fold(f, s, rows[..done]).state, rows) == Fold(f, s, rows)
    decreases |rows|
  {
    if done == |rows| {
      assert rows[..done] == rows;
      RepeatFold(f, job, s, rows);
    } else {
      assert rows[..|rows| - 1][..done] == rows[..done];
      RestartFold(f, job, s, rows[..|rows| - 1], done);
    }
  }

  /** Stopped after any prefix, by a crash, a lost lease or a rejected record, and
    run again under a lease that holds: the ledger, the counts and the verdict are
    those of one uninterrupted run. */
  lemma RestartIsInvisible(s: State, job: nat, rows: seq<RawKey>, held: nat, rule: int)
    ensures NormalizeJob(NormalizeJob(s, job, rows, held, rule).state, job, rows, |rows|, rule)
      == NormalizeJob(s, job, rows, |rows|, rule)
  {
    NormalizeMemoises(job, rule);
    RestartFold(Normalizing(job, rule), job, s, rows, Shorter(held, rows));
    assert rows[..|rows|] == rows;
  }
}

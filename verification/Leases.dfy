/** History jobs and their leases: claim, renew, finish and guarded writes as a
  fencing-token protocol.

  Expiry times carry nanoseconds while the time they are compared with is cut
  to seconds, and both are compared as text. Within one second ".5Z" sorts
  before "Z", which is what the two comparisons below spell out. */
module Leases {
  import opened Activities
  import Folds

  datatype Instant = Instant(seconds: int, nanos: nat)

  const LEASE_SECONDS := 120

  datatype Phase = Fetch | Normalization
  datatype JobStatus = Queued | RetryWait | Running | Succeeded | Partial | NeedsAction | Failed | Cancelled

  datatype Job = Job(
    source: string,
    connection: Option<nat>,
    phase: Phase,
    status: JobStatus,
    owner: string,
    generation: nat,
    until: Option<Instant>,
    attempt: nat,
    next: Option<Instant>,
    created: int)

  type Jobs = map<nat, Job>

  /** What a worker holds after a claim. */
  datatype Token = Token(job: nat, owner: string, generation: nat)

  /** `t` as text is greater than `now` cut to seconds; blank text never is. */
  predicate TextAfter(t: Option<Instant>, now: Instant) {
    t.Some? && t.value.seconds > now.seconds
  }

  predicate TextBefore(t: Option<Instant>, now: Instant) {
    t.None? || t.value.seconds < now.seconds || (t.value.seconds == now.seconds && t.value.nanos > 0)
  }

  predicate NotLater(a: Instant, b: Instant) {
    a.seconds < b.seconds || (a.seconds == b.seconds && a.nanos <= b.nanos)
  }

  function AfterSeconds(now: Instant, seconds: int): Instant {
    Instant(now.seconds + seconds, now.nanos)
  }

  predicate Live(job: Job, now: Instant) {
    job.status.Running? && TextAfter(job.until, now)
  }

  /** Two absent connections are one scope. */
  predicate SameScope(a: Job, b: Job) {
    a.source == b.source && a.connection == b.connection
  }

  // ------------------------------------------------------------------- claims

  predicate Ready(job: Job, now: Instant) {
    || ((job.status.Queued? || job.status.RetryWait?) && (TextBefore(job.next, now) || job.next == Some(Instant(now.seconds, 0))))
    || (job.status.Running? && TextBefore(job.until, now))
  }

  predicate Busy(jobs: Jobs, id: nat, now: Instant)
    requires id in jobs
  {
    exists other :: other in jobs && other != id && Live(jobs[other], now) && SameScope(jobs[other], jobs[id])
  }

  predicate Claimable(jobs: Jobs, id: nat, now: Instant) {
    id in jobs && Ready(jobs[id], now) && !Busy(jobs, id, now)
  }

  /** A claimable job that no claimable job was created before. */
  ghost predicate IsPick(jobs: Jobs, id: nat, now: Instant) {
    Claimable(jobs, id, now) && forall other :: Claimable(jobs, other, now) ==> jobs[id].created <= jobs[other].created
  }

  function Claimed(job: Job, owner: string, now: Instant): Job {
    job.(status := Running, owner := owner, generation := job.generation + 1,
         until := Some(AfterSeconds(now, LEASE_SECONDS)), attempt := job.attempt + 1)
  }

  // ------------------------------------------------------------------- guards

  /** The condition under which every later update of a claim is accepted. */
  predicate Holds(jobs: Jobs, token: Token, now: Instant) {
    && token.job in jobs
    && Live(jobs[token.job], now)
    && jobs[token.job].owner == token.owner
    && jobs[token.job].generation == token.generation
  }

  function Renewed(job: Job, now: Instant): Job {
    job.(until := Some(AfterSeconds(now, LEASE_SECONDS)))
  }

  predicate Final(status: JobStatus) {
    !status.Queued? && !status.Running?
  }

  function RetryDelay(attempt: nat): int {
    if attempt * attempt * 60 > 3600 then 3600 else attempt * attempt * 60
  }

  /** `attempt` is the one the worker remembers from its claim. */
  function Finished(job: Job, status: JobStatus, attempt: nat, now: Instant): Job {
    job.(status := status, until := None,
         next := if status.RetryWait? then Some(AfterSeconds(now, RetryDelay(attempt))) else None)
  }

  predicate Wakes(job: Job, connection: nat) {
    && job.connection == Some(connection) && job.source == "flex" && job.phase.Fetch?
    && (job.status.RetryWait? || job.status.NeedsAction?)
  }

  function Woken(jobs: Jobs, connection: nat): Jobs {
    map id | id in jobs ::
      if Wakes(jobs[id], connection) then jobs[id].(status := Queued, attempt := 0, next := None) else jobs[id]
  }

  function NewJob(source: string, connection: Option<nat>, created: int): Job {
    Job(source, connection, Fetch, Queued, "", 0, None, 0, None, created)
  }

  // --------------------------------------------------------------------- runs

  datatype Step =
    | Enqueue(id: nat, source: string, connection: Option<nat>)
    | Claim(id: nat, owner: string)
    | Renew(token: Token)
    | Write(token: Token)
    | Finish(token: Token, status: JobStatus, attempt: nat)
    | Wake(waking: nat)

  /** Whether the database lets the step through. */
  ghost predicate Allowed(jobs: Jobs, step: Step, now: Instant) {
    match step
    case Enqueue(id, _, _) => id !in jobs
    case Claim(id, owner) => owner != "" && IsPick(jobs, id, now)
    case Renew(token) => Holds(jobs, token, now)
    case Write(token) => Holds(jobs, token, now)
    case Finish(token, status, _) => Final(status) && Holds(jobs, token, now)
    case Wake(_) => true
  }

  ghost function Apply(jobs: Jobs, step: Step, now: Instant): Jobs {
    if !Allowed(jobs, step, now) then jobs
    else
      match step
      case Enqueue(id, source, connection) => jobs[id := NewJob(source, connection, now.seconds)]
      case Claim(id, owner) => jobs[id := Claimed(jobs[id], owner, now)]
      case Renew(token) => jobs[token.job := Renewed(jobs[token.job], now)]
      case Write(token) => jobs[token.job := jobs[token.job].(phase := Normalization)]
      case Finish(token, status, attempt) => jobs[token.job := Finished(jobs[token.job], status, attempt, now)]
      case Wake(connection) => Woken(jobs, connection)
  }

  /** A step and the time at which it is taken. */
  datatype Event = Event(step: Step, now: Instant)

  ghost function Run(jobs: Jobs, events: seq<Event>): Jobs
    decreases |events|
  {
    if events == [] then jobs else Run(Apply(jobs, events[0].step, events[0].now), events[1..])
  }

  /** The clock never runs backwards from `since`. */
  predicate Advancing(since: Instant, events: seq<Event>)
    decreases |events|
  {
    events == [] || (NotLater(since, events[0].now) && Advancing(events[0].now, events[1..]))
  }

  function Latest(since: Instant, events: seq<Event>): Instant {
    if events == [] then since else events[|events| - 1].now
  }

  // --------------------------------------------------------------- invariants

  /** At most one job of each scope holds a live lease. */
  ghost predicate Exclusive(jobs: Jobs, now: Instant) {
    forall i, j | i in jobs && j in jobs && i != j && SameScope(jobs[i], jobs[j]) ::
      !(Live(jobs[i], now) && Live(jobs[j], now))
  }

  /** What may become of one job: its scope is fixed, its generation never falls,
    and within a generation the owner stays and a lost lease stays lost. */
  predicate Successor(job: Job, heir: Job, now: Instant, later: Instant) {
    && SameScope(job, heir)
    && job.generation <= heir.generation
    && (job.generation == heir.generation ==> heir.owner == job.owner && (Live(heir, later) ==> Live(job, now)))
  }

  ghost predicate Succeeds(jobs: Jobs, jobs': Jobs, now: Instant, later: Instant) {
    forall id | id in jobs :: id in jobs' && Successor(jobs[id], jobs'[id], now, later)
  }

  lemma StepSucceeds(jobs: Jobs, step: Step, since: Instant, now: Instant)
    requires NotLater(since, now)
    ensures Succeeds(jobs, Apply(jobs, step, now), since, now)
  {
  }

  lemma ClaimIsExclusive(jobs: Jobs, id: nat, owner: string, now: Instant)
    requires Exclusive(jobs, now) && Claimable(jobs, id, now)
    ensures Exclusive(jobs[id := Claimed(jobs[id], owner, now)], now)
  {
    var jobs' := jobs[id := Claimed(jobs[id], owner, now)];
    forall i, j | i in jobs' && j in jobs' && i != j && SameScope(jobs'[i], jobs'[j])
      ensures !(Live(jobs'[i], now) && Live(jobs'[j], now))
    {
      assert i != id && j != id ==> SameScope(jobs[i], jobs[j]);
    }
  }

  /** Updating a job that is not, or was already, live disturbs nobody. */
  lemma UpdateIsExclusive(jobs: Jobs, id: nat, job: Job, now: Instant)
    requires Exclusive(jobs, now)
    requires id in jobs ==> SameScope(job, jobs[id])
    requires Live(job, now) ==> id in jobs && Live(jobs[id], now)
    ensures Exclusive(jobs[id := job], now)
  {
    var jobs' := jobs[id := job];
    forall i, j | i in jobs' && j in jobs' && i != j && SameScope(jobs'[i], jobs'[j])
      ensures !(Live(jobs'[i], now) && Live(jobs'[j], now))
    {
      if i in jobs && j in jobs {
        assert SameScope(jobs[i], jobs[j]);
      }
    }
  }

  lemma WakeIsExclusive(jobs: Jobs, connection: nat, now: Instant)
    requires Exclusive(jobs, now)
    ensures Exclusive(Woken(jobs, connection), now)
  {
    var jobs' := Woken(jobs, connection);
    forall i, j | i in jobs' && j in jobs' && i != j && SameScope(jobs'[i], jobs'[j])
      ensures !(Live(jobs'[i], now) && Live(jobs'[j], now))
    {
      assert SameScope(jobs[i], jobs[j]);
    }
  }

  lemma TimePasses(jobs: Jobs, since: Instant, now: Instant)
    requires Exclusive(jobs, since) && NotLater(since, now)
    ensures Exclusive(jobs, now)
  {
  }

  lemma StepIsExclusive(jobs: Jobs, step: Step, since: Instant, now: Instant)
    requires Exclusive(jobs, since) && NotLater(since, now)
    ensures Exclusive(Apply(jobs, step, now), now)
  {
    TimePasses(jobs, since, now);
    if Allowed(jobs, step, now) {
      match step
      case Enqueue(id, source, connection) => UpdateIsExclusive(jobs, id, NewJob(source, connection, now.seconds), now);
      case Claim(id, owner) => ClaimIsExclusive(jobs, id, owner, now);
      case Renew(token) => UpdateIsExclusive(jobs, token.job, Renewed(jobs[token.job], now), now);
      case Write(token) => UpdateIsExclusive(jobs, token.job, jobs[token.job].(phase := Normalization), now);
      case Finish(token, status, attempt) =>
        UpdateIsExclusive(jobs, token.job, Finished(jobs[token.job], status, attempt, now), now);
      case Wake(connection) => WakeIsExclusive(jobs, connection, now);
    }
  }

  lemma SuccessionChains(a: Jobs, b: Jobs, c: Jobs, t: Instant, u: Instant, v: Instant)
    requires Succeeds(a, b, t, u) && Succeeds(b, c, u, v)
    ensures Succeeds(a, c, t, v)
  {
    forall id | id in a ensures id in c && Successor(a[id], c[id], t, v) {
      assert Successor(a[id], b[id], t, u) && Successor(b[id], c[id], u, v);
    }
  }

  /** Over every run with an advancing clock: one live lease per scope, no
    generation falls, and an expired lease revives only under a new generation. */
  lemma {:induction false} RunIsExclusive(jobs: Jobs, since: Instant, events: seq<Event>)
    requires Exclusive(jobs, since) && Advancing(since, events)
    ensures Exclusive(Run(jobs, events), Latest(since, events))
    ensures Succeeds(jobs, Run(jobs, events), since, Latest(since, events))
    decreases |events|
  {
    if events != [] {
      var e := events[0];
      var next := Apply(jobs, e.step, e.now);
      StepIsExclusive(jobs, e.step, since, e.now);
      StepSucceeds(jobs, e.step, since, e.now);
      RunIsExclusive(next, e.now, events[1..]);
      assert Latest(e.now, events[1..]) == Latest(since, events);
      SuccessionChains(jobs, next, Run(jobs, events), since, e.now, Latest(since, events));
    }
  }

  // ------------------------------------------------------------------- fencing

  /** A token that was once issued and is refused now is refused for ever. */
  lemma RefusedForever(jobs: Jobs, since: Instant, events: seq<Event>, token: Token)
    requires Exclusive(jobs, since) && Advancing(since, events)
    requires token.job in jobs && token.generation <= jobs[token.job].generation
    requires !Holds(jobs, token, since)
    ensures !Holds(Run(jobs, events), token, Latest(since, events))
  {
    RunIsExclusive(jobs, since, events);
    assert Successor(jobs[token.job], Run(jobs, events)[token.job], since, Latest(since, events));
  }

  /** Another claim of the same job supersedes the token at once and for ever. */
  lemma SupersededForever(jobs: Jobs, since: Instant, now: Instant, owner: string, events: seq<Event>, token: Token)
    requires Exclusive(jobs, since) && NotLater(since, now) && Advancing(now, events)
    requires token.job in jobs && token.generation <= jobs[token.job].generation
    requires Allowed(jobs, Claim(token.job, owner), now)
    ensures !Holds(Run(Apply(jobs, Claim(token.job, owner), now), events), token, Latest(now, events))
  {
    StepIsExclusive(jobs, Claim(token.job, owner), since, now);
    RefusedForever(Apply(jobs, Claim(token.job, owner), now), now, events, token);
  }

  /** A claim can be made only when no earlier token of the scope is accepted any more. */
  lemma ClaimFencesScope(jobs: Jobs, now: Instant, id: nat, owner: string, token: Token)
    requires Allowed(jobs, Claim(id, owner), now)
    requires token.job in jobs && SameScope(jobs[token.job], jobs[id]) && token.generation <= jobs[token.job].generation
    ensures !Holds(Apply(jobs, Claim(id, owner), now), token, now)
  {
  }

  /** Writes accepted at one moment within one scope come from one claim. */
  lemma OneWriter(jobs: Jobs, now: Instant, a: Token, b: Token)
    requires Exclusive(jobs, now) && Holds(jobs, a, now) && Holds(jobs, b, now)
    requires SameScope(jobs[a.job], jobs[b.job])
    ensures a == b
  {
  }

  // ------------------------------------------------------------------ progress

  /** The text of an instant with its nanoseconds sorts before the bare second they share. */
  predicate Past(t: Option<Instant>, now: Instant) {
    match t
    case None => true
    case Some(i) => i.seconds < now.seconds || (i.seconds == now.seconds && i.nanos != 0)
  }

  predicate Reached(t: Option<Instant>, now: Instant) {
    t.Some? ==> t.value.seconds <= now.seconds
  }

  /** Somebody should work on the job: it waits and its time has come, or its worker's lease has passed. */
  predicate Due(job: Job, now: Instant) {
    match job.status
    case Queued | RetryWait => Reached(job.next, now)
    case Running => Past(job.until, now)
    case _ => false
  }

  /** Another job of the same source and connection is being worked on. */
  predicate ScopeHeld(jobs: Jobs, id: nat, now: Instant)
    requires id in jobs
  {
    exists other :: other in jobs && other != id
      && jobs[other].source == jobs[id].source && jobs[other].connection == jobs[id].connection
      && jobs[other].status.Running? && jobs[other].until.Some? && now.seconds < jobs[other].until.value.seconds
  }

  /** Something can be claimed, and whatever can be was created no later than `id`. */
  ghost predicate ClaimServes(jobs: Jobs, id: nat, owner: string, now: Instant)
    requires id in jobs
  {
    && (exists c :: Allowed(jobs, Claim(c, owner), now))
    && (forall c :: Allowed(jobs, Claim(c, owner), now) ==> c in jobs && jobs[c].created <= jobs[id].created)
  }

  lemma ClaimableExactly(jobs: Jobs, id: nat, now: Instant)
    ensures Claimable(jobs, id, now) <==> id in jobs && Due(jobs[id], now) && !ScopeHeld(jobs, id, now)
  {
  }

  /** Of some jobs one was created first. */
  lemma {:induction false} FirstCreated(jobs: Jobs, ids: set<nat>) returns (first: nat)
    requires ids != {} && ids <= jobs.Keys
    ensures first in ids && forall id :: id in ids ==> jobs[first].created <= jobs[id].created
    decreases |ids|
  {
    first :| first in ids;
    var rest := ids - {first};
    if rest != {} {
      var other := FirstCreated(jobs, rest);
      forall id | id in ids ensures id == first || jobs[other].created <= jobs[id].created {
        assert id != first ==> id in rest;
      }
      if jobs[other].created < jobs[first].created {
        first := other;
      }
    }
  }

  /** A due job in a free scope is claimed next, unless one created no later is. */
  lemma NobodyIsForgotten(jobs: Jobs, id: nat, owner: string, now: Instant)
    requires owner != "" && id in jobs && Due(jobs[id], now) && !ScopeHeld(jobs, id, now)
    ensures ClaimServes(jobs, id, owner, now)
  {
    ClaimableExactly(jobs, id, now);
    var ready := set c | c in jobs && Claimable(jobs, c, now);
    assert id in ready;
    var first := FirstCreated(jobs, ready);
    assert IsPick(jobs, first, now) && Allowed(jobs, Claim(first, owner), now);
  }

  /** Nothing else is ever claimed. */
  lemma OnlyDueIsClaimed(jobs: Jobs, id: nat, owner: string, now: Instant)
    requires Allowed(jobs, Claim(id, owner), now)
    ensures owner != "" && id in jobs && Due(jobs[id], now) && !ScopeHeld(jobs, id, now)
  {
    ClaimableExactly(jobs, id, now);
  }

  /** Nothing was heard of the job: no step that concerns it was let through. */
  ghost predicate Silent(jobs: Jobs, id: nat, events: seq<Event>)
    decreases |events|
  {
    events == [] ||
    (!Concerns(jobs, events[0].step, id) && Silent(Apply(jobs, events[0].step, events[0].now), id, events[1..]))
  }

  predicate Concerns(jobs: Jobs, step: Step, id: nat) {
    match step
    case Enqueue(_, _, _) => false
    case Claim(claimed, _) => claimed == id
    case Renew(token) => token.job == id
    case Write(token) => token.job == id
    case Finish(token, _, _) => token.job == id
    case Wake(_) => id in jobs && !jobs[id].status.Running?
  }

  lemma {:induction false} SilenceChangesNothing(jobs: Jobs, id: nat, events: seq<Event>)
    requires id in jobs && Silent(jobs, id, events)
    ensures id in Run(jobs, events) && Run(jobs, events)[id] == jobs[id]
    decreases |events|
  {
    if events != [] {
      var next := Apply(jobs, events[0].step, events[0].now);
      assert id in next && next[id] == jobs[id];
      SilenceChangesNothing(next, id, events[1..]);
    }
  }

  /** A worker that claims a job and is never heard of again loses it: once 120
    seconds have passed and the scope is free, it is the job's turn again, and
    whoever claims it does so under a higher generation. */
  lemma CrashedIsClaimedAgain(jobs: Jobs, id: nat, owner: string, start: Instant, events: seq<Event>, successor: string, now: Instant)
    requires Allowed(jobs, Claim(id, owner), start) && successor != ""
    requires Silent(Apply(jobs, Claim(id, owner), start), id, events)
    requires start.seconds + 120 < now.seconds || (start.seconds + 120 == now.seconds && start.nanos != 0)
    requires var left := Run(Apply(jobs, Claim(id, owner), start), events); id in left ==> !ScopeHeld(left, id, now)
    ensures var left := Run(Apply(jobs, Claim(id, owner), start), events);
      && id in left && ClaimServes(left, id, successor, now)
      && (Allowed(left, Claim(id, successor), now) ==>
            var again := Apply(left, Claim(id, successor), now)[id];
            && again.generation > Apply(jobs, Claim(id, owner), start)[id].generation > jobs[id].generation
            && again.owner == successor && again.status.Running?
            && again.until == Some(Instant(now.seconds + 120, now.nanos)))
  {
    var claimed := Apply(jobs, Claim(id, owner), start);
    SilenceChangesNothing(claimed, id, events);
    NobodyIsForgotten(Run(claimed, events), id, successor, now);
  }

  /** A claim or a renewal is good for 120 seconds, to the second. */
  lemma LeaseLasts(jobs: Jobs, token: Token, start: Instant, now: Instant)
    requires Allowed(jobs, Renew(token), start) && NotLater(start, now)
    ensures Holds(Apply(jobs, Renew(token), start), token, now) <==> now.seconds < start.seconds + 120
  {
  }

  lemma ClaimLasts(jobs: Jobs, id: nat, owner: string, start: Instant, now: Instant)
    requires Allowed(jobs, Claim(id, owner), start) && NotLater(start, now)
    ensures Holds(Apply(jobs, Claim(id, owner), start), Token(id, owner, jobs[id].generation + 1), now)
      <==> now.seconds < start.seconds + 120
  {
  }

  /** A claim counts the attempt and touches nothing but the lease; a new job waits for its first fetch and is due at once. */
  lemma ClaimExactly(jobs: Jobs, id: nat, owner: string, now: Instant)
    requires Allowed(jobs, Claim(id, owner), now)
    ensures Apply(jobs, Claim(id, owner), now) == jobs[id := jobs[id].(
      status := Running, owner := owner, generation := jobs[id].generation + 1,
      until := Some(Instant(now.seconds + 120, now.nanos)), attempt := jobs[id].attempt + 1)]
  {
  }

  lemma EnqueuedIsDue(jobs: Jobs, id: nat, source: string, connection: Option<nat>, now: Instant)
    requires id !in jobs
    ensures var t := Apply(jobs, Enqueue(id, source, connection), now);
      && id in t && t == jobs[id := t[id]] && Due(t[id], now)
      && t[id].source == source && t[id].connection == connection && t[id].created == now.seconds
      && t[id].phase == Fetch && t[id].status == Queued && t[id].attempt == 0 && t[id].generation == 0
  {
  }

  /** A finished job is done with: its token is refused, and it is due again only if
    it is to be retried, after a minute times the square of the attempt and an hour at most. */
  lemma FinishedComesBack(jobs: Jobs, token: Token, status: JobStatus, attempt: nat, start: Instant, now: Instant)
    requires Allowed(jobs, Finish(token, status, attempt), start)
    ensures var finished := Apply(jobs, Finish(token, status, attempt), start);
      && token.job in finished && !Holds(finished, token, now)
      && finished == jobs[token.job := jobs[token.job].(status := status, until := None, next := finished[token.job].next)]
      && (status != RetryWait ==> finished[token.job].next == None)
      && (Due(finished[token.job], now) <==>
            && status == RetryWait
            && (start.seconds + 60 * attempt * attempt <= now.seconds || start.seconds + 3600 <= now.seconds))
  {
    assert attempt * attempt * 60 == 60 * attempt * attempt;
  }

  /** New credentials make exactly the waiting report downloads of a connection due at once, with a fresh count of attempts. */
  lemma WokenIsDue(jobs: Jobs, connection: nat, id: nat, now: Instant)
    requires id in jobs
    ensures var woken := Apply(jobs, Wake(connection), now);
      && id in woken
      && if jobs[id].source == "flex" && jobs[id].connection == Some(connection) && jobs[id].phase == Fetch
            && jobs[id].status in [RetryWait, NeedsAction]
         then Due(woken[id], now) && woken[id] == jobs[id].(status := Queued, attempt := 0, next := None)
         else woken[id] == jobs[id]
  {
  }

  // ------------------------------------------------------ deleted connections

  function Disconnected(jobs: Jobs, connection: nat): Jobs {
    map id | id in jobs ::
      if jobs[id].connection == Some(connection) then jobs[id].(connection := None) else jobs[id]
  }

  /** Job `i` would lose its connection and end up in the scope of job `j`. */
  predicate Meet(jobs: Jobs, connection: nat, i: nat, j: nat)
    requires i in jobs && j in jobs
  {
    jobs[i].connection == Some(connection) && jobs[j].connection == None && jobs[i].source == jobs[j].source
  }

  /** Deleting a connection keeps exclusion exactly when no live job that loses
    its connection meets a live job of the same source that has, or gets, none. */
  lemma DeletionExactly(jobs: Jobs, connection: nat, now: Instant)
    requires Exclusive(jobs, now)
    ensures Exclusive(Disconnected(jobs, connection), now) <==>
      forall i, j | i in jobs && j in jobs && Live(jobs[i], now) && Live(jobs[j], now) :: !Meet(jobs, connection, i, j)
  {
    var jobs' := Disconnected(jobs, connection);
    if i, j :| i in jobs && j in jobs && Live(jobs[i], now) && Live(jobs[j], now) && Meet(jobs, connection, i, j) {
      assert i != j && SameScope(jobs'[i], jobs'[j]);
      assert Live(jobs'[i], now) && Live(jobs'[j], now);
    } else {
      forall i, j | i in jobs' && j in jobs' && i != j && SameScope(jobs'[i], jobs'[j])
        ensures !(Live(jobs'[i], now) && Live(jobs'[j], now))
      {
        assert Live(jobs'[i], now) == Live(jobs[i], now) && Live(jobs'[j], now) == Live(jobs[j], now);
      }
    }
  }

  function TwoWorkers(): Jobs {
    var now := Instant(0, 0);
    map[1 := Claimed(NewJob("flex", Some(1), 0), "a", now), 2 := Claimed(NewJob("flex", Some(2), 0), "b", now)]
  }

  /** Two deletions, and two workers share a scope. */
  lemma DeletionBreaksExclusion()
    ensures Exclusive(TwoWorkers(), Instant(0, 0))
    ensures !Exclusive(Disconnected(Disconnected(TwoWorkers(), 1), 2), Instant(0, 0))
  {
    var now := Instant(0, 0);
    var jobs := Disconnected(Disconnected(TwoWorkers(), 1), 2);
    assert jobs[1].connection == None && jobs[2].connection == None;
    assert SameScope(jobs[1], jobs[2]) && Live(jobs[1], now) && Live(jobs[2], now);
  }

  // -------------------------------------------------------------------- table

  class JobTable {
    var jobs: Jobs

    constructor ()
      ensures jobs == map[]
    {
      jobs := map[];
    }

    /** The oldest claimable job, found in one pass over the table. */
    method Pick(now: Instant) returns (pick: Option<nat>)
      ensures pick.Some? ==> IsPick(jobs, pick.value, now)
      ensures pick.None? ==> forall id :: !Claimable(jobs, id, now)
      ensures pick.Some? ==> pick.value in jobs && Due(jobs[pick.value], now) && !ScopeHeld(jobs, pick.value, now)
      ensures forall id :: id in jobs && Due(jobs[id], now) && !ScopeHeld(jobs, id, now) ==>
        pick.Some? && jobs[pick.value].created <= jobs[id].created
    {
      pick := None;
      var rest := jobs.Keys;
      while rest != {}
        invariant rest <= jobs.Keys
        invariant pick.None? ==> forall id :: Claimable(jobs, id, now) ==> id in rest
        invariant pick.Some? ==> Claimable(jobs, pick.value, now)
        invariant pick.Some? ==>
          forall id :: Claimable(jobs, id, now) ==> id in rest || jobs[pick.value].created <= jobs[id].created
        decreases |rest|
      {
        var id := Folds.AnyOf(rest);
        rest := rest - {id};
        if Claimable(jobs, id, now) && (pick.None? || jobs[id].created < jobs[pick.value].created) {
          pick := Some(id);
        }
      }
      forall id ensures Claimable(jobs, id, now) <==> id in jobs && Due(jobs[id], now) && !ScopeHeld(jobs, id, now) {
        ClaimableExactly(jobs, id, now);
      }
    }

    method ClaimHistoryJob(owner: string, now: Instant) returns (token: Option<Token>)
      modifies this
      ensures token.Some? ==>
        var claim := Claim(token.value.job, owner);
        && Allowed(old(jobs), claim, now) && jobs == Apply(old(jobs), claim, now)
        && Holds(jobs, token.value, now)
      ensures token.None? ==> jobs == old(jobs)
      ensures forall id :: id in old(jobs) && Due(old(jobs)[id], now) && !ScopeHeld(old(jobs), id, now) && owner != "" ==>
        token.Some? && old(jobs)[token.value.job].created <= old(jobs)[id].created
    {
      if owner == "" {
        return None;
      }
      var pick := Pick(now);
      if pick.None? {
        return None;
      }
      var id := pick.value;
      jobs := jobs[id := Claimed(jobs[id], owner, now)];
      return Some(Token(id, owner, jobs[id].generation));
    }

    method RenewHistoryJob(token: Token, now: Instant) returns (held: bool)
      modifies this
      ensures held <==> Allowed(old(jobs), Renew(token), now)
      ensures jobs == Apply(old(jobs), Renew(token), now)
    {
      held := Holds(jobs, token, now);
      if held {
        jobs := jobs[token.job := Renewed(jobs[token.job], now)];
      }
    }

    method SaveUnderLease(token: Token, now: Instant) returns (held: bool)
      modifies this
      ensures held <==> Allowed(old(jobs), Write(token), now)
      ensures jobs == Apply(old(jobs), Write(token), now)
    {
      held := Holds(jobs, token, now);
      if held {
        jobs := jobs[token.job := jobs[token.job].(phase := Normalization)];
      }
    }

    method FinishHistoryJob(token: Token, status: JobStatus, attempt: nat, now: Instant) returns (held: bool)
      modifies this
      ensures held <==> Allowed(old(jobs), Finish(token, status, attempt), now)
      ensures jobs == Apply(old(jobs), Finish(token, status, attempt), now)
    {
      held := Final(status) && Holds(jobs, token, now);
      if held {
        jobs := jobs[token.job := Finished(jobs[token.job], status, attempt, now)];
      }
    }

    method RetryHistoryConnectionFetches(connection: nat, now: Instant)
      modifies this
      ensures jobs == Apply(old(jobs), Wake(connection), now)
    {
      var table := jobs;
      var rest := table.Keys;
      while rest != {}
        invariant rest <= table.Keys && jobs.Keys == table.Keys && table == old(jobs)
        invariant forall id | id in table :: jobs[id] == if id in rest then table[id] else Woken(table, connection)[id]
        decreases |rest|
      {
        var id := Folds.AnyOf(rest);
        rest := rest - {id};
        if Wakes(jobs[id], connection) {
          jobs := jobs[id := jobs[id].(status := Queued, attempt := 0, next := None)];
        }
      }
      assert jobs == Woken(old(jobs), connection);
    }
  }
}

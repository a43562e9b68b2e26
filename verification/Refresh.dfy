/** The queue of account refreshes: invalidations coalesce, one worker takes what
  is due, and every pass but the third schedules the next one. */
module Refresh {
  import opened Activities
  import Folds

  /** Times are milliseconds. */
  const FIRST_DELAY := 750
  const LAST_ATTEMPT := 2

  datatype Key = Key(connection: int, account: string)
  datatype Entry = Entry(due: int, attempt: nat)

  type Pending = map<Key, Entry>

  function Earlier(a: int, b: int): int {
    if a < b then a else b
  }

  function Invalidated(pending: Pending, key: Key, now: int): Pending {
    if key.connection <= 0 then pending
    else if key in pending then pending[key := Entry(Earlier(pending[key].due, now + FIRST_DELAY), 0)]
    else pending[key := Entry(now + FIRST_DELAY, 0)]
  }

  function Due(pending: Pending, now: int): Pending {
    map k | k in pending && pending[k].due <= now :: pending[k]
  }

  function NotDue(pending: Pending, now: int): Pending {
    map k | k in pending && pending[k].due > now :: pending[k]
  }

  function RetryDelay(attempt: nat): int {
    if attempt == 1 then 15000 else 5000
  }

  /** After a pass, unless a newer entry is already there. */
  function Requeued(pending: Pending, key: Key, entry: Entry, now: int): Pending {
    if entry.attempt >= LAST_ATTEMPT || key in pending then pending
    else pending[key := Entry(now + RetryDelay(entry.attempt), entry.attempt + 1)]
  }

  class RefreshQueue {
    var pending: Pending

    constructor ()
      ensures pending == map[]
    {
      pending := map[];
    }

    method InvalidateAccount(key: Key, now: int)
      modifies this
      ensures pending == Invalidated(old(pending), key, now)
    {
      if key.connection <= 0 {
        return;
      }
      if key in pending {
        var prior := pending[key];
        pending := pending[key := Entry(Earlier(prior.due, now + FIRST_DELAY), 0)];
      } else {
        pending := pending[key := Entry(now + FIRST_DELAY, 0)];
      }
    }

    /** Moves every due entry out of the queue; nothing is taken while syncing is off. */
    method TakeReady(enabled: bool, now: int) returns (ready: Pending)
      modifies this
      ensures !enabled ==> pending == map[] && ready == map[]
      ensures enabled ==> ready == Due(old(pending), now) && pending == NotDue(old(pending), now)
    {
      ready := map[];
      if !enabled {
        pending := map[];
        return;
      }
      var rest := pending.Keys;
      while rest != {}
        invariant rest <= old(pending).Keys && rest <= pending.Keys
        invariant forall k :: k in pending <==> k in old(pending) && (k in rest || old(pending)[k].due > now)
        invariant forall k :: k in pending ==> pending[k] == old(pending)[k]
        invariant forall k :: k in ready <==> k in old(pending) && k !in rest && old(pending)[k].due <= now
        invariant forall k :: k in ready ==> ready[k] == old(pending)[k]
        decreases |rest|
      {
        var key := Folds.AnyOf(rest);
        rest := rest - {key};
        if pending[key].due <= now {
          ready := ready[key := pending[key]];
          pending := pending - {key};
        }
      }
    }

    method Requeue(key: Key, entry: Entry, now: int)
      modifies this
      ensures pending == Requeued(old(pending), key, entry, now)
    {
      if entry.attempt >= LAST_ATTEMPT {
        return;
      }
      var delay := 5000;
      if entry.attempt == 1 {
        delay := 15000;
      }
      if key !in pending {
        pending := pending[key := Entry(now + delay, entry.attempt + 1)];
      }
    }
  }

  // --------------------------------------------------------------------- runs

  /** `ready` is what the single worker has taken and not yet finished. */
  datatype State = State(pending: Pending, ready: Pending)

  datatype Step =
    | Invalidate(key: Key, now: int)
    | Take(now: int)
    | Finish(key: Key, now: int)

  predicate Allowed(s: State, step: Step) {
    match step
    case Invalidate(_, _) => true
    case Take(_) => s.ready == map[]
    case Finish(key, _) => key in s.ready
  }

  function Apply(s: State, step: Step): State {
    if !Allowed(s, step) then s
    else
      match step
      case Invalidate(key, now) => s.(pending := Invalidated(s.pending, key, now))
      case Take(now) => State(NotDue(s.pending, now), Due(s.pending, now))
      case Finish(key, now) => State(Requeued(s.pending, key, s.ready[key], now), s.ready - {key})
  }

  function Run(s: State, steps: seq<Step>): State
    decreases |steps|
  {
    if steps == [] then s else Run(Apply(s, steps[0]), steps[1..])
  }

  predicate Takes(s: State, step: Step, key: Key) {
    step.Take? && Allowed(s, step) && key in s.pending && s.pending[key].due <= step.now
  }

  /** How often a run takes the account for a refresh. */
  function Taken(s: State, steps: seq<Step>, key: Key): nat
    decreases |steps|
  {
    if steps == [] then 0
    else (if Takes(s, steps[0], key) then 1 else 0) + Taken(Apply(s, steps[0]), steps[1..], key)
  }

  predicate QueuedBy(s: State, key: Key, due: int) {
    key in s.pending && s.pending[key].due <= due
  }

  /** A queued entry is never lost or delayed: it stays until it is taken. */
  lemma {:induction false} QueuedUntilTaken(s: State, steps: seq<Step>, key: Key, due: int)
    requires QueuedBy(s, key, due)
    ensures Taken(s, steps, key) > 0 || QueuedBy(Run(s, steps), key, due)
    decreases |steps|
  {
    if steps != [] && !Takes(s, steps[0], key) {
      QueuedUntilTaken(Apply(s, steps[0]), steps[1..], key, due);
    }
  }

  /** After an invalidation, whatever follows, the account is queued for no later
    than 750 ms after it or has been taken since. */
  lemma InvalidationIsKept(s: State, steps: seq<Step>, key: Key, now: int)
    requires key.connection > 0
    ensures var t := Apply(s, Invalidate(key, now));
      Taken(t, steps, key) > 0 || QueuedBy(Run(t, steps), key, now + FIRST_DELAY)
  {
    QueuedUntilTaken(Apply(s, Invalidate(key, now)), steps, key, now + FIRST_DELAY);
  }

  lemma {:induction false} TakenConcat(s: State, steps: seq<Step>, more: seq<Step>, key: Key)
    ensures Run(s, steps + more) == Run(Run(s, steps), more)
    ensures Taken(s, steps + more, key) == Taken(s, steps, key) + Taken(Run(s, steps), more, key)
    decreases |steps|
  {
    if steps == [] {
      assert steps + more == more;
    } else {
      assert (steps + more)[1..] == steps[1..] + more;
      TakenConcat(Apply(s, steps[0]), steps[1..], more, key);
    }
  }

  /** The first pass of an idle worker after 750 ms has taken it. */
  lemma TakenInTime(s: State, steps: seq<Step>, key: Key, now: int, tick: int)
    requires key.connection > 0 && tick >= now + FIRST_DELAY
    requires Run(Apply(s, Invalidate(key, now)), steps).ready == map[]
    ensures Taken(Apply(s, Invalidate(key, now)), steps + [Take(tick)], key) > 0
  {
    var t := Apply(s, Invalidate(key, now));
    InvalidationIsKept(s, steps, key, now);
    TakenConcat(t, steps, [Take(tick)], key);
    assert Taken(t, steps, key) == 0 ==> Takes(Run(t, steps), Take(tick), key);
  }

  /** An invalidation asks for a refresh 750 ms later, unless an earlier one is
    queued, and starts the attempts over. Nothing else is touched. */
  lemma InvalidationExactly(s: State, key: Key, now: int)
    ensures var t := Apply(s, Invalidate(key, now));
      && t.ready == s.ready
      && (forall k :: k != key ==> (k in t.pending <==> k in s.pending) && (k in s.pending ==> t.pending[k] == s.pending[k]))
      && (key.connection <= 0 ==> t == s)
      && (key.connection > 0 ==>
            && key in t.pending && t.pending[key].attempt == 0
            && t.pending[key].due ==
                 (if key in s.pending && s.pending[key].due < now + 750 then s.pending[key].due else now + 750))
  {
  }

  /** A first pass is followed by another after five seconds, a second one by a
    third after fifteen more, and a third by none. */
  lemma PassIsFollowed(s: State, key: Key, now: int)
    requires Allowed(s, Finish(key, now)) && key !in s.pending
    ensures var t := Apply(s, Finish(key, now));
      && key !in t.ready
      && t.pending == match s.ready[key].attempt
           case 0 => s.pending[key := Entry(now + 5000, 1)]
           case 1 => s.pending[key := Entry(now + 15000, 2)]
           case _ => s.pending
  {
  }

  /** What was queued or asked for meanwhile is kept as it is. */
  lemma NewerIsKept(s: State, key: Key, now: int)
    requires Allowed(s, Finish(key, now)) && key in s.pending
    ensures Apply(s, Finish(key, now)).pending == s.pending
  {
  }

  /** The retry does happen: the first pass of an idle worker after its time has taken the account, and none before that. */
  lemma RetryHappens(s: State, steps: seq<Step>, key: Key, now: int, tick: int)
    requires Allowed(s, Finish(key, now)) && key !in s.pending && s.ready[key].attempt < 2
    requires Run(Apply(s, Finish(key, now)), steps).ready == map[]
    ensures var t, due := Apply(s, Finish(key, now)), now + (if s.ready[key].attempt == 0 then 5000 else 15000);
      && (tick >= due ==> Taken(t, steps + [Take(tick)], key) > 0)
      && (tick < due ==> !Takes(t, Take(tick), key))
  {
    var t, due := Apply(s, Finish(key, now)), now + (if s.ready[key].attempt == 0 then 5000 else 15000);
    QueuedUntilTaken(t, steps, key, due);
    TakenConcat(t, steps, [Take(tick)], key);
    if tick >= due && Taken(t, steps, key) == 0 {
      assert Takes(Run(t, steps), Take(tick), key);
    }
  }

  // ------------------------------------------------------------------- bounded

  ghost predicate Bounded(s: State) {
    (forall k :: k in s.pending ==> s.pending[k].attempt <= LAST_ATTEMPT) &&
    (forall k :: k in s.ready ==> s.ready[k].attempt <= LAST_ATTEMPT)
  }

  /** How many passes the account can still get without another invalidation. */
  function Left(s: State, key: Key): int {
    if key in s.pending then 3 - s.pending[key].attempt
    else if key in s.ready then 2 - s.ready[key].attempt
    else 0
  }

  lemma StepSpends(s: State, step: Step, key: Key)
    requires Bounded(s) && !(step.Invalidate? && step.key == key)
    ensures Bounded(Apply(s, step))
    ensures (if Takes(s, step, key) then 1 else 0) + Left(Apply(s, step), key) <= Left(s, key)
  {
  }

  lemma {:induction false} PassesBounded(s: State, steps: seq<Step>, key: Key)
    requires Bounded(s)
    requires forall i :: 0 <= i < |steps| ==> !(steps[i].Invalidate? && steps[i].key == key)
    ensures Bounded(Run(s, steps))
    ensures Taken(s, steps, key) + Left(Run(s, steps), key) <= Left(s, key)
    decreases |steps|
  {
    if steps != [] {
      StepSpends(s, steps[0], key);
      PassesBounded(Apply(s, steps[0]), steps[1..], key);
    }
  }

  lemma {:induction false} RunBounded(s: State, steps: seq<Step>)
    requires Bounded(s)
    ensures Bounded(Run(s, steps))
    decreases |steps|
  {
    if steps != [] {
      assert Bounded(Apply(s, steps[0]));
      RunBounded(Apply(s, steps[0]), steps[1..]);
    }
  }

  /** At most three passes follow the last invalidation of an account. */
  lemma AtMostThreePasses(before: seq<Step>, after: seq<Step>, key: Key, now: int)
    requires forall i :: 0 <= i < |after| ==> !(after[i].Invalidate? && after[i].key == key)
    ensures var s := Apply(Run(State(map[], map[]), before), Invalidate(key, now));
      0 <= Taken(s, after, key) <= 3
  {
    var s := Run(State(map[], map[]), before);
    RunBounded(State(map[], map[]), before);
    var t := Apply(s, Invalidate(key, now));
    assert Bounded(t);
    PassesBounded(t, after, key);
    RunBounded(t, after);
    assert Left(Run(t, after), key) >= 0;
  }
}

/** The lifetime of broker sessions across the manager's lock, the market-data
  lock and the trading lock, over every interleaving of calls and reloads.

  A session is a number given out when it is opened. A call holds a read lock
  of its service for as long as it uses the session; replacing a service's table
  takes the write lock, so it waits until no call of that service is in flight.
  Reloads are serialised by a lock of their own. */
module Sessions {
  import opened Activities

  type Table = map<nat, nat>
  type Configs = map<nat, int>

  datatype Service = Manager | MarketData | Trading

  /** A call in flight: it holds the read lock of `service` and uses `session`. */
  datatype Call = Call(service: Service, session: nat)

  /** Where the reload stands. `first` is the next session number when it began. */
  datatype Reload =
    | Idle
    | Building(wanted: Configs, sessions: Table, configs: Configs, reused: set<nat>, first: nat)
    | Published(sessions: Table, previous: Table, reused: set<nat>)
    | MarketReplaced(sessions: Table, previous: Table, reused: set<nat>)
    | Closing(todo: set<nat>)

  datatype State = State(
    manager: Table,
    configs: Configs,
    market: Table,
    trading: Table,
    calls: map<nat, Call>,
    issued: nat,
    closed: set<nat>,
    reload: Reload)

  function TableOf(s: State, service: Service): Table {
    match service
    case Manager => s.manager
    case MarketData => s.market
    case Trading => s.trading
  }

  predicate Reading(s: State, service: Service) {
    exists c :: c in s.calls && s.calls[c].service == service
  }

  /** The manager's write lock is held from publication until the market data follow. */
  predicate WriteLocked(s: State, service: Service) {
    service.Manager? && s.reload.Published?
  }

  predicate Reuses(s: State, id: nat, config: int) {
    id in s.manager && id in s.configs && s.configs[id] == config
  }

  // -------------------------------------------------------------------- steps

  /** `capable` are the connections whose sessions offer the service. */
  datatype Step =
    | Acquire(call: nat, service: Service, id: nat)
    | Release(call: nat)
    | BeginReload(wanted: Configs)
    | Reuse(id: nat)
    | Open(id: nat)
    | Fail(mismatched: bool)
    | Publish
    | ReplaceMarket(capable: set<nat>)
    | ReplaceTrading(capable: set<nat>)
    | CloseOne(session: nat)
    | Return

  predicate Unbuilt(s: State, id: nat) {
    s.reload.Building? && id in s.reload.wanted && id !in s.reload.sessions
  }

  predicate Allowed(s: State, step: Step) {
    match step
    case Acquire(call, service, id) => call !in s.calls && id in TableOf(s, service) && !WriteLocked(s, service)
    case Release(call) => call in s.calls
    case BeginReload(_) => s.reload.Idle?
    case Reuse(id) => Unbuilt(s, id) && Reuses(s, id, s.reload.wanted[id])
    case Open(id) => Unbuilt(s, id) && !Reuses(s, id, s.reload.wanted[id])
    case Fail(_) => s.reload.Building?
    case Publish => s.reload.Building? && s.reload.wanted.Keys == s.reload.sessions.Keys && !Reading(s, Manager)
    case ReplaceMarket(_) => s.reload.Published? && !Reading(s, MarketData)
    case ReplaceTrading(_) => s.reload.MarketReplaced? && !Reading(s, Trading)
    case CloseOne(session) => s.reload.Closing? && session in s.reload.todo
    case Return => s.reload.Closing?
  }

  function Restrict(t: Table, keys: set<nat>): Table {
    map id | id in t && id in keys :: t[id]
  }

  /** The sessions of `t` under connections outside `keys`. */
  function Others(t: Table, keys: set<nat>): set<nat> {
    set id | id in t && id !in keys :: t[id]
  }

  /** A failed build closes what it opened. `mismatched` is an opened session that
    was refused because it names another connection. */
  function Failed(s: State, mismatched: bool): State
    requires s.reload.Building?
  {
    var r := s.reload;
    s.(closed := s.closed + Others(r.sessions, r.reused) + (if mismatched then {s.issued} else {}),
       issued := if mismatched then s.issued + 1 else s.issued,
       reload := Idle)
  }

  function Apply(s: State, step: Step): State {
    if !Allowed(s, step) then s
    else
      match step
      case Acquire(call, service, id) => s.(calls := s.calls[call := Call(service, TableOf(s, service)[id])])
      case Release(call) => s.(calls := map c | c in s.calls && c != call :: s.calls[c])
      case BeginReload(wanted) => s.(reload := Building(wanted, map[], map[], {}, s.issued))
      case Reuse(id) =>
        var r := s.reload;
        s.(reload := r.(sessions := r.sessions[id := s.manager[id]], configs := r.configs[id := r.wanted[id]],
                        reused := r.reused + {id}))
      case Open(id) =>
        var r := s.reload;
        s.(issued := s.issued + 1,
           reload := r.(sessions := r.sessions[id := s.issued], configs := r.configs[id := r.wanted[id]]))
      case Fail(mismatched) => Failed(s, mismatched)
      case Publish =>
        s.(manager := s.reload.sessions, configs := s.reload.configs,
           reload := Published(s.reload.sessions, s.manager, s.reload.reused))
      case ReplaceMarket(capable) =>
        s.(market := Restrict(s.reload.sessions, capable),
           reload := MarketReplaced(s.reload.sessions, s.reload.previous, s.reload.reused))
      case ReplaceTrading(capable) =>
        s.(trading := Restrict(s.reload.sessions, capable),
           reload := Closing(Others(s.reload.previous, s.reload.reused)))
      case CloseOne(session) =>
        s.(closed := s.closed + {session}, reload := Closing(s.reload.todo - {session}))
      case Return => s.(reload := Idle)
  }

  function Run(s: State, steps: seq<Step>): State
    decreases |steps|
  {
    if steps == [] then s else Run(Apply(s, steps[0]), steps[1..])
  }

  function Startup(): State {
    State(map[], map[], map[], map[], map[], 0, {}, Idle)
  }

  // ---------------------------------------------------------------- invariant

  predicate StillOpen(s: State, session: nat) {
    session < s.issued && session !in s.closed
  }

  ghost predicate AllOpen(t: Table, issued: nat, closed: set<nat>) {
    forall id :: id in t ==> t[id] < issued && t[id] !in closed
  }

  /** No session serves two connections. */
  ghost predicate Injective(t: Table) {
    forall i, j :: i in t && j in t && i != j ==> t[i] != t[j]
  }

  /** Every call uses a session of its service's present table. */
  ghost predicate CallsServed(s: State) {
    forall c :: c in s.calls ==> s.calls[c].session in TableOf(s, s.calls[c].service).Values
  }

  ghost predicate Disjoint(t: Table, sessions: set<nat>) {
    forall id :: id in t ==> t[id] !in sessions
  }

  /** Each entry of `sessions` is either reused from `prior` or numbered from `first`. */
  ghost predicate Derived(sessions: Table, prior: Table, reused: set<nat>, first: nat, issued: nat) {
    forall id :: id in sessions ==>
      if id in reused then id in prior && sessions[id] == prior[id] else first <= sessions[id] < issued
  }

  /** Every session opened since `first` is entered somewhere. */
  ghost predicate AllEntered(sessions: Table, reused: set<nat>, first: nat, issued: nat) {
    forall h: nat :: first <= h < issued ==> h in Others(sessions, reused)
  }

  ghost predicate ReloadFits(manager: Table, market: Table, trading: Table, issued: nat, closed: set<nat>, reload: Reload) {
    match reload
    case Idle => true
    case Building(wanted, sessions, configs, reused, first) =>
      && first <= issued
      && AllOpen(manager, first, closed) && AllOpen(market, first, closed) && AllOpen(trading, first, closed)
      && Derived(sessions, manager, reused, first, issued)
      && Injective(sessions)
      && AllOpen(sessions, issued, closed)
      && AllEntered(sessions, reused, first, issued)
      && reused <= sessions.Keys
    case Published(sessions, previous, reused) =>
      && sessions == manager && AllOpen(previous, issued, closed)
      && Disjoint(sessions, Others(previous, reused))
    case MarketReplaced(sessions, previous, reused) =>
      && sessions == manager && AllOpen(previous, issued, closed)
      && Disjoint(sessions, Others(previous, reused)) && Disjoint(market, Others(previous, reused))
    case Closing(todo) =>
      && (forall h :: h in todo ==> h < issued && h !in closed)
      && Disjoint(manager, todo) && Disjoint(market, todo) && Disjoint(trading, todo)
  }

  ghost predicate TablesOpen(manager: Table, market: Table, trading: Table, issued: nat, closed: set<nat>) {
    && AllOpen(manager, issued, closed)
    && AllOpen(market, issued, closed)
    && AllOpen(trading, issued, closed)
    && Injective(manager)
    && (forall h :: h in closed ==> h < issued)
  }

  ghost predicate Valid(s: State) {
    && TablesOpen(s.manager, s.market, s.trading, s.issued, s.closed)
    && CallsServed(s)
    && ReloadFits(s.manager, s.market, s.trading, s.issued, s.closed, s.reload)
  }

  // -------------------------------------------------------------- single steps

  lemma CallStep(s: State, step: Step)
    requires Valid(s) && (step.Acquire? || step.Release?)
    ensures Valid(Apply(s, step))
  {
    assert CallsServed(Apply(s, step));
  }

  lemma BeginStep(s: State, wanted: Configs)
    requires Valid(s)
    ensures Valid(Apply(s, BeginReload(wanted)))
  {
    assert CallsServed(Apply(s, BeginReload(wanted)));
  }

  /** Entering one more session keeps all earlier ones entered. */
  lemma EnteredStay(sessions: Table, reused: set<nat>, reused': set<nat>, id: nat, session: nat, first: nat, issued: nat)
    requires AllEntered(sessions, reused, first, issued) && id !in sessions && reused' <= reused + {id}
    ensures AllEntered(sessions[id := session], reused', first, issued)
  {
    var entered := Others(sessions[id := session], reused');
    forall h: nat | first <= h < issued ensures h in entered {
      assert h in Others(sessions, reused);
      var i :| i in sessions && i !in reused && sessions[i] == h;
      assert sessions[id := session][i] == h;
    }
  }

  lemma EnteredNext(sessions: Table, reused: set<nat>, id: nat, first: nat, issued: nat)
    requires AllEntered(sessions, reused, first, issued) && id !in sessions && id !in reused
    ensures AllEntered(sessions[id := issued], reused, first, issued + 1)
  {
    EnteredStay(sessions, reused, reused, id, issued, first, issued);
    assert sessions[id := issued][id] == issued;
  }

  lemma ReuseStep(s: State, id: nat)
    requires Valid(s) && Allowed(s, Reuse(id))
    ensures Valid(Apply(s, Reuse(id)))
  {
    var t := Apply(s, Reuse(id));
    var r := s.reload;
    assert CallsServed(t);
    EnteredStay(r.sessions, r.reused, t.reload.reused, id, s.manager[id], r.first, s.issued);
    assert Derived(t.reload.sessions, t.manager, t.reload.reused, r.first, t.issued);
  }

  lemma OpenStep(s: State, id: nat)
    requires Valid(s) && Allowed(s, Open(id))
    ensures Valid(Apply(s, Open(id)))
  {
    var t := Apply(s, Open(id));
    var r := s.reload;
    assert CallsServed(t);
    EnteredNext(r.sessions, r.reused, id, r.first, s.issued);
    assert Derived(t.reload.sessions, t.manager, r.reused, r.first, t.issued);
  }

  /** A failed build leaves every table as it was and closes every session it opened. */
  lemma FailureUndone(s: State, mismatched: bool)
    requires Valid(s) && s.reload.Building?
    ensures var t := Apply(s, Fail(mismatched));
      && Valid(t)
      && t.reload.Idle?
      && t.manager == s.manager && t.configs == s.configs && t.market == s.market && t.trading == s.trading
      && (forall h: nat :: s.reload.first <= h < t.issued ==> h in t.closed)
      && (forall h :: h in t.closed && h !in s.closed ==> s.reload.first <= h)
  {
    var t := Apply(s, Fail(mismatched));
    var gone := t.closed - s.closed;
    assert CallsServed(t);
    OpenedSince(s.reload.sessions, s.manager, s.reload.reused, s.reload.first, s.issued);
    assert t.closed == s.closed + gone && forall h :: h in gone ==> s.reload.first <= h < t.issued;
    OpenBefore(s.manager, s.reload.first, t.issued, s.closed, gone);
    OpenBefore(s.market, s.reload.first, t.issued, s.closed, gone);
    OpenBefore(s.trading, s.reload.first, t.issued, s.closed, gone);
  }

  lemma OpenedSince(sessions: Table, prior: Table, reused: set<nat>, first: nat, issued: nat)
    requires Derived(sessions, prior, reused, first, issued)
    ensures forall h :: h in Others(sessions, reused) ==> first <= h < issued
  {
  }

  /** Closing sessions opened since `first` leaves the tables from before open. */
  lemma OpenBefore(t: Table, first: nat, issued: nat, closed: set<nat>, gone: set<nat>)
    requires AllOpen(t, first, closed) && first <= issued && forall h :: h in gone ==> first <= h
    ensures AllOpen(t, issued, closed + gone)
  {
  }

  /** What a published build leaves to be closed serves no connection any more. */
  lemma ReplacedAreGone(sessions: Table, previous: Table, reused: set<nat>, first: nat, issued: nat)
    requires Derived(sessions, previous, reused, first, issued) && Injective(previous)
    requires Below(previous, first)
    ensures Disjoint(sessions, Others(previous, reused))
  {
  }

  lemma PublishStep(s: State)
    requires Valid(s)
    ensures Valid(Apply(s, Publish))
  {
    if Allowed(s, Publish) {
      var t := Apply(s, Publish);
      var r := s.reload;
      ReplacedAreGone(r.sessions, s.manager, r.reused, r.first, s.issued);
      forall c | c in t.calls ensures t.calls[c].session in TableOf(t, t.calls[c].service).Values {
        assert !t.calls[c].service.Manager?;
      }
    }
  }

  lemma RestrictKeeps(t: Table, keys: set<nat>, issued: nat, closed: set<nat>, gone: set<nat>)
    requires AllOpen(t, issued, closed) && Disjoint(t, gone)
    ensures AllOpen(Restrict(t, keys), issued, closed) && Disjoint(Restrict(t, keys), gone)
  {
  }

  lemma ReplaceMarketStep(s: State, capable: set<nat>)
    requires Valid(s)
    ensures Valid(Apply(s, ReplaceMarket(capable)))
  {
    if Allowed(s, ReplaceMarket(capable)) {
      var t := Apply(s, ReplaceMarket(capable));
      RestrictKeeps(s.manager, capable, s.issued, s.closed, Others(s.reload.previous, s.reload.reused));
      forall c | c in t.calls ensures t.calls[c].session in TableOf(t, t.calls[c].service).Values {
        assert !t.calls[c].service.MarketData?;
      }
    }
  }

  lemma ReplaceTradingStep(s: State, capable: set<nat>)
    requires Valid(s)
    ensures Valid(Apply(s, ReplaceTrading(capable)))
  {
    if Allowed(s, ReplaceTrading(capable)) {
      var t := Apply(s, ReplaceTrading(capable));
      RestrictKeeps(s.manager, capable, s.issued, s.closed, Others(s.reload.previous, s.reload.reused));
      forall c | c in t.calls ensures t.calls[c].session in TableOf(t, t.calls[c].service).Values {
        assert !t.calls[c].service.Trading?;
      }
    }
  }

  lemma CloseStep(s: State, step: Step)
    requires Valid(s) && (step.CloseOne? || step.Return?)
    ensures Valid(Apply(s, step))
  {
    var t := Apply(s, step);
    assert CallsServed(t);
  }

  lemma StepKeeps(s: State, step: Step)
    requires Valid(s)
    ensures Valid(Apply(s, step))
  {
    match step
    case Acquire(_, _, _) => CallStep(s, step);
    case Release(_) => CallStep(s, step);
    case BeginReload(wanted) => BeginStep(s, wanted);
    case Reuse(id) => if Allowed(s, step) { ReuseStep(s, id); }
    case Open(id) => if Allowed(s, step) { OpenStep(s, id); }
    case Fail(mismatched) => if Allowed(s, step) { FailureUndone(s, mismatched); }
    case Publish => PublishStep(s);
    case ReplaceMarket(capable) => ReplaceMarketStep(s, capable);
    case ReplaceTrading(capable) => ReplaceTradingStep(s, capable);
    case CloseOne(_) => CloseStep(s, step);
    case Return => CloseStep(s, step);
  }

  // --------------------------------------------------------------------- runs

  lemma {:induction false} RunKeeps(s: State, steps: seq<Step>)
    requires Valid(s)
    ensures Valid(Run(s, steps))
    decreases |steps|
  {
    if steps != [] {
      StepKeeps(s, steps[0]);
      RunKeeps(Apply(s, steps[0]), steps[1..]);
    }
  }

  /** In every interleaving, a session that a call is using is open. */
  lemma InUseIsOpen(steps: seq<Step>, call: nat)
    requires call in Run(Startup(), steps).calls
    ensures StillOpen(Run(Startup(), steps), Run(Startup(), steps).calls[call].session)
  {
    RunKeeps(Startup(), steps);
    var s := Run(Startup(), steps);
    assert s.calls[call].session in TableOf(s, s.calls[call].service).Values;
  }

  predicate StillBuilding(step: Step) {
    !step.Fail? && !step.Publish?
  }

  lemma BuildingStep(s: State, step: Step)
    requires s.reload.Building? && StillBuilding(step)
    ensures var t := Apply(s, step);
      && t.reload.Building? && t.reload.first == s.reload.first
      && t.manager == s.manager && t.configs == s.configs && t.market == s.market && t.trading == s.trading
      && t.closed == s.closed
  {
  }

  /** While a reload builds, calls come and go but no table changes. */
  lemma {:induction false} BuildingTouchesNothing(s: State, steps: seq<Step>)
    requires s.reload.Building? && forall i :: 0 <= i < |steps| ==> StillBuilding(steps[i])
    ensures var t := Run(s, steps);
      && t.reload.Building? && t.reload.first == s.reload.first
      && t.manager == s.manager && t.configs == s.configs && t.market == s.market && t.trading == s.trading
      && t.closed == s.closed
    decreases |steps|
  {
    if steps != [] {
      var next := Apply(s, steps[0]);
      BuildingStep(s, steps[0]);
      BuildingTouchesNothing(next, steps[1..]);
    }
  }

  /** A reload that fails before publication leaves the old tables intact, with
    every session it opened closed and no other, whatever calls ran meanwhile. */
  lemma FailedReload(s: State, wanted: Configs, steps: seq<Step>, mismatched: bool)
    requires Valid(s) && s.reload.Idle? && forall i :: 0 <= i < |steps| ==> StillBuilding(steps[i])
    ensures var t := Apply(Run(Apply(s, BeginReload(wanted)), steps), Fail(mismatched));
      && t.reload.Idle?
      && t.manager == s.manager && t.configs == s.configs && t.market == s.market && t.trading == s.trading
      && (forall h: nat :: s.issued <= h < t.issued ==> h in t.closed)
      && (forall h :: h in t.closed && h !in s.closed ==> s.issued <= h)
  {
    var begun := Apply(s, BeginReload(wanted));
    StepKeeps(s, BeginReload(wanted));
    BuildingTouchesNothing(begun, steps);
    RunKeeps(begun, steps);
    FailureUndone(Run(begun, steps), mismatched);
  }

  // -------------------------------------------------------------------- leaks

  /** Where the reload keeps a session that no table holds. */
  function Held(reload: Reload): set<nat> {
    match reload
    case Idle => {}
    case Building(_, sessions, _, reused, _) => Others(sessions, reused)
    case Published(_, previous, reused) => Others(previous, reused)
    case MarketReplaced(_, previous, reused) => Others(previous, reused)
    case Closing(todo) => todo
  }

  /** Every session ever opened is closed, in the manager's table, or still in the reload's hands. */
  ghost predicate Accounted(s: State) {
    forall h: nat :: h < s.issued ==> h in s.closed || h in s.manager.Values || h in Held(s.reload)
  }

  /** Leaving the closing loop early, as an error from closing a session does. */
  predicate LeavesEarly(s: State, step: Step) {
    step.Return? && s.reload.Closing? && s.reload.todo != {}
  }

  lemma OpenAccounted(s: State, id: nat)
    requires Valid(s) && Accounted(s) && Allowed(s, Open(id))
    ensures Accounted(Apply(s, Open(id)))
  {
    var t := Apply(s, Open(id));
    forall h: nat | h < t.issued ensures h in t.closed || h in t.manager.Values || h in Held(t.reload) {
      if h == s.issued {
        assert t.reload.sessions[id] == h && id !in t.reload.reused;
      } else if h in Held(s.reload) {
        var i :| i in s.reload.sessions && i !in s.reload.reused && s.reload.sessions[i] == h;
        assert t.reload.sessions[i] == h;
      }
    }
  }

  lemma ReuseAccounted(s: State, id: nat)
    requires Valid(s) && Accounted(s) && Allowed(s, Reuse(id))
    ensures Accounted(Apply(s, Reuse(id)))
  {
    var t := Apply(s, Reuse(id));
    forall h: nat | h < t.issued ensures h in t.closed || h in t.manager.Values || h in Held(t.reload) {
      if h in Held(s.reload) {
        var i :| i in s.reload.sessions && i !in s.reload.reused && s.reload.sessions[i] == h;
        assert t.reload.sessions[i] == h;
      }
    }
  }

  lemma PublishAccounted(s: State)
    requires Valid(s) && Accounted(s) && Allowed(s, Publish)
    ensures Accounted(Apply(s, Publish))
  {
    var t := Apply(s, Publish);
    var r := s.reload;
    forall h: nat | h < t.issued ensures h in t.closed || h in t.manager.Values || h in Held(t.reload) {
      if h in s.manager.Values {
        var i :| i in s.manager && s.manager[i] == h;
        if i in r.reused {
          assert i in r.sessions && r.sessions[i] == h;
        } else {
          assert h in Others(s.manager, r.reused);
        }
      } else if h in Held(s.reload) {
        var i :| i in r.sessions && i !in r.reused && r.sessions[i] == h;
        assert h in t.manager.Values;
      }
    }
  }

  lemma OtherAccounted(s: State, step: Step)
    requires Accounted(s) && Allowed(s, step) && !LeavesEarly(s, step)
    requires !step.Open? && !step.Reuse? && !step.Publish?
    ensures Accounted(Apply(s, step))
  {
    var t := Apply(s, step);
    assert t.manager == s.manager && s.closed + Held(s.reload) <= t.closed + Held(t.reload);
    assert t.issued == s.issued || (t.issued == s.issued + 1 && s.issued in t.closed);
    forall h: nat | h < t.issued ensures h in t.closed || h in t.manager.Values || h in Held(t.reload) {
      assert h < s.issued ==> h in s.closed + Held(s.reload) || h in s.manager.Values;
    }
  }

  lemma LeavingLoses(s: State, step: Step)
    requires Valid(s) && LeavesEarly(s, step)
    ensures !Accounted(Apply(s, step))
  {
    var t := Apply(s, step);
    var h :| h in s.reload.todo;
    assert h !in t.closed && h !in t.manager.Values && h !in Held(t.reload);
  }

  /** No step loses a session but the one that leaves the closing loop early, and that one always does. */
  lemma LeakExactly(s: State, step: Step)
    requires Valid(s) && Accounted(s)
    ensures Accounted(Apply(s, step)) <==> !LeavesEarly(s, step)
  {
    if LeavesEarly(s, step) {
      LeavingLoses(s, step);
    } else if Allowed(s, step) {
      match step
      case Open(id) => OpenAccounted(s, id);
      case Reuse(id) => ReuseAccounted(s, id);
      case Publish => PublishAccounted(s);
      case _ => OtherAccounted(s, step);
    }
  }

  ghost predicate NeverEarly(s: State, steps: seq<Step>)
    decreases |steps|
  {
    steps == [] || (!LeavesEarly(s, steps[0]) && NeverEarly(Apply(s, steps[0]), steps[1..]))
  }

  lemma {:induction false} RunAccounted(s: State, steps: seq<Step>)
    requires Valid(s) && Accounted(s) && NeverEarly(s, steps)
    ensures Accounted(Run(s, steps))
    decreases |steps|
  {
    if steps != [] {
      LeakExactly(s, steps[0]);
      StepKeeps(s, steps[0]);
      RunAccounted(Apply(s, steps[0]), steps[1..]);
    }
  }

  /** Whenever no reload is under way, the open sessions are exactly those in the
    manager's table, unless closing a session has failed before. */
  lemma NothingLeaks(steps: seq<Step>, h: nat)
    requires NeverEarly(Startup(), steps) && Run(Startup(), steps).reload.Idle?
    ensures var s := Run(Startup(), steps); StillOpen(s, h) <==> h in s.manager.Values
  {
    RunKeeps(Startup(), steps);
    RunAccounted(Startup(), steps);
  }

  // ------------------------------------------------------ who keeps a session

  /** The connection has a session that was opened with this very configuration. */
  predicate KeepsItsSession(manager: Table, configs: Configs, wanted: Configs, id: nat) {
    id in manager && id in configs && id in wanted && configs[id] == wanted[id]
  }

  /** What a build has entered: kept sessions for unchanged connections, and newly opened ones for all others. */
  ghost predicate EntersRight(s: State) {
    s.reload.Building? ==>
      var r := s.reload;
      forall id :: id in r.sessions ==>
        && id in r.wanted && id in r.configs && r.configs[id] == r.wanted[id]
        && (if KeepsItsSession(s.manager, s.configs, r.wanted, id)
            then r.sessions[id] == s.manager[id] && id in r.reused else r.first <= r.sessions[id] && id !in r.reused)
  }

  lemma StepEntersRight(s: State, step: Step)
    requires Valid(s) && EntersRight(s)
    ensures EntersRight(Apply(s, step))
  {
  }

  lemma {:induction false} RunEntersRight(s: State, steps: seq<Step>)
    requires Valid(s) && EntersRight(s)
    ensures Valid(Run(s, steps)) && EntersRight(Run(s, steps))
    decreases |steps|
  {
    if steps != [] {
      StepKeeps(s, steps[0]);
      StepEntersRight(s, steps[0]);
      RunEntersRight(Apply(s, steps[0]), steps[1..]);
    }
  }

  /** Whenever a reload is published, every wanted connection has a session: the one
    it had if its configuration is unchanged, and otherwise one that is new. */
  lemma ChangedGetsNew(steps: seq<Step>, id: nat)
    requires Allowed(Run(Startup(), steps), Publish)
    ensures var s := Run(Startup(), steps);
      var t := Apply(s, Publish);
      && (id in t.manager <==> id in s.reload.wanted) && (id in t.configs <==> id in t.manager)
      && (id in t.manager ==>
            && t.configs[id] == s.reload.wanted[id]
            && (if KeepsItsSession(s.manager, s.configs, s.reload.wanted, id)
                then t.manager[id] == s.manager[id]
                else t.manager[id] !in s.manager.Values && StillOpen(t, t.manager[id])))
  {
    RunEntersRight(Startup(), steps);
    RunListsConfigs(Startup(), steps);
  }

  predicate ListsConfigs(reload: Reload) {
    reload.Building? ==> reload.configs.Keys == reload.sessions.Keys
  }

  lemma StepListsConfigs(s: State, step: Step)
    requires ListsConfigs(s.reload)
    ensures ListsConfigs(Apply(s, step).reload)
  {
  }

  lemma {:induction false} RunListsConfigs(s: State, steps: seq<Step>)
    requires ListsConfigs(s.reload)
    ensures ListsConfigs(Run(s, steps).reload)
    decreases |steps|
  {
    if steps != [] {
      StepListsConfigs(s, steps[0]);
      RunListsConfigs(Apply(s, steps[0]), steps[1..]);
    }
  }

  // ---------------------------------------------------------------- progress

  /** A call that may enter gets the session that its service has for the connection
    at that moment, and holds it until it is released. Only the publication of a
    reload keeps calls out, and only those of the manager. */
  lemma CallGetsSession(s: State, call: nat, service: Service, id: nat)
    requires call !in s.calls
    ensures var t, table := Apply(s, Acquire(call, service, id)), TableOf(s, service);
      if id in table && !(service == Manager && s.reload.Published?)
      then t == s.(calls := s.calls[call := Call(service, table[id])]) && Apply(t, Release(call)) == s
      else t == s
  {
    var t := Apply(s, Acquire(call, service, id));
    if call in t.calls {
      assert Apply(t, Release(call)).calls == s.calls;
    }
  }

  lemma {:induction false} RunConcat(s: State, steps: seq<Step>, more: seq<Step>)
    ensures Run(s, steps + more) == Run(Run(s, steps), more)
    decreases |steps|
  {
    if steps == [] {
      assert [] + more == more;
    } else {
      assert (steps + more)[1..] == steps[1..] + more;
      RunConcat(Apply(s, steps[0]), steps[1..], more);
    }
  }

  lemma RunOne(s: State, step: Step)
    ensures Run(s, [step]) == Apply(s, step)
  {
  }

  /** Nothing but the build goes on. */
  predicate OnlyBuilds(s: State, t: State) {
    && s.reload.Building? && t.reload.Building? && t.reload.wanted == s.reload.wanted && t.reload.first == s.reload.first
    && t == s.(reload := t.reload, issued := t.issued)
  }

  function EnterStep(s: State, id: nat): Step
    requires Unbuilt(s, id)
  {
    if Reuses(s, id, s.reload.wanted[id]) then Reuse(id) else Open(id)
  }

  lemma EnterOne(s: State, id: nat)
    requires Unbuilt(s, id)
    ensures var t := Apply(s, EnterStep(s, id)); OnlyBuilds(s, t) && t.reload.sessions.Keys == s.reload.sessions.Keys + {id}
  {
  }

  lemma BuildsOn(s: State, t: State, u: State)
    requires OnlyBuilds(s, t) && OnlyBuilds(t, u)
    ensures OnlyBuilds(s, u)
  {
  }

  lemma Missing(all: set<nat>, done: set<nat>) returns (id: nat)
    requires done <= all && done != all
    ensures id in all && id !in done
  {
    id :| id in all && id !in done;
  }

  /** A build can always be completed. */
  lemma {:induction false} FillUp(s: State) returns (steps: seq<Step>)
    requires s.reload.Building? && s.reload.sessions.Keys <= s.reload.wanted.Keys
    ensures OnlyBuilds(s, Run(s, steps)) && Run(s, steps).reload.sessions.Keys == s.reload.wanted.Keys
    decreases |s.reload.wanted.Keys - s.reload.sessions.Keys|
  {
    if s.reload.sessions.Keys == s.reload.wanted.Keys {
      steps := [];
    } else {
      var id := Missing(s.reload.wanted.Keys, s.reload.sessions.Keys);
      var t := Apply(s, EnterStep(s, id));
      EnterOne(s, id);
      Fewer(s.reload.wanted.Keys, s.reload.sessions.Keys, id);
      var rest := FillUp(t);
      steps := [EnterStep(s, id)] + rest;
      RunConcat(s, [EnterStep(s, id)], rest);
      RunOne(s, EnterStep(s, id));
      BuildsOn(s, t, Run(t, rest));
    }
  }

  lemma Fewer(all: set<nat>, done: set<nat>, id: nat)
    requires id in all && id !in done
    ensures |all - (done + {id})| < |all - done|
  {
    assert all - done == (all - (done + {id})) + {id};
  }

  /** Everything that is left to close can be closed. */
  lemma {:induction false} CloseAll(s: State) returns (steps: seq<Step>)
    requires s.reload.Closing?
    ensures Run(s, steps) == s.(closed := s.closed + s.reload.todo, reload := Idle)
    decreases |if s.reload.Closing? then s.reload.todo else {}|
  {
    if s.reload.todo == {} {
      steps := [Return];
      assert s.closed + {} == s.closed;
    } else {
      var h :| h in s.reload.todo;
      var t := Apply(s, CloseOne(h));
      var rest := CloseAll(t);
      steps := [CloseOne(h)] + rest;
      assert steps[1..] == rest && t.closed + t.reload.todo == s.closed + s.reload.todo;
    }
  }

  /** Whatever is wanted, a reload that no call is in the way of can go through: then
    every service offers the wanted connections it can serve and no other, under
    the new configurations, and every replaced session is closed. */
  lemma ReloadCompletes(s: State, wanted: Configs, forMarket: set<nat>, forTrading: set<nat>) returns (steps: seq<Step>)
    requires Valid(s) && s.reload.Idle? && s.calls == map[]
    ensures var t := Run(s, steps);
      && t.reload == Idle && t.calls == map[]
      && t.manager.Keys == wanted.Keys && t.market == Restrict(t.manager, forMarket) && t.trading == Restrict(t.manager, forTrading)
      && (forall h :: h in t.closed <==> h in s.closed || (h in s.manager.Values && h !in t.manager.Values))
  {
    var begun := Apply(s, BeginReload(wanted));
    var building := FillUp(begun);
    var built := Run(begun, building);
    BeginStep(s, wanted);
    RunKeeps(begun, building);
    var published := Apply(built, Publish);
    var replaced := Apply(Apply(published, ReplaceMarket(forMarket)), ReplaceTrading(forTrading));
    var closing := CloseAll(replaced);
    steps := [BeginReload(wanted)] + building + [Publish, ReplaceMarket(forMarket), ReplaceTrading(forTrading)] + closing;
    ReloadRuns(s, wanted, building, forMarket, forTrading, closing);
    ReplacedAreOld(built);
  }

  lemma ReloadRuns(s: State, wanted: Configs, building: seq<Step>, forMarket: set<nat>, forTrading: set<nat>, closing: seq<Step>)
    ensures Run(s, [BeginReload(wanted)] + building + [Publish, ReplaceMarket(forMarket), ReplaceTrading(forTrading)] + closing)
      == Run(Apply(Apply(Apply(Run(Apply(s, BeginReload(wanted)), building), Publish), ReplaceMarket(forMarket)), ReplaceTrading(forTrading)), closing)
  {
    var built := Run(Apply(s, BeginReload(wanted)), building);
    RunConcat(s, [BeginReload(wanted)] + building + [Publish, ReplaceMarket(forMarket), ReplaceTrading(forTrading)], closing);
    RunConcat(s, [BeginReload(wanted)] + building, [Publish, ReplaceMarket(forMarket), ReplaceTrading(forTrading)]);
    RunConcat(s, [BeginReload(wanted)], building);
    RunOne(s, BeginReload(wanted));
    RunConcat(built, [Publish], [ReplaceMarket(forMarket), ReplaceTrading(forTrading)]);
    assert [Publish] + [ReplaceMarket(forMarket), ReplaceTrading(forTrading)] == [Publish, ReplaceMarket(forMarket), ReplaceTrading(forTrading)];
    RunConcat(Run(built, [Publish]), [ReplaceMarket(forMarket)], [ReplaceTrading(forTrading)]);
    assert [ReplaceMarket(forMarket)] + [ReplaceTrading(forTrading)] == [ReplaceMarket(forMarket), ReplaceTrading(forTrading)];
    RunOne(built, Publish);
    RunOne(Apply(built, Publish), ReplaceMarket(forMarket));
    RunOne(Apply(Apply(built, Publish), ReplaceMarket(forMarket)), ReplaceTrading(forTrading));
  }

  /** What a complete build replaces is what the old table held and the new one does not. */
  lemma ReplacedAreOld(s: State)
    requires Valid(s) && s.reload.Building?
    ensures forall h :: h in Others(s.manager, s.reload.reused) <==> h in s.manager.Values && h !in s.reload.sessions.Values
  {
    ReplacedAreGone(s.reload.sessions, s.manager, s.reload.reused, s.reload.first, s.issued);
  }

  // ---------------------------------------------------- one reload, on its own

  datatype OpenResult = Opened | OpenFailed | NilSession | WrongIdentity
  datatype Wanted = Wanted(id: nat, config: int, result: OpenResult)

  predicate Distinct(wanted: seq<Wanted>) {
    forall i, j :: 0 <= i < j < |wanted| ==> wanted[i].id != wanted[j].id
  }

  function Ids(wanted: seq<Wanted>): set<nat> {
    set i | 0 <= i < |wanted| :: wanted[i].id
  }

  predicate Unchanged(w: Wanted, sessions: Table, configs: Configs) {
    w.id in sessions && w.id in configs && configs[w.id] == w.config
  }

  function ReusedIds(wanted: seq<Wanted>, sessions: Table, configs: Configs): set<nat> {
    set w | w in wanted && Unchanged(w, sessions, configs) :: w.id
  }

  datatype Build = Build(sessions: Table, configs: Configs, reused: set<nat>, issued: nat)

  /** Every entry is reused or newly opened, no session serves two, and no opened one is left out. */
  ghost predicate Numbered(sessions: Table, prior: Table, reused: set<nat>, first: nat, issued: nat) {
    && first <= issued
    && Derived(sessions, prior, reused, first, issued)
    && Injective(sessions)
    && AllEntered(sessions, reused, first, issued)
  }

  predicate ConfiguredAs(configs: Configs, done: seq<Wanted>) {
    forall i :: 0 <= i < |done| ==> done[i].id in configs && configs[done[i].id] == done[i].config
  }

  predicate Lists(b: Build, ids: set<nat>, reused: set<nat>) {
    b.sessions.Keys == b.configs.Keys == ids && b.reused == reused
  }

  /** The state of a build after the connections `done`, begun at session number `first`. */
  ghost predicate Built(b: Build, done: seq<Wanted>, prior: Table, priorConfigs: Configs, first: nat) {
    && Lists(b, Ids(done), ReusedIds(done, prior, priorConfigs))
    && ConfiguredAs(b.configs, done)
    && Numbered(b.sessions, prior, b.reused, first, b.issued)
  }

  ghost predicate Below(t: Table, first: nat) {
    forall id :: id in t ==> t[id] < first
  }

  function Entered(b: Build, w: Wanted, prior: Table, priorConfigs: Configs): Build {
    if Unchanged(w, prior, priorConfigs)
    then Build(b.sessions[w.id := prior[w.id]], b.configs[w.id := w.config], b.reused + {w.id}, b.issued)
    else Build(b.sessions[w.id := b.issued], b.configs[w.id := w.config], b.reused, b.issued + 1)
  }

  lemma ConfiguredNext(configs: Configs, wanted: seq<Wanted>, i: nat)
    requires Distinct(wanted) && i < |wanted| && ConfiguredAs(configs, wanted[..i])
    ensures ConfiguredAs(configs[wanted[i].id := wanted[i].config], wanted[..i + 1])
  {
    forall k | 0 <= k < i ensures wanted[k].id in configs && configs[wanted[k].id] == wanted[k].config {
      assert wanted[..i][k] == wanted[k];
    }
  }

  /** Whose session is kept is decided by its own configuration alone. */
  lemma ReusedExactly(wanted: seq<Wanted>, prior: Table, priorConfigs: Configs, i: nat)
    requires Distinct(wanted) && i < |wanted|
    ensures wanted[i].id in ReusedIds(wanted, prior, priorConfigs) <==>
      wanted[i].id in prior && wanted[i].id in priorConfigs && priorConfigs[wanted[i].id] == wanted[i].config
  {
  }

  lemma ListsNext(b: Build, w: Wanted, prior: Table, priorConfigs: Configs, ids: set<nat>, reused: set<nat>)
    requires Lists(b, ids, reused)
    ensures Lists(Entered(b, w, prior, priorConfigs), ids + {w.id},
                  reused + (if Unchanged(w, prior, priorConfigs) then {w.id} else {}))
  {
  }

  lemma NumberedReuse(sessions: Table, prior: Table, reused: set<nat>, first: nat, issued: nat, id: nat)
    requires Numbered(sessions, prior, reused, first, issued) && Below(prior, first) && Injective(prior)
    requires id in prior && id !in sessions
    ensures Numbered(sessions[id := prior[id]], prior, reused + {id}, first, issued)
  {
    EnteredStay(sessions, reused, reused + {id}, id, prior[id], first, issued);
  }

  lemma NumberedOpen(sessions: Table, prior: Table, reused: set<nat>, first: nat, issued: nat, id: nat)
    requires Numbered(sessions, prior, reused, first, issued) && Below(prior, first)
    requires id !in sessions && id !in reused
    ensures Numbered(sessions[id := issued], prior, reused, first, issued + 1)
  {
    EnteredNext(sessions, reused, id, first, issued);
  }

  lemma Advance(wanted: seq<Wanted>, i: nat, prior: Table, priorConfigs: Configs)
    requires Distinct(wanted) && i < |wanted|
    ensures wanted[i].id !in Ids(wanted[..i]) && Ids(wanted[..i + 1]) == Ids(wanted[..i]) + {wanted[i].id}
    ensures wanted[i].id !in ReusedIds(wanted[..i], prior, priorConfigs)
    ensures ReusedIds(wanted[..i + 1], prior, priorConfigs) == ReusedIds(wanted[..i], prior, priorConfigs)
      + (if Unchanged(wanted[i], prior, priorConfigs) then {wanted[i].id} else {})
  {
    assert wanted[..i + 1] == wanted[..i] + [wanted[i]];
  }

  predicate Usable(w: Wanted, prior: Table, priorConfigs: Configs) {
    Unchanged(w, prior, priorConfigs) || w.result.Opened?
  }

  /** Opens or reuses one connection after the other, up to the first that cannot be used. */
  method BuildTable(wanted: seq<Wanted>, prior: Table, priorConfigs: Configs, first: nat) returns (b: Build, done: nat)
    requires Distinct(wanted) && Below(prior, first) && Injective(prior)
    ensures done <= |wanted| && Built(b, wanted[..done], prior, priorConfigs, first)
    ensures forall k :: 0 <= k < done ==> Usable(wanted[k], prior, priorConfigs)
    ensures done < |wanted| ==> !Usable(wanted[done], prior, priorConfigs)
  {
    b, done := Build(map[], map[], {}, first), 0;
    NothingBuilt(wanted, prior, priorConfigs, first);
    while done < |wanted| && Usable(wanted[done], prior, priorConfigs)
      invariant done <= |wanted| && Built(b, wanted[..done], prior, priorConfigs, first)
      invariant forall k :: 0 <= k < done ==> Usable(wanted[k], prior, priorConfigs)
    {
      EnteredIsBuilt(b, wanted, done, prior, priorConfigs, first);
      b := Entered(b, wanted[done], prior, priorConfigs);
      done := done + 1;
    }
  }

  lemma NothingBuilt(wanted: seq<Wanted>, prior: Table, priorConfigs: Configs, first: nat)
    ensures Built(Build(map[], map[], {}, first), wanted[..0], prior, priorConfigs, first)
  {
    assert wanted[..0] == [];
  }

  lemma EnteredIsBuilt(b: Build, wanted: seq<Wanted>, i: nat, prior: Table, priorConfigs: Configs, first: nat)
    requires Distinct(wanted) && i < |wanted| && Built(b, wanted[..i], prior, priorConfigs, first)
    requires Below(prior, first) && Injective(prior)
    ensures Built(Entered(b, wanted[i], prior, priorConfigs), wanted[..i + 1], prior, priorConfigs, first)
  {
    Advance(wanted, i, prior, priorConfigs);
    ListsNext(b, wanted[i], prior, priorConfigs, Ids(wanted[..i]), ReusedIds(wanted[..i], prior, priorConfigs));
    ConfiguredNext(b.configs, wanted, i);
    if Unchanged(wanted[i], prior, priorConfigs) {
      NumberedReuse(b.sessions, prior, b.reused, first, b.issued, wanted[i].id);
    } else {
      NumberedOpen(b.sessions, prior, b.reused, first, b.issued, wanted[i].id);
    }
  }

  class ConnectionManager {
    var sessions: Table
    var configs: Configs
    var issued: nat
    var closed: set<nat>

    ghost predicate Consistent()
      reads this
    {
      AllOpen(sessions, issued, closed) && Injective(sessions) && (forall h :: h in closed ==> h < issued)
    }

    constructor ()
      ensures Consistent() && sessions == map[] && configs == map[] && closed == {}
    {
      sessions, configs, issued, closed := map[], map[], 0, {};
    }

    /** Rebuilds every enabled connection: unchanged ones keep their session. The
      new table is published whole or, with all it opened closed again, not at all. */
    method Reload(wanted: seq<Wanted>) returns (ok: bool)
      requires Consistent() && Distinct(wanted)
      modifies this
      ensures Consistent()
      ensures ok <==> forall i :: 0 <= i < |wanted| ==> Usable(wanted[i], old(sessions), old(configs))
      ensures !ok ==> sessions == old(sessions) && configs == old(configs)
      ensures !ok ==> forall h: nat :: old(issued) <= h < issued ==> h in closed
      ensures !ok ==> forall h :: h in closed && h !in old(closed) ==> old(issued) <= h
      ensures ok ==> Built(Build(sessions, configs, ReusedIds(wanted, old(sessions), old(configs)), issued), wanted,
                           old(sessions), old(configs), old(issued))
      ensures ok ==> closed == old(closed) + Others(old(sessions), ReusedIds(wanted, old(sessions), old(configs)))
      ensures ok ==> forall i :: 0 <= i < |wanted| ==>
        var id := wanted[i].id;
        && id in sessions && id in configs && configs[id] == wanted[i].config
        && (if id in old(sessions) && id in old(configs) && old(configs)[id] == wanted[i].config
            then sessions[id] == old(sessions)[id] else sessions[id] >= old(issued))
    {
      var b, done := BuildTable(wanted, sessions, configs, issued);
      ok := done == |wanted|;
      if ok {
        assert wanted[..done] == wanted;
        forall i | 0 <= i < |wanted| ensures wanted[i].id in Ids(wanted) {
        }
        forall i | 0 <= i < |wanted|
          ensures wanted[i].id in b.reused <==>
            wanted[i].id in sessions && wanted[i].id in configs && configs[wanted[i].id] == wanted[i].config
        {
          ReusedExactly(wanted, sessions, configs, i);
        }
        PublishTable(b);
      } else {
        CloseFailed(b, wanted[done].result.WrongIdentity?);
      }
    }

    /** Swaps in the new table and closes what it replaces. */
    method PublishTable(b: Build)
      requires Consistent() && issued <= b.issued && Injective(b.sessions)
      requires Derived(b.sessions, sessions, b.reused, issued, b.issued)
      modifies this
      ensures Consistent() && sessions == b.sessions && configs == b.configs && issued == b.issued
      ensures closed == old(closed) + Others(old(sessions), b.reused)
    {
      ReplacedAreGone(b.sessions, sessions, b.reused, issued, b.issued);
      closed := closed + Others(sessions, b.reused);
      sessions, configs, issued := b.sessions, b.configs, b.issued;
    }

    method CloseFailed(b: Build, mismatched: bool)
      requires Consistent() && issued <= b.issued && AllEntered(b.sessions, b.reused, issued, b.issued)
      requires Derived(b.sessions, sessions, b.reused, issued, b.issued)
      modifies this`issued, this`closed
      ensures Consistent()
      ensures forall h: nat :: old(issued) <= h < issued ==> h in closed
      ensures forall h :: h in closed && h !in old(closed) ==> old(issued) <= h
    {
      closed := closed + Others(b.sessions, b.reused);
      issued := b.issued;
      if mismatched {
        closed := closed + {issued};
        issued := issued + 1;
      }
    }
  }
}

/** Order submission: previews, attempts, and at most one send per client order id. */
module Orders {
  import opened Activities

  /** `terms` stands for symbol, side, quantity, prices and the other fields that are compared. */
  datatype Request = Request(account: string, client: string, terms: int)

  datatype Attempt = Attempt(request: Request, order: Option<int>, code: string)
  datatype Preview = Preview(request: Request, at: int)

  const PREVIEW_SECONDS := 600
  const IN_PROGRESS := "order_outcome_unknown"

  type Attempts = map<string, Attempt>
  type Previews = map<string, Preview>

  datatype Admission =
    | Refused(code: string)
    | Known(attempt: Attempt)
    | Admitted

  /** What the session answers to a submission, and why. */
  function Admit(attempts: Attempts, previews: Previews, request: Request, now: int): Admission {
    if request.client == "" then Refused("invalid_order")
    else if request.client in attempts then
      if attempts[request.client].request != request then Refused("duplicate_order") else Known(attempts[request.client])
    else if request.client !in previews || previews[request.client].request != request ||
            now - previews[request.client].at > PREVIEW_SECONDS
    then Refused("invalid_order")
    else Admitted
  }

  function Without(previews: Previews, client: string): Previews {
    map c | c in previews && c != client :: previews[c]
  }

  /** What one session remembers of what was shown and what was sent. */
  datatype Memory = Memory(attempts: Attempts, previews: Previews)

  function Showing(m: Memory, request: Request, now: int): Memory {
    if request.client == "" then m else m.(previews := m.previews[request.client := Preview(request, now)])
  }

  function Admitting(m: Memory, request: Request): Memory {
    Memory(m.attempts[request.client := Attempt(request, None, IN_PROGRESS)], Without(m.previews, request.client))
  }

  function Concluding(m: Memory, request: Request, order: Option<int>, code: string): Memory {
    m.(attempts := m.attempts[request.client := Attempt(request, order, code)])
  }

  function Answer(m: Memory, request: Request, now: int): Admission {
    Admit(m.attempts, m.previews, request, now)
  }

  function Recorded(m: Memory, account: string, client: string): Option<Attempt> {
    if client in m.attempts && m.attempts[client].request.account == account then Some(m.attempts[client]) else None
  }

  /** A preview admits exactly its own request, for ten minutes, unless the id was
    used before; it opens nothing to any other request. */
  lemma PreviewAdmits(m: Memory, request: Request, now: int, placed: Request, later: int)
    requires request.client != ""
    ensures var shown := Showing(m, request, now);
      placed.client == request.client ==>
        (Answer(shown, placed, later).Admitted? <==>
           placed == request && later - now <= 600 && request.client !in m.attempts)
    ensures placed.client != request.client ==> Answer(Showing(m, request, now), placed, later) == Answer(m, placed, later)
  {
  }

  /** Without a client order id nothing is remembered and nothing is admitted. An id
    that was used answers its own request with what is recorded of it and refuses
    every other; one that was not needs a preview of the very request. */
  lemma AnswerExactly(m: Memory, request: Request, now: int)
    ensures Answer(m, request, now) ==
      if request.client != "" && request.client in m.attempts then
        (if m.attempts[request.client].request == request then Known(m.attempts[request.client]) else Refused("duplicate_order"))
      else if request.client != "" && IsOpen(m.previews, request, now) then Admitted
      else Refused("invalid_order")
    ensures request.client == "" ==> Showing(m, request, now) == m
  {
  }

  /** The request was shown, as it is, in the last ten minutes. */
  predicate IsOpen(previews: Previews, request: Request, now: int) {
    request.client in previews && previews[request.client].request == request && now <= previews[request.client].at + 600
  }

  /** An admission uses up its preview: however soon, the same request is not admitted twice. */
  lemma AdmissionIsUsedUp(m: Memory, request: Request, now: int, later: int)
    requires Answer(m, request, now).Admitted?
    ensures Answer(Admitting(m, request), request, later) == Known(Attempt(request, None, "order_outcome_unknown"))
    ensures Recorded(Admitting(m, request), request.account, request.client) == Some(Attempt(request, None, "order_outcome_unknown"))
    ensures request.client !in Admitting(m, request).previews
  {
  }

  /** What a submission concludes with is what a repeated place and a look-up return, and only to its own account. */
  lemma OutcomeIsReturned(m: Memory, request: Request, order: Option<int>, code: string, later: int, account: string)
    requires request.client != ""
    ensures var done := Concluding(m, request, order, code);
      && Answer(done, request, later) == Known(Attempt(request, order, code))
      && (Recorded(done, account, request.client).Some? <==> account == request.account)
      && (account == request.account ==> Recorded(done, account, request.client) == Some(Attempt(request, order, code)))
  {
  }

  /** One connection's memory, updated in place. */
  class OrderSession {
    var attempts: Attempts
    var previews: Previews

    function View(): Memory
      reads this
    {
      Memory(attempts, previews)
    }

    constructor ()
      ensures View() == Memory(map[], map[])
    {
      attempts, previews := map[], map[];
    }

    method RememberPreview(request: Request, now: int)
      modifies this`previews
      ensures View() == Showing(old(View()), request, now)
    {
      if request.client == "" {
        return;
      }
      previews := previews[request.client := Preview(request, now)];
    }

    method Begin(request: Request, now: int) returns (r: Admission)
      modifies this
      ensures r == Answer(old(View()), request, now)
      ensures View() == if r.Admitted? then Admitting(old(View()), request) else old(View())
    {
      if request.client == "" {
        return Refused("invalid_order");
      }
      if request.client in attempts {
        var prior := attempts[request.client];
        if prior.request != request {
          return Refused("duplicate_order");
        }
        return Known(prior);
      }
      if request.client !in previews {
        return Refused("invalid_order");
      }
      var preview := previews[request.client];
      if preview.request != request || now - preview.at > PREVIEW_SECONDS {
        return Refused("invalid_order");
      }
      attempts := attempts[request.client := Attempt(request, None, IN_PROGRESS)];
      previews := Without(previews, request.client);
      return Admitted;
    }

    method Finish(request: Request, order: Option<int>, code: string)
      modifies this`attempts
      ensures View() == Concluding(old(View()), request, order, code)
    {
      attempts := attempts[request.client := Attempt(request, order, code)];
    }

    method Lookup(account: string, client: string) returns (r: Option<Attempt>)
      ensures r == Recorded(View(), account, client)
    {
      if client !in attempts || attempts[client].request.account != account {
        return None;
      }
      return Some(attempts[client]);
    }
  }

  // ------------------------------------------------------------- interleavings

  /** A submission that was admitted: its request, the preview it relied on and the time. */
  datatype Ticket = Ticket(request: Request, previewed: int, admitted: int)

  /** A call between its admission and its end; `sent` once it reached the broker. */
  datatype Call = Call(ticket: Ticket, sent: bool)

  datatype State = State(
    memory: Memory,
    calls: map<nat, Call>,
    shown: set<Preview>,
    wire: seq<Ticket>)

  datatype Step =
    | Show(request: Request, now: int)
    | Place(call: nat, request: Request, now: int)
    | Send(call: nat)
    | Conclude(call: nat, order: Option<int>, code: string)

  predicate Allowed(s: State, step: Step) {
    match step
    case Show(request, _) => request.client != ""
    case Place(call, request, now) => call !in s.calls && Answer(s.memory, request, now).Admitted?
    case Send(call) => call in s.calls && !s.calls[call].sent
    case Conclude(call, _, _) => call in s.calls
  }

  function Apply(s: State, step: Step): State {
    if !Allowed(s, step) then s
    else
      match step
      case Show(request, now) =>
        s.(memory := Showing(s.memory, request, now), shown := s.shown + {Preview(request, now)})
      case Place(call, request, now) =>
        s.(memory := Admitting(s.memory, request),
           calls := s.calls[call := Call(Ticket(request, s.memory.previews[request.client].at, now), false)])
      case Send(call) =>
        s.(calls := s.calls[call := s.calls[call].(sent := true)], wire := s.wire + [s.calls[call].ticket])
      case Conclude(call, order, code) =>
        s.(memory := Concluding(s.memory, s.calls[call].ticket.request, order, code),
           calls := map c | c in s.calls && c != call :: s.calls[c])
  }

  function Run(s: State, steps: seq<Step>): State
    decreases |steps|
  {
    if steps == [] then s else Run(Apply(s, steps[0]), steps[1..])
  }

  const START := State(Memory(map[], map[]), map[], {}, [])

  /** The ticket relied on a preview of the very request, at most ten minutes old. */
  predicate Justified(t: Ticket, shown: set<Preview>) {
    Preview(t.request, t.previewed) in shown && t.admitted - t.previewed <= 600
  }

  predicate OnRecord(t: Ticket, attempts: Attempts) {
    t.request.client in attempts && attempts[t.request.client].request == t.request
  }

  ghost predicate PreviewsShown(previews: Previews, shown: set<Preview>) {
    forall c :: c in previews ==> previews[c] in shown && previews[c].request.client == c
  }

  ghost predicate CallsRecorded(calls: map<nat, Call>, attempts: Attempts, shown: set<Preview>) {
    forall c :: c in calls ==> OnRecord(calls[c].ticket, attempts) && Justified(calls[c].ticket, shown)
  }

  /** No two calls in flight carry the same client order id. */
  ghost predicate CallsApart(calls: map<nat, Call>) {
    forall c, d :: c in calls && d in calls && c != d ==> calls[c].ticket.request.client != calls[d].ticket.request.client
  }

  ghost predicate WireRecorded(wire: seq<Ticket>, attempts: Attempts, shown: set<Preview>) {
    forall i :: 0 <= i < |wire| ==> OnRecord(wire[i], attempts) && Justified(wire[i], shown)
  }

  /** Nothing that a call still has to send was sent before. */
  ghost predicate UnsentIsNew(calls: map<nat, Call>, wire: seq<Ticket>) {
    forall c, i :: c in calls && !calls[c].sent && 0 <= i < |wire| ==>
      wire[i].request.client != calls[c].ticket.request.client
  }

  ghost predicate SentOnce(wire: seq<Ticket>) {
    forall i, j :: 0 <= i < j < |wire| ==> wire[i].request.client != wire[j].request.client
  }

  ghost predicate Valid(s: State) {
    && PreviewsShown(s.memory.previews, s.shown)
    && CallsRecorded(s.calls, s.memory.attempts, s.shown)
    && CallsApart(s.calls)
    && WireRecorded(s.wire, s.memory.attempts, s.shown)
    && UnsentIsNew(s.calls, s.wire)
    && SentOnce(s.wire)
  }

  lemma PlaceKeeps(s: State, call: nat, request: Request, now: int)
    requires Valid(s) && Allowed(s, Place(call, request, now))
    ensures Valid(Apply(s, Place(call, request, now)))
  {
    var t := Apply(s, Place(call, request, now));
    assert forall c :: c in s.calls ==> s.calls[c].ticket.request.client != request.client;
    assert forall i :: 0 <= i < |s.wire| ==> s.wire[i].request.client != request.client;
    assert CallsRecorded(t.calls, t.memory.attempts, t.shown);
  }

  lemma SendKeeps(s: State, call: nat)
    requires Valid(s) && Allowed(s, Send(call))
    ensures Valid(Apply(s, Send(call)))
  {
    var t := Apply(s, Send(call));
    assert CallsRecorded(t.calls, t.memory.attempts, t.shown);
    assert UnsentIsNew(t.calls, t.wire);
  }

  lemma ConcludeKeeps(s: State, call: nat, order: Option<int>, code: string)
    requires Valid(s) && Allowed(s, Conclude(call, order, code))
    ensures Valid(Apply(s, Conclude(call, order, code)))
  {
    var t := Apply(s, Conclude(call, order, code));
    assert CallsRecorded(t.calls, t.memory.attempts, t.shown);
    assert WireRecorded(t.wire, t.memory.attempts, t.shown);
  }

  lemma StepKeeps(s: State, step: Step)
    requires Valid(s)
    ensures Valid(Apply(s, step))
  {
    if Allowed(s, step) {
      match step
      case Show(request, now) =>
      case Place(call, request, now) => PlaceKeeps(s, call, request, now);
      case Send(call) => SendKeeps(s, call);
      case Conclude(call, order, code) => ConcludeKeeps(s, call, order, code);
    }
  }

  /** Attempts are never forgotten and never change hands. */
  ghost predicate Remembers(attempts: Attempts, attempts': Attempts) {
    forall c :: c in attempts ==> c in attempts' && attempts'[c].request == attempts[c].request
  }

  lemma StepRemembers(s: State, step: Step)
    requires Valid(s)
    ensures Remembers(s.memory.attempts, Apply(s, step).memory.attempts)
  {
  }

  lemma {:induction false} RunKeeps(s: State, steps: seq<Step>)
    requires Valid(s)
    ensures Valid(Run(s, steps)) && Remembers(s.memory.attempts, Run(s, steps).memory.attempts)
    decreases |steps|
  {
    if steps != [] {
      StepKeeps(s, steps[0]);
      StepRemembers(s, steps[0]);
      RunKeeps(Apply(s, steps[0]), steps[1..]);
    }
  }

  /** In every interleaving each client order id reaches the broker at most once,
    and only with a request shown at most ten minutes before it was placed. */
  lemma SentAtMostOnce(steps: seq<Step>)
    ensures var s := Run(START, steps);
      && (forall i, j :: 0 <= i < j < |s.wire| ==> s.wire[i].request.client != s.wire[j].request.client)
      && (forall i :: 0 <= i < |s.wire| ==> Justified(s.wire[i], s.shown))
  {
    RunKeeps(START, steps);
  }

  lemma RunOfThree(s: State, a: Step, b: Step, c: Step)
    ensures Run(s, [a, b, c]) == Apply(Apply(Apply(s, a), b), c)
  {
    assert [a, b, c][1..] == [b, c] && [b, c][1..] == [c];
    assert Run(Apply(s, a), [b, c]) == Run(Apply(Apply(s, a), b), [c]);
    assert Run(Apply(Apply(s, a), b), [c]) == Run(Apply(Apply(Apply(s, a), b), c), []);
  }

  /** A request whose id is new and that is placed within ten minutes of its preview
    does reach the broker, and its outcome is then on record and its call over. */
  lemma ShownIsSent(s: State, call: nat, request: Request, now: int, later: int, order: Option<int>, code: string)
    requires request.client != "" && request.client !in s.memory.attempts && call !in s.calls && later <= now + 600
    ensures var t := Run(s, [Show(request, now), Place(call, request, later), Send(call)]);
      var u := Apply(t, Conclude(call, order, code));
      && t.wire == s.wire + [Ticket(request, now, later)]
      && t.shown == s.shown + {Preview(request, now)}
      && t.calls == s.calls[call := Call(Ticket(request, now, later), true)]
      && u.wire == t.wire && u.calls == t.calls - {call}
      && Recorded(u.memory, request.account, request.client) == Some(Attempt(request, order, code))
  {
    RunOfThree(s, Show(request, now), Place(call, request, later), Send(call));
  }

  /** Once a request was admitted, placing it again returns the recorded attempt
    and placing another request under its id is refused, for ever. */
  lemma AdmittedOnce(s: State, steps: seq<Step>, call: nat, request: Request, now: int, again: Request, later: int)
    requires Valid(s) && Allowed(s, Place(call, request, now)) && again.client == request.client
    ensures var t := Run(Apply(s, Place(call, request, now)), steps);
      && request.client in t.memory.attempts
      && Answer(t.memory, again, later)
         == if again == request then Known(t.memory.attempts[request.client]) else Refused("duplicate_order")
  {
    var placed := Apply(s, Place(call, request, now));
    StepKeeps(s, Place(call, request, now));
    RunKeeps(placed, steps);
    assert placed.memory.attempts[request.client].request == request;
  }
}

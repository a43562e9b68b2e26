/** Which connection is an account's primary one.

  An account is known by its provider and provider account id, here one number.
  Its links are the rows that join it to connections. */
module AccountLinks {
  import opened Activities
  import Folds

  /** `reportOnly` marks the connections that authenticate with a report token instead of a gateway. */
  datatype Connection = Connection(enabled: bool, reportOnly: bool)
  datatype Link = Link(primary: bool, firstSeen: int)
  datatype Account = Account(archived: bool, links: map<nat, Link>)

  type Connections = map<nat, Connection>
  type Accounts = map<nat, Account>
  type Links = map<nat, Link>

  // ----------------------------------------------------------------- election

  /** Link `a` is preferred to link `b`. */
  predicate Beats(links: Links, connections: Connections, a: nat, b: nat)
    requires a in links && b in links && a in connections && b in connections
  {
    var x, y := connections[a], connections[b];
    var l, m := links[a], links[b];
    if x.enabled != y.enabled then x.enabled
    else if x.reportOnly != y.reportOnly then y.reportOnly
    else if l.primary != m.primary then l.primary
    else if l.firstSeen != m.firstSeen then l.firstSeen < m.firstSeen
    else a < b
  }

  ghost predicate IsPreferred(links: Links, connections: Connections, c: nat)
    requires links.Keys <= connections.Keys
  {
    c in links && forall d :: d in links && d != c ==> Beats(links, connections, c, d)
  }

  /** The winner, found in one pass. */
  method FindPreferred(links: Links, connections: Connections) returns (c: nat)
    requires links.Keys <= connections.Keys && links != map[]
    ensures IsPreferred(links, connections, c) && IsChosen(links, connections, c)
  {
    var rest := links.Keys;
    c := Folds.AnyOf(rest);
    rest := rest - {c};
    while rest != {}
      invariant rest <= links.Keys && c in links && c !in rest
      invariant forall d :: d in links && d != c ==> d in rest || Beats(links, connections, c, d)
      decreases |rest|
    {
      var d := Folds.AnyOf(rest);
      if Beats(links, connections, d, c) {
        c := d;
      }
      rest := rest - {d};
    }
    PreferredMeans(links, connections, c);
  }

  lemma BeatsChains(links: Links, connections: Connections, a: nat, b: nat, c: nat)
    requires links.Keys <= connections.Keys && a in links && b in links && c in links
    requires Beats(links, connections, a, b) && Beats(links, connections, b, c)
    ensures Beats(links, connections, a, c)
  {
  }

  ghost predicate BestOf(links: Links, connections: Connections, among: set<nat>, c: nat)
    requires links.Keys <= connections.Keys && among <= links.Keys
  {
    c in among && forall d :: d in among && d != c ==> Beats(links, connections, c, d)
  }

  lemma {:induction false} BestExists(links: Links, connections: Connections, among: set<nat>) returns (w: nat)
    requires links.Keys <= connections.Keys && among != {} && among <= links.Keys
    ensures BestOf(links, connections, among, w)
    decreases |among|
  {
    w :| w in among;
    var rest := among - {w};
    if rest == {} {
      assert among == {w};
    } else {
      var c := w;
      var d := BestExists(links, connections, rest);
      if !Beats(links, connections, c, d) {
        w := d;
      }
      forall e | e in among && e != w ensures Beats(links, connections, w, e) {
        if w == c && e != d {
          BeatsChains(links, connections, c, d, e);
        }
      }
    }
  }

  lemma PreferredExists(links: Links, connections: Connections)
    requires links.Keys <= connections.Keys && links != map[]
    ensures exists c :: IsPreferred(links, connections, c)
  {
    var c := BestExists(links, connections, links.Keys);
    assert IsPreferred(links, connections, c);
  }

  ghost function Preferred(links: Links, connections: Connections): (c: nat)
    requires links.Keys <= connections.Keys && links != map[]
    ensures IsPreferred(links, connections, c)
  {
    PreferredExists(links, connections);
    var c :| IsPreferred(links, connections, c);
    c
  }

  lemma PreferredIs(links: Links, connections: Connections, c: nat)
    requires links.Keys <= connections.Keys && IsPreferred(links, connections, c)
    ensures links != map[] && Preferred(links, connections) == c
  {
  }

  /** Some link is through an enabled connection. */
  predicate AnyEnabled(links: Links, connections: Connections) {
    exists d :: d in links && d in connections && connections[d].enabled
  }

  /** The links that are as usable as any: enabled ones if there are some, and of
    those the ones through a gateway if there are some. */
  predicate AsUsable(links: Links, connections: Connections, d: nat) {
    && d in links && d in connections
    && connections[d].enabled == AnyEnabled(links, connections)
    && connections[d].reportOnly ==
         !(exists e :: e in links && e in connections && connections[e].enabled == AnyEnabled(links, connections) && !connections[e].reportOnly)
  }

  ghost predicate IsChosen(links: Links, connections: Connections, c: nat) {
    AsUsable(links, connections, c) && forall d :: AsUsable(links, connections, d) && d != c ==> Precedes(links, c, d)
  }

  /** The present primary first, then the link that has been known longest, then the lowest connection. */
  predicate Precedes(links: Links, c: nat, d: nat) {
    && c in links && d in links
    && (links[d].primary ==> links[c].primary)
    && (links[d].primary == links[c].primary ==>
          links[c].firstSeen < links[d].firstSeen || (links[c].firstSeen == links[d].firstSeen && c < d))
  }

  /** The present primary if it is among the most usable links, and else the one of
    them that has been known longest; of equally old ones that of the lowest connection. */
  lemma PreferredMeans(links: Links, connections: Connections, c: nat)
    requires links.Keys <= connections.Keys && IsPreferred(links, connections, c)
    ensures IsChosen(links, connections, c)
  {
    forall d | d in links && d != c ensures Beats(links, connections, c, d) {
    }
  }

  function OnlyPrimary(links: Links, c: nat): Links {
    map d | d in links :: links[d].(primary := d == c)
  }

  ghost function Elected(links: Links, connections: Connections): Links
    requires links.Keys <= connections.Keys
  {
    if links == map[] then links else OnlyPrimary(links, Preferred(links, connections))
  }

  /** Running the election again changes nothing. */
  lemma ElectionIsStable(links: Links, connections: Connections)
    requires links.Keys <= connections.Keys
    ensures Elected(links, connections).Keys == links.Keys
    ensures Elected(Elected(links, connections), connections) == Elected(links, connections)
  {
    if links != map[] {
      var c := Preferred(links, connections);
      var elected := OnlyPrimary(links, c);
      assert elected.Keys == links.Keys;
      assert IsPreferred(elected, connections, c);
      PreferredIs(elected, connections, c);
    }
  }

  /** Only the connections that are linked matter. */
  lemma ElectionIsLocal(links: Links, connections: Connections, connections': Connections)
    requires links.Keys <= connections.Keys && links.Keys <= connections'.Keys
    requires forall c :: c in links ==> connections[c] == connections'[c]
    ensures Elected(links, connections) == Elected(links, connections')
  {
    if links != map[] {
      var c := Preferred(links, connections);
      assert IsPreferred(links, connections', c);
      PreferredIs(links, connections', c);
    }
  }

  // ------------------------------------------------------------------ accounts

  /** Archives an account without links, and elects the primary of any other. */
  ghost function Promoted(a: Account, connections: Connections): Account
    requires a.links.Keys <= connections.Keys
  {
    if a.links == map[] then a.(archived := true) else a.(links := Elected(a.links, connections))
  }

  function Joined(a: Account, connection: nat, now: int): Account {
    Account(false,
      if connection in a.links then a.links
      else a.links[connection := Link(a.links == map[], now)])
  }

  function Left(a: Account, connection: nat): Account {
    a.(links := map c | c in a.links && c != connection :: a.links[c])
  }

  const UNSEEN := Account(false, map[])

  function Demoted(a: Account, connection: nat): Account {
    a.(links := map c | c in a.links :: if c == connection then a.links[c].(primary := false) else a.links[c])
  }

  // --------------------------------------------------------------------- steps

  datatype State = State(connections: Connections, accounts: Accounts)

  datatype Step =
    | Connect(id: nat, connection: Connection)
    | Discover(id: nat, seen: set<nat>, now: int)
    | SetEnabled(id: nat, enabled: bool)
    | Delete(id: nat)

  ghost predicate Linked(s: State) {
    forall a :: a in s.accounts ==> s.accounts[a].links.Keys <= s.connections.Keys
  }

  /** What a connection's account list leaves of one account. */
  ghost function Rediscovered(s: State, id: nat, seen: set<nat>, now: int, a: nat): Account
    requires Linked(s) && id in s.connections && (a in s.accounts || a in seen)
  {
    if a in seen then Promoted(Joined(if a in s.accounts then s.accounts[a] else UNSEEN, id, now), s.connections)
    else if id in s.accounts[a].links then Promoted(Left(s.accounts[a], id), s.connections)
    else s.accounts[a]
  }

  ghost function Reenabled(s: State, id: nat, enabled: bool, a: nat): Account
    requires Linked(s) && id in s.connections && a in s.accounts
  {
    var connections := s.connections[id := s.connections[id].(enabled := enabled)];
    if id !in s.accounts[a].links then s.accounts[a]
    else Promoted(if enabled then s.accounts[a] else Demoted(s.accounts[a], id), connections)
  }

  function Disconnected(connections: Connections, id: nat): Connections {
    map c | c in connections && c != id :: connections[c]
  }

  ghost function Orphaned(s: State, id: nat, a: nat): Account
    requires Linked(s) && a in s.accounts
  {
    if id !in s.accounts[a].links then s.accounts[a]
    else Promoted(Left(s.accounts[a], id), Disconnected(s.connections, id))
  }

  ghost function Apply(s: State, step: Step): State
    requires Linked(s)
  {
    match step
    case Connect(id, connection) =>
      if id in s.connections then s else s.(connections := s.connections[id := connection])
    case Discover(id, seen, now) =>
      if id !in s.connections then s
      else s.(accounts := map a | a in s.accounts.Keys + seen :: Rediscovered(s, id, seen, now, a))
    case SetEnabled(id, enabled) =>
      if id !in s.connections then s
      else State(s.connections[id := s.connections[id].(enabled := enabled)],
                 map a | a in s.accounts :: Reenabled(s, id, enabled, a))
    case Delete(id) =>
      if id !in s.connections then s
      else State(Disconnected(s.connections, id), map a | a in s.accounts :: Orphaned(s, id, a))
  }

  // ------------------------------------------------------- what a step changes

  /** `after` are the links `before` with one of them chosen to be the only primary. */
  ghost predicate ElectedFrom(before: Links, after: Links, connections: Connections) {
    && after.Keys == before.Keys
    && (forall d :: d in before ==> after[d].firstSeen == before[d].firstSeen)
    && (before != map[] ==> exists c :: IsChosen(before, connections, c) && PrimaryIs(after, c))
  }

  predicate PrimaryIs(links: Links, c: nat) {
    forall d :: d in links ==> (links[d].primary <==> d == c)
  }

  lemma ElectionIs(links: Links, connections: Connections)
    requires links.Keys <= connections.Keys
    ensures ElectedFrom(links, Elected(links, connections), connections)
  {
    if links != map[] {
      var c := Preferred(links, connections);
      PreferredMeans(links, connections, c);
      assert IsChosen(links, connections, c) && PrimaryIs(OnlyPrimary(links, c), c);
    }
  }

  /** An account that a connection reports is live and linked to it, as primary if it
    had no link, and keeps all its other links. One that it no longer reports loses
    the link, and is archived if that was the last. No other account changes. */
  lemma DiscoveryExactly(s: State, id: nat, seen: set<nat>, now: int, a: nat) returns (before: Links)
    requires Linked(s) && id in s.connections
    ensures var t := Apply(s, Discover(id, seen, now));
      && t.connections == s.connections
      && (a in t.accounts <==> a in s.accounts || a in seen)
      && (a in seen ==>
            var links := if a in s.accounts then s.accounts[a].links else map[];
            && !t.accounts[a].archived
            && before == (if id in links then links else links[id := Link(links == map[], now)])
            && ElectedFrom(before, t.accounts[a].links, s.connections))
      && (a in s.accounts && a !in seen && id in s.accounts[a].links ==>
            && before == s.accounts[a].links - {id}
            && t.accounts[a].archived == (s.accounts[a].archived || before == map[])
            && ElectedFrom(before, t.accounts[a].links, s.connections))
      && (a in s.accounts && a !in seen && id !in s.accounts[a].links ==> t.accounts[a] == s.accounts[a])
  {
    before := map[];
    if a in seen {
      before := Joined(if a in s.accounts then s.accounts[a] else UNSEEN, id, now).links;
      ElectionIs(before, s.connections);
    } else if a in s.accounts && id in s.accounts[a].links {
      LeftIs(s.accounts[a], id);
      before := s.accounts[a].links - {id};
      ElectionIs(before, s.connections);
    }
  }

  lemma PromotedIs(a: Account, connections: Connections)
    requires a.links != map[] && a.links.Keys <= connections.Keys
    ensures Promoted(a, connections).archived == a.archived
    ensures ElectedFrom(a.links, Promoted(a, connections).links, connections)
  {
    ElectionIs(a.links, connections);
  }

  lemma DemotedIs(a: Account, id: nat)
    requires id in a.links
    ensures Demoted(a, id) == Account(a.archived, a.links[id := a.links[id].(primary := false)])
  {
  }

  /** Switching a connection on or off keeps every link; the accounts it serves elect
    their primary again, after it was switched off without regard to its having been it. */
  lemma SwitchingExactly(s: State, id: nat, enabled: bool, a: nat) returns (before: Links)
    requires Linked(s) && id in s.connections && a in s.accounts
    ensures var t := Apply(s, SetEnabled(id, enabled));
      && t.connections == s.connections[id := s.connections[id].(enabled := enabled)]
      && t.accounts.Keys == s.accounts.Keys
      && (id !in s.accounts[a].links ==> t.accounts[a] == s.accounts[a])
      && (id in s.accounts[a].links ==>
            var links := s.accounts[a].links;
            && before == (if enabled then links else links[id := links[id].(primary := false)])
            && t.accounts[a].archived == s.accounts[a].archived
            && ElectedFrom(before, t.accounts[a].links, t.connections))
  {
    before := s.accounts[a].links;
    if id in before {
      DemotedIs(s.accounts[a], id);
      before := if enabled then before else before[id := before[id].(primary := false)];
      assert id in before;
      PromotedIs(Account(s.accounts[a].archived, before), s.connections[id := s.connections[id].(enabled := enabled)]);
    }
  }

  lemma DisconnectedIs(connections: Connections, id: nat)
    ensures Disconnected(connections, id) == connections - {id}
  {
  }

  lemma LeftIs(a: Account, id: nat)
    ensures Left(a, id) == Account(a.archived, a.links - {id})
  {
  }

  /** Deleting a connection takes its link from every account, and leaves one without links archived. */
  lemma DeletionExactly(s: State, id: nat, a: nat) returns (before: Links)
    requires Linked(s) && id in s.connections && a in s.accounts
    ensures var t := Apply(s, Delete(id));
      && t.connections == s.connections - {id} && t.accounts.Keys == s.accounts.Keys
      && before == s.accounts[a].links - {id}
      && (id !in s.accounts[a].links ==> t.accounts[a] == s.accounts[a])
      && (id in s.accounts[a].links ==>
            && t.accounts[a].archived == (s.accounts[a].archived || before == map[])
            && ElectedFrom(before, t.accounts[a].links, t.connections))
  {
    before := s.accounts[a].links - {id};
    DisconnectedIs(s.connections, id);
    LeftIs(s.accounts[a], id);
    if id in s.accounts[a].links {
      ElectionIs(before, Disconnected(s.connections, id));
    }
  }

  /** A step that names a connection nobody knows, or creates one that exists, does nothing. */
  lemma UnknownIsIgnored(s: State, step: Step)
    requires Linked(s)
    requires match step
      case Connect(id, _) => id in s.connections
      case Discover(id, _, _) => id !in s.connections
      case SetEnabled(id, _) => id !in s.connections
      case Delete(id) => id !in s.connections
    ensures Apply(s, step) == s
  {
  }

  lemma ConnectingExactly(s: State, id: nat, connection: Connection)
    requires Linked(s) && id !in s.connections
    ensures Apply(s, Connect(id, connection)) == State(s.connections[id := connection], s.accounts)
  {
  }

  // ----------------------------------------------------------------- invariant

  /** Archived exactly without links, and settled by the election. */
  ghost predicate Sound(a: Account, connections: Connections) {
    && a.links.Keys <= connections.Keys
    && (a.archived <==> a.links == map[])
    && Elected(a.links, connections) == a.links
  }

  ghost predicate AllSound(s: State) {
    forall a :: a in s.accounts ==> Sound(s.accounts[a], s.connections)
  }

  lemma PromotedIsSound(a: Account, connections: Connections)
    requires a.links.Keys <= connections.Keys && (a.links != map[] ==> !a.archived)
    ensures Sound(Promoted(a, connections), connections)
  {
    ElectionIsStable(a.links, connections);
    if a.links != map[] {
      assert Elected(a.links, connections).Keys == a.links.Keys;
    }
  }

  lemma UntouchedIsSound(a: Account, connections: Connections, connections': Connections)
    requires Sound(a, connections) && a.links.Keys <= connections'.Keys
    requires forall c :: c in a.links ==> connections'[c] == connections[c]
    ensures Sound(a, connections')
  {
    ElectionIsLocal(a.links, connections, connections');
  }

  lemma DiscoverKeeps(s: State, id: nat, seen: set<nat>, now: int, a: nat)
    requires AllSound(s) && id in s.connections && (a in s.accounts || a in seen)
    ensures Sound(Rediscovered(s, id, seen, now, a), s.connections)
  {
    if a in seen {
      PromotedIsSound(Joined(if a in s.accounts then s.accounts[a] else UNSEEN, id, now), s.connections);
    } else if id in s.accounts[a].links {
      PromotedIsSound(Left(s.accounts[a], id), s.connections);
    }
  }

  lemma SetEnabledKeeps(s: State, id: nat, enabled: bool, a: nat)
    requires AllSound(s) && id in s.connections && a in s.accounts
    ensures Sound(Reenabled(s, id, enabled, a), s.connections[id := s.connections[id].(enabled := enabled)])
  {
    var connections := s.connections[id := s.connections[id].(enabled := enabled)];
    var account := s.accounts[a];
    if id in account.links {
      PromotedIsSound(if enabled then account else Demoted(account, id), connections);
    } else {
      UntouchedIsSound(account, s.connections, connections);
    }
  }

  lemma DeleteKeeps(s: State, id: nat, a: nat)
    requires AllSound(s) && a in s.accounts
    ensures Sound(Orphaned(s, id, a), Disconnected(s.connections, id))
  {
    var connections := Disconnected(s.connections, id);
    var account := s.accounts[a];
    if id in account.links {
      PromotedIsSound(Left(account, id), connections);
    } else {
      UntouchedIsSound(account, s.connections, connections);
    }
  }

  lemma StepKeeps(s: State, step: Step)
    requires AllSound(s)
    ensures AllSound(Apply(s, step))
  {
    var t := Apply(s, step);
    forall a | a in t.accounts ensures Sound(t.accounts[a], t.connections) {
      match step
      case Connect(_, _) => UntouchedIsSound(s.accounts[a], s.connections, t.connections);
      case Discover(id, seen, now) => if id in s.connections { DiscoverKeeps(s, id, seen, now, a); }
      case SetEnabled(id, enabled) => if id in s.connections { SetEnabledKeeps(s, id, enabled, a); }
      case Delete(id) => if id in s.connections { DeleteKeeps(s, id, a); }
    }
  }

  /** Connecting, discovering, enabling, disabling and deleting, in any order. */
  ghost function Run(s: State, steps: seq<Step>): State
    requires AllSound(s)
    decreases |steps|
  {
    if steps == [] then s else
      StepKeeps(s, steps[0]);
      Run(Apply(s, steps[0]), steps[1..])
  }

  predicate IsPrimary(links: Links, c: nat) {
    c in links && links[c].primary
  }

  /** After every run an account is archived exactly when it has no link, every
    other account has exactly one primary link, and electing again changes nothing. */
  lemma {:induction false} OnePrimary(s: State, steps: seq<Step>)
    requires AllSound(s)
    ensures AllSound(Run(s, steps))
    ensures forall a :: a in Run(s, steps).accounts && !Run(s, steps).accounts[a].archived ==>
      HasOnePrimary(Run(s, steps).accounts[a].links)
    decreases |steps|
  {
    if steps != [] {
      StepKeeps(s, steps[0]);
      OnePrimary(Apply(s, steps[0]), steps[1..]);
    } else {
      forall a | a in s.accounts && !s.accounts[a].archived ensures HasOnePrimary(s.accounts[a].links) {
        ElectedHasOne(s.accounts[a].links, s.connections);
      }
    }
  }

  /** The same from the empty tables on. */
  lemma ReachableHasOnePrimary(steps: seq<Step>, a: nat)
    requires a in Run(State(map[], map[]), steps).accounts
    ensures var account := Run(State(map[], map[]), steps).accounts[a];
      && (account.archived <==> account.links == map[])
      && (!account.archived ==> HasOnePrimary(account.links))
  {
    OnePrimary(State(map[], map[]), steps);
  }

  ghost predicate HasOnePrimary(links: Links) {
    exists c :: IsPrimary(links, c) && forall d :: IsPrimary(links, d) ==> d == c
  }

  lemma ElectedHasOne(links: Links, connections: Connections)
    requires links != map[] && links.Keys <= connections.Keys && Elected(links, connections) == links
    ensures HasOnePrimary(links)
  {
    var c := Preferred(links, connections);
    assert OnlyPrimary(links, c) == links;
    assert IsPrimary(OnlyPrimary(links, c), c);
  }

  // -------------------------------------------------------------------- tables

  /** `m` with the accounts `done` replaced by what `f` makes of them. */
  function Overwritten(m: Accounts, done: set<nat>, f: nat -> Account): Accounts {
    map a | a in m.Keys + done :: if a in done then f(a) else m[a]
  }

  lemma OverwriteNext(m: Accounts, done: set<nat>, f: nat -> Account, a: nat)
    ensures Overwritten(m, done + {a}, f) == Overwritten(m, done, f)[a := f(a)]
  {
  }

  /** The accounts that have a link to the connection. */
  function LinkedTo(accounts: Accounts, id: nat): set<nat> {
    set a | a in accounts && id in accounts[a].links
  }

  method Promote(a: Account, connections: Connections) returns (r: Account)
    requires a.links.Keys <= connections.Keys
    ensures r == Promoted(a, connections)
  {
    if a.links == map[] {
      return a.(archived := true);
    }
    var preferred := FindPreferred(a.links, connections);
    PreferredIs(a.links, connections, preferred);
    return a.(links := OnlyPrimary(a.links, preferred));
  }

  ghost predicate Promotes(f: nat -> Account, edited: Accounts, affected: set<nat>, connections: Connections) {
    && affected <= edited.Keys
    && (forall a :: a in affected ==> edited[a].links.Keys <= connections.Keys)
    && (forall a {:trigger Promoted(edited[a], connections)} | a in affected :: f(a) == Promoted(edited[a], connections))
  }

  method PromoteOne(edited: Accounts, ghost affected: set<nat>, connections: Connections, a: nat, ghost f: nat -> Account)
    returns (promoted: Account)
    requires Promotes(f, edited, affected, connections) && a in affected
    ensures promoted == f(a)
  {
    promoted := Promote(edited[a], connections);
  }

  /** Promotes each affected account, in the form that `edited` gives it. */
  method PromoteEach(base: Accounts, edited: Accounts, affected: set<nat>, connections: Connections, ghost f: nat -> Account)
    returns (accounts: Accounts)
    requires Promotes(f, edited, affected, connections)
    ensures accounts == Overwritten(base, affected, f)
  {
    accounts := base;
    var rest := affected;
    ghost var done := {};
    NothingOverwritten(base, f);
    while rest != {}
      invariant forall a :: a in affected <==> a in done || a in rest
      invariant accounts == Overwritten(base, done, f)
      decreases |rest|
    {
      var a := Folds.AnyOf(rest);
      OverwriteNext(base, done, f, a);
      var promoted := PromoteOne(edited, affected, connections, a, f);
      accounts := accounts[a := promoted];
      rest, done := rest - {a}, done + {a};
    }
    assert done == affected;
  }

  lemma NothingOverwritten(m: Accounts, f: nat -> Account)
    ensures Overwritten(m, {}, f) == m
  {
  }

  function SetOf(xs: seq<nat>): set<nat> {
    set x | x in xs
  }

  function LeftBy(accounts: Accounts, id: nat): Accounts {
    map a | a in accounts :: Left(accounts[a], id)
  }

  function DemotedAll(accounts: Accounts, id: nat): Accounts {
    map a | a in accounts :: Demoted(accounts[a], id)
  }

  ghost function RediscoveredAll(s: State, id: nat, seen: set<nat>, now: int): nat -> Account
    requires Linked(s) && id in s.connections
  {
    a => if a in s.accounts || a in seen then Rediscovered(s, id, seen, now, a) else UNSEEN
  }

  lemma DiscoverIsOverwrite(s: State, id: nat, seen: set<nat>, now: int)
    requires Linked(s) && id in s.connections
    ensures var f := RediscoveredAll(s, id, seen, now);
      Overwritten(Overwritten(s.accounts, seen, f), LinkedTo(s.accounts, id) - seen, f)
      == Apply(s, Discover(id, seen, now)).accounts
  {
  }

  class LinkTables {
    var connections: Connections
    var accounts: Accounts

    function View(): State
      reads this
    {
      State(connections, accounts)
    }

    constructor ()
      ensures View() == State(map[], map[])
    {
      connections, accounts := map[], map[];
    }

    /** Links or relinks every reported account. */
    method JoinReported(id: nat, reported: seq<nat>, now: int)
      requires Linked(View()) && id in connections
      modifies this`accounts
      ensures accounts == Overwritten(old(accounts), SetOf(reported), RediscoveredAll(old(View()), id, SetOf(reported), now))
    {
      ghost var f := RediscoveredAll(View(), id, SetOf(reported), now);
      var table := accounts;
      for i := 0 to |reported|
        invariant accounts == Overwritten(table, SetOf(reported[..i]), f)
      {
        var a := reported[i];
        var promoted := Promote(Joined(if a in table then table[a] else UNSEEN, id, now), connections);
        assert SetOf(reported[..i + 1]) == SetOf(reported[..i]) + {a};
        OverwriteNext(table, SetOf(reported[..i]), f, a);
        accounts := accounts[a := promoted];
      }
      assert reported[..|reported|] == reported;
    }

    /** A connection reports its accounts; the ones it no longer reports lose their link. */
    method ReplaceConnectionAccounts(id: nat, reported: seq<nat>, now: int) returns (ok: bool)
      requires Linked(View())
      modifies this`accounts
      ensures ok <==> id in connections && forall i, j :: 0 <= i < j < |reported| ==> reported[i] != reported[j]
      ensures View() == if ok then Apply(old(View()), Discover(id, SetOf(reported), now)) else old(View())
    {
      if id !in connections || exists i, j :: 0 <= i < j < |reported| && reported[i] == reported[j] {
        return false;
      }
      var table, seen := accounts, SetOf(reported);
      JoinReported(id, reported, now);
      ghost var f := RediscoveredAll(old(View()), id, seen, now);
      accounts := PromoteEach(accounts, LeftBy(table, id), LinkedTo(table, id) - seen, connections, f);
      DiscoverIsOverwrite(old(View()), id, seen, now);
      return true;
    }

    method SetConnectionEnabled(id: nat, enabled: bool) returns (ok: bool)
      requires Linked(View())
      modifies this
      ensures ok <==> id in old(connections)
      ensures View() == Apply(old(View()), SetEnabled(id, enabled))
    {
      if id !in connections {
        return false;
      }
      ghost var s := View();
      ghost var f := a => if a in s.accounts then Reenabled(s, id, enabled, a) else UNSEEN;
      connections := connections[id := connections[id].(enabled := enabled)];
      var edited := if enabled then accounts else DemotedAll(accounts, id);
      accounts := PromoteEach(accounts, edited, LinkedTo(accounts, id), connections, f);
      assert accounts == Apply(s, SetEnabled(id, enabled)).accounts;
      return true;
    }

    method DeleteConnection(id: nat) returns (ok: bool)
      requires Linked(View())
      modifies this
      ensures ok <==> id in old(connections)
      ensures View() == Apply(old(View()), Delete(id))
    {
      if id !in connections {
        return false;
      }
      ghost var s := View();
      ghost var f := a => if a in s.accounts then Orphaned(s, id, a) else UNSEEN;
      connections := Disconnected(connections, id);
      accounts := PromoteEach(accounts, LeftBy(accounts, id), LinkedTo(accounts, id), connections, f);
      assert accounts == Apply(s, Delete(id)).accounts;
      return true;
    }
  }
}

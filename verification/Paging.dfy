/** Listing activities page by page, with cursors that go stale when the ledger moves. */
module Paging {
  import opened Activities
  import opened Ledger
  import opened LedgerInvariant
  import DirtyMarks
  import LedgerRuns

  const DEFAULT_LIMIT := 50
  const MAX_LIMIT := 200

  /** A row's place in the order: its sort key, here a rank, and then its id. */
  datatype Place = Place(sort: int, id: nat)

  /** The order of the sort keys. */
  type Ranking = Activity -> int

  /** An empty set of accounts asks for all of them; every other absent part asks
    for anything. `symbol` holds the instruments that have the symbol asked for. */
  datatype Query = Query(
    accounts: set<nat>,
    provider: Option<Provider>,
    kinds: set<string>,
    from: Option<int>,
    to: Option<int>,
    status: Option<Status>,
    instrument: Option<nat>,
    symbol: Option<set<nat>>,
    currency: Option<string>)

  datatype Cursor = Cursor(generations: map<nat, nat>, query: Query, position: Place)
  datatype Page = Stale | Page(items: seq<Place>, next: Option<Cursor>)

  // -------------------------------------------------------------------- query

  predicate InScope(q: Query, account: nat) {
    q.accounts == {} || account in q.accounts
  }

  predicate Matches(q: Query, a: Activity, sort: int) {
    && (q.provider.Some? ==> a.provider == q.provider.value)
    && (q.kinds != {} ==> a.kind in q.kinds)
    && (q.from.Some? ==> sort >= q.from.value)
    && (q.to.Some? ==> sort < q.to.value)
    && (q.status.Some? ==> a.status == q.status.value)
    && (q.instrument.Some? ==> exists i :: 0 <= i < |a.legs| && a.legs[i].instrument == q.instrument.value)
    && (q.symbol.Some? ==> exists i :: 0 <= i < |a.legs| && a.legs[i].instrument in q.symbol.value)
    && (q.currency.Some? ==> exists i :: 0 <= i < |a.legs| && a.legs[i].currency == q.currency.value)
  }

  predicate Listed(s: State, q: Query, rank: Ranking, id: nat) {
    && Tracked(s, id)
    && InScope(q, s.activities[id].account)
    && Matches(q, Current(s, id).payload, rank(Current(s, id).payload))
  }

  /** All rows that a query selects. */
  function Selected(s: State, q: Query, rank: Ranking): set<Place> {
    set id | id in s.activities && Listed(s, q, rank, id) :: Place(rank(Current(s, id).payload), id)
  }

  /** The generations of the accounts in scope, of all accounts that there are. */
  function ScopedGenerations(s: State, known: set<nat>, q: Query): map<nat, nat> {
    map a | a in known && InScope(q, a) :: Count(s.generations, a)
  }

  // -------------------------------------------------------------------- order

  /** Descending by sort key, and by id among equals. */
  predicate Precedes(p: Place, q: Place) {
    p.sort > q.sort || (p.sort == q.sort && p.id > q.id)
  }

  predicate IsFirst(rows: set<Place>, p: Place) {
    p in rows && forall q :: q in rows && q != p ==> Precedes(p, q)
  }

  lemma {:induction false} FirstExists(rows: set<Place>)
    requires rows != {}
    ensures exists p :: IsFirst(rows, p)
    decreases |rows|
  {
    var p :| p in rows;
    var rest := rows - {p};
    if rest == {} {
      assert rows == {p};
      assert IsFirst(rows, p);
    } else {
      FirstExists(rest);
      var q :| IsFirst(rest, q);
      var r := if Precedes(p, q) then p else q;
      assert forall x :: x in rows ==> x == p || x in rest;
      assert IsFirst(rows, r);
    }
  }

  /** The rows as the query orders them. */
  ghost function Ordered(rows: set<Place>): (r: seq<Place>)
    ensures |r| == |rows|
    decreases |rows|
  {
    if rows == {} then []
    else
      FirstExists(rows);
      var p :| IsFirst(rows, p);
      [p] + Ordered(rows - {p})
  }

  lemma FirstComesFirst(rows: set<Place>)
    requires rows != {}
    ensures var p := Ordered(rows)[0]; IsFirst(rows, p) && Ordered(rows) == [p] + Ordered(rows - {p})
  {
    FirstExists(rows);
  }

  lemma {:induction false} OrderedHas(rows: set<Place>, p: Place)
    ensures p in Ordered(rows) <==> p in rows
    decreases |rows|
  {
    if rows != {} {
      FirstComesFirst(rows);
      OrderedHas(rows - {Ordered(rows)[0]}, p);
    }
  }

  lemma {:induction false} OrderedDescends(rows: set<Place>, i: nat, j: nat)
    requires i < j < |Ordered(rows)|
    ensures Precedes(Ordered(rows)[i], Ordered(rows)[j])
    decreases |rows|
  {
    FirstComesFirst(rows);
    var p := Ordered(rows)[0];
    var rest := rows - {p};
    assert Ordered(rows)[j] == Ordered(rest)[j - 1];
    if i == 0 {
      OrderedHas(rest, Ordered(rest)[j - 1]);
    } else {
      OrderedDescends(rest, i - 1, j - 1);
    }
  }

  function Beyond(rows: set<Place>, cursor: Place): set<Place> {
    set p | p in rows && Precedes(cursor, p)
  }

  lemma BeyondFirst(rows: set<Place>, p: Place)
    requires IsFirst(rows, p)
    ensures Beyond(rows, p) == rows - {p}
  {
  }

  lemma BeyondLater(rows: set<Place>, p: Place, c: Place)
    requires IsFirst(rows, p) && c in rows && c != p
    ensures Beyond(rows, c) == Beyond(rows - {p}, c)
  {
  }

  /** What lies beyond a row is what follows it in order. */
  lemma {:induction false} OrderedBeyond(rows: set<Place>, k: nat)
    requires k < |Ordered(rows)|
    ensures Ordered(Beyond(rows, Ordered(rows)[k])) == Ordered(rows)[k + 1..]
    decreases |rows|
  {
    FirstComesFirst(rows);
    var p := Ordered(rows)[0];
    var rest := rows - {p};
    if k == 0 {
      BeyondFirst(rows, p);
    } else {
      OrderedBeyond(rest, k - 1);
      var c := Ordered(rest)[k - 1];
      OrderedHas(rest, c);
      BeyondLater(rows, p, c);
    }
  }

  // -------------------------------------------------------------------- pages

  function Clamp(limit: int): (n: nat)
    ensures 1 <= n <= MAX_LIMIT
  {
    if limit <= 0 then DEFAULT_LIMIT else if limit > MAX_LIMIT then MAX_LIMIT else limit
  }

  /** The rows still to come for a cursor. */
  function Remaining(rows: set<Place>, cursor: Option<Cursor>): set<Place> {
    if cursor.None? then rows else Beyond(rows, cursor.value.position)
  }

  /** The rows of one page, fetched with one more than the limit to see whether others follow. */
  ghost function Fetch(remaining: set<Place>, limit: int): seq<Place> {
    var found := Ordered(remaining);
    if |found| > Clamp(limit) then found[..Clamp(limit)] else found
  }

  ghost function ListPage(s: State, known: set<nat>, rank: Ranking, q: Query, cursor: Option<Cursor>, limit: int): Page {
    var generations := ScopedGenerations(s, known, q);
    if cursor.Some? && (cursor.value.generations != generations || cursor.value.query != q) then Stale
    else
      var remaining := Remaining(Selected(s, q, rank), cursor);
      var items := Fetch(remaining, limit);
      Page(items, if |items| < |remaining| then Some(Cursor(generations, q, items[|items| - 1])) else None)
  }

  lemma PrefixSplits(remaining: set<Place>, n: nat)
    requires 1 <= n < |remaining|
    ensures var found := Ordered(remaining);
      found[n - 1] in remaining && found == found[..n] + Ordered(Beyond(remaining, found[n - 1]))
  {
    var found := Ordered(remaining);
    OrderedBeyond(remaining, n - 1);
    OrderedHas(remaining, found[n - 1]);
    assert found == found[..n] + found[n..];
  }

  lemma FetchSplits(rows: set<Place>, cursor: Option<Cursor>, limit: int)
    ensures var remaining := Remaining(rows, cursor);
      var items := Fetch(remaining, limit);
      && |items| <= |remaining|
      && (|items| == |remaining| ==> items == Ordered(remaining))
      && (|items| < |remaining| ==>
            |items| > 0 && Ordered(remaining) == items + Ordered(Beyond(rows, items[|items| - 1])))
  {
    var remaining, n := Remaining(rows, cursor), Clamp(limit);
    if |remaining| > n {
      PrefixSplits(remaining, n);
      BeyondChains(rows, cursor, Ordered(remaining)[n - 1]);
    }
  }

  lemma BeyondChains(rows: set<Place>, cursor: Option<Cursor>, p: Place)
    requires p in Remaining(rows, cursor)
    ensures Beyond(Remaining(rows, cursor), p) == Beyond(rows, p)
  {
  }

  // ------------------------------------------------------------ what a page is

  /** The query asks for nothing, or for this. */
  predicate Asks<T(==)>(wanted: Option<T>, x: T) {
    wanted == None || wanted == Some(x)
  }

  /** The current revision of the activity is one of those that the query asks for. */
  predicate AskedFor(s: State, q: Query, rank: Ranking, id: nat) {
    && id in s.activities && Tracked(s, id)
    && (q.accounts == {} || s.activities[id].account in q.accounts)
    && var a := Current(s, id).payload;
    && Asks(q.provider, a.provider) && Asks(q.status, a.status) && (q.kinds == {} || a.kind in q.kinds)
    && (q.from == None || q.from.value <= rank(a)) && (q.to == None || rank(a) < q.to.value)
    && (q.instrument == None || exists leg :: leg in a.legs && leg.instrument == q.instrument.value)
    && (q.symbol == None || exists leg :: leg in a.legs && leg.instrument in q.symbol.value)
    && (q.currency == None || exists leg :: leg in a.legs && leg.currency == q.currency.value)
  }

  lemma LegsAsked(legs: seq<Leg>, p: Leg -> bool)
    ensures (exists leg :: leg in legs && p(leg)) <==> exists i :: 0 <= i < |legs| && p(legs[i])
  {
    if leg :| leg in legs && p(leg) {
      var i :| 0 <= i < |legs| && legs[i] == leg;
      assert p(legs[i]);
    }
  }

  lemma ListedExactly(s: State, q: Query, rank: Ranking, id: nat)
    ensures Listed(s, q, rank, id) <==> AskedFor(s, q, rank, id)
  {
    if Tracked(s, id) {
      var legs := Current(s, id).payload.legs;
      LegsAsked(legs, (leg: Leg) => q.instrument.Some? && leg.instrument == q.instrument.value);
      LegsAsked(legs, (leg: Leg) => q.symbol.Some? && leg.instrument in q.symbol.value);
      LegsAsked(legs, (leg: Leg) => q.currency.Some? && leg.currency == q.currency.value);
    }
  }

  /** The row is still to come after the cursor: further down, or as far and with a lower id. */
  predicate ToFollow(cursor: Option<Cursor>, p: Place) {
    cursor == None ||
    p.sort < cursor.value.position.sort || (p.sort == cursor.value.position.sort && p.id < cursor.value.position.id)
  }

  /** `rows` are the places of what the query asks for and the cursor has not passed. */
  ghost predicate AreToFollow(s: State, q: Query, rank: Ranking, cursor: Option<Cursor>, rows: set<Place>) {
    forall p :: p in rows <==>
      AskedFor(s, q, rank, p.id) && p.sort == rank(Current(s, p.id).payload) && ToFollow(cursor, p)
  }

  /** The cursor was made for the same query, for the same accounts in scope, and none has changed since. */
  ghost predicate StillGood(s: State, known: set<nat>, q: Query, cursor: Cursor) {
    && cursor.query == q
    && (forall a :: a in cursor.generations <==> a in known && (q.accounts == {} || a in q.accounts))
    && (forall a :: a in cursor.generations ==> cursor.generations[a] == if a in s.generations then s.generations[a] else 0)
  }

  /** Pages hold fifty rows unless another number is asked for, and two hundred at most. */
  function PageSize(limit: int): nat {
    if limit < 1 then 50 else if limit < 200 then limit else 200
  }

  /** A page is refused exactly if its cursor is no longer good. Otherwise it holds the
    first rows to follow, as many as fit, and a good cursor at its last row if there are more. */
  lemma PageExactly(s: State, known: set<nat>, rank: Ranking, q: Query, cursor: Option<Cursor>, limit: int)
    returns (rows: set<Place>)
    ensures AreToFollow(s, q, rank, cursor, rows)
    ensures var page := ListPage(s, known, rank, q, cursor, limit);
      && (page.Stale? <==> cursor.Some? && !StillGood(s, known, q, cursor.value))
      && (page.Page? ==>
            && |page.items| == (if |rows| <= PageSize(limit) then |rows| else PageSize(limit))
            && page.items <= Ordered(rows)
            && (page.next.None? <==> |rows| <= PageSize(limit))
            && (page.next.Some? ==>
                  && StillGood(s, known, q, page.next.value)
                  && page.next.value.position == page.items[|page.items| - 1]))
  {
    rows := Remaining(Selected(s, q, rank), cursor);
    FollowingRows(s, q, rank, cursor);
    FetchedRows(rows, limit);
    if cursor.Some? {
      GoodExactly(s, known, q, cursor.value);
    }
    var page := ListPage(s, known, rank, q, cursor, limit);
    if page.Page? && page.next.Some? {
      GoodExactly(s, known, q, page.next.value);
    }
  }

  lemma FollowingRows(s: State, q: Query, rank: Ranking, cursor: Option<Cursor>)
    ensures AreToFollow(s, q, rank, cursor, Remaining(Selected(s, q, rank), cursor))
  {
    forall p ensures p in Selected(s, q, rank) <==> AskedFor(s, q, rank, p.id) && p.sort == rank(Current(s, p.id).payload) {
      ListedExactly(s, q, rank, p.id);
    }
  }

  lemma FetchedRows(rows: set<Place>, limit: int)
    ensures var items := Fetch(rows, limit);
      |items| == (if |rows| <= PageSize(limit) then |rows| else PageSize(limit)) && items <= Ordered(rows)
  {
  }

  lemma GoodExactly(s: State, known: set<nat>, q: Query, cursor: Cursor)
    ensures StillGood(s, known, q, cursor) <==> cursor.query == q && cursor.generations == ScopedGenerations(s, known, q)
  {
  }

  /** Asking again with the returned cursor, after whatever the ledger did and
    whichever accounts were discovered meanwhile. */
  datatype Visit = Visit(steps: seq<Step>, limit: int, known: set<nat>)
  datatype Listing = Listing(items: seq<Place>, next: Option<Cursor>, stale: bool)

  ghost function Follow(s: State, rank: Ranking, q: Query, cursor: Option<Cursor>, visits: seq<Visit>): Listing
    decreases |visits|
  {
    if visits == [] then Listing([], cursor, false)
    else
      var t := Run(s, visits[0].steps);
      match ListPage(t, visits[0].known, rank, q, cursor, visits[0].limit)
      case Stale => Listing([], None, true)
      case Page(items, next) =>
        if next.None? then Listing(items, None, false)
        else
          var rest := Follow(t, rank, q, next, visits[1..]);
          rest.(items := items + rest.items)
  }

  // ----------------------------------------------------------------- staleness

  ghost predicate AccountsKnown(rows: Rows, known: set<nat>) {
    forall id :: id in rows ==> rows[id].account in known
  }

  /** Unchanged generations mean an unchanged scope: the cursor's check is enough,
    also when accounts were discovered in between. */
  lemma SameGenerationsSameRows(s: State, steps: seq<Step>, known: set<nat>, known': set<nat>, rank: Ranking, q: Query)
    requires Valid(s) && AccountsKnown(Run(s, steps).activities, known')
    requires ScopedGenerations(Run(s, steps), known', q) == ScopedGenerations(s, known, q)
    ensures Selected(Run(s, steps), q, rank) == Selected(s, q, rank)
  {
    LedgerRuns.RunProgress(s, steps);
    DirtyMarks.RunMarks(s, steps);
    SameScope(s, Run(s, steps), known, known', rank, q);
  }

  lemma SameScope(s: State, t: State, known: set<nat>, known': set<nat>, rank: Ranking, q: Query)
    requires Valid(s) && RowsGrow(s.activities, t.activities) && Kept(s.revisions, t.revisions)
    requires DirtyMarks.Shows(s.activities, s.generations, t.activities, t.generations)
    requires AccountsKnown(t.activities, known') && ScopedGenerations(t, known', q) == ScopedGenerations(s, known, q)
    ensures Selected(t, q, rank) == Selected(s, q, rank)
  {
    forall id | id in t.activities && InScope(q, t.activities[id].account)
      ensures DirtyMarks.Unchanged(s.activities, t.activities, id)
    {
      var a := t.activities[id].account;
      assert a in ScopedGenerations(t, known', q);
      assert ScopedGenerations(t, known', q)[a] == ScopedGenerations(s, known, q)[a];
    }
    forall id | id in t.activities && InScope(q, t.activities[id].account)
      ensures Tracked(s, id) && Tracked(t, id) && Current(t, id) == Current(s, id)
    {
      assert CurrentKey(s, id) in s.revisions;
    }
  }

  /** Every run that books or revises an activity in scope makes earlier cursors stale. */
  lemma ChangeMakesStale(
    s: State, steps: seq<Step>, known: set<nat>, known': set<nat>, rank: Ranking, q: Query, cursor: Cursor, limit: int, id: nat)
    requires Valid(s) && cursor.generations == ScopedGenerations(s, known, q)
    requires var t := Run(s, steps);
      && AccountsKnown(t.activities, known')
      && id in t.activities && InScope(q, t.activities[id].account) && !DirtyMarks.Unchanged(s.activities, t.activities, id)
    ensures ListPage(Run(s, steps), known', rank, q, Some(cursor), limit) == Stale
  {
    var t := Run(s, steps);
    LedgerRuns.RunProgress(s, steps);
    DirtyMarks.RunMarks(s, steps);
    var a := t.activities[id].account;
    assert a in ScopedGenerations(t, known', q);
    assert a in known ==> ScopedGenerations(t, known', q)[a] != ScopedGenerations(s, known, q)[a];
  }

  // --------------------------------------------------------------- completeness

  /** At every visit each activity's account is among the accounts there are. */
  ghost predicate KnownThroughout(s: State, visits: seq<Visit>)
    decreases |visits|
  {
    visits == [] ||
    (AccountsKnown(Run(s, visits[0].steps).activities, visits[0].known) &&
     KnownThroughout(Run(s, visits[0].steps), visits[1..]))
  }

  ghost function ToCome(s: State, rank: Ranking, q: Query, cursor: Option<Cursor>): seq<Place> {
    Ordered(Remaining(Selected(s, q, rank), cursor))
  }

  /** The cursor was made at the ledger `s`, when the accounts were `known`. */
  predicate UpToDate(s: State, known: set<nat>, q: Query, cursor: Cursor) {
    cursor.generations == ScopedGenerations(s, known, q)
  }

  lemma OnePage(s: State, known: set<nat>, rank: Ranking, q: Query, cursor: Option<Cursor>, limit: int)
    ensures var page := ListPage(s, known, rank, q, cursor, limit);
      page.Page? ==>
        && (page.next.None? ==> page.items == ToCome(s, rank, q, cursor))
        && (page.next.Some? ==> UpToDate(s, known, q, page.next.value) &&
                                ToCome(s, rank, q, cursor) == page.items + ToCome(s, rank, q, page.next))
  {
    FetchSplits(Selected(s, q, rank), cursor, limit);
  }

  lemma NotStale(
    s: State, steps: seq<Step>, known: set<nat>, known': set<nat>, rank: Ranking, q: Query, cursor: Cursor, limit: int)
    requires Valid(s) && AccountsKnown(Run(s, steps).activities, known') && UpToDate(s, known, q, cursor)
    requires ListPage(Run(s, steps), known', rank, q, Some(cursor), limit).Page?
    ensures ToCome(Run(s, steps), rank, q, Some(cursor)) == ToCome(s, rank, q, Some(cursor))
  {
    SameGenerationsSameRows(s, steps, known, known', rank, q);
  }

  /** Following the cursors of one listing, with any limits and whatever ledger
    steps and new accounts in between: unless a page is refused as stale, the
    pages together are a prefix of the rows in order, and all of them when no
    cursor is left. */
  lemma {:induction false} PagesAddUp(s: State, known: set<nat>, rank: Ranking, q: Query, cursor: Cursor, visits: seq<Visit>)
    requires Valid(s) && KnownThroughout(s, visits) && UpToDate(s, known, q, cursor)
    ensures var r := Follow(s, rank, q, Some(cursor), visits);
      !r.stale ==>
        && r.items <= ToCome(s, rank, q, Some(cursor))
        && (r.next.None? ==> r.items == ToCome(s, rank, q, Some(cursor)))
    decreases |visits|
  {
    if visits != [] {
      var t, visit := Run(s, visits[0].steps), visits[0];
      LedgerRuns.RunProgress(s, visit.steps);
      var page := ListPage(t, visit.known, rank, q, Some(cursor), visit.limit);
      if page.Page? {
        NotStale(s, visit.steps, known, visit.known, rank, q, cursor, visit.limit);
        OnePage(t, visit.known, rank, q, Some(cursor), visit.limit);
        if page.next.Some? {
          PagesAddUp(t, visit.known, rank, q, page.next.value, visits[1..]);
          var rest := Follow(t, rank, q, page.next, visits[1..]);
          if !rest.stale {
            PrefixOfConcat(page.items, rest.items, ToCome(t, rank, q, page.next));
          }
        }
      }
    }
  }

  lemma PrefixOfConcat<T>(xs: seq<T>, ys: seq<T>, zs: seq<T>)
    requires ys <= zs
    ensures xs + ys <= xs + zs
  {
  }

  /** A listing from its first page to the last cursor names each activity selected
    at the start exactly once, in descending order. */
  lemma CompleteListing(s: State, known: set<nat>, rank: Ranking, q: Query, limit: int, visits: seq<Visit>)
    requires Valid(s) && KnownThroughout(s, visits)
    requires var r := Follow(s, rank, q, None, [Visit([], limit, known)] + visits); !r.stale && r.next.None?
    ensures Follow(s, rank, q, None, [Visit([], limit, known)] + visits).items == Ordered(Selected(s, q, rank))
  {
    var all := [Visit([], limit, known)] + visits;
    assert all[1..] == visits && Run(s, all[0].steps) == s;
    OnePage(s, known, rank, q, None, limit);
    var page := ListPage(s, known, rank, q, None, limit);
    if page.next.Some? {
      PagesAddUp(s, known, rank, q, page.next.value, visits);
    }
  }

  /** The rows in order are the selected rows, each once, descending. */
  lemma OrderedMeaning(rows: set<Place>)
    ensures |Ordered(rows)| == |rows| && (forall p :: p in Ordered(rows) <==> p in rows)
    ensures forall i, j :: 0 <= i < j < |Ordered(rows)| ==> Precedes(Ordered(rows)[i], Ordered(rows)[j])
  {
    forall p ensures p in Ordered(rows) <==> p in rows {
      OrderedHas(rows, p);
    }
    forall i, j | 0 <= i < j < |Ordered(rows)| ensures Precedes(Ordered(rows)[i], Ordered(rows)[j]) {
      OrderedDescends(rows, i, j);
    }
  }
}

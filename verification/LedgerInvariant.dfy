/** What every step keeps, and what therefore holds over every run of the ledger.

  The invariant is stated table by table, so that a step has to argue only
  about the tables it writes. */
module LedgerInvariant {
  import opened Activities
  import opened Ledger

  type Rows = map<nat, ActivityRow>
  type Revisions = map<RevisionKey, Revision>

  // --------------------------------------------------------------- invariant

  /** Revisions of an activity are numbered from one to the current one. */
  ghost predicate Numbered(rows: Rows, revisions: Revisions) {
    && (forall k :: k in revisions ==> k.activity in rows && 1 <= k.number <= rows[k.activity].current)
    && (forall id, n: nat :: id in rows && 1 <= n <= rows[id].current ==> RevisionKey(id, n) in revisions)
  }

  /** Every payload carries its own activity and number. */
  ghost predicate Labelled(revisions: Revisions) {
    forall k :: k in revisions ==> revisions[k].payload.revision == k.number && revisions[k].payload.id == k.activity
  }

  ghost predicate Started(rows: Rows, next: nat) {
    forall id :: id in rows ==> rows[id].current >= 1 && id < next
  }

  predicate FitsGrade(r: Revision) {
    && (r.priority == FEED_PRIORITY || r.priority == REPORT_PRIORITY ||
        r.priority == ACCEPTED_PRIORITY || r.priority == MANUAL_PRIORITY)
    && (r.priority >= ACCEPTED_PRIORITY ==> r.payload.status.Effective? || r.payload.status.Voided?)
  }

  /** Reviewed revisions are final: none of them awaits a review. */
  ghost predicate Graded(revisions: Revisions) {
    forall k :: k in revisions ==> FitsGrade(revisions[k])
  }

  predicate Undecided(issue: Issue, revisions: Revisions) {
    issue.kind.RevisionConflict? ==>
      var k := RevisionKey(issue.activity, issue.kind.current);
      k in revisions && revisions[k].priority <= ACCEPTED_PRIORITY
  }

  /** An ordering conflict was raised against a revision that no manual review had made. */
  ghost predicate ConflictsUndecided(issues: map<nat, Issue>, revisions: Revisions) {
    forall i :: i in issues ==> Undecided(issues[i], revisions)
  }

  ghost predicate Sourced(sources: map<SourceKey, Role>, revisions: Revisions, raws: map<RawKey, Raw>) {
    forall k :: k in sources ==> k.revision in revisions && k.raw in raws
  }

  /** An identity leads to an activity of its own account. */
  ghost predicate Owned(identities: map<OwnedKey, nat>, rows: Rows) {
    forall o :: o in identities ==> identities[o] in rows && rows[identities[o]].account == o.account
  }

  ghost predicate Linked(links: set<Link>, rows: Rows) {
    forall l :: l in links ==> l.duplicate in rows
  }

  ghost predicate Valid(s: State) {
    && Numbered(s.activities, s.revisions)
    && Labelled(s.revisions)
    && Started(s.activities, s.nextActivity)
    && Graded(s.revisions)
    && ConflictsUndecided(s.issues, s.revisions)
    && Sourced(s.sources, s.revisions, s.raws)
    && Owned(s.identities, s.activities)
    && Linked(s.links, s.activities)
  }

  // ------------------------------------------------------------------ growth

  ghost predicate Kept<K(!new), V>(m: map<K, V>, n: map<K, V>) {
    forall k :: k in m ==> k in n && n[k] == m[k]
  }

  ghost predicate RowsGrow(rows: Rows, rows': Rows) {
    forall id :: id in rows ==>
      id in rows' && rows'[id].account == rows[id].account && rows[id].current <= rows'[id].current
  }

  ghost predicate CountsGrow(g: map<nat, nat>, g': map<nat, nat>) {
    forall a :: Count(g, a) <= Count(g', a)
  }

  /** A change of current revision shows in the account's generation. */
  ghost predicate ChangesShow(rows: Rows, g: map<nat, nat>, rows': Rows, g': map<nat, nat>) {
    forall id :: id in rows && id in rows' && rows'[id] != rows[id] ==>
      Count(g, rows[id].account) < Count(g', rows[id].account)
  }

  /** What a step may add to but never take away or alter. */
  ghost predicate Grows(s: State, t: State) {
    && RowsGrow(s.activities, t.activities)
    && Kept(s.revisions, t.revisions)
    && Kept(s.identities, t.identities)
    && Kept(s.sources, t.sources)
    && s.raws.Keys <= t.raws.Keys
    && s.links <= t.links
    && CountsGrow(s.generations, t.generations)
    && ChangesShow(s.activities, s.generations, t.activities, t.generations)
  }

  lemma ChangesShowTransitive(
    rows: Rows, g: map<nat, nat>, rows': Rows, g': map<nat, nat>, rows'': Rows, g'': map<nat, nat>)
    requires RowsGrow(rows, rows') && RowsGrow(rows', rows'')
    requires CountsGrow(g, g') && CountsGrow(g', g'')
    requires ChangesShow(rows, g, rows', g') && ChangesShow(rows', g', rows'', g'')
    ensures ChangesShow(rows, g, rows'', g'')
  {
    forall id | id in rows && id in rows'' && rows''[id] != rows[id]
      ensures Count(g, rows[id].account) < Count(g'', rows[id].account)
    {
      assert id in rows' && rows'[id].account == rows[id].account;
      assert Count(g, rows[id].account) <= Count(g', rows[id].account) <= Count(g'', rows[id].account);
    }
  }

  lemma GrowsTransitive(s: State, m: State, t: State)
    requires Grows(s, m) && Grows(m, t)
    ensures Grows(s, t)
  {
    ChangesShowTransitive(s.activities, s.generations, m.activities, m.generations, t.activities, t.generations);
    assert Kept(s.revisions, t.revisions);
    assert Kept(s.identities, t.identities);
    assert Kept(s.sources, t.sources);
  }

  lemma GrowsRefl(s: State)
    ensures Grows(s, s)
  {
  }

  // ------------------------------------------------ one table at a time

  lemma NumberedAppend(rows: Rows, revisions: Revisions, id: nat, r: Revision)
    requires Numbered(rows, revisions) && id in rows
    requires r.payload.revision == rows[id].current + 1
    ensures RevisionKey(id, r.payload.revision) !in revisions
    ensures Numbered(rows[id := rows[id].(current := r.payload.revision)],
                     revisions[RevisionKey(id, r.payload.revision) := r])
    ensures Kept(revisions, revisions[RevisionKey(id, r.payload.revision) := r])
  {
  }

  lemma LabelledAppend(revisions: Revisions, key: RevisionKey, r: Revision)
    requires Labelled(revisions) && Graded(revisions)
    requires r.payload.revision == key.number && r.payload.id == key.activity && FitsGrade(r)
    ensures Labelled(revisions[key := r]) && Graded(revisions[key := r])
  {
  }

  lemma ConflictsKept(issues: map<nat, Issue>, revisions: Revisions, revisions': Revisions)
    requires ConflictsUndecided(issues, revisions) && Kept(revisions, revisions')
    ensures ConflictsUndecided(issues, revisions')
  {
  }

  lemma SourcedAppend(
    sources: map<SourceKey, Role>, revisions: Revisions, raws: map<RawKey, Raw>,
    roles: map<SourceKey, Role>, key: RevisionKey, r: Revision)
    requires Sourced(sources, revisions, raws)
    requires key !in revisions
    requires forall k :: k in roles ==> k.revision == key && k.raw in raws
    ensures Sourced(sources + roles, revisions[key := r], raws)
    ensures Kept(sources, sources + roles)
  {
  }

  lemma {:induction false} IdentitiesKept(identities: map<OwnedKey, nat>, account: nat, keys: seq<IdentityKey>, id: nat)
    ensures Kept(identities, AddIdentities(identities, account, keys, id))
    ensures forall o :: o in AddIdentities(identities, account, keys, id) && o !in identities ==>
      AddIdentities(identities, account, keys, id)[o] == id && o.account == account && o.key in keys && o.key.external != ""
    decreases |keys|
  {
    if keys != [] {
      IdentitiesKept(identities, account, keys[..|keys| - 1], id);
    }
  }

  /** The next revision of an activity, with sources that exist. */
  ghost predicate NextRevision(s: State, id: nat, r: Revision, roles: map<SourceKey, Role>) {
    && id in s.activities
    && r.payload.id == id
    && r.payload.revision == s.activities[id].current + 1
    && FitsGrade(r)
    && (forall k :: k in roles ==> k.revision == RevisionKey(id, r.payload.revision) && k.raw in s.raws)
  }

  ghost predicate AlmostValid(s: State, id: nat) {
    && Numbered(s.activities, s.revisions)
    && Labelled(s.revisions)
    && (forall x :: x in s.activities ==> x < s.nextActivity && (x != id ==> s.activities[x].current >= 1))
    && Graded(s.revisions)
    && ConflictsUndecided(s.issues, s.revisions)
    && Sourced(s.sources, s.revisions, s.raws)
    && Owned(s.identities, s.activities)
    && Linked(s.links, s.activities)
  }

  /** Appending a revision keeps every table in order and touches no earlier revision. */
  lemma AppendKeeps(s: State, id: nat, r: Revision, roles: map<SourceKey, Role>, boundary: Option<Day>)
    requires AlmostValid(s, id) && NextRevision(s, id, r, roles)
    ensures Valid(AddRevision(s, id, r, roles, boundary))
    ensures Grows(s, AddRevision(s, id, r, roles, boundary))
  {
    var t := AddRevision(s, id, r, roles, boundary);
    var key := RevisionKey(id, r.payload.revision);
    NumberedAppend(s.activities, s.revisions, id, r);
    ConflictsKept(s.issues, s.revisions, t.revisions);
    SourcedAppend(s.sources, s.revisions, s.raws, roles, key, r);
    LabelledAppend(s.revisions, key, r);
  }

  /** Evidence bookkeeping around an unchanged ledger. */
  lemma BookkeepingKeeps(s: State, m: State, t: State)
    requires Valid(m) && Grows(s, m)
    requires t.activities == m.activities && t.revisions == m.revisions && t.generations == m.generations
    requires t.links == m.links && t.nextActivity == m.nextActivity && t.sources == m.sources
    requires Kept(m.identities, t.identities) && Owned(t.identities, t.activities)
    requires ConflictsUndecided(t.issues, t.revisions)
    requires m.raws.Keys == t.raws.Keys
    ensures Valid(t) && Grows(s, t)
  {
    assert Sourced(t.sources, t.revisions, t.raws);
    assert Kept(s.identities, t.identities);
  }

  lemma {:induction false} FoundIsTracked(s: State, account: nat, keys: seq<IdentityKey>)
    requires Owned(s.identities, s.activities)
    ensures FindActivity(s, account, keys).Matched? ==>
      var id := FindActivity(s, account, keys).id;
      id in s.activities && s.activities[id].account == account
    decreases |keys|
  {
    if keys != [] {
      FoundIsTracked(s, account, keys[..|keys| - 1]);
    }
  }
}

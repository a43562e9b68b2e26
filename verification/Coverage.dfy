/** Which days of a range are covered by fetched history, decided in two ways:
  by sorting and sweeping intervals, and by walking a cursor over windows. */
module Coverage {
  import opened Activities

  datatype Span = Span(from: Day, to: Day)

  predicate Contains(s: Span, day: Day) {
    s.from <= day <= s.to
  }

  /** Some span contains the day. */
  predicate Covered(spans: seq<Span>, day: Day) {
    exists i :: 0 <= i < |spans| && Contains(spans[i], day)
  }

  ghost predicate CoversRange(spans: seq<Span>, from: Day, to: Day) {
    forall day :: from <= day <= to ==> Covered(spans, day)
  }

  // ------------------------------------------------------------ sort and sweep

  predicate Sorted(spans: seq<Span>) {
    forall i, j :: 0 <= i < j < |spans| ==> spans[i].from <= spans[j].from
  }

  function Insert(spans: seq<Span>, s: Span): seq<Span> {
    if spans == [] || spans[|spans| - 1].from <= s.from then spans + [s]
    else Insert(spans[..|spans| - 1], s) + [spans[|spans| - 1]]
  }

  predicate StartBy(spans: seq<Span>, latest: Day) {
    forall i :: 0 <= i < |spans| ==> spans[i].from <= latest
  }

  lemma SortedSnoc(spans: seq<Span>, s: Span, latest: Day)
    requires Sorted(spans) && StartBy(spans, s.from) && s.from <= latest
    ensures Sorted(spans + [s]) && StartBy(spans + [s], latest)
  {
  }

  lemma {:induction false} InsertKeepsSorted(spans: seq<Span>, s: Span, latest: Day)
    requires Sorted(spans) && StartBy(spans, latest) && s.from <= latest
    ensures Sorted(Insert(spans, s)) && StartBy(Insert(spans, s), latest)
    decreases |spans|
  {
    if spans == [] || spans[|spans| - 1].from <= s.from {
      SortedSnoc(spans, s, latest);
    } else {
      var n := |spans| - 1;
      InsertKeepsSorted(spans[..n], s, spans[n].from);
      SortedSnoc(Insert(spans[..n], s), spans[n], latest);
    }
  }

  lemma {:induction false} InsertKeepsAll(spans: seq<Span>, s: Span)
    ensures multiset(Insert(spans, s)) == multiset(spans) + multiset{s}
    decreases |spans|
  {
    if spans != [] && spans[|spans| - 1].from > s.from {
      InsertKeepsAll(spans[..|spans| - 1], s);
      assert spans == spans[..|spans| - 1] + [spans[|spans| - 1]];
    }
  }

  function SortByStart(spans: seq<Span>): seq<Span> {
    if spans == [] then [] else Insert(SortByStart(spans[..|spans| - 1]), spans[|spans| - 1])
  }

  lemma {:induction false} SortSorts(spans: seq<Span>)
    ensures Sorted(SortByStart(spans)) && multiset(SortByStart(spans)) == multiset(spans)
    decreases |spans|
  {
    if spans != [] {
      var n := |spans| - 1;
      SortSorts(spans[..n]);
      var front := SortByStart(spans[..n]);
      assert spans == spans[..n] + [spans[n]];
      var last := if front == [] || front[|front| - 1].from <= spans[n].from then spans[n].from else front[|front| - 1].from;
      InsertKeepsSorted(front, spans[n], last);
      InsertKeepsAll(front, spans[n]);
    }
  }

  lemma OrderDoesNotMatter(spans: seq<Span>, sorted: seq<Span>, day: Day)
    requires multiset(spans) == multiset(sorted)
    ensures Covered(spans, day) <==> Covered(sorted, day)
  {
    if Covered(spans, day) {
      var i :| 0 <= i < |spans| && Contains(spans[i], day);
      assert spans[i] in multiset(sorted);
    }
    if Covered(sorted, day) {
      var i :| 0 <= i < |sorted| && Contains(sorted[i], day);
      assert sorted[i] in multiset(spans);
    }
  }

  predicate Relevant(s: Span, from: Day, to: Day) {
    s.to >= from && s.from <= to
  }

  /** The sweep decides exactly whether every day of a non-empty range is covered. */
  method IntervalsCover(intervals: seq<Span>, from: Day, to: Day) returns (ok: bool)
    requires forall i :: 0 <= i < |intervals| ==> intervals[i].from <= intervals[i].to
    ensures ok <==> from <= to && CoversRange(intervals, from, to)
  {
    if from > to {
      return false;
    }
    var sorted := SortByStart(intervals);
    SortSorts(intervals);
    var coveredUntil := from - 1;
    ok := false;
    var i := 0;
    while i < |sorted| && !ok
      invariant 0 <= i <= |sorted| && from - 1 <= coveredUntil
      invariant ok ==> coveredUntil >= to
      invariant !ok ==> coveredUntil < to
      invariant CoversRange(sorted, from, coveredUntil)
      invariant forall k :: 0 <= k < i && Relevant(sorted[k], from, to) ==> sorted[k].to <= coveredUntil
      decreases |sorted| - i, !ok
    {
      var s := sorted[i];
      if Relevant(s, from, to) {
        if s.from > coveredUntil + 1 {
          GapFound(sorted, i, from, to, coveredUntil + 1);
          forall d ensures Covered(intervals, d) <==> Covered(sorted, d) {
            OrderDoesNotMatter(intervals, sorted, d);
          }
          return false;
        }
        if s.to > coveredUntil {
          forall d | coveredUntil < d <= s.to ensures Covered(sorted, d) {
            assert Contains(sorted[i], d);
          }
          coveredUntil := s.to;
        }
        ok := coveredUntil >= to;
      }
      i := i + 1;
    }
    forall d ensures Covered(intervals, d) <==> Covered(sorted, d) {
      OrderDoesNotMatter(intervals, sorted, d);
    }
    if !ok {
      NothingLeft(sorted, from, to, coveredUntil + 1);
    }
  }

  lemma GapFound(sorted: seq<Span>, i: nat, from: Day, to: Day, day: Day)
    requires Sorted(sorted) && i < |sorted| && day < sorted[i].from && from <= day <= to
    requires forall k :: 0 <= k < i && Relevant(sorted[k], from, to) ==> sorted[k].to < day
    ensures !Covered(sorted, day)
  {
    forall k | 0 <= k < |sorted| ensures !Contains(sorted[k], day) {
      if k >= i {
        assert sorted[i].from <= sorted[k].from;
      }
    }
  }

  lemma NothingLeft(sorted: seq<Span>, from: Day, to: Day, day: Day)
    requires from <= day <= to
    requires forall k :: 0 <= k < |sorted| && Relevant(sorted[k], from, to) ==> sorted[k].to < day
    ensures !Covered(sorted, day)
  {
  }

  // ------------------------------------------------------- scheduled coverage

  /** One coverage row. `usable` says that it is a complete fetch of account activities from the asked source. */
  datatype Row = Row(account: nat, usable: bool, span: Span)

  function SpansOf(rows: seq<Row>, account: nat): (spans: seq<Span>)
    ensures forall i :: 0 <= i < |spans| ==> spans[i].from <= spans[i].to
    decreases |rows|
  {
    if rows == [] then []
    else
      var r := rows[|rows| - 1];
      SpansOf(rows[..|rows| - 1], account) +
        (if r.account == account && r.usable && r.span.from <= r.span.to then [r.span] else [])
  }

  predicate Qualifies(r: Row, account: nat, day: Day) {
    r.account == account && r.usable && Contains(r.span, day)
  }

  lemma {:induction false} SpansMean(rows: seq<Row>, account: nat, day: Day)
    ensures Covered(SpansOf(rows, account), day) <==> QualifiedAt(rows, account, day)
    decreases |rows|
  {
    if rows != [] {
      var n := |rows| - 1;
      SpansMean(rows[..n], account, day);
      var before, all := SpansOf(rows[..n], account), SpansOf(rows, account);
      if i :| 0 <= i < |before| && Contains(before[i], day) {
        assert all[i] == before[i];
      }
      if Qualifies(rows[n], account, day) {
        assert all[|all| - 1] == rows[n].span;
      }
      if i :| 0 <= i < n && Qualifies(rows[i], account, day) {
        assert rows[..n][i] == rows[i];
      }
    }
  }

  /** Some usable row of the account contains the day. */
  predicate QualifiedAt(rows: seq<Row>, account: nat, day: Day) {
    exists i :: 0 <= i < |rows| && Qualifies(rows[i], account, day)
  }

  /** A usable row of the account holds the day, and some span of several holds it. */
  lemma RowsInWords(rows: seq<Row>, account: nat, spans: seq<Span>, day: Day)
    ensures QualifiedAt(rows, account, day) <==>
      exists r :: r in rows && r.account == account && r.usable && r.span.from <= day && day <= r.span.to
    ensures Covered(spans, day) <==> exists s :: s in spans && s.from <= day && day <= s.to
  {
    if r :| r in rows && r.account == account && r.usable && r.span.from <= day && day <= r.span.to {
      var i :| 0 <= i < |rows| && rows[i] == r;
      assert Qualifies(rows[i], account, day);
    }
    if s :| s in spans && s.from <= day && day <= s.to {
      var i :| 0 <= i < |spans| && spans[i] == s;
      assert Contains(spans[i], day);
    }
  }

  ghost predicate AccountCovered(rows: seq<Row>, account: nat, from: Day, to: Day) {
    forall day :: from <= day <= to ==> QualifiedAt(rows, account, day)
  }

  lemma SpansDecide(rows: seq<Row>, account: nat, from: Day, to: Day)
    ensures CoversRange(SpansOf(rows, account), from, to) <==> AccountCovered(rows, account, from, to)
  {
    forall day ensures Covered(SpansOf(rows, account), day) <==> QualifiedAt(rows, account, day) {
      SpansMean(rows, account, day);
    }
  }

  /** A window needs no further fetch when there are accounts and each has every day. */
  method CompletelyCovered(accounts: seq<nat>, from: Day, to: Day, rows: seq<Row>) returns (ok: bool)
    ensures ok <==> accounts != [] && from <= to && forall a :: a in accounts ==> AccountCovered(rows, a, from, to)
  {
    for i := 0 to |accounts|
      invariant forall k :: 0 <= k < i ==> AccountCovered(rows, accounts[k], from, to)
      invariant i > 0 ==> from <= to
    {
      var spans: seq<Span> := [];
      for k := 0 to |rows|
        invariant spans == SpansOf(rows[..k], accounts[i])
      {
        assert rows[..k + 1][..k] == rows[..k];
        if rows[k].account == accounts[i] && rows[k].usable && rows[k].span.from <= rows[k].span.to {
          spans := spans + [rows[k].span];
        }
      }
      assert rows[..|rows|] == rows;
      var covered := IntervalsCover(spans, from, to);
      SpansDecide(rows, accounts[i], from, to);
      if !covered {
        assert accounts[i] in accounts;
        return false;
      }
    }
    return |accounts| > 0;
  }

  // ------------------------------------------------------------------ the walk

  datatype CoverageWindow = CoverageWindow(span: Span, complete: bool, passed: bool)
  datatype Summary = Unknown | Incomplete | Normalized | Reconciled

  predicate Usable(w: CoverageWindow, day: Day) {
    w.complete && Contains(w.span, day)
  }

  predicate UsableAt(windows: seq<CoverageWindow>, day: Day) {
    exists i :: 0 <= i < |windows| && Usable(windows[i], day)
  }

  predicate PassedAt(windows: seq<CoverageWindow>, day: Day) {
    exists i :: 0 <= i < |windows| && Usable(windows[i], day) && windows[i].passed
  }

  /** No usable window at `day` is unreconciled. */
  predicate AllPassedAt(windows: seq<CoverageWindow>, day: Day) {
    forall i :: 0 <= i < |windows| && Usable(windows[i], day) ==> windows[i].passed
  }

  /** A day is usable if a window that was fetched and normalised holds it, and passed
    through one that was also reconciled. */
  lemma WindowsInWords(windows: seq<CoverageWindow>, day: Day)
    ensures UsableAt(windows, day) <==> exists w :: w in windows && w.complete && w.span.from <= day && day <= w.span.to
    ensures PassedAt(windows, day) <==> exists w :: w in windows && w.complete && w.passed && w.span.from <= day && day <= w.span.to
    ensures AllPassedAt(windows, day) <==>
      forall w :: w in windows && w.complete && w.span.from <= day && day <= w.span.to ==> w.passed
  {
    if w :| w in windows && w.complete && w.span.from <= day && day <= w.span.to {
      var i :| 0 <= i < |windows| && windows[i] == w;
      assert Usable(windows[i], day);
    }
    if w :| w in windows && w.complete && w.passed && w.span.from <= day && day <= w.span.to {
      var i :| 0 <= i < |windows| && windows[i] == w;
      assert Usable(windows[i], day) && windows[i].passed;
    }
    if AllPassedAt(windows, day) {
      forall w | w in windows && w.complete && w.span.from <= day && day <= w.span.to ensures w.passed {
        var i :| 0 <= i < |windows| && windows[i] == w;
        assert Usable(windows[i], day);
      }
    }
  }

  /** The furthest day that a usable window at `day` reaches. */
  function Furthest(windows: seq<CoverageWindow>, day: Day): (far: Option<Day>)
    ensures far.Some? ==> day <= far.value
  {
    if windows == [] then None
    else
      var n := |windows| - 1;
      var far := Furthest(windows[..n], day);
      if Usable(windows[n], day) && (far.None? || windows[n].span.to > far.value) then Some(windows[n].span.to) else far
  }

  /** `far` is the end of a usable window at `day`, and none reaches further. */
  ghost predicate IsFurthest(windows: seq<CoverageWindow>, day: Day, far: Day) {
    && (exists i :: 0 <= i < |windows| && Usable(windows[i], day) && windows[i].span.to == far)
    && (forall i :: 0 <= i < |windows| && Usable(windows[i], day) ==> windows[i].span.to <= far)
  }

  lemma {:induction false} FurthestMeans(windows: seq<CoverageWindow>, day: Day)
    ensures Furthest(windows, day).Some? <==> UsableAt(windows, day)
    ensures Furthest(windows, day).Some? ==> IsFurthest(windows, day, Furthest(windows, day).value)
    decreases |windows|
  {
    if windows != [] {
      var n := |windows| - 1;
      FurthestMeans(windows[..n], day);
      assert forall i :: 0 <= i < n ==> windows[i] == windows[..n][i];
      if UsableAt(windows[..n], day) {
        var i :| 0 <= i < n && Usable(windows[..n][i], day) && windows[..n][i].span.to == Furthest(windows[..n], day).value;
        assert Usable(windows[i], day);
      }
    }
  }

  /** Scans all windows for the furthest reach from `day`, and whether every usable one passed. */
  method Reach(windows: seq<CoverageWindow>, day: Day) returns (far: Option<Day>, passed: bool)
    ensures far == Furthest(windows, day)
    ensures passed <==> AllPassedAt(windows, day)
  {
    far, passed := None, true;
    for i := 0 to |windows|
      invariant far == Furthest(windows[..i], day)
      invariant passed <==> forall k :: 0 <= k < i && Usable(windows[k], day) ==> windows[k].passed
    {
      assert windows[..i + 1][..i] == windows[..i];
      if Usable(windows[i], day) {
        if far.None? || windows[i].span.to > far.value {
          far := Some(windows[i].span.to);
        }
        if !windows[i].passed {
          passed := false;
        }
      }
    }
    assert windows[..|windows|] == windows;
  }

  /** The days at which a walk over the range has to change windows. */
  function Stops(windows: seq<CoverageWindow>, from: Day, to: Day): seq<Day>
    decreases (to - from)
  {
    if from > to then []
    else
      match Furthest(windows, from)
      case None => [from]
      case Some(far) => [from] + Stops(windows, far + 1, to)
  }

  ghost predicate AllUsable(windows: seq<CoverageWindow>, from: Day, to: Day) {
    forall day :: from <= day <= to ==> UsableAt(windows, day)
  }

  ghost predicate AllPassed(windows: seq<CoverageWindow>, from: Day, to: Day) {
    forall day :: from <= day <= to ==> PassedAt(windows, day)
  }

  predicate StopsPass(windows: seq<CoverageWindow>, stops: seq<Day>) {
    forall k :: 0 <= k < |stops| ==> AllPassedAt(windows, stops[k])
  }

  /** The walk over a non-empty range decides exactly whether every day is usable,
    and calls it reconciled exactly if no usable window at any of its stops is unreconciled. */
  method SummarizeCoverage(windows: seq<CoverageWindow>, from: Day, to: Day) returns (r: Summary)
    ensures r == if windows == [] then Unknown
      else if from > to || !AllUsable(windows, from, to) then Incomplete
      else if StopsPass(windows, Stops(windows, from, to)) then Reconciled
      else Normalized
  {
    if |windows| == 0 {
      return Unknown;
    }
    var cursor, reconciled := from, true;
    ghost var visited := [];
    while cursor <= to
      invariant Walked(windows, from, to, visited, cursor, reconciled)
      invariant from <= to ==> cursor <= to
    {
      var far, passed := Reach(windows, cursor);
      FurthestMeans(windows, cursor);
      if far.None? {
        return Incomplete;
      }
      if !passed {
        reconciled := false;
      }
      WalkOn(windows, from, to, visited, cursor, far.value, reconciled);
      visited := visited + [cursor];
      if far.value >= to {
        return if reconciled then Reconciled else Normalized;
      }
      cursor := far.value + 1;
    }
    return Incomplete;
  }

  /** Every day before the cursor is usable, and `visited` are the stops so far. */
  ghost predicate Walked(windows: seq<CoverageWindow>, from: Day, to: Day, visited: seq<Day>, cursor: Day, reconciled: bool) {
    && from <= cursor && AllUsable(windows, from, cursor - 1)
    && Stops(windows, from, to) == visited + Stops(windows, cursor, to)
    && (reconciled <==> StopsPass(windows, visited))
  }

  lemma WalkOn(windows: seq<CoverageWindow>, from: Day, to: Day, visited: seq<Day>, cursor: Day, far: Day, reconciled: bool)
    requires cursor <= to && Furthest(windows, cursor) == Some(far)
    requires Walked(windows, from, to, visited, cursor, StopsPass(windows, visited))
    requires reconciled <==> StopsPass(windows, visited) && AllPassedAt(windows, cursor)
    ensures Walked(windows, from, to, visited + [cursor], far + 1, reconciled) && cursor <= far
    ensures far >= to ==> Stops(windows, from, to) == visited + [cursor]
  {
    AllUsableTo(windows, cursor, far);
    AllUsableJoins(windows, from, cursor, far);
    OneMoreStop(windows, visited, cursor);
    NextStop(windows, cursor, far, to);
    Regroup(visited, cursor, Stops(windows, far + 1, to));
    assert far >= to ==> Stops(windows, far + 1, to) == [];
  }

  lemma AllUsableJoins(windows: seq<CoverageWindow>, from: Day, cursor: Day, far: Day)
    requires AllUsable(windows, from, cursor - 1) && AllUsable(windows, cursor, far)
    ensures AllUsable(windows, from, far)
  {
  }

  lemma NextStop(windows: seq<CoverageWindow>, cursor: Day, far: Day, to: Day)
    requires cursor <= to && Furthest(windows, cursor) == Some(far)
    ensures Stops(windows, cursor, to) == [cursor] + Stops(windows, far + 1, to)
  {
  }

  lemma Regroup(before: seq<Day>, day: Day, rest: seq<Day>)
    ensures before + ([day] + rest) == before + [day] + rest
    ensures rest == [] ==> before + [day] + rest == before + [day]
  {
  }

  lemma AllUsableTo(windows: seq<CoverageWindow>, day: Day, far: Day)
    requires Furthest(windows, day) == Some(far)
    ensures AllUsable(windows, day, far) && day <= far
    ensures AllPassedAt(windows, day) ==> AllPassed(windows, day, far)
  {
    FurthestMeans(windows, day);
    var i :| 0 <= i < |windows| && Usable(windows[i], day) && windows[i].span.to == far;
    assert forall d :: day <= d <= far ==> Usable(windows[i], d);
  }

  lemma OneMoreStop(windows: seq<CoverageWindow>, visited: seq<Day>, day: Day)
    ensures StopsPass(windows, visited + [day]) <==> StopsPass(windows, visited) && AllPassedAt(windows, day)
  {
    var more := visited + [day];
    assert forall k :: 0 <= k < |visited| ==> more[k] == visited[k];
    assert more[|visited|] == day;
  }

  /** Each day of a range that is called reconciled lies in a passed window. */
  lemma {:induction false} ReconciledIsPassed(windows: seq<CoverageWindow>, from: Day, to: Day)
    requires AllUsable(windows, from, to) && StopsPass(windows, Stops(windows, from, to))
    ensures AllPassed(windows, from, to)
    decreases (to - from)
  {
    if from <= to {
      assert UsableAt(windows, from);
      FurthestMeans(windows, from);
      var far := Furthest(windows, from).value;
      var stops := Stops(windows, from, to);
      AllUsableTo(windows, from, far);
      NextStop(windows, from, far, to);
      assert stops[0] == from && stops[1..] == Stops(windows, far + 1, to);
      ReconciledIsPassed(windows, far + 1, to);
    }
  }

  /** Where usable windows do not overlap, reconciled means that every day lies in a passed window. */
  lemma DisjointWindowsExactly(windows: seq<CoverageWindow>, from: Day, to: Day)
    requires AllUsable(windows, from, to)
    requires forall i, j, day :: 0 <= i < |windows| && 0 <= j < |windows| && Usable(windows[i], day) && Usable(windows[j], day) ==> i == j
    ensures StopsPass(windows, Stops(windows, from, to)) <==> AllPassed(windows, from, to)
  {
    if StopsPass(windows, Stops(windows, from, to)) {
      ReconciledIsPassed(windows, from, to);
    }
    if AllPassed(windows, from, to) {
      var stops := Stops(windows, from, to);
      forall k | 0 <= k < |stops| ensures AllPassedAt(windows, stops[k]) {
        StopsInRange(windows, from, to, k);
        assert PassedAt(windows, stops[k]);
      }
    }
  }

  lemma {:induction false} StopsInRange(windows: seq<CoverageWindow>, from: Day, to: Day, k: nat)
    requires k < |Stops(windows, from, to)|
    ensures from <= Stops(windows, from, to)[k] <= to
    ensures k > 0 ==> Furthest(windows, from).Some? && Furthest(windows, from).value < Stops(windows, from, to)[k]
    decreases (to - from)
  {
    if k > 0 {
      var far := Furthest(windows, from).value;
      NextStop(windows, from, far, to);
      AllUsableTo(windows, from, far);
      StopsInRange(windows, far + 1, to, k - 1);
    }
  }

  /** Where they do, a window that failed holds a range back although others have passed every day of it. */
  lemma OverlapHoldsBack()
    ensures var windows := [CoverageWindow(Span(1, 3), true, true), CoverageWindow(Span(1, 1), true, false)];
      AllUsable(windows, 1, 3) && AllPassed(windows, 1, 3) && !StopsPass(windows, Stops(windows, 1, 3))
  {
    var windows := [CoverageWindow(Span(1, 3), true, true), CoverageWindow(Span(1, 1), true, false)];
    forall day | 1 <= day <= 3 ensures UsableAt(windows, day) && PassedAt(windows, day) {
      assert Usable(windows[0], day);
    }
    assert Usable(windows[1], 1) && Stops(windows, 1, 3)[0] == 1;
  }

  /** No usable window contains two stops. */
  lemma {:induction false} StopsAreApart(windows: seq<CoverageWindow>, from: Day, to: Day, i: nat, j: nat, w: nat)
    requires i < j < |Stops(windows, from, to)| && w < |windows|
    ensures !(Usable(windows[w], Stops(windows, from, to)[i]) && Usable(windows[w], Stops(windows, from, to)[j]))
    decreases (to - from)
  {
    StopsInRange(windows, from, to, j);
    var far := Furthest(windows, from).value;
    if i > 0 {
      NextStop(windows, from, far, to);
      StopsAreApart(windows, far + 1, to, i - 1, j - 1, w);
    } else {
      FurthestMeans(windows, from);
    }
  }

  /** The usable windows numbered in `chosen` cover every day of the range. */
  ghost predicate ChosenCover(windows: seq<CoverageWindow>, chosen: set<nat>, from: Day, to: Day) {
    forall day :: from <= day <= to ==> ChosenAt(windows, chosen, day)
  }

  predicate ChosenAt(windows: seq<CoverageWindow>, chosen: set<nat>, day: Day) {
    exists w :: w in chosen && w < |windows| && Usable(windows[w], day)
  }

  /** The walk changes windows as rarely as possible: whatever windows cover the
    range, there are at least as many of them as there are stops. */
  lemma WalkIsShortest(windows: seq<CoverageWindow>, chosen: set<nat>, from: Day, to: Day)
    requires ChosenCover(windows, chosen, from, to)
    ensures |Stops(windows, from, to)| <= |chosen|
  {
    var picked := Picked(windows, chosen, from, to, |Stops(windows, from, to)|);
    DistinctFit(picked, chosen);
  }

  /** A different chosen window for each of the first `n` stops. */
  lemma {:induction false} Picked(windows: seq<CoverageWindow>, chosen: set<nat>, from: Day, to: Day, n: nat)
    returns (picked: seq<nat>)
    requires ChosenCover(windows, chosen, from, to) && n <= |Stops(windows, from, to)|
    ensures |picked| == n && (forall k :: 0 <= k < n ==> picked[k] in chosen && picked[k] < |windows|)
    ensures forall k :: 0 <= k < n ==> Usable(windows[picked[k]], Stops(windows, from, to)[k])
    ensures forall i, j :: 0 <= i < j < n ==> picked[i] != picked[j]
    decreases n
  {
    if n == 0 {
      picked := [];
    } else {
      picked := Picked(windows, chosen, from, to, n - 1);
      StopsInRange(windows, from, to, n - 1);
      assert ChosenAt(windows, chosen, Stops(windows, from, to)[n - 1]);
      var w :| w in chosen && w < |windows| && Usable(windows[w], Stops(windows, from, to)[n - 1]);
      forall i | 0 <= i < n - 1 ensures picked[i] != w {
        StopsAreApart(windows, from, to, i, n - 1, w);
      }
      picked := picked + [w];
    }
  }

  lemma {:induction false} DistinctFit(picked: seq<nat>, chosen: set<nat>)
    requires forall k :: 0 <= k < |picked| ==> picked[k] in chosen
    requires forall i, j :: 0 <= i < j < |picked| ==> picked[i] != picked[j]
    ensures |picked| <= |chosen|
    decreases |picked|
  {
    if picked != [] {
      var n := |picked| - 1;
      DistinctFit(picked[..n], chosen - {picked[n]});
    }
  }

  // --------------------------------------------------------------- job windows

  /** Adjacent, non-empty windows of at most a year that start at `from` and end before `end`. */
  predicate Tiles(windows: seq<Span>, from: Day, end: Day) {
    && (windows == [] ==> from == end)
    && (windows != [] ==> windows[0].from == from && windows[|windows| - 1].to + 1 == end)
    && (forall i :: 0 <= i < |windows| ==> windows[i].from <= windows[i].to < windows[i].from + 365)
    && (forall i :: 0 < i < |windows| ==> windows[i].from == windows[i - 1].to + 1)
  }

  method HistoryWindows(from: Day, to: Day) returns (windows: seq<Span>)
    ensures from <= to ==> Tiles(windows, from, to + 1)
    ensures forall i :: 0 <= i < |windows| - 1 ==> windows[i].to == windows[i].from + 364
    ensures from > to ==> windows == []
  {
    windows := [];
    if from > to {
      return;
    }
    var start := from;
    while start <= to
      invariant Tiles(windows, from, start)
      invariant forall i :: 0 <= i < |windows| ==> windows[i].to == windows[i].from + 364 || start == to + 1
      invariant forall i :: 0 <= i < |windows| - 1 ==> windows[i].to == windows[i].from + 364
      invariant start <= to + 1
    {
      var end := start + 364;
      if end > to {
        end := to;
      }
      windows := windows + [Span(start, end)];
      start := end + 1;
    }
  }

  lemma {:induction false} TilesAdvance(windows: seq<Span>, from: Day, end: Day, i: nat, j: nat)
    requires Tiles(windows, from, end) && i < j < |windows|
    ensures windows[i].to < windows[j].from
    decreases j
  {
    if i < j - 1 {
      TilesAdvance(windows, from, end, i, j - 1);
      assert windows[j - 1].from <= windows[j - 1].to;
    }
  }

  /** Each day of the range lies in exactly one window, and no other day in any. */
  lemma {:induction false} TilesPartition(windows: seq<Span>, from: Day, end: Day, day: Day)
    requires Tiles(windows, from, end)
    ensures Covered(windows, day) <==> from <= day < end
    ensures forall i, j :: 0 <= i < |windows| && 0 <= j < |windows| && Contains(windows[i], day) && Contains(windows[j], day) ==> i == j
    decreases |windows|
  {
    if windows != [] {
      var n := |windows| - 1;
      var front := windows[..n];
      assert Tiles(front, from, windows[n].from);
      TilesPartition(front, from, windows[n].from, day);
      if n > 0 {
        TilesAdvance(windows, from, end, 0, n);
      }
      if i :| 0 <= i < n && Contains(front[i], day) {
        assert Contains(windows[i], day);
      }
      if Contains(windows[n], day) {
        assert Covered(windows, day);
        assert !Covered(front, day);
      }
      forall i | 0 <= i < n && Contains(windows[i], day) ensures Contains(front[i], day) && Covered(front, day) {
        assert front[i] == windows[i];
      }
    }
  }
}

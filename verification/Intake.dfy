/** How a reported record becomes an activity that can be booked: its securities
  are resolved, its texts are made canonical and checked, and what fails the
  check is kept for review without any effect. The ledger receives the outcome
  in `Ledger.RawRecord.booked`. */
module Intake {
  import opened Activities
  import Decimal
  import DecimalArithmetic
  import Reconciliation
  import Folds

  datatype DateText = NoDate | OnDay(day: Day) | BadDate
  datatype TimeText = NoTime | AtTime(time: Occurrence) | BadTime

  /** A leg as reported: kinds and amounts are still text, and at most one amount should be given. */
  datatype ReportedLeg = ReportedLeg(
    kind: string,
    component: string,
    instrument: nat,
    external: string,
    symbol: string,
    asset: string,
    currency: string,
    quantity: string,
    cash: string,
    effective: DateText,
    settlement: DateText)

  datatype ReportedCost = ReportedCost(
    instrument: nat,
    external: string,
    currency: string,
    delta: string,
    before: string,
    after: string,
    allocation: string,
    evidence: string)

  /** `figures` are the quantity, price, multiplier, net cash and profit of a fill. */
  datatype Fill = Fill(figures: seq<string>, detail: int)

  /** A status or booking that is none of the known words is `None`. */
  datatype Report = Report(
    providerAccount: string,
    kind: string,
    status: Option<Status>,
    booking: Option<Booking>,
    trade: DateText,
    settlement: DateText,
    occurred: TimeText,
    precision: string,
    legs: seq<ReportedLeg>,
    fill: Option<Fill>,
    costs: seq<ReportedCost>,
    effects: map<string, string>,
    warnings: seq<string>,
    detail: int)

  // --------------------------------------------------------------- sequences

  /** Every element replaced, unless one of them is refused. */
  function All<T>(f: T -> Option<T>, xs: seq<T>): Option<seq<T>>
    decreases |xs|
  {
    if xs == [] then Some([])
    else
      var front, last := All(f, xs[..|xs| - 1]), f(xs[|xs| - 1]);
      if front.None? || last.None? then None else Some(front.value + [last.value])
  }

  lemma {:induction false} AllMeans<T>(f: T -> Option<T>, xs: seq<T>)
    ensures All(f, xs).Some? <==> forall i :: 0 <= i < |xs| ==> f(xs[i]).Some?
    ensures All(f, xs).Some? ==> |All(f, xs).value| == |xs|
    ensures All(f, xs).Some? ==> forall i :: 0 <= i < |xs| ==> f(xs[i]) == Some(All(f, xs).value[i])
    decreases |xs|
  {
    if xs != [] {
      AllMeans(f, xs[..|xs| - 1]);
      assert forall i :: 0 <= i < |xs| - 1 ==> xs[..|xs| - 1][i] == xs[i];
    }
  }

  /** What a stable replacement has produced it leaves alone. */
  lemma {:induction false} AllStable<T>(f: T -> Option<T>, xs: seq<T>)
    requires forall x :: f(x).Some? ==> f(f(x).value) == f(x)
    ensures All(f, xs).Some? ==> All(f, All(f, xs).value) == All(f, xs)
    decreases |xs|
  {
    if xs != [] && All(f, xs).Some? {
      var n := |xs| - 1;
      AllStable(f, xs[..n]);
      var front, last := All(f, xs[..n]).value, f(xs[n]).value;
      assert (front + [last])[..|front + [last]| - 1] == front;
    }
  }

  // -------------------------------------------------------------- validation

  predicate ValidCurrency(s: string) {
    |s| == 3 && forall i :: 0 <= i < |s| ==> 'A' <= s[i] <= 'Z'
  }

  /** A blank figure stays blank. */
  function Figure(text: string): Option<string> {
    if text == "" then Some("") else Decimal.Canonical(text)
  }

  function ValidLeg(l: ReportedLeg): Option<ReportedLeg> {
    if l.effective.BadDate? || l.settlement.BadDate? then None
    else if l.kind == "cash" then
      if !ValidCurrency(l.currency) || l.cash == "" || l.quantity != "" || Decimal.Canonical(l.cash).None? then None
      else Some(l.(cash := Decimal.Canonical(l.cash).value))
    else if l.kind == "position" then
      if (l.instrument == 0 && l.external == "" && Decimal.Trimmed(l.symbol) == "") || l.quantity == "" || l.cash != ""
        || Decimal.Canonical(l.quantity).None? then None
      else Some(l.(quantity := Decimal.Canonical(l.quantity).value))
    else None
  }

  predicate CostFits(c: ReportedCost) {
    && (c.instrument != 0 || c.external != "")
    && ValidCurrency(c.currency) && c.evidence != "" && c.allocation != ""
    && (c.delta != "" || c.before != "" || c.after != "")
  }

  function ValidCost(c: ReportedCost): Option<ReportedCost> {
    if !CostFits(c) || Figure(c.delta).None? || Figure(c.before).None? || Figure(c.after).None? then None
    else Some(c.(delta := Figure(c.delta).value, before := Figure(c.before).value, after := Figure(c.after).value))
  }

  function ValidFill(fill: Option<Fill>): Option<Option<Fill>> {
    if fill.None? then Some(None)
    else
      match All(Figure, fill.value.figures)
      case None => None
      case Some(figures) => Some(Some(fill.value.(figures := figures)))
  }

  type Addition = (string, string) -> Option<string>

  /** The sum of the cash legs in each currency, as text. */
  function SumsOf(add: Addition, legs: seq<ReportedLeg>): Option<map<string, string>>
    decreases |legs|
  {
    if legs == [] then Some(map[])
    else
      var l := legs[|legs| - 1];
      match SumsOf(add, legs[..|legs| - 1])
      case None => None
      case Some(sums) => if l.kind != "cash" then Some(sums) else WithCash(add, sums, l)
  }

  function WithCash(add: Addition, sums: map<string, string>, l: ReportedLeg): Option<map<string, string>> {
    if !ValidCurrency(l.currency) then None
    else
      match add(if l.currency in sums then sums[l.currency] else "0", l.cash)
      case None => None
      case Some(sum) => Some(sums[l.currency := sum])
  }

  function EffectsOf(legs: seq<ReportedLeg>): Option<map<string, string>> {
    SumsOf(DecimalArithmetic.Add, legs)
  }

  function PrecisionOf(a: Report): string {
    if a.precision == "" then "date" else a.precision
  }

  predicate HeaderFits(a: Report) {
    && a.kind != "" && a.providerAccount != "" && a.status.Some? && a.booking.Some?
    && !a.trade.BadDate? && !a.settlement.BadDate? && !a.occurred.BadTime?
    && PrecisionOf(a) in ["date", "second", "millisecond", "nanosecond", "unknown"]
    && !(a.status == Some(Effective) && a.legs == [] && a.costs == [])
  }

  function Validated(a: Report): Option<Report> {
    var legs, fill, costs := All(ValidLeg, a.legs), ValidFill(a.fill), All(ValidCost, a.costs);
    if !HeaderFits(a) || legs.None? || fill.None? || costs.None? then None
    else
      match EffectsOf(legs.value)
      case None => None
      case Some(effects) =>
        Some(a.(precision := PrecisionOf(a), legs := legs.value, fill := fill.value, costs := costs.value, effects := effects))
  }

  // --------------------------------------------------------------- stability

  lemma FigureStable(text: string)
    requires Figure(text).Some?
    ensures Figure(Figure(text).value) == Figure(text)
  {
    if text != "" {
      Decimal.CanonicalPreserves(text);
    }
  }

  /** A canonical text is never blank. */
  lemma CanonicalSays(text: string)
    requires Decimal.Canonical(text).Some?
    ensures Decimal.Canonical(text).value != "" && Decimal.Canonical(Decimal.Canonical(text).value) == Decimal.Canonical(text)
  {
    Decimal.CanonicalPreserves(text);
  }

  lemma LegStable(l: ReportedLeg)
    requires ValidLeg(l).Some?
    ensures ValidLeg(ValidLeg(l).value) == ValidLeg(l)
  {
    if l.kind == "cash" {
      CanonicalSays(l.cash);
    } else {
      CanonicalSays(l.quantity);
    }
  }

  lemma FigureBlank(text: string)
    requires Figure(text).Some?
    ensures Figure(text).value == "" <==> text == ""
  {
    if text != "" {
      CanonicalSays(text);
    }
  }

  lemma CostStable(c: ReportedCost)
    requires ValidCost(c).Some?
    ensures ValidCost(ValidCost(c).value) == ValidCost(c)
  {
    FigureStable(c.delta);
    FigureStable(c.before);
    FigureStable(c.after);
    FigureBlank(c.delta);
    FigureBlank(c.before);
    FigureBlank(c.after);
  }

  lemma FillStable(fill: Option<Fill>)
    requires ValidFill(fill).Some?
    ensures ValidFill(ValidFill(fill).value) == ValidFill(fill)
  {
    if fill.Some? {
      forall text | Figure(text).Some? ensures Figure(Figure(text).value) == Figure(text) {
        FigureStable(text);
      }
      AllStable(Figure, fill.value.figures);
    }
  }

  /** Checking a second time, as a review of a stored activity does, changes nothing. */
  lemma ValidationIsStable(a: Report)
    requires Validated(a).Some?
    ensures Validated(Validated(a).value) == Validated(a)
  {
    forall l | ValidLeg(l).Some? ensures ValidLeg(ValidLeg(l).value) == ValidLeg(l) {
      LegStable(l);
    }
    forall c | ValidCost(c).Some? ensures ValidCost(ValidCost(c).value) == ValidCost(c) {
      CostStable(c);
    }
    AllStable(ValidLeg, a.legs);
    AllStable(ValidCost, a.costs);
    FillStable(a.fill);
    AllMeans(ValidLeg, a.legs);
    AllMeans(ValidCost, a.costs);
  }

  // ----------------------------------------------------------------- effects

  type Reading = string -> Option<int>

  /** The scaled amount that a text denotes. */
  function AmountOf(text: string): Option<int> {
    if Decimal.Accepted(text) then Some(DecimalArithmetic.Scaled(text)) else None
  }

  predicate AddsTwo(add: Addition, read: Reading, a: string, b: string) {
    read(a).Some? && read(b).Some? ==>
      && (add(a, b).Some? <==> Reconciliation.InRange(read(a).value + read(b).value))
      && (add(a, b).Some? ==> read(add(a, b).value) == Some(read(a).value + read(b).value))
  }

  /** Adding texts adds what they denote, as long as the sum has a text. */
  ghost predicate Adds(add: Addition, read: Reading) {
    read("0") == Some(0) && forall a, b :: AddsTwo(add, read, a, b)
  }

  lemma ZeroReads()
    ensures AmountOf("0") == Some(0)
  {
    DecimalArithmetic.ZeroText();
  }

  /** The same for amounts that are read in two steps. */
  ghost predicate AddsAccepted(add: Addition, accepted: string -> bool, scaled: string --> int, a: string, b: string) {
    accepted(a) && accepted(b) ==>
      && scaled.requires(a) && scaled.requires(b)
      && (add(a, b).Some? <==> Reconciliation.InRange(scaled(a) + scaled(b)))
      && (add(a, b).Some? ==>
            accepted(add(a, b).value) && scaled.requires(add(a, b).value) && scaled(add(a, b).value) == scaled(a) + scaled(b))
  }

  ghost predicate ReadsAs(read: Reading, accepted: string -> bool, scaled: string --> int, text: string) {
    read(text) == if accepted(text) && scaled.requires(text) then Some(scaled(text)) else None
  }

  lemma AddsFrom(add: Addition, accepted: string -> bool, scaled: string --> int, read: Reading, a: string, b: string)
    requires forall text :: ReadsAs(read, accepted, scaled, text)
    requires AddsAccepted(add, accepted, scaled, a, b)
    ensures AddsTwo(add, read, a, b)
  {
    assert ReadsAs(read, accepted, scaled, a) && ReadsAs(read, accepted, scaled, b);
    if add(a, b).Some? {
      assert ReadsAs(read, accepted, scaled, add(a, b).value);
    }
  }

  lemma ScaledTextsAdd(a: string, b: string)
    ensures AddsAccepted(DecimalArithmetic.Add, Decimal.Accepted, DecimalArithmetic.Scaled, a, b)
  {
    if Decimal.Accepted(a) && Decimal.Accepted(b) {
      DecimalArithmetic.ScaledAdd(a, b);
    }
  }

  lemma AmountReads(text: string)
    ensures ReadsAs(AmountOf, Decimal.Accepted, DecimalArithmetic.Scaled, text)
  {
  }

  lemma TextsAdd()
    ensures Adds(DecimalArithmetic.Add, AmountOf)
  {
    ZeroReads();
    forall text ensures ReadsAs(AmountOf, Decimal.Accepted, DecimalArithmetic.Scaled, text) {
      AmountReads(text);
    }
    forall a, b ensures AddsTwo(DecimalArithmetic.Add, AmountOf, a, b) {
      ScaledTextsAdd(a, b);
      AddsFrom(DecimalArithmetic.Add, Decimal.Accepted, DecimalArithmetic.Scaled, AmountOf, a, b);
    }
  }

  predicate Moves(l: ReportedLeg, currency: string) {
    l.kind == "cash" && l.currency == currency
  }

  /** The amounts that the legs move in a currency, in order. */
  function CashAmounts(read: Reading, legs: seq<ReportedLeg>, currency: string): seq<int>
    decreases |legs|
  {
    if legs == [] then []
    else
      var before, l := CashAmounts(read, legs[..|legs| - 1], currency), legs[|legs| - 1];
      if Moves(l, currency) && read(l.cash).Some? then before + [read(l.cash).value] else before
  }

  predicate CashReads(read: Reading, legs: seq<ReportedLeg>) {
    forall i :: 0 <= i < |legs| && legs[i].kind == "cash" ==> ValidCurrency(legs[i].currency) && read(legs[i].cash).Some?
  }

  /** Each sum is that of the amounts, for exactly the currencies that have any. */
  ghost predicate SumsUp(read: Reading, sums: map<string, string>, legs: seq<ReportedLeg>) {
    forall c :: SumsUpIn(read, sums, CashAmounts(read, legs, c), c)
  }

  predicate SumsUpIn(read: Reading, sums: map<string, string>, amounts: seq<int>, c: string) {
    if c in sums then amounts != [] && read(sums[c]) == Some(Reconciliation.Sum(amounts)) else amounts == []
  }

  ghost predicate SumsFit(read: Reading, legs: seq<ReportedLeg>) {
    forall c :: Reconciliation.StaysInRange(0, CashAmounts(read, legs, c))
  }

  lemma RangeNext(xs: seq<int>, x: int)
    ensures Reconciliation.Sum(xs + [x]) == Reconciliation.Sum(xs) + x
    ensures Reconciliation.StaysInRange(0, xs + [x]) <==>
      Reconciliation.StaysInRange(0, xs) && Reconciliation.InRange(Reconciliation.Sum(xs) + x)
  {
    var more := xs + [x];
    assert more[..|more| - 1] == xs && more != [] && more[|more| - 1] == x;
  }

  lemma OneMoreCash(add: Addition, read: Reading, sums: map<string, string>, amounts: seq<int>, l: ReportedLeg)
    requires Adds(add, read) && ValidCurrency(l.currency) && read(l.cash).Some?
    requires SumsUpIn(read, sums, amounts, l.currency) && Reconciliation.StaysInRange(0, amounts)
    ensures WithCash(add, sums, l).Some? <==> Reconciliation.StaysInRange(0, amounts + [read(l.cash).value])
    ensures WithCash(add, sums, l).Some? ==>
      && SameElsewhere(sums, WithCash(add, sums, l).value, l.currency)
      && SumsUpIn(read, WithCash(add, sums, l).value, amounts + [read(l.cash).value], l.currency)
  {
    RangeNext(amounts, read(l.cash).value);
    var before := if l.currency in sums then sums[l.currency] else "0";
    assert AddsTwo(add, read, before, l.cash);
    assert read(before) == Some(Reconciliation.Sum(amounts));
  }

  predicate SameElsewhere(sums: map<string, string>, sums': map<string, string>, own: string) {
    sums'.Keys == sums.Keys + {own} && forall c :: c in sums && c != own ==> sums'[c] == sums[c]
  }

  /** The sums exist exactly if no running sum in any currency leaves the range of
    decimal texts, and then they are the exact sums of the legs. */
  lemma {:induction false} SumsExactly(add: Addition, read: Reading, legs: seq<ReportedLeg>)
    requires Adds(add, read) && CashReads(read, legs)
    ensures SumsOf(add, legs).Some? <==> SumsFit(read, legs)
    ensures SumsOf(add, legs).Some? ==> SumsUp(read, SumsOf(add, legs).value, legs)
    decreases |legs|
  {
    if legs != [] {
      var n := |legs| - 1;
      SumsExactly(add, read, legs[..n]);
      NextFits(read, legs, n);
      if SumsOf(add, legs[..n]).Some? {
        NextSums(add, read, legs, n, SumsOf(add, legs[..n]).value);
      }
    }
  }

  lemma NextFits(read: Reading, legs: seq<ReportedLeg>, n: nat)
    requires n + 1 == |legs| && CashReads(read, legs)
    ensures SumsFit(read, legs) <==>
      SumsFit(read, legs[..n]) && Reconciliation.StaysInRange(0, CashAmounts(read, legs, legs[n].currency))
  {
    var own := legs[n].currency;
    forall c | c != own ensures CashAmounts(read, legs, c) == CashAmounts(read, legs[..n], c) {
    }
    if SumsFit(read, legs) {
      forall c ensures Reconciliation.StaysInRange(0, CashAmounts(read, legs[..n], c)) {
        assert Reconciliation.StaysInRange(0, CashAmounts(read, legs, c));
        if Moves(legs[n], c) {
          RangeNext(CashAmounts(read, legs[..n], c), read(legs[n].cash).value);
        }
      }
    } else if SumsFit(read, legs[..n]) {
      var c :| !Reconciliation.StaysInRange(0, CashAmounts(read, legs, c));
      assert Reconciliation.StaysInRange(0, CashAmounts(read, legs[..n], c));
    }
  }

  lemma SumElsewhere(read: Reading, legs: seq<ReportedLeg>, n: nat, sums: map<string, string>, sums': map<string, string>, c: string)
    requires n + 1 == |legs| && !Moves(legs[n], c) && SumsUp(read, sums, legs[..n])
    requires (c in sums <==> c in sums') && (c in sums ==> sums'[c] == sums[c])
    ensures SumsUpIn(read, sums', CashAmounts(read, legs, c), c)
  {
    assert SumsUpIn(read, sums, CashAmounts(read, legs[..n], c), c);
  }

  lemma NextSums(add: Addition, read: Reading, legs: seq<ReportedLeg>, n: nat, sums: map<string, string>)
    requires n + 1 == |legs| && Adds(add, read) && CashReads(read, legs)
    requires SumsOf(add, legs[..n]) == Some(sums) && SumsUp(read, sums, legs[..n]) && SumsFit(read, legs[..n])
    ensures SumsOf(add, legs).Some? <==> Reconciliation.StaysInRange(0, CashAmounts(read, legs, legs[n].currency))
    ensures SumsOf(add, legs).Some? ==> SumsUp(read, SumsOf(add, legs).value, legs)
  {
    var l := legs[n];
    var amounts := CashAmounts(read, legs[..n], l.currency);
    assert SumsUpIn(read, sums, amounts, l.currency) && Reconciliation.StaysInRange(0, amounts);
    if l.kind == "cash" {
      OneMoreCash(add, read, sums, amounts, l);
    }
    if SumsOf(add, legs).Some? {
      var sums' := SumsOf(add, legs).value;
      forall c ensures SumsUpIn(read, sums', CashAmounts(read, legs, c), c) {
        if !Moves(l, c) {
          SumElsewhere(read, legs, n, sums, sums', c);
        }
      }
    }
  }

  // ------------------------------------------------------ what validation means

  predicate DatesFit(l: ReportedLeg) {
    !l.effective.BadDate? && !l.settlement.BadDate?
  }

  /** A leg moves either cash of a currency or a quantity of a security that is named somehow. */
  predicate LegFits(l: ReportedLeg) {
    DatesFit(l) &&
      ((l.kind == "cash" && ValidCurrency(l.currency) && l.quantity == "" && Decimal.Accepted(l.cash)) ||
       (l.kind == "position" && l.cash == "" && Decimal.Accepted(l.quantity) &&
        (l.instrument != 0 || l.external != "" || Decimal.Trimmed(l.symbol) != "")))
  }

  predicate FigureFits(text: string) {
    text == "" || Decimal.Accepted(text)
  }

  predicate CostFiguresFit(c: ReportedCost) {
    FigureFits(c.delta) && FigureFits(c.before) && FigureFits(c.after)
  }

  predicate FigureFitsAll(texts: seq<string>) {
    forall i :: 0 <= i < |texts| ==> FigureFits(texts[i])
  }

  predicate LegsFit(legs: seq<ReportedLeg>) {
    forall i :: 0 <= i < |legs| ==> LegFits(legs[i])
  }

  predicate CostsFit(costs: seq<ReportedCost>) {
    forall i :: 0 <= i < |costs| ==> CostFits(costs[i]) && CostFiguresFit(costs[i])
  }

  /** The texts of an activity, one by one. */
  predicate ContentFits(a: Report) {
    LegsFit(a.legs) && (a.fill.Some? ==> FigureFitsAll(a.fill.value.figures)) && CostsFit(a.costs)
  }

  /** A report must say what it is and whose, in known words, with dates and a time
    that can be read, and must have an effect if it is to take effect. */
  lemma HeaderInWords(a: Report)
    ensures HeaderFits(a) <==>
      && "" !in [a.kind, a.providerAccount]
      && a.status != None && a.booking != None
      && BadDate !in [a.trade, a.settlement] && a.occurred != BadTime
      && a.precision in ["", "date", "second", "millisecond", "nanosecond", "unknown"]
      && (a.status == Some(Effective) ==> |a.legs| + |a.costs| > 0)
    ensures Validated(a).Some? ==> Validated(a).value.precision == if a.precision == "" then "date" else a.precision
  {
  }

  lemma CostInWords(c: ReportedCost)
    ensures CostFits(c) <==>
      && !(c.instrument == 0 && c.external == "") && "" !in [c.evidence, c.allocation]
      && !(c.delta == "" && c.before == "" && c.after == "")
      && |c.currency| == 3 && forall x :: x in c.currency ==> x in "ABCDEFGHIJKLMNOPQRSTUVWXYZ"
  {
    CurrencyInWords(c.currency);
  }

  lemma CurrencyInWords(s: string)
    ensures ValidCurrency(s) <==> |s| == 3 && forall x :: x in s ==> x in "ABCDEFGHIJKLMNOPQRSTUVWXYZ"
  {
    forall x: char ensures 'A' <= x <= 'Z' <==> x in "ABCDEFGHIJKLMNOPQRSTUVWXYZ" {
      LetterInWords(x);
    }
    if forall x :: x in s ==> x in "ABCDEFGHIJKLMNOPQRSTUVWXYZ" {
      assert forall i :: 0 <= i < |s| ==> s[i] in s;
    }
  }

  lemma LetterInWords(x: char)
    ensures 'A' <= x <= 'Z' <==> x in "ABCDEFGHIJKLMNOPQRSTUVWXYZ"
  {
    var letters := "ABCDEFGHIJKLMNOPQRSTUVWXYZ";
    assert forall i :: 0 <= i < 26 ==> letters[i] == ('A' as int + i) as char;
    if 'A' <= x <= 'Z' {
      assert letters[x as int - 'A' as int] == x;
    }
  }

  lemma BlankIsNoDecimal()
    ensures !Decimal.Accepted("")
  {
  }

  lemma LegFitsExactly(l: ReportedLeg)
    ensures ValidLeg(l).Some? <==> LegFits(l)
  {
    BlankIsNoDecimal();
  }

  lemma FigureFitsExactly(text: string)
    ensures Figure(text).Some? <==> FigureFits(text)
  {
  }

  lemma CostFitsExactly(c: ReportedCost)
    ensures ValidCost(c).Some? <==> CostFits(c) && CostFiguresFit(c)
  {
    FigureFitsExactly(c.delta);
    FigureFitsExactly(c.before);
    FigureFitsExactly(c.after);
  }

  /** The same amount in canonical text. */
  predicate SameFigure(text: string, text': string) {
    text' == text == "" || (AmountOf(text).Some? && AmountOf(text') == AmountOf(text) && Decimal.Canonical(text') == Some(text'))
  }

  lemma CanonicalAmount(text: string)
    requires Decimal.Accepted(text)
    ensures SameFigure(text, Decimal.Canonical(text).value)
  {
    DecimalArithmetic.ScaledCanonical(text);
    CanonicalSays(text);
  }

  predicate SameLeg(l: ReportedLeg, l': ReportedLeg) {
    l' == l.(cash := l'.cash, quantity := l'.quantity) && SameFigure(l.cash, l'.cash) && SameFigure(l.quantity, l'.quantity)
  }

  lemma ValidLegKeeps(l: ReportedLeg)
    requires ValidLeg(l).Some?
    ensures SameLeg(l, ValidLeg(l).value)
  {
    LegFitsExactly(l);
    CanonicalAmount(if l.kind == "cash" then l.cash else l.quantity);
  }

  lemma FillFitsExactly(fill: Option<Fill>)
    ensures ValidFill(fill).Some? <==> (fill.Some? ==> FigureFitsAll(fill.value.figures))
  {
    if fill.Some? {
      AllMeans(Figure, fill.value.figures);
      forall i | 0 <= i < |fill.value.figures|
        ensures Figure(fill.value.figures[i]).Some? <==> FigureFits(fill.value.figures[i])
      {
        FigureFitsExactly(fill.value.figures[i]);
      }
    }
  }

  lemma LegsFitExactly(legs: seq<ReportedLeg>)
    ensures All(ValidLeg, legs).Some? <==> LegsFit(legs)
  {
    AllMeans(ValidLeg, legs);
    forall i | 0 <= i < |legs| ensures ValidLeg(legs[i]).Some? <==> LegFits(legs[i]) {
      LegFitsExactly(legs[i]);
    }
  }

  lemma CostsFitExactly(costs: seq<ReportedCost>)
    ensures All(ValidCost, costs).Some? <==> CostsFit(costs)
  {
    AllMeans(ValidCost, costs);
    forall i | 0 <= i < |costs| ensures ValidCost(costs[i]).Some? <==> CostFits(costs[i]) && CostFiguresFit(costs[i]) {
      CostFitsExactly(costs[i]);
    }
  }

  ghost predicate SameLegs(legs: seq<ReportedLeg>, legs': seq<ReportedLeg>) {
    |legs'| == |legs| && forall i :: 0 <= i < |legs| ==> SameLeg(legs[i], legs'[i])
  }

  lemma {:induction false} SameAmounts(legs: seq<ReportedLeg>, legs': seq<ReportedLeg>, c: string)
    requires SameLegs(legs, legs') && CashReads(AmountOf, legs)
    ensures CashAmounts(AmountOf, legs', c) == CashAmounts(AmountOf, legs, c)
    decreases |legs|
  {
    if legs != [] {
      var n := |legs| - 1;
      SameAmounts(legs[..n], legs'[..n], c);
      assert SameLeg(legs[n], legs'[n]);
    }
  }

  lemma ValidLegsKeep(legs: seq<ReportedLeg>)
    requires All(ValidLeg, legs).Some?
    ensures var legs' := All(ValidLeg, legs).value; SameLegs(legs, legs') && CashReads(AmountOf, legs) && CashReads(AmountOf, legs')
  {
    AllMeans(ValidLeg, legs);
    var legs' := All(ValidLeg, legs).value;
    forall i | 0 <= i < |legs|
      ensures SameLeg(legs[i], legs'[i]) && (legs[i].kind == "cash" ==> ValidCurrency(legs[i].currency) && AmountOf(legs[i].cash).Some?)
    {
      LegFitsExactly(legs[i]);
      ValidLegKeeps(legs[i]);
    }
    forall i | 0 <= i < |legs'| && legs'[i].kind == "cash"
      ensures ValidCurrency(legs'[i].currency) && AmountOf(legs'[i].cash).Some?
    {
      assert SameLeg(legs[i], legs'[i]);
    }
  }

  lemma EffectsOfValid(legs: seq<ReportedLeg>)
    requires All(ValidLeg, legs).Some?
    ensures var effects := EffectsOf(All(ValidLeg, legs).value);
      && (effects.Some? <==> SumsFit(AmountOf, legs))
      && (effects.Some? ==> SumsUp(AmountOf, effects.value, legs))
  {
    var legs' := All(ValidLeg, legs).value;
    ValidLegsKeep(legs);
    TextsAdd();
    SumsExactly(DecimalArithmetic.Add, AmountOf, legs');
    forall c ensures CashAmounts(AmountOf, legs', c) == CashAmounts(AmountOf, legs, c) {
      SameAmounts(legs, legs', c);
    }
    MovedAlike(legs, legs');
  }

  lemma MovedAlike(legs: seq<ReportedLeg>, legs': seq<ReportedLeg>)
    requires forall c :: CashAmounts(AmountOf, legs', c) == CashAmounts(AmountOf, legs, c)
    ensures SumsFit(AmountOf, legs') <==> SumsFit(AmountOf, legs)
    ensures forall sums :: SumsUp(AmountOf, sums, legs') ==> SumsUp(AmountOf, sums, legs)
  {
    if SumsFit(AmountOf, legs') {
      forall c ensures Reconciliation.StaysInRange(0, CashAmounts(AmountOf, legs, c)) {
        assert Reconciliation.StaysInRange(0, CashAmounts(AmountOf, legs', c));
      }
    }
    if SumsFit(AmountOf, legs) {
      forall c ensures Reconciliation.StaysInRange(0, CashAmounts(AmountOf, legs', c)) {
        assert Reconciliation.StaysInRange(0, CashAmounts(AmountOf, legs, c));
      }
    }
    forall sums | SumsUp(AmountOf, sums, legs') ensures SumsUp(AmountOf, sums, legs) {
      forall c ensures SumsUpIn(AmountOf, sums, CashAmounts(AmountOf, legs, c), c) {
        assert SumsUpIn(AmountOf, sums, CashAmounts(AmountOf, legs', c), c);
      }
    }
  }

  /** A report passes exactly if its header and each of its texts fit and no
    running cash sum leaves the range of decimal texts. */
  lemma ValidatedExactly(a: Report)
    ensures Validated(a).Some? <==> HeaderFits(a) && ContentFits(a) && SumsFit(AmountOf, a.legs)
  {
    LegsFitExactly(a.legs);
    FillFitsExactly(a.fill);
    CostsFitExactly(a.costs);
    if All(ValidLeg, a.legs).Some? {
      EffectsOfValid(a.legs);
    }
  }

  /** Validation changes no amount, and the cash effects are the exact sums of the reported legs. */
  lemma ValidatedMeans(a: Report)
    requires Validated(a).Some?
    ensures var v := Validated(a).value;
      && v == a.(precision := v.precision, legs := v.legs, fill := v.fill, costs := v.costs, effects := v.effects)
      && SameLegs(a.legs, v.legs) && SameCosts(a.costs, v.costs) && SameFill(a.fill, v.fill)
      && SumsUp(AmountOf, v.effects, a.legs)
  {
    ValidLegsKeep(a.legs);
    EffectsOfValid(a.legs);
    ValidCostsKeep(a.costs);
    ValidFillKeeps(a.fill);
  }

  predicate SameCost(c: ReportedCost, c': ReportedCost) {
    && c' == c.(delta := c'.delta, before := c'.before, after := c'.after)
    && SameFigure(c.delta, c'.delta) && SameFigure(c.before, c'.before) && SameFigure(c.after, c'.after)
  }

  ghost predicate SameCosts(costs: seq<ReportedCost>, costs': seq<ReportedCost>) {
    |costs'| == |costs| && forall i :: 0 <= i < |costs| ==> SameCost(costs[i], costs'[i])
  }

  ghost predicate SameFigures(texts: seq<string>, texts': seq<string>) {
    |texts'| == |texts| && forall i :: 0 <= i < |texts| ==> SameFigure(texts[i], texts'[i])
  }

  ghost predicate SameFill(fill: Option<Fill>, fill': Option<Fill>) {
    match fill
    case None => fill' == None
    case Some(f) => fill'.Some? && fill'.value.detail == f.detail && SameFigures(f.figures, fill'.value.figures)
  }

  lemma FigureKeeps(text: string)
    requires Figure(text).Some?
    ensures SameFigure(text, Figure(text).value)
  {
    if text != "" {
      CanonicalAmount(text);
    }
  }

  lemma ValidCostsKeep(costs: seq<ReportedCost>)
    requires All(ValidCost, costs).Some?
    ensures SameCosts(costs, All(ValidCost, costs).value)
  {
    AllMeans(ValidCost, costs);
    forall i | 0 <= i < |costs| ensures SameCost(costs[i], ValidCost(costs[i]).value) {
      FigureKeeps(costs[i].delta);
      FigureKeeps(costs[i].before);
      FigureKeeps(costs[i].after);
    }
  }

  lemma ValidFillKeeps(fill: Option<Fill>)
    requires ValidFill(fill).Some?
    ensures SameFill(fill, ValidFill(fill).value)
  {
    if fill.Some? {
      AllMeans(Figure, fill.value.figures);
      forall i | 0 <= i < |fill.value.figures| ensures SameFigure(fill.value.figures[i], Figure(fill.value.figures[i]).value) {
        FigureKeeps(fill.value.figures[i]);
      }
    }
  }

  // -------------------------------------------------------------- preparation

  type Id = n: nat | n > 0 witness 1

  datatype Security = Security(provider: Provider, external: string, asset: string, symbol: string, currency: string)

  /** The instruments that reported securities resolve to; what is missing fails to resolve. */
  type Registry = map<Security, Id>

  function SecurityOf(p: Provider, l: ReportedLeg): Security {
    Security(p, l.external, l.asset, l.symbol, l.currency)
  }

  predicate Unnamed(l: ReportedLeg) {
    l.kind == "position" && l.symbol == ""
  }

  function ResolvedLeg(p: Provider, known: Registry, l: ReportedLeg): Option<ReportedLeg> {
    if l.kind != "position" || l.symbol == "" then Some(l)
    else if SecurityOf(p, l) in known then Some(l.(instrument := known[SecurityOf(p, l)]))
    else None
  }

  function Resolving(p: Provider, known: Registry): ReportedLeg -> Option<ReportedLeg> {
    l => ResolvedLeg(p, known, l)
  }

  /** One warning for each unnamed position. */
  function UnnamedWarnings(legs: seq<ReportedLeg>): seq<string>
    decreases |legs|
  {
    if legs == [] then []
    else UnnamedWarnings(legs[..|legs| - 1]) + (if Unnamed(legs[|legs| - 1]) then ["instrument_identity_unresolved"] else [])
  }

  lemma NextWarning(legs: seq<ReportedLeg>, i: nat)
    requires i < |legs|
    ensures UnnamedWarnings(legs[..i + 1])
      == UnnamedWarnings(legs[..i]) + (if Unnamed(legs[i]) then ["instrument_identity_unresolved"] else [])
  {
    assert legs[..i + 1][..i] == legs[..i];
  }

  predicate Typed(l: ReportedLeg) {
    l.kind == "position" ==> l.instrument > 0
  }

  /** The legs that can enter the typed ledger. */
  function Kept(legs: seq<ReportedLeg>): seq<ReportedLeg>
    decreases |legs|
  {
    if legs == [] then []
    else Kept(legs[..|legs| - 1]) + (if Typed(legs[|legs| - 1]) then [legs[|legs| - 1]] else [])
  }

  /** The instrument of the first position with an external id. */
  function InstrumentOf(legs: seq<ReportedLeg>, external: string): Option<nat> {
    if legs == [] then None
    else if legs[0].kind == "position" && legs[0].external == external then Some(legs[0].instrument)
    else InstrumentOf(legs[1..], external)
  }

  function ResolvedCost(legs: seq<ReportedLeg>, c: ReportedCost): Option<ReportedCost> {
    var found := InstrumentOf(legs, c.external);
    var instrument := if found.Some? then found.value else c.instrument;
    if instrument == 0 then None else Some(c.(instrument := instrument))
  }

  function ResolvingCost(legs: seq<ReportedLeg>): ReportedCost -> Option<ReportedCost> {
    c => ResolvedCost(legs, c)
  }

  function Named(a: Report): Report {
    var missing := UnnamedWarnings(a.legs);
    if missing == [] then a else a.(status := Some(NeedsReview), warnings := a.warnings + missing)
  }

  lemma NamedIs(a: Report, b: Report)
    requires b == a.(status := b.status, warnings := a.warnings + UnnamedWarnings(a.legs), legs := b.legs)
    requires b.status == if UnnamedWarnings(a.legs) == [] then a.status else Some(NeedsReview)
    ensures b == Named(a).(legs := b.legs)
  {
  }

  function Costed(a: Report): Report {
    match All(ResolvingCost(a.legs), a.costs)
    case Some(costs) => a.(costs := costs)
    case None => a.(status := Some(NeedsReview), warnings := a.warnings + ["cost_instrument_unresolved"], costs := [])
  }

  function KnownDate(d: DateText): DateText {
    if d.BadDate? then NoDate else d
  }

  /** What is left of a report that fails validation: no effect, and a review. */
  function Emptied(a: Report): Report {
    a.(status := Some(NeedsReview), warnings := a.warnings + ["record_validation_failed"],
       legs := [], effects := map[], fill := None, costs := [],
       kind := if a.kind == "" then "unknown" else a.kind,
       booking := if a.booking.None? then Some(Provisional) else a.booking,
       trade := KnownDate(a.trade), settlement := KnownDate(a.settlement), occurred := NoTime, precision := "unknown")
  }

  /** A report with its securities and costs resolved, before the check. */
  function Prepared(a: Report, legs: seq<ReportedLeg>): Report {
    Costed(Named(a).(legs := Kept(legs)))
  }

  /** A report that passes, or else its empty remainder. */
  function Checked(a: Report): Option<Report> {
    if Validated(a).Some? then Validated(a) else Validated(Emptied(a))
  }

  datatype Taken = NotResolved | NotQuarantined | Ready(report: Report)

  /** The outcome of the preparation of a report. */
  function Take(p: Provider, known: Registry, a: Report): Taken {
    match All(Resolving(p, known), a.legs)
    case None => NotResolved
    case Some(legs) =>
      var checked := Checked(Prepared(a, legs));
      if checked.Some? then Ready(checked.value) else NotQuarantined
  }

  /** The empty remainder passes, unless the report names no account. */
  lemma QuarantineExactly(a: Report)
    ensures Validated(Emptied(a)) == if a.providerAccount != "" then Some(Emptied(a)) else None
  {
  }

  predicate Unknown(p: Provider, known: Registry, l: ReportedLeg) {
    l.kind == "position" && l.symbol != "" && SecurityOf(p, l) !in known
  }

  lemma UnresolvedExactly(p: Provider, known: Registry, legs: seq<ReportedLeg>)
    ensures All(Resolving(p, known), legs).None? <==> exists i :: 0 <= i < |legs| && Unknown(p, known, legs[i])
  {
    AllMeans(Resolving(p, known), legs);
    forall i | 0 <= i < |legs| ensures Resolving(p, known)(legs[i]).None? <==> Unknown(p, known, legs[i]) {
    }
  }

  /** No report is lost: it is refused exactly for a security that cannot be looked
    up, or for naming no account when nothing else of it can be booked. */
  lemma TakeExactly(p: Provider, known: Registry, a: Report)
    ensures Take(p, known, a).NotResolved? <==> exists i :: 0 <= i < |a.legs| && Unknown(p, known, a.legs[i])
    ensures Take(p, known, a).NotQuarantined? <==> !Take(p, known, a).NotResolved? && a.providerAccount == ""
  {
    UnresolvedExactly(p, known, a.legs);
    if All(Resolving(p, known), a.legs).Some? {
      QuarantineExactly(Prepared(a, All(Resolving(p, known), a.legs).value));
    }
  }

  lemma {:induction false} NoWarnings(legs: seq<ReportedLeg>)
    ensures UnnamedWarnings(legs) == [] <==> forall i :: 0 <= i < |legs| ==> !Unnamed(legs[i])
    decreases |legs|
  {
    if legs != [] {
      NoWarnings(legs[..|legs| - 1]);
      assert forall i :: 0 <= i < |legs| - 1 ==> legs[..|legs| - 1][i] == legs[i];
    }
  }

  predicate LegsTyped(legs: seq<ReportedLeg>) {
    forall i :: 0 <= i < |legs| ==> Typed(legs[i])
  }

  lemma FrontTyped(legs: seq<ReportedLeg>, n: nat)
    requires LegsTyped(legs) && n + 1 == |legs|
    ensures LegsTyped(legs[..n]) && Typed(legs[n]) && legs == legs[..n] + [legs[n]]
  {
  }

  lemma {:induction false} KeptAll(legs: seq<ReportedLeg>)
    requires LegsTyped(legs)
    ensures Kept(legs) == legs
    decreases |legs|
  {
    if legs != [] {
      FrontTyped(legs, |legs| - 1);
      KeptAll(legs[..|legs| - 1]);
    }
  }

  lemma {:induction false} KeptIsTyped(legs: seq<ReportedLeg>)
    ensures LegsTyped(Kept(legs))
    decreases |legs|
  {
    if legs != [] {
      KeptIsTyped(legs[..|legs| - 1]);
    }
  }

  ghost predicate AllTyped(v: Report) {
    LegsTyped(v.legs) && forall i :: 0 <= i < |v.costs| ==> v.costs[i].instrument > 0
  }

  lemma PreparedIsTyped(a: Report, legs: seq<ReportedLeg>)
    ensures AllTyped(Prepared(a, legs))
  {
    KeptIsTyped(legs);
    AllMeans(ResolvingCost(Kept(legs)), a.costs);
  }

  lemma ValidatedIsTyped(a: Report)
    requires AllTyped(a) && Validated(a).Some?
    ensures AllTyped(Validated(a).value)
  {
    var v := Validated(a).value;
    ValidatedMeans(a);
    AllMeans(ValidCost, a.costs);
    forall i | 0 <= i < |v.legs| ensures Typed(v.legs[i]) {
      assert SameLeg(a.legs[i], v.legs[i]) && Typed(a.legs[i]);
    }
    forall i | 0 <= i < |v.costs| ensures v.costs[i].instrument > 0 {
      assert ValidCost(a.costs[i]) == Some(v.costs[i]);
    }
  }

  /** Whatever is taken has every security resolved, passes the check again
    unchanged, and states as its cash effects the exact sums of its legs. */
  lemma TakenIsSound(p: Provider, known: Registry, a: Report)
    requires Take(p, known, a).Ready?
    ensures var v := Take(p, known, a).report;
      AllTyped(v) && Validated(v) == Some(v) && SumsUp(AmountOf, v.effects, v.legs)
  {
    var b := Prepared(a, All(Resolving(p, known), a.legs).value);
    var checked := if Validated(b).Some? then b else Emptied(b);
    PreparedIsTyped(a, All(Resolving(p, known), a.legs).value);
    assert AllTyped(Emptied(b));
    ValidatedIsTyped(checked);
    ValidationIsStable(checked);
    ValidatedMeans(Validated(checked).value);
  }

  /** A leg is taken with its amount, and a position with the instrument its security resolves to. */
  predicate TakenLeg(p: Provider, known: Registry, l: ReportedLeg, l': ReportedLeg) {
    && SameLeg(l.(instrument := l'.instrument), l')
    && if l.kind == "position" then SecurityOf(p, l) in known && l'.instrument == known[SecurityOf(p, l)]
       else l'.instrument == l.instrument
  }

  /** What takes effect was reported as effective and is taken whole: no leg or
    cost is dropped, no amount is changed and no warning is added. */
  lemma EffectiveIsWhole(p: Provider, known: Registry, a: Report)
    requires Take(p, known, a).Ready? && Take(p, known, a).report.status == Some(Effective)
    ensures var v := Take(p, known, a).report;
      && a.status == Some(Effective) && v.warnings == a.warnings
      && |v.legs| == |a.legs| && |v.costs| == |a.costs|
      && (forall i :: 0 <= i < |a.legs| ==> TakenLeg(p, known, a.legs[i], v.legs[i]))
  {
    var legs := All(Resolving(p, known), a.legs).value;
    var b := Prepared(a, legs);
    QuarantineExactly(b);
    assert Validated(b).Some?;
    ValidatedMeans(b);
    AllMeans(ResolvingCost(Kept(legs)), a.costs);
    NamedLegs(p, known, a.legs);
    KeptAll(legs);
    var v := Validated(b).value;
    forall i | 0 <= i < |a.legs| ensures TakenLeg(p, known, a.legs[i], v.legs[i]) {
      assert SameLeg(legs[i], v.legs[i]);
    }
  }

  /** Without a warning, every position has been looked up. */
  lemma NamedLegs(p: Provider, known: Registry, reported: seq<ReportedLeg>)
    requires All(Resolving(p, known), reported).Some? && UnnamedWarnings(reported) == []
    ensures var legs := All(Resolving(p, known), reported).value;
      && |legs| == |reported|
      && (forall i :: 0 <= i < |legs| ==>
            && Typed(legs[i]) && legs[i] == reported[i].(instrument := legs[i].instrument)
            && (if reported[i].kind == "position"
                then SecurityOf(p, reported[i]) in known && legs[i].instrument == known[SecurityOf(p, reported[i])]
                else legs[i] == reported[i]))
  {
    AllMeans(Resolving(p, known), reported);
    NoWarnings(reported);
  }

  // ------------------------------------------------------- what is taken, exactly

  /** A position that names a symbol gets the instrument of its security; every other leg stays as reported. */
  predicate LookedUp(p: Provider, known: Registry, l: ReportedLeg, l': ReportedLeg) {
    if l.kind == "position" && l.symbol != ""
    then
      var security := Security(p, l.external, l.asset, l.symbol, l.currency);
      security in known && l' == l.(instrument := known[security])
    else l' == l
  }

  /** The instrument that a cost refers to: that of the first position kept under its external id, or else its own. */
  predicate RefersTo(legs: seq<ReportedLeg>, c: ReportedCost, instrument: nat) {
    if exists l :: l in legs && l.kind == "position" && l.external == c.external
    then exists i :: 0 <= i < |legs| && IsFirstUnder(legs, c.external, i) && legs[i].instrument == instrument
    else instrument == c.instrument
  }

  predicate IsFirstUnder(legs: seq<ReportedLeg>, external: string, i: nat) {
    && i < |legs| && legs[i].kind == "position" && legs[i].external == external
    && forall k :: 0 <= k < i ==> !(legs[k].kind == "position" && legs[k].external == external)
  }

  /** `b` is the report `a` with its securities looked up in `legs`. Positions without an
    instrument are dropped; an unnamed one, or a cost of no known instrument, adds a
    warning and asks for a review, and the latter takes the costs away. */
  ghost predicate IsPreparedFrom(a: Report, legs: seq<ReportedLeg>, b: Report) {
    var unnamed := Folds.Filter((l: ReportedLeg) => l.kind == "position" && l.symbol == "", a.legs);
    var costed := forall c :: c in a.costs ==> !RefersTo(b.legs, c, 0);
    && b == a.(status := b.status, warnings := b.warnings, legs := b.legs, costs := b.costs)
    && b.legs == Folds.Filter((l: ReportedLeg) => l.kind != "position" || l.instrument > 0, legs)
    && b.warnings == a.warnings + Times(|unnamed|, "instrument_identity_unresolved")
         + (if costed then [] else ["cost_instrument_unresolved"])
    && b.status == (if unnamed == [] && costed then a.status else Some(NeedsReview))
    && (if costed
        then |b.costs| == |a.costs| && forall i :: 0 <= i < |a.costs| ==>
          b.costs[i] == a.costs[i].(instrument := b.costs[i].instrument) && RefersTo(b.legs, a.costs[i], b.costs[i].instrument)
        else b.costs == [])
  }

  function Times(n: nat, w: string): seq<string> {
    seq(n, i => w)
  }

  lemma {:induction false} WarningsAre(legs: seq<ReportedLeg>)
    ensures UnnamedWarnings(legs)
      == Times(|Folds.Filter((l: ReportedLeg) => l.kind == "position" && l.symbol == "", legs)|, "instrument_identity_unresolved")
    decreases |legs|
  {
    if legs != [] {
      WarningsAre(legs[..|legs| - 1]);
    }
  }

  lemma {:induction false} KeptIs(legs: seq<ReportedLeg>)
    ensures Kept(legs) == Folds.Filter((l: ReportedLeg) => l.kind != "position" || l.instrument > 0, legs)
    decreases |legs|
  {
    if legs != [] {
      KeptIs(legs[..|legs| - 1]);
    }
  }

  lemma {:induction false} InstrumentIs(legs: seq<ReportedLeg>, external: string) returns (i: nat)
    ensures InstrumentOf(legs, external).None? <==> !exists l :: l in legs && l.kind == "position" && l.external == external
    ensures InstrumentOf(legs, external).Some? ==> IsFirstUnder(legs, external, i) && InstrumentOf(legs, external) == Some(legs[i].instrument)
  {
    i := 0;
    if legs != [] && !(legs[0].kind == "position" && legs[0].external == external) {
      var k := InstrumentIs(legs[1..], external);
      i := k + 1;
      assert forall l :: l in legs ==> l == legs[0] || l in legs[1..];
      assert forall j :: 1 <= j < |legs| ==> legs[j] == legs[1..][j - 1];
    }
  }

  lemma ReferredIs(legs: seq<ReportedLeg>, c: ReportedCost)
    ensures var found := InstrumentOf(legs, c.external);
      forall n :: RefersTo(legs, c, n) <==> n == if found.Some? then found.value else c.instrument
  {
    var i := InstrumentIs(legs, c.external);
    assert forall j, k :: IsFirstUnder(legs, c.external, j) && IsFirstUnder(legs, c.external, k) ==> j == k;
  }

  lemma CostsAre(legs: seq<ReportedLeg>, costs: seq<ReportedCost>)
    ensures var resolved := All(ResolvingCost(legs), costs);
      && (resolved.Some? <==> forall c :: c in costs ==> !RefersTo(legs, c, 0))
      && (resolved.Some? ==> |resolved.value| == |costs| && forall i :: 0 <= i < |costs| ==>
            && resolved.value[i] == costs[i].(instrument := resolved.value[i].instrument)
            && RefersTo(legs, costs[i], resolved.value[i].instrument))
  {
    AllMeans(ResolvingCost(legs), costs);
    forall i | 0 <= i < |costs|
      ensures ResolvedCost(legs, costs[i]).None? <==> RefersTo(legs, costs[i], 0)
      ensures ResolvedCost(legs, costs[i]).Some? ==> RefersTo(legs, costs[i], ResolvedCost(legs, costs[i]).value.instrument)
    {
      ReferredIs(legs, costs[i]);
    }
    assert forall i :: 0 <= i < |costs| ==> costs[i] in costs;
  }

  lemma PreparedExactly(a: Report, legs: seq<ReportedLeg>)
    ensures IsPreparedFrom(a, legs, Prepared(a, legs))
  {
    WarningsAre(a.legs);
    KeptIs(legs);
    CostsAre(Kept(legs), a.costs);
  }

  /** What a failed check leaves of a report: who, what kind, how booked and when, as
    far as that is understood, its description and its warnings, and no effect. */
  predicate IsEmptiedFrom(a: Report, e: Report) {
    && e.providerAccount == a.providerAccount && e.detail == a.detail
    && e.kind == (if a.kind == "" then "unknown" else a.kind)
    && e.status == Some(NeedsReview) && e.booking == (if a.booking == None then Some(Provisional) else a.booking)
    && e.trade == (if a.trade == BadDate then NoDate else a.trade)
    && e.settlement == (if a.settlement == BadDate then NoDate else a.settlement)
    && e.occurred == NoTime && e.precision == "unknown"
    && e.legs == [] && e.costs == [] && e.fill == None && e.effects == map[]
    && e.warnings == a.warnings + ["record_validation_failed"]
  }

  /** What is taken of a report whose securities can be looked up: the checked report if it passes, and else its remains. */
  lemma TakenExactly(p: Provider, known: Registry, a: Report) returns (legs: seq<ReportedLeg>, b: Report)
    requires Take(p, known, a).Ready?
    ensures |legs| == |a.legs| && forall i :: 0 <= i < |legs| ==> LookedUp(p, known, a.legs[i], legs[i])
    ensures IsPreparedFrom(a, legs, b)
    ensures var v := Take(p, known, a).report;
      if HeaderFits(b) && ContentFits(b) && SumsFit(AmountOf, b.legs) then Validated(b) == Some(v) else IsEmptiedFrom(b, v)
  {
    legs := All(Resolving(p, known), a.legs).value;
    b := Prepared(a, legs);
    AllMeans(Resolving(p, known), a.legs);
    PreparedExactly(a, legs);
    ValidatedExactly(b);
    QuarantineExactly(b);
  }

  // ---------------------------------------------------------- into the ledger

  function DayOf(d: DateText): Option<Day> {
    if d.OnDay? then Some(d.day) else None
  }

  /** The amount of a text that has passed the check. */
  function Amount(text: string): int {
    if AmountOf(text).Some? then AmountOf(text).value else 0
  }

  /** A checked leg with its amount as a number. */
  function BookedLeg(l: ReportedLeg): Leg {
    Leg(if l.kind == "cash" then Cash else Position, l.component, l.instrument, l.currency,
        Amount(if l.kind == "cash" then l.cash else l.quantity), DayOf(l.effective), DayOf(l.settlement))
  }

  function BookedLegs(legs: seq<ReportedLeg>): (r: seq<Leg>)
    ensures |r| == |legs|
  {
    seq(|legs|, i requires 0 <= i < |legs| => BookedLeg(legs[i]))
  }

  lemma {:induction false} BookedAmounts(legs: seq<ReportedLeg>, c: string)
    requires CashReads(AmountOf, legs)
    ensures Reconciliation.LegDeltas(BookedLegs(legs), Reconciliation.CashUnit(c)) == CashAmounts(AmountOf, legs, c)
    decreases |legs|
  {
    if legs != [] {
      var n := |legs| - 1;
      BookedAmounts(legs[..n], c);
      assert BookedLegs(legs)[..n] == BookedLegs(legs[..n]);
    }
  }

  /** The cash effects stored with a checked activity are what its legs move in the ledger, currency by currency. */
  lemma EffectsAreBooked(a: Report, c: string)
    requires Validated(a).Some?
    ensures var v := Validated(a).value;
      var deltas := Reconciliation.LegDeltas(BookedLegs(v.legs), Reconciliation.CashUnit(c));
      if c in v.effects then AmountOf(v.effects[c]) == Some(Reconciliation.Sum(deltas)) else deltas == []
  {
    var v := Validated(a).value;
    ValidLegsKeep(a.legs);
    ValidationIsStable(a);
    ValidatedMeans(v);
    assert SumsUpIn(AmountOf, v.effects, CashAmounts(AmountOf, v.legs, c), c);
    BookedAmounts(v.legs, c);
  }

  // ----------------------------------------------------------------- in place

  /** Adds up the cash legs, currency by currency. */
  method CashEffects(add: Addition, legs: seq<ReportedLeg>) returns (r: Option<map<string, string>>)
    ensures r == SumsOf(add, legs)
  {
    var sums: map<string, string> := map[];
    for i := 0 to |legs|
      invariant SumsOf(add, legs[..i]) == Some(sums)
    {
      assert legs[..i + 1][..i] == legs[..i];
      if legs[i].kind == "cash" {
        var next := WithCash(add, sums, legs[i]);
        if next.None? {
          NoSumStays(add, legs, i + 1);
          return None;
        }
        sums := next.value;
      }
    }
    assert legs[..|legs|] == legs;
    r := Some(sums);
  }

  lemma {:induction false} NoSumStays(add: Addition, legs: seq<ReportedLeg>, n: nat)
    requires n <= |legs| && SumsOf(add, legs[..n]).None?
    ensures SumsOf(add, legs).None?
    decreases |legs| - n
  {
    if n == |legs| {
      assert legs[..n] == legs;
    } else {
      assert legs[..n + 1][..n] == legs[..n];
      NoSumStays(add, legs, n + 1);
    }
  }

  /** The first `i` of the elements `all` have been replaced in `now`. */
  ghost predicate Replacing<T>(f: T -> Option<T>, all: seq<T>, now: seq<T>, i: nat) {
    i <= |all| == |now| && (forall k :: i <= k < |all| ==> now[k] == all[k]) && All(f, all[..i]) == Some(now[..i])
  }

  lemma ReplacingStarts<T>(f: T -> Option<T>, all: seq<T>)
    ensures Replacing(f, all, all, 0)
  {
  }

  lemma AllNext<T>(f: T -> Option<T>, xs: seq<T>, i: nat)
    requires i < |xs| && All(f, xs[..i]).Some?
    ensures All(f, xs[..i + 1]) == if f(xs[i]).None? then None else Some(All(f, xs[..i]).value + [f(xs[i]).value])
  {
    assert xs[..i + 1][..i] == xs[..i];
  }

  lemma UpdatedPrefix<T>(xs: seq<T>, i: nat, x: T)
    requires i < |xs|
    ensures xs[i := x][..i + 1] == xs[..i] + [x]
  {
  }

  lemma RefusedAt<T>(f: T -> Option<T>, xs: seq<T>, i: nat)
    requires i < |xs| && f(xs[i]).None?
    ensures All(f, xs).None?
  {
    AllMeans(f, xs);
  }

  lemma ReplaceNext<T>(f: T -> Option<T>, all: seq<T>, now: seq<T>, i: nat)
    requires i < |all| && Replacing(f, all, now, i)
    ensures now[i] == all[i]
    ensures f(now[i]).None? ==> All(f, all).None?
    ensures f(now[i]).Some? ==> Replacing(f, all, now[i := f(now[i]).value], i + 1)
  {
    if f(now[i]).None? {
      RefusedAt(f, all, i);
    } else {
      AllNext(f, all, i);
      UpdatedPrefix(now, i, f(now[i]).value);
    }
  }

  lemma ReplacingEnds<T>(f: T -> Option<T>, all: seq<T>, now: seq<T>)
    requires Replacing(f, all, now, |all|)
    ensures All(f, all) == Some(now)
  {
    assert all[..|all|] == all && now[..|all|] == now;
  }

  /** The activity that one record's transaction works on. */
  class Draft {
    const providerAccount: string
    const detail: int
    var kind: string
    var status: Option<Status>
    var booking: Option<Booking>
    var trade: DateText
    var settlement: DateText
    var occurred: TimeText
    var precision: string
    var legs: seq<ReportedLeg>
    var fill: Option<Fill>
    var costs: seq<ReportedCost>
    var effects: map<string, string>
    var warnings: seq<string>

    function View(): Report
      reads this
    {
      Report(providerAccount, kind, status, booking, trade, settlement, occurred, precision,
             legs, fill, costs, effects, warnings, detail)
    }

    constructor (a: Report)
      ensures View() == a
    {
      providerAccount, detail, kind, status, booking := a.providerAccount, a.detail, a.kind, a.status, a.booking;
      trade, settlement, occurred, precision := a.trade, a.settlement, a.occurred, a.precision;
      legs, fill, costs, effects, warnings := a.legs, a.fill, a.costs, a.effects, a.warnings;
    }

    /** Makes the legs canonical one after the other, up to the first that does not fit. */
    method ValidateLegs() returns (ok: bool)
      modifies this`legs
      ensures ok <==> All(ValidLeg, old(legs)).Some?
      ensures ok ==> legs == All(ValidLeg, old(legs)).value
    {
      ghost var all := legs;
      ReplacingStarts(ValidLeg, all);
      for i := 0 to |legs|
        invariant Replacing(ValidLeg, all, legs, i)
      {
        ReplaceNext(ValidLeg, all, legs, i);
        var valid := ValidLeg(legs[i]);
        if valid.None? {
          return false;
        }
        legs := legs[i := valid.value];
      }
      ReplacingEnds(ValidLeg, all, legs);
      ok := true;
    }

    method ValidateCosts() returns (ok: bool)
      modifies this`costs
      ensures ok <==> All(ValidCost, old(costs)).Some?
      ensures ok ==> costs == All(ValidCost, old(costs)).value
    {
      ghost var all := costs;
      ReplacingStarts(ValidCost, all);
      for i := 0 to |costs|
        invariant Replacing(ValidCost, all, costs, i)
      {
        ReplaceNext(ValidCost, all, costs, i);
        var valid := ValidCost(costs[i]);
        if valid.None? {
          return false;
        }
        costs := costs[i := valid.value];
      }
      ReplacingEnds(ValidCost, all, costs);
      ok := true;
    }

    method ValidateHeader() returns (ok: bool)
      modifies this`precision
      ensures ok <==> HeaderFits(old(View()))
      ensures ok ==> precision == PrecisionOf(old(View()))
    {
      if kind == "" || providerAccount == "" || status.None? || booking.None? {
        return false;
      }
      if trade.BadDate? || settlement.BadDate? || occurred.BadTime? {
        return false;
      }
      if precision == "" {
        precision := "date";
      }
      if precision !in ["date", "second", "millisecond", "nanosecond", "unknown"] {
        return false;
      }
      ok := status != Some(Effective) || legs != [] || costs != [];
    }

    /** Checks the activity and makes its texts canonical in place; a failure may leave some of them changed. */
    method Validate() returns (ok: bool)
      modifies this`precision, this`legs, this`fill, this`costs, this`effects
      ensures ok <==> Validated(old(View())).Some?
      ensures ok ==> View() == Validated(old(View())).value
    {
      ok := ValidateHeader();
      if ok {
        ok := ValidateContent();
      }
    }

    method ValidateContent() returns (ok: bool)
      modifies this`legs, this`fill, this`costs, this`effects
      ensures var legs, fill, costs := All(ValidLeg, old(legs)), ValidFill(old(fill)), All(ValidCost, old(costs));
        if legs.None? || fill.None? || costs.None? || EffectsOf(legs.value).None? then !ok
        else ok && View() == old(View()).(legs := legs.value, fill := fill.value, costs := costs.value, effects := EffectsOf(legs.value).value)
    {
      ok := ValidateTexts();
      if ok {
        var sums := CashEffects(DecimalArithmetic.Add, legs);
        ok := sums.Some?;
        effects := if ok then sums.value else effects;
      }
    }

    method ValidateTexts() returns (ok: bool)
      modifies this`legs, this`fill, this`costs
      ensures ok <==> All(ValidLeg, old(legs)).Some? && ValidFill(old(fill)).Some? && All(ValidCost, old(costs)).Some?
      ensures ok ==> legs == All(ValidLeg, old(legs)).value
      ensures ok ==> fill == ValidFill(old(fill)).value
      ensures ok ==> costs == All(ValidCost, old(costs)).value
    {
      ok := ValidateLegs();
      if ok {
        var valid := ValidFill(fill);
        ok := valid.Some?;
        if ok {
          fill := valid.value;
          ok := ValidateCosts();
        }
      }
    }

    method DropContent()
      modifies this`status, this`warnings, this`legs, this`effects, this`fill, this`costs
      ensures status == Some(NeedsReview) && warnings == old(warnings) + ["record_validation_failed"]
      ensures legs == [] && effects == map[] && fill == None && costs == []
    {
      status, warnings := Some(NeedsReview), warnings + ["record_validation_failed"];
      legs, effects, fill, costs := [], map[], None, [];
    }

    /** Takes every effect off the activity and marks it for review. */
    method Quarantine()
      modifies this
      ensures View() == Emptied(old(View()))
    {
      DropContent();
      kind := if kind == "" then "unknown" else kind;
      booking := if booking.None? then Some(Provisional) else booking;
      trade, settlement := KnownDate(trade), KnownDate(settlement);
      occurred, precision := NoTime, "unknown";
    }

    /** Looks every named position up; an unnamed one asks for a review. */
    method ResolveLegs(p: Provider, known: Registry) returns (ok: bool)
      modifies this`legs, this`status, this`warnings
      ensures ok <==> All(Resolving(p, known), old(legs)).Some?
      ensures ok ==> legs == All(Resolving(p, known), old(legs)).value
      ensures ok ==> warnings == old(warnings) + UnnamedWarnings(old(legs))
      ensures ok ==> status == if UnnamedWarnings(old(legs)) == [] then old(status) else Some(NeedsReview)
    {
      ghost var all, f := legs, Resolving(p, known);
      ReplacingStarts(f, all);
      for i := 0 to |legs|
        invariant Replacing(f, all, legs, i)
        invariant warnings == old(warnings) + UnnamedWarnings(all[..i])
        invariant status == if UnnamedWarnings(all[..i]) == [] then old(status) else Some(NeedsReview)
      {
        ReplaceNext(f, all, legs, i);
        NextWarning(all, i);
        assert legs == legs[i := legs[i]] && f(legs[i]) == ResolvedLeg(p, known, legs[i]);
        if legs[i].kind == "position" {
          if legs[i].symbol == "" {
            status, warnings := Some(NeedsReview), warnings + ["instrument_identity_unresolved"];
          } else if SecurityOf(p, legs[i]) in known {
            legs := legs[i := legs[i].(instrument := known[SecurityOf(p, legs[i])])];
          } else {
            return false;
          }
        }
      }
      ReplacingEnds(f, all, legs);
      assert all[..|all|] == all;
      ok := true;
    }

    method KeepTypedLegs()
      modifies this`legs
      ensures legs == Kept(old(legs))
    {
      var kept: seq<ReportedLeg> := [];
      for i := 0 to |legs|
        invariant legs == old(legs) && kept == Kept(legs[..i])
      {
        assert legs[..i + 1][..i] == legs[..i];
        if legs[i].kind != "position" || legs[i].instrument > 0 {
          kept := kept + [legs[i]];
        }
      }
      assert legs[..|legs|] == legs;
      legs := kept;
    }

    method ResolveCosts()
      modifies this`costs, this`status, this`warnings
      ensures View() == Costed(old(View()))
    {
      ghost var all := costs;
      ReplacingStarts(ResolvingCost(legs), all);
      for i := 0 to |costs|
        invariant Replacing(ResolvingCost(legs), all, costs, i) && status == old(status) && warnings == old(warnings)
      {
        ReplaceNext(ResolvingCost(legs), all, costs, i);
        var resolved := ResolvedCost(legs, costs[i]);
        if resolved.None? {
          assert ResolvingCost(legs)(costs[i]).None? && All(ResolvingCost(legs), all).None?;
          status, warnings, costs := Some(NeedsReview), warnings + ["cost_instrument_unresolved"], [];
          return;
        }
        costs := costs[i := resolved.value];
      }
      ReplacingEnds(ResolvingCost(legs), all, costs);
    }

    /** Looks the securities up and drops what has none. */
    method Prepare(p: Provider, known: Registry) returns (ok: bool)
      modifies this`legs, this`costs, this`status, this`warnings
      ensures ok <==> All(Resolving(p, known), old(legs)).Some?
      ensures ok ==> View() == Prepared(old(View()), All(Resolving(p, known), old(legs)).value)
    {
      ghost var a := View();
      ok := ResolveLegs(p, known);
      if ok {
        NamedIs(a, View());
        KeepTypedLegs();
        ResolveCosts();
      }
    }

    /** Checks the activity and empties it if it fails. */
    method ValidateOrQuarantine() returns (ok: bool)
      modifies this
      ensures ok <==> Checked(old(View())).Some?
      ensures ok ==> View() == Checked(old(View())).value
    {
      ghost var a := View();
      ok := Validate();
      if !ok {
        Quarantine();
        assert View() == Emptied(a);
        ok := Validate();
      }
    }

    /** The preparation as written: look up, drop, check, and quarantine what fails. */
    method TakeIn(p: Provider, known: Registry) returns (failure: Option<Taken>)
      modifies this
      ensures Take(p, known, old(View())) == if failure.Some? then failure.value else Ready(View())
    {
      var ok := Prepare(p, known);
      if !ok { return Some(NotResolved); }
      ok := ValidateOrQuarantine();
      return if ok then None else Some(NotQuarantined);
    }
  }
}

/** Exact decimals as text: at most 20 integer and 18 fractional digits.

  Elsewhere in this project an amount is the integer that its text denotes once
  scaled by 10^18; this module is where text and number meet. */
module Decimal {
  import opened Activities

  const MAX_LENGTH := 80
  const WHOLE_DIGITS := 20
  const FRACTION_DIGITS := 18

  // ------------------------------------------------------------------- digits

  predicate IsDigit(c: char) {
    '0' <= c <= '9'
  }

  predicate AllDigits(s: string) {
    forall i :: 0 <= i < |s| ==> IsDigit(s[i])
  }

  function Digit(c: char): (d: nat)
    requires IsDigit(c)
    ensures d <= 9 && (d == 0 <==> c == '0')
  {
    c as int - '0' as int
  }

  function DigitChar(d: nat): (c: char)
    requires d <= 9
    ensures IsDigit(c) && Digit(c) == d
  {
    (d + '0' as int) as char
  }

  function Pow10(n: nat): (p: nat)
    ensures p >= 1
  {
    if n == 0 then 1 else 10 * Pow10(n - 1)
  }

  /** The number that a run of digits denotes before the point. */
  function Whole(s: string): nat
    requires AllDigits(s)
    decreases |s|
  {
    if s == "" then 0 else 10 * Whole(s[..|s| - 1]) + Digit(s[|s| - 1])
  }

  /** The number that a run of digits denotes after the point. */
  function Fraction(s: string): (x: real)
    requires AllDigits(s)
    ensures 0.0 <= x < 1.0
    decreases |s|
  {
    if s == "" then 0.0 else (Digit(s[0]) as real + Fraction(s[1..])) / 10.0
  }

  // ------------------------------------------------------------------ parsing

  /** The characters with the Unicode property White_Space. */
  predicate IsSpace(c: char) {
    var n := c as int;
    || n == 0x20 || 0x09 <= n <= 0x0d || n == 0x85 || n == 0xa0 || n == 0x1680
    || 0x2000 <= n <= 0x200a || n == 0x2028 || n == 0x2029 || n == 0x202f || n == 0x205f || n == 0x3000
  }

  lemma SpaceInWords(c: char)
    ensures IsSpace(c) <==> c as int in {
      9, 10, 11, 12, 13, 32, 0x85, 0xa0, 0x1680, 0x2000, 0x2001, 0x2002, 0x2003, 0x2004, 0x2005, 0x2006, 0x2007,
      0x2008, 0x2009, 0x200a, 0x2028, 0x2029, 0x202f, 0x205f, 0x3000}
  {
  }

  function TrimLeft(s: string, p: char -> bool): (t: string)
    ensures |t| <= |s|
    ensures t != "" ==> !p(t[0])
    decreases |s|
  {
    if s != "" && p(s[0]) then TrimLeft(s[1..], p) else s
  }

  function TrimRight(s: string, p: char -> bool): (t: string)
    ensures |t| <= |s|
    ensures t != "" ==> !p(t[|t| - 1])
    decreases |s|
  {
    if s != "" && p(s[|s| - 1]) then TrimRight(s[..|s| - 1], p) else s
  }

  function Trimmed(s: string): string {
    TrimRight(TrimLeft(s, IsSpace), IsSpace)
  }

  /** A sign, digits before the point and digits after it. */
  datatype Parts = Parts(negative: bool, whole: string, fraction: string)

  function BeforePoint(s: string): (w: string)
    ensures |w| <= |s| && w == s[..|w|] && (|w| < |s| ==> s[|w|] == '.')
    ensures '.' !in w
    decreases |s|
  {
    if s == "" || s[0] == '.' then "" else [s[0]] + BeforePoint(s[1..])
  }

  function Unsigned(s: string): string {
    if s != "" && (s[0] == '-' || s[0] == '+') then s[1..] else s
  }

  /** A second point is no digit, so it is refused with the other characters. */
  function ParseUnsigned(negative: bool, body: string): (r: Option<Parts>)
    ensures r.Some? ==> AllDigits(r.value.whole) && AllDigits(r.value.fraction)
  {
    var whole := BeforePoint(body);
    var fraction := if |whole| < |body| then body[|whole| + 1..] else "";
    if (whole == "" && fraction == "") || !AllDigits(whole) || !AllDigits(fraction) then None
    else Some(Parts(negative, whole, fraction))
  }

  function Parse(text: string): (r: Option<Parts>)
    ensures r.Some? ==> AllDigits(r.value.whole) && AllDigits(r.value.fraction)
  {
    var s := Trimmed(text);
    if s == "" || |s| > MAX_LENGTH then None else ParseUnsigned(s[0] == '-', Unsigned(s))
  }

  predicate IsZero(c: char) {
    c == '0'
  }

  function LeadingTrimmed(whole: string): string {
    if TrimLeft(whole, IsZero) == "" then "0" else TrimLeft(whole, IsZero)
  }

  function TrailingTrimmed(fraction: string): string {
    TrimRight(fraction, IsZero)
  }

  function Plain(whole: string, fraction: string): string {
    if fraction == "" then whole else whole + "." + fraction
  }

  function Printed(negative: bool, whole: string, fraction: string): string {
    var plain := Plain(whole, fraction);
    if negative && plain != "0" then "-" + plain else plain
  }

  predicate Fits(p: Parts) {
    |LeadingTrimmed(p.whole)| <= WHOLE_DIGITS && |TrailingTrimmed(p.fraction)| <= FRACTION_DIGITS
  }

  function CanonicalOf(p: Option<Parts>): Option<string> {
    if p.None? || !Fits(p.value) then None
    else Some(Printed(p.value.negative, LeadingTrimmed(p.value.whole), TrailingTrimmed(p.value.fraction)))
  }

  function Canonical(text: string): Option<string> {
    CanonicalOf(Parse(text))
  }

  predicate Accepted(text: string) {
    Canonical(text).Some?
  }

  /** What a decimal text denotes. */
  function PartsValue(p: Parts): real
    requires AllDigits(p.whole) && AllDigits(p.fraction)
  {
    var magnitude := Whole(p.whole) as real + Fraction(p.fraction);
    if p.negative then -magnitude else magnitude
  }

  function Value(text: string): real
    requires Parse(text).Some?
  {
    PartsValue(Parse(text).value)
  }

  // ---------------------------------------------------------- trimming spaces

  predicate Satisfies(s: string, p: char -> bool) {
    forall i :: 0 <= i < |s| ==> p(s[i])
  }

  lemma {:induction false} TrimLeftSkips(left: string, text: string, p: char -> bool)
    requires Satisfies(left, p)
    ensures TrimLeft(left + text, p) == TrimLeft(text, p)
    decreases |left|
  {
    if left == "" {
      assert "" + text == text;
    } else {
      assert (left + text)[1..] == left[1..] + text;
      TrimLeftSkips(left[1..], text, p);
    }
  }

  lemma {:induction false} TrimRightSkips(text: string, right: string, p: char -> bool)
    requires Satisfies(right, p)
    ensures TrimRight(text + right, p) == TrimRight(text, p)
    decreases |right|
  {
    if right == "" {
      assert text + "" == text;
    } else {
      var n := |right| - 1;
      assert (text + right)[..|text| + n] == text + right[..n];
      TrimRightSkips(text, right[..n], p);
    }
  }

  /** What is cut off on the left satisfies `p`. */
  lemma {:induction false} CutLeft(s: string, p: char -> bool) returns (left: string)
    ensures Satisfies(left, p) && s == left + TrimLeft(s, p)
    decreases |s|
  {
    left := "";
    if s != "" && p(s[0]) {
      var rest := CutLeft(s[1..], p);
      left := [s[0]] + rest;
    }
  }

  lemma {:induction false} CutRight(s: string, p: char -> bool) returns (right: string)
    ensures Satisfies(right, p) && s == TrimRight(s, p) + right
    decreases |s|
  {
    right := "";
    if s != "" && p(s[|s| - 1]) {
      var rest := CutRight(s[..|s| - 1], p);
      right := rest + [s[|s| - 1]];
    }
  }

  /** Text that starts with no space loses none on the left, whatever follows. */
  lemma TrimmedBetween(left: string, text: string, right: string)
    requires Satisfies(left, IsSpace) && Satisfies(right, IsSpace)
    requires text == "" || !IsSpace(text[0])
    ensures Trimmed(left + text + right) == TrimRight(text, IsSpace)
  {
    assert left + text + right == left + (text + right);
    TrimLeftSkips(left, text + right, IsSpace);
    if text == "" {
      assert "" + right == right && right + "" == right;
      TrimLeftSkips(right, "", IsSpace);
    } else {
      assert (text + right)[0] == text[0];
      TrimRightSkips(text, right, IsSpace);
    }
  }

  /** Space around a text makes no difference to what it denotes or whether it is accepted. */
  lemma SpaceIsIgnored(left: string, text: string, right: string)
    requires Satisfies(left, IsSpace) && Satisfies(right, IsSpace)
    ensures Parse(left + text + right) == Parse(text) && Canonical(left + text + right) == Canonical(text)
  {
    var cut := CutLeft(text, IsSpace);
    var core := TrimLeft(text, IsSpace);
    assert left + text + right == (left + cut) + core + right;
    TrimmedBetween(left + cut, core, right);
    assert text == cut + core + "";
    TrimmedBetween(cut, core, "");
  }

  /** Nothing but space is cut off, and none is left at either end. */
  lemma OnlySpaceIsCut(s: string) returns (left: string, right: string)
    ensures Satisfies(left, IsSpace) && Satisfies(right, IsSpace) && s == left + Trimmed(s) + right
    ensures Trimmed(s) != "" ==> !IsSpace(Trimmed(s)[0]) && !IsSpace(Trimmed(s)[|Trimmed(s)| - 1])
  {
    left := CutLeft(s, IsSpace);
    var core := TrimLeft(s, IsSpace);
    right := CutRight(core, IsSpace);
    assert s == left + (Trimmed(s) + right);
    assert Trimmed(s) != "" ==> core[0] == Trimmed(s)[0];
  }

  // ----------------------------------------------------------- trimming zeros

  lemma {:induction false} WholeConcat(s: string, t: string)
    requires AllDigits(s) && AllDigits(t)
    ensures AllDigits(s + t) && (Whole(s) == 0 ==> Whole(s + t) == Whole(t))
    decreases |t|
  {
    if t == "" {
      assert s + t == s;
    } else {
      var n := |t| - 1;
      assert (s + t)[..|s| + n] == s + t[..n];
      WholeConcat(s, t[..n]);
    }
  }

  lemma ZeroInFront(s: string)
    requires s != "" && s[0] == '0' && AllDigits(s)
    ensures AllDigits(s[1..]) && Whole(s) == Whole(s[1..])
  {
    ZeroIsZero();
    WholeConcat("0", s[1..]);
    assert s == "0" + s[1..];
  }

  lemma {:induction false} FrontTrimmed(s: string)
    requires AllDigits(s)
    ensures AllDigits(TrimLeft(s, IsZero)) && Whole(TrimLeft(s, IsZero)) == Whole(s)
    decreases |s|
  {
    if s != "" && s[0] == '0' {
      ZeroInFront(s);
      FrontTrimmed(s[1..]);
    }
  }

  lemma LeadingZeros(s: string)
    requires AllDigits(s)
    ensures AllDigits(LeadingTrimmed(s)) && Whole(LeadingTrimmed(s)) == Whole(s)
  {
    FrontTrimmed(s);
    ZeroIsZero();
  }

  lemma {:induction false} FractionZero(s: string)
    requires AllDigits(s)
    ensures AllDigits(s + "0") && Fraction(s + "0") == Fraction(s)
    decreases |s|
  {
    if s == "" {
      assert ("" + "0")[1..] == "";
    } else {
      FractionZero(s[1..]);
      assert (s + "0")[1..] == s[1..] + "0";
    }
  }

  lemma {:induction false} TrailingZeros(s: string)
    requires AllDigits(s)
    ensures AllDigits(TrailingTrimmed(s)) && Fraction(TrailingTrimmed(s)) == Fraction(s)
    decreases |s|
  {
    if s != "" && s[|s| - 1] == '0' {
      TrailingZeros(s[..|s| - 1]);
      FractionZero(s[..|s| - 1]);
      assert s == s[..|s| - 1] + "0";
    }
  }

  // ------------------------------------------------------------ canonical form

  /** No superfluous zero on either side. */
  predicate Minimal(whole: string, fraction: string) {
    && AllDigits(whole) && AllDigits(fraction) && whole != ""
    && (whole == "0" || whole[0] != '0')
    && (fraction == "" || fraction[|fraction| - 1] != '0')
  }

  lemma LeadingIsMinimal(whole: string)
    requires AllDigits(whole)
    ensures var w := LeadingTrimmed(whole); AllDigits(w) && w != "" && (w == "0" || w[0] != '0')
  {
    LeadingZeros(whole);
  }

  lemma TrailingIsMinimal(fraction: string)
    requires AllDigits(fraction)
    ensures var f := TrailingTrimmed(fraction); AllDigits(f) && (f == "" || f[|f| - 1] != '0')
  {
    TrailingZeros(fraction);
  }

  lemma CanonicalParts(p: Parts)
    requires AllDigits(p.whole) && AllDigits(p.fraction)
    ensures Minimal(LeadingTrimmed(p.whole), TrailingTrimmed(p.fraction))
  {
    LeadingIsMinimal(p.whole);
    TrailingIsMinimal(p.fraction);
  }

  predicate PlainText(s: string) {
    s != "" && forall i :: 0 <= i < |s| ==> IsDigit(s[i]) || s[i] == '.' || s[i] == '-'
  }

  lemma PlainIsTrimmed(s: string)
    requires PlainText(s)
    ensures Trimmed(s) == s
  {
    assert !IsSpace(s[0]) && !IsSpace(s[|s| - 1]);
  }

  lemma {:induction false} PointFound(whole: string, rest: string)
    requires AllDigits(whole) && (rest == "" || rest[0] == '.')
    ensures BeforePoint(whole + rest) == whole
    decreases |whole|
  {
    if whole != "" {
      PointFound(whole[1..], rest);
      assert (whole + rest)[1..] == whole[1..] + rest;
    } else {
      assert whole + rest == rest;
    }
  }

  lemma PlainParses(negative: bool, whole: string, fraction: string)
    requires AllDigits(whole) && AllDigits(fraction) && whole != ""
    ensures ParseUnsigned(negative, Plain(whole, fraction)) == Some(Parts(negative, whole, fraction))
  {
    if fraction == "" {
      assert whole + "" == whole;
      PointFound(whole, "");
    } else {
      assert whole + "." + fraction == whole + ("." + fraction);
      PointFound(whole, "." + fraction);
    }
  }

  lemma PlainShape(whole: string, fraction: string)
    requires AllDigits(whole) && AllDigits(fraction) && whole != ""
    ensures PlainText(Plain(whole, fraction)) && IsDigit(Plain(whole, fraction)[0])
    ensures |Plain(whole, fraction)| <= |whole| + |fraction| + 1
    ensures Plain(whole, fraction) == "0" <==> whole == "0" && fraction == ""
  {
    if fraction != "" {
      assert Plain(whole, fraction)[|whole|] == '.';
    }
  }

  predicate IsNegative(negative: bool, whole: string, fraction: string) {
    negative && !(whole == "0" && fraction == "")
  }

  lemma PlainIsParsed(s: string)
    requires PlainText(s) && |s| <= MAX_LENGTH
    ensures Parse(s) == ParseUnsigned(s[0] == '-', Unsigned(s))
  {
    PlainIsTrimmed(s);
  }

  lemma MinusRemoved(plain: string)
    requires PlainText(plain) && IsDigit(plain[0])
    ensures PlainText("-" + plain) && Unsigned("-" + plain) == plain && Unsigned(plain) == plain
  {
    assert ("-" + plain)[1..] == plain;
  }

  lemma SignedParses(plain: string)
    requires PlainText(plain) && IsDigit(plain[0]) && |plain| < MAX_LENGTH
    ensures Parse(plain) == ParseUnsigned(false, plain) && Parse("-" + plain) == ParseUnsigned(true, plain)
  {
    MinusRemoved(plain);
    PlainIsParsed(plain);
    PlainIsParsed("-" + plain);
  }

  /** Printing and parsing a canonical form are inverse. */
  lemma PrintedParses(negative: bool, whole: string, fraction: string)
    requires Minimal(whole, fraction) && |whole| <= WHOLE_DIGITS && |fraction| <= FRACTION_DIGITS
    ensures Parse(Printed(negative, whole, fraction)) == Some(Parts(IsNegative(negative, whole, fraction), whole, fraction))
  {
    PlainShape(whole, fraction);
    SignedParses(Plain(whole, fraction));
    PlainParses(IsNegative(negative, whole, fraction), whole, fraction);
  }

  lemma MinimalStays(whole: string, fraction: string)
    requires Minimal(whole, fraction)
    ensures LeadingTrimmed(whole) == whole && TrailingTrimmed(fraction) == fraction
  {
  }

  lemma ZeroIsZero()
    ensures AllDigits("0") && Whole("0") == 0 && Fraction("") == 0.0
  {
    assert "0"[..0] == "";
  }

  lemma ZeroHasNoSign(p: Parts, whole: string, fraction: string)
    requires AllDigits(p.whole) && AllDigits(p.fraction) && AllDigits(whole) && AllDigits(fraction)
    requires Whole(whole) == Whole(p.whole) && Fraction(fraction) == Fraction(p.fraction)
    ensures PartsValue(Parts(IsNegative(p.negative, whole, fraction), whole, fraction)) == PartsValue(p)
  {
    ZeroIsZero();
  }

  /** A canonical form is its own canonical form. */
  lemma CanonicalIsStable(negative: bool, whole: string, fraction: string)
    requires Minimal(whole, fraction) && |whole| <= WHOLE_DIGITS && |fraction| <= FRACTION_DIGITS
    ensures CanonicalOf(Some(Parts(IsNegative(negative, whole, fraction), whole, fraction)))
      == Some(Printed(negative, whole, fraction))
  {
    MinimalStays(whole, fraction);
    PlainShape(whole, fraction);
  }

  lemma PrintedPreserves(p: Parts, whole: string, fraction: string)
    requires AllDigits(p.whole) && AllDigits(p.fraction) && Fits(p)
    requires whole == LeadingTrimmed(p.whole) && fraction == TrailingTrimmed(p.fraction)
    ensures var c := Printed(p.negative, whole, fraction);
      && Parse(c) == Some(Parts(IsNegative(p.negative, whole, fraction), whole, fraction))
      && PartsValue(Parse(c).value) == PartsValue(p)
  {
    LeadingZeros(p.whole);
    TrailingZeros(p.fraction);
    CanonicalParts(p);
    PrintedParses(p.negative, whole, fraction);
    ZeroHasNoSign(p, whole, fraction);
  }

  /** Canonical text denotes what the input denotes, and is its own canonical text. */
  lemma CanonicalPreserves(text: string)
    requires Accepted(text)
    ensures var c := Canonical(text).value;
      Parse(c).Some? && Value(c) == Value(text) && Canonical(c) == Some(c)
  {
    var p := Parse(text).value;
    var whole, fraction := LeadingTrimmed(p.whole), TrailingTrimmed(p.fraction);
    CanonicalParts(p);
    PrintedPreserves(p, whole, fraction);
    CanonicalIsStable(p.negative, whole, fraction);
  }

  // ---------------------------------------------------------------- uniqueness

  predicate NoLeadingZero(s: string) {
    s == "" || s[0] != '0'
  }

  predicate NoTrailingZero(s: string) {
    s == "" || s[|s| - 1] != '0'
  }

  lemma {:induction false} WholeBounds(s: string)
    requires AllDigits(s)
    ensures Whole(s) < Pow10(|s|)
    ensures NoLeadingZero(s) && s != "" ==> Pow10(|s| - 1) <= Whole(s)
    decreases |s|
  {
    if s != "" {
      WholeBounds(s[..|s| - 1]);
    }
  }

  lemma {:induction false} WholeUnique(s: string, t: string)
    requires AllDigits(s) && AllDigits(t) && NoLeadingZero(s) && NoLeadingZero(t) && Whole(s) == Whole(t)
    ensures s == t
    decreases |s|
  {
    WholeBounds(s);
    WholeBounds(t);
    if s != "" && t != "" {
      var m, n := |s| - 1, |t| - 1;
      WholeUnique(s[..m], t[..n]);
      assert Digit(s[m]) == Digit(t[n]);
      assert s == s[..m] + [s[m]] && t == t[..n] + [t[n]];
    }
  }

  lemma {:induction false} FractionPositive(s: string)
    requires AllDigits(s) && NoTrailingZero(s) && s != ""
    ensures Fraction(s) > 0.0
    decreases |s|
  {
    if |s| > 1 {
      FractionPositive(s[1..]);
    }
  }

  lemma {:induction false} FractionUnique(s: string, t: string)
    requires AllDigits(s) && AllDigits(t) && NoTrailingZero(s) && NoTrailingZero(t) && Fraction(s) == Fraction(t)
    ensures s == t
    decreases |s|
  {
    if s == "" {
      if t != "" {
        FractionPositive(t);
      }
    } else if t == "" {
      FractionPositive(s);
    } else {
      assert Digit(s[0]) as real + Fraction(s[1..]) == Digit(t[0]) as real + Fraction(t[1..]);
      assert Digit(s[0]) == Digit(t[0]);
      FractionUnique(s[1..], t[1..]);
      assert s == [s[0]] + s[1..] && t == [t[0]] + t[1..];
    }
  }

  lemma SplitUnique(m: nat, x: real, n: nat, y: real)
    requires 0.0 <= x < 1.0 && 0.0 <= y < 1.0 && m as real + x == n as real + y
    ensures m == n && x == y
  {
  }

  lemma MinimalWhole(s: string, t: string)
    requires AllDigits(s) && AllDigits(t) && s != "" && t != "" && Whole(s) == Whole(t)
    requires (s == "0" || s[0] != '0') && (t == "0" || t[0] != '0')
    ensures s == t
  {
    ZeroIsZero();
    WholeBounds(s);
    WholeBounds(t);
    if s != "0" && t != "0" {
      WholeUnique(s, t);
    }
  }

  lemma CanonicalMagnitude(a: Parts, b: Parts)
    requires Minimal(a.whole, a.fraction) && Minimal(b.whole, b.fraction)
    requires Whole(a.whole) as real + Fraction(a.fraction) == Whole(b.whole) as real + Fraction(b.fraction)
    ensures a.whole == b.whole && a.fraction == b.fraction
  {
    SplitUnique(Whole(a.whole), Fraction(a.fraction), Whole(b.whole), Fraction(b.fraction));
    MinimalWhole(a.whole, b.whole);
    FractionUnique(a.fraction, b.fraction);
  }

  lemma PositiveUnlessZero(whole: string, fraction: string)
    requires Minimal(whole, fraction) && !(whole == "0" && fraction == "")
    ensures Whole(whole) as real + Fraction(fraction) > 0.0
  {
    if fraction != "" {
      FractionPositive(fraction);
    } else {
      WholeBounds(whole);
    }
  }

  /** Equal canonical forms from equal values. */
  lemma SamePartsPrint(p: Parts, q: Parts)
    requires AllDigits(p.whole) && AllDigits(p.fraction) && AllDigits(q.whole) && AllDigits(q.fraction)
    requires PartsValue(p) == PartsValue(q)
    ensures Printed(p.negative, LeadingTrimmed(p.whole), TrailingTrimmed(p.fraction))
      == Printed(q.negative, LeadingTrimmed(q.whole), TrailingTrimmed(q.fraction))
  {
    var a := Parts(p.negative, LeadingTrimmed(p.whole), TrailingTrimmed(p.fraction));
    var b := Parts(q.negative, LeadingTrimmed(q.whole), TrailingTrimmed(q.fraction));
    LeadingZeros(p.whole);
    TrailingZeros(p.fraction);
    LeadingZeros(q.whole);
    TrailingZeros(q.fraction);
    CanonicalParts(p);
    CanonicalParts(q);
    if !(a.whole == "0" && a.fraction == "") {
      PositiveUnlessZero(a.whole, a.fraction);
    }
    if !(b.whole == "0" && b.fraction == "") {
      PositiveUnlessZero(b.whole, b.fraction);
    }
    ZeroIsZero();
    CanonicalMagnitude(a, b);
  }

  /** Two accepted texts have the same canonical text exactly when they denote the same number. */
  lemma TextIsValue(a: string, b: string)
    requires Accepted(a) && Accepted(b)
    ensures Canonical(a) == Canonical(b) <==> Value(a) == Value(b)
  {
    CanonicalPreserves(a);
    CanonicalPreserves(b);
    if Value(a) == Value(b) {
      SamePartsPrint(Parse(a).value, Parse(b).value);
    }
  }

  // --------------------------------------------------------------- what fits

  predicate IsWhole(x: real) {
    x == x.Floor as real
  }

  lemma IntIsWhole(m: int, n: int)
    ensures IsWhole(m as real + n as real) && IsWhole(-(n as real))
  {
    assert m as real + n as real == (m + n) as real;
    assert -(n as real) == (-n) as real;
  }

  /** `x` is a whole multiple of 10^-k. */
  predicate IsMultiple(x: real, k: nat)
    decreases k
  {
    if k == 0 then IsWhole(x) else IsMultiple(10.0 * x, k - 1)
  }

  lemma TenTimes(n: int)
    ensures (10 * n) as real == 10.0 * (n as real)
  {
  }

  lemma FloorShift(x: real, n: int)
    ensures (n as real + x).Floor == n + x.Floor
  {
    assert (n + x.Floor) as real == n as real + x.Floor as real;
  }

  lemma {:induction false} MultipleShift(x: real, n: int, k: nat)
    ensures IsMultiple(n as real + x, k) <==> IsMultiple(x, k)
    decreases k
  {
    if k > 0 {
      MultipleShift(10.0 * x, 10 * n, k - 1);
      TenTimes(n);
    } else {
      FloorShift(x, n);
    }
  }

  lemma {:induction false} FractionFits(s: string, k: nat)
    requires AllDigits(s) && NoTrailingZero(s)
    ensures IsMultiple(Fraction(s), k) <==> |s| <= k
    decreases k
  {
    if s == "" {
      ZeroMultiple(k);
    } else if k == 0 {
      FractionPositive(s);
    } else {
      FractionFits(s[1..], k - 1);
      MultipleShift(Fraction(s[1..]), Digit(s[0]), k - 1);
      assert 10.0 * Fraction(s) == Digit(s[0]) as real + Fraction(s[1..]);
    }
  }

  lemma {:induction false} ZeroMultiple(k: nat)
    ensures IsMultiple(0.0, k)
  {
    if k > 0 {
      ZeroMultiple(k - 1);
    }
  }

  lemma {:induction false} PowGrows(m: nat, n: nat)
    requires m <= n
    ensures Pow10(m) <= Pow10(n)
    decreases n
  {
    if m < n {
      PowGrows(m, n - 1);
    }
  }

  lemma WholeFits(s: string, k: nat)
    requires AllDigits(s) && k >= 1
    ensures |LeadingTrimmed(s)| <= k <==> Whole(s) < Pow10(k)
  {
    LeadingZeros(s);
    var t := LeadingTrimmed(s);
    WholeBounds(t);
    if |t| <= k {
      PowGrows(|t|, k);
    } else {
      assert t[0] != '0';
      PowGrows(k, |t| - 1);
    }
  }

  function Magnitude(x: real): real {
    if x < 0.0 then -x else x
  }

  lemma {:induction false} MultipleNegates(x: real, k: nat)
    ensures IsMultiple(-x, k) <==> IsMultiple(x, k)
    decreases k
  {
    if k > 0 {
      MultipleNegates(10.0 * x, k - 1);
      assert 10.0 * -x == -(10.0 * x);
    } else {
      IntIsWhole(0, x.Floor);
      IntIsWhole(0, (-x).Floor);
    }
  }

  lemma BelowPower(n: nat, x: real, k: nat)
    requires 0.0 <= x < 1.0
    ensures n as real + x < Pow10(k) as real <==> n < Pow10(k)
  {
  }

  lemma FractionIsMultiple(p: Parts, f: nat)
    requires AllDigits(p.whole) && AllDigits(p.fraction)
    ensures |TrailingTrimmed(p.fraction)| <= f <==> IsMultiple(PartsValue(p), f)
  {
    var n, x := Whole(p.whole), Fraction(p.fraction);
    TrailingZeros(p.fraction);
    FractionFits(TrailingTrimmed(p.fraction), f);
    MultipleShift(x, n, f);
    MultipleNegates(n as real + x, f);
  }

  lemma WholeIsBelow(p: Parts, w: nat)
    requires AllDigits(p.whole) && AllDigits(p.fraction) && w >= 1
    ensures |LeadingTrimmed(p.whole)| <= w <==> Magnitude(PartsValue(p)) < Pow10(w) as real
  {
    WholeFits(p.whole, w);
    BelowPower(Whole(p.whole), Fraction(p.fraction), w);
  }

  lemma PartsFitExactly(p: Parts, w: nat, f: nat)
    requires AllDigits(p.whole) && AllDigits(p.fraction) && w >= 1
    ensures |LeadingTrimmed(p.whole)| <= w && |TrailingTrimmed(p.fraction)| <= f <==>
      Magnitude(PartsValue(p)) < Pow10(w) as real && IsMultiple(PartsValue(p), f)
  {
    FractionIsMultiple(p, f);
    WholeIsBelow(p, w);
  }

  /** `x` is a whole multiple of 10^-18. */
  predicate Representable(x: real) {
    IsWhole(x * 1000000000000000000.0)
  }

  lemma {:induction false} MultipleMeans(x: real, k: nat, y: real)
    requires y == x * Pow10(k) as real
    ensures IsMultiple(x, k) <==> IsWhole(y)
    decreases k
  {
    if k == 0 {
      assert x == y;
    } else {
      Regroup(x, Pow10(k - 1));
      MultipleMeans(10.0 * x, k - 1, y);
    }
  }

  lemma Regroup(x: real, p: nat)
    ensures 10.0 * x * p as real == x * (10 * p) as real
  {
    assert (10 * p) as real == 10.0 * p as real;
  }

  lemma Powers()
    ensures Pow10(FRACTION_DIGITS) == 1000000000000000000 && Pow10(WHOLE_DIGITS) == 100000000000000000000
  {
    assert Pow10(3) == 1000;
    assert Pow10(6) == 1000000;
    assert Pow10(9) == 1000000000;
    assert Pow10(12) == 1000000000000;
    assert Pow10(15) == 1000000000000000;
    assert Pow10(18) == 1000000000000000000;
  }

  lemma RepresentableMeans(x: real)
    ensures Representable(x) <==> IsMultiple(x, FRACTION_DIGITS)
  {
    Powers();
    MultipleMeans(x, FRACTION_DIGITS, x * 1000000000000000000.0);
  }

  predicate InRange(x: real) {
    Magnitude(x) < 100000000000000000000.0
  }

  /** A decimal text is accepted exactly when its value needs no more than 20 and 18 digits. */
  lemma AcceptedExactly(text: string)
    requires Parse(text).Some?
    ensures Accepted(text) <==> InRange(Value(text)) && Representable(Value(text))
  {
    PartsFitExactly(Parse(text).value, WHOLE_DIGITS, FRACTION_DIGITS);
    RepresentableMeans(Value(text));
    Powers();
  }

  // ------------------------------------------------------------------ grammar

  /** A sign or none, digits, and perhaps a point and more digits; one digit at least. */
  predicate IsDecimalText(sign: string, whole: string, point: string, fraction: string) {
    && sign in ["", "+", "-"] && point in ["", "."] && (point == "" ==> fraction == "")
    && AllDigits(whole) && AllDigits(fraction) && whole + fraction != ""
    && |sign + whole + point + fraction| <= 80
  }

  lemma SignIs(sign: string, body: string)
    requires sign in ["", "+", "-"] && body != "" && (IsDigit(body[0]) || body[0] == '.')
    ensures (sign + body)[0] == '-' <==> sign == "-"
    ensures Unsigned(sign + body) == body
  {
    if sign == "" {
      assert sign + body == body;
    } else {
      assert (sign + body)[1..] == body;
    }
  }

  lemma BodyIs(negative: bool, whole: string, point: string, fraction: string)
    requires IsDecimalText("", whole, point, fraction)
    ensures ParseUnsigned(negative, whole + point + fraction) == Some(Parts(negative, whole, fraction))
  {
    assert whole + point + fraction == whole + (point + fraction);
    PointFound(whole, point + fraction);
    if point == "." {
      assert (whole + point + fraction)[|whole| + 1..] == fraction;
    } else {
      assert whole + point + fraction == whole;
    }
  }

  /** Such a text is read as written, whatever space is around it. */
  lemma DecimalTextIsRead(left: string, sign: string, whole: string, point: string, fraction: string, right: string)
    requires Satisfies(left, IsSpace) && Satisfies(right, IsSpace) && IsDecimalText(sign, whole, point, fraction)
    ensures Parse(left + (sign + whole + point + fraction) + right) == Some(Parts(sign == "-", whole, fraction))
  {
    var body := whole + point + fraction;
    var text := sign + whole + point + fraction;
    assert text == sign + body;
    assert body[0] == if whole != "" then whole[0] else '.';
    SpaceIsIgnored(left, text, right);
    SignIs(sign, body);
    DecimalChars(sign, whole, point, fraction);
    NoSpaceIn(text);
    BodyIs(sign == "-", whole, point, fraction);
  }

  lemma DecimalChars(sign: string, whole: string, point: string, fraction: string)
    requires IsDecimalText(sign, whole, point, fraction)
    ensures var s := sign + whole + point + fraction; forall i :: 0 <= i < |s| ==> IsDigit(s[i]) || s[i] in "+-."
  {
  }

  lemma NoSpaceIn(s: string)
    requires forall i :: 0 <= i < |s| ==> IsDigit(s[i]) || s[i] in "+-."
    ensures Trimmed(s) == s
  {
    assert forall i :: 0 <= i < |s| ==> !IsSpace(s[i]);
  }

  function SignOf(s: string): string {
    if s != "" && (s[0] == '-' || s[0] == '+') then s[..1] else ""
  }

  lemma SignedIs(s: string)
    ensures s == SignOf(s) + Unsigned(s) && SignOf(s) in ["", "+", "-"]
    ensures s != "" ==> (s[0] == '-' <==> SignOf(s) == "-")
  {
    if SignOf(s) == "" {
      assert "" + s == s;
    } else {
      assert s[..1] == [s[0]];
    }
  }

  function PointOf(body: string): string {
    if |BeforePoint(body)| < |body| then "." else ""
  }

  lemma ReadBodyIs(negative: bool, body: string)
    requires ParseUnsigned(negative, body).Some?
    ensures var p := ParseUnsigned(negative, body).value;
      && p.negative == negative && body == p.whole + PointOf(body) + p.fraction
      && (PointOf(body) == "" ==> p.fraction == "") && p.whole + p.fraction != ""
  {
    var whole := BeforePoint(body);
    if |whole| < |body| {
      assert body == whole + [body[|whole|]] + body[|whole| + 1..];
    } else {
      assert body == whole && whole + "" + "" == whole;
    }
  }

  /** And nothing else is read. */
  lemma ReadIsDecimalText(text: string)
    returns (left: string, sign: string, point: string, right: string)
    requires Parse(text).Some?
    ensures var p := Parse(text).value;
      && Satisfies(left, IsSpace) && Satisfies(right, IsSpace)
      && IsDecimalText(sign, p.whole, point, p.fraction) && p.negative == (sign == "-")
      && text == left + (sign + p.whole + point + p.fraction) + right
  {
    left, right := OnlySpaceIsCut(text);
    var s, p := Trimmed(text), Parse(text).value;
    sign, point := SignOf(s), PointOf(Unsigned(s));
    SignedIs(s);
    ReadBodyIs(s[0] == '-', Unsigned(s));
    Regrouped(sign, p.whole, point, p.fraction);
    assert s == sign + p.whole + point + p.fraction;
  }

  lemma Regrouped(a: string, b: string, c: string, d: string)
    ensures a + (b + c + d) == a + b + c + d
  {
  }

  /** A number is below zero if it has a minus and a digit other than zero. */
  lemma SignOfValue(p: Parts)
    requires AllDigits(p.whole) && AllDigits(p.fraction)
    ensures PartsValue(p) < 0.0 <==> IsNegative(p.negative, LeadingTrimmed(p.whole), TrailingTrimmed(p.fraction))
  {
    var w, f := LeadingTrimmed(p.whole), TrailingTrimmed(p.fraction);
    CanonicalParts(p);
    LeadingZeros(p.whole);
    TrailingZeros(p.fraction);
    ZeroIsZero();
    if !(w == "0" && f == "") {
      PositiveUnlessZero(w, f);
    }
  }

  lemma PrintedShape(negative: bool, w: string, f: string)
    requires AllDigits(w) && AllDigits(f) && w != ""
    ensures Printed(negative, w, f) ==
      (if IsNegative(negative, w, f) then "-" else "") + w + (if f == "" then "" else ".") + f
  {
    PlainShape(w, f);
    if f == "" {
      assert w + "" + f == w && "" + w + "" + f == w && "-" + w + "" + f == "-" + w;
    } else {
      assert "" + w + "." + f == w + "." + f && "-" + w + "." + f == "-" + (w + "." + f);
    }
  }

  /** A canonical text has no sign but a minus before a number below zero, no
    superfluous zero, and a point only with digits on both sides. */
  lemma CanonicalShape(text: string)
    requires Accepted(text)
    ensures var p := Parse(text).value;
      var w, f := LeadingTrimmed(p.whole), TrailingTrimmed(p.fraction);
      && Minimal(w, f) && |w| <= 20 && |f| <= 18
      && Canonical(text).value == (if Value(text) < 0.0 then "-" else "") + w + (if f == "" then "" else ".") + f
  {
    var p := Parse(text).value;
    CanonicalParts(p);
    SignOfValue(p);
    PrintedShape(p.negative, LeadingTrimmed(p.whole), TrailingTrimmed(p.fraction));
  }
}

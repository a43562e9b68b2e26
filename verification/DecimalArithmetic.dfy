/** Exact arithmetic on decimal texts, by way of rationals and back. */
module DecimalArithmetic {
  import opened Activities
  import opened Decimal

  // ----------------------------------------------------------------- printing

  function Digits(n: nat): (s: string)
    ensures AllDigits(s) && s != "" && (s == "0" || s[0] != '0')
  {
    if n < 10 then [DigitChar(n)] else Digits(n / 10) + [DigitChar(n % 10)]
  }

  lemma {:induction false} DigitsDenote(n: nat)
    ensures Whole(Digits(n)) == n
  {
    var s := Digits(n);
    if n < 10 {
      assert s[..0] == "";
    } else {
      DigitsDenote(n / 10);
      assert s[..|s| - 1] == Digits(n / 10);
    }
  }

  /** The first `k` digits after the point. */
  function FractionDigits(x: real, k: nat): (s: string)
    requires 0.0 <= x < 1.0
    ensures |s| == k && AllDigits(s)
    decreases k
  {
    if k == 0 then ""
    else
      var d := (10.0 * x).Floor;
      [DigitChar(d)] + FractionDigits(10.0 * x - d as real, k - 1)
  }

  lemma {:induction false} FractionDigitsDenote(x: real, k: nat)
    requires 0.0 <= x < 1.0 && IsMultiple(x, k)
    ensures Fraction(FractionDigits(x, k)) == x
    decreases k
  {
    if k > 0 {
      var d := (10.0 * x).Floor;
      MultipleShift(10.0 * x - d as real, d, k - 1);
      FractionDigitsDenote(10.0 * x - d as real, k - 1);
      var s := FractionDigits(x, k);
      assert s[1..] == FractionDigits(10.0 * x - d as real, k - 1);
    }
  }

  /** A number printed with `k` digits after the point. */
  function FloatParts(r: real, k: nat): (p: Parts)
    ensures AllDigits(p.whole) && AllDigits(p.fraction) && p.whole != "" && |p.fraction| == k
  {
    var m := Magnitude(r);
    Parts(r < 0.0, Digits(m.Floor), FractionDigits(m - m.Floor as real, k))
  }

  lemma FloatPartsDenote(r: real, k: nat)
    requires IsMultiple(r, k)
    ensures PartsValue(FloatParts(r, k)) == r
  {
    var m := Magnitude(r);
    MultipleNegates(r, k);
    MultipleShift(m - m.Floor as real, m.Floor, k);
    DigitsDenote(m.Floor);
    FractionDigitsDenote(m - m.Floor as real, k);
  }

  function Text(p: Parts): string {
    (if p.negative then "-" else "") + Plain(p.whole, p.fraction)
  }

  function FloatString(r: real): string {
    Text(FloatParts(r, FRACTION_DIGITS))
  }

  lemma TextShape(p: Parts)
    requires AllDigits(p.whole) && AllDigits(p.fraction) && p.whole != ""
    ensures PlainText(Text(p)) && (Text(p)[0] == '-' <==> p.negative) && Unsigned(Text(p)) == Plain(p.whole, p.fraction)
    ensures |Text(p)| <= |p.whole| + |p.fraction| + 2
  {
    var plain := Plain(p.whole, p.fraction);
    PlainShape(p.whole, p.fraction);
    MinusRemoved(plain);
    assert "" + plain == plain;
  }

  lemma TextParses(p: Parts)
    requires AllDigits(p.whole) && AllDigits(p.fraction) && p.whole != ""
    ensures Parse(Text(p)) == if |Text(p)| <= MAX_LENGTH then Some(p) else None
  {
    TextShape(p);
    PlainIsTrimmed(Text(p));
    PlainParses(p.negative, p.whole, p.fraction);
  }

  // --------------------------------------------------------------- arithmetic

  /** The decimal text of a rational, unless it needs more digits than there are. */
  function Exact(r: real): Option<string> {
    if !Representable(r) then None else Canonical(FloatString(r))
  }

  /** Equality with a canonical text is equality of numbers. */
  predicate Denotes(text: Option<string>, r: real) {
    text.Some? && Parse(text.value).Some? && Value(text.value) == r && Canonical(text.value) == text
  }

  lemma ShortWhole(p: Parts)
    requires AllDigits(p.whole) && p.whole != "" && (p.whole == "0" || p.whole[0] != '0')
    ensures |p.whole| <= WHOLE_DIGITS <==> Whole(p.whole) < Pow10(WHOLE_DIGITS)
  {
    WholeFits(p.whole, WHOLE_DIGITS);
  }

  lemma FloatStringIsText(r: real)
    requires Representable(r)
    ensures var p := FloatParts(r, FRACTION_DIGITS);
      PartsValue(p) == r && Parse(FloatString(r)) == if |FloatString(r)| <= MAX_LENGTH then Some(p) else None
  {
    RepresentableMeans(r);
    FloatPartsDenote(r, FRACTION_DIGITS);
    TextParses(FloatParts(r, FRACTION_DIGITS));
  }

  lemma FloatStringIsShort(r: real)
    requires InRange(r)
    ensures |FloatString(r)| <= MAX_LENGTH
  {
    var p, m := FloatParts(r, FRACTION_DIGITS), Magnitude(r);
    TextShape(p);
    ShortWhole(p);
    DigitsDenote(m.Floor);
    Powers();
    BelowPower(m.Floor, m - m.Floor as real, WHOLE_DIGITS);
  }

  lemma FloatStringParses(r: real)
    requires Representable(r)
    ensures Parse(FloatString(r)).Some? ==> Value(FloatString(r)) == r
    ensures InRange(r) ==> Parse(FloatString(r)).Some?
  {
    FloatStringIsText(r);
    if InRange(r) {
      FloatStringIsShort(r);
    }
  }

  /** A rational has a decimal text exactly when 20 and 18 digits are enough, and the text denotes it. */
  lemma ExactExactly(r: real)
    ensures Exact(r).Some? <==> InRange(r) && Representable(r)
    ensures Exact(r).Some? ==> Denotes(Exact(r), r)
  {
    if Representable(r) {
      FloatStringParses(r);
      if Parse(FloatString(r)).Some? {
        AcceptedExactly(FloatString(r));
        if Accepted(FloatString(r)) {
          CanonicalPreserves(FloatString(r));
        }
      }
    }
  }

  function Add(a: string, b: string): Option<string> {
    if !Accepted(a) || !Accepted(b) then None else Exact(Value(a) + Value(b))
  }

  function Sub(a: string, b: string): Option<string> {
    if !Accepted(a) || !Accepted(b) then None else Exact(Value(a) - Value(b))
  }

  function Mul(a: string, b: string): Option<string> {
    if !Accepted(a) || !Accepted(b) then None else Exact(Value(a) * Value(b))
  }

  function Compare(a: string, b: string): Option<int> {
    if !Accepted(a) || !Accepted(b) then None
    else Some(if Value(a) < Value(b) then -1 else if Value(a) == Value(b) then 0 else 1)
  }

  function Negate(a: string): Option<string> {
    Sub("0", a)
  }

  lemma WholeSum(x: real, y: real)
    requires IsWhole(x) && IsWhole(y)
    ensures IsWhole(x + y) && IsWhole(-y)
  {
    IntIsWhole(x.Floor, y.Floor);
  }

  lemma RepresentableSum(x: real, y: real)
    requires Representable(x) && Representable(y)
    ensures Representable(x + y) && Representable(-y)
  {
    WholeSum(x * 1000000000000000000.0, y * 1000000000000000000.0);
  }

  lemma AcceptedFits(a: string)
    requires Accepted(a)
    ensures InRange(Value(a)) && Representable(Value(a))
  {
    AcceptedExactly(a);
  }

  lemma ExactSum(x: real, y: real, sum: real)
    requires Representable(x) && Representable(y) && sum == x + y
    ensures Exact(sum).Some? <==> InRange(sum)
    ensures Exact(sum).Some? ==> Denotes(Exact(sum), sum)
  {
    RepresentableSum(x, y);
    ExactExactly(sum);
  }

  lemma ExactDifference(x: real, y: real, difference: real)
    requires Representable(x) && Representable(y) && difference == x - y
    ensures Exact(difference).Some? <==> InRange(difference)
    ensures Exact(difference).Some? ==> Denotes(Exact(difference), difference)
  {
    RepresentableSum(x, y);
    ExactSum(x, -y, difference);
  }

  /** Addition is exact, and fails exactly when the magnitude reaches 10^20. */
  lemma AddExactly(a: string, b: string)
    requires Accepted(a) && Accepted(b)
    ensures Add(a, b).Some? <==> InRange(Value(a) + Value(b))
    ensures Add(a, b).Some? ==> Denotes(Add(a, b), Value(a) + Value(b))
  {
    AcceptedFits(a);
    AcceptedFits(b);
    ExactSum(Value(a), Value(b), Value(a) + Value(b));
  }

  /** Subtraction is exact, and fails exactly when the magnitude reaches 10^20. */
  lemma SubExactly(a: string, b: string)
    requires Accepted(a) && Accepted(b)
    ensures Sub(a, b).Some? <==> InRange(Value(a) - Value(b))
    ensures Sub(a, b).Some? ==> Denotes(Sub(a, b), Value(a) - Value(b))
  {
    AcceptedFits(a);
    AcceptedFits(b);
    ExactDifference(Value(a), Value(b), Value(a) - Value(b));
  }

  /** Multiplication is exact, and fails also when 18 fractional digits are not enough. */
  lemma MulExactly(a: string, b: string)
    requires Accepted(a) && Accepted(b)
    ensures Mul(a, b).Some? <==> InRange(Value(a) * Value(b)) && Representable(Value(a) * Value(b))
    ensures Mul(a, b).Some? ==> Denotes(Mul(a, b), Value(a) * Value(b))
  {
    ExactExactly(Value(a) * Value(b));
  }

  /** Comparison is a total order on numbers: zero exactly for equal canonical
    text, and negated when the arguments are exchanged. */
  lemma CompareIsOrder(a: string, b: string)
    requires Accepted(a) && Accepted(b)
    ensures Compare(a, b).Some? && Compare(b, a) == Some(-Compare(a, b).value)
    ensures Compare(a, b) == Some(0) <==> Canonical(a) == Canonical(b)
  {
    TextIsValue(a, b);
  }

  lemma ZeroText()
    ensures Accepted("0") && Value("0") == 0.0
  {
    ZeroIsZero();
    PrintedParses(false, "0", "");
  }

  /** Negation never fails and undoes itself. */
  lemma NegateTwice(a: string)
    requires Accepted(a)
    ensures Negate(a).Some? && Denotes(Negate(a), -Value(a))
    ensures Negate(Negate(a).value) == Canonical(a)
  {
    ZeroText();
    SubExactly("0", a);
    AcceptedExactly(a);
    var n := Negate(a).value;
    SubExactly("0", n);
    AcceptedExactly(n);
    CanonicalPreserves(a);
    TextIsValue(Negate(n).value, a);
  }

  /** What was added can be taken away again. */
  lemma AddThenSub(a: string, b: string)
    requires Accepted(a) && Accepted(b) && Add(a, b).Some?
    ensures Sub(Add(a, b).value, b) == Canonical(a)
  {
    AddExactly(a, b);
    var c := Add(a, b).value;
    SubExactly(c, b);
    AcceptedExactly(a);
    TextIsValue(Sub(c, b).value, a);
  }

  // ------------------------------------------------------------ scaled integers

  /** An accepted text as the whole number of its smallest units. */
  function Scaled(a: string): int
    requires Accepted(a)
  {
    (Value(a) * 1000000000000000000.0).Floor
  }

  predicate ScaledInRange(n: int) {
    -100000000000000000000000000000000000000 < n < 100000000000000000000000000000000000000
  }

  lemma ScaleBack(a: string)
    requires Accepted(a)
    ensures Scaled(a) as real == Value(a) * 1000000000000000000.0
  {
    AcceptedFits(a);
  }

  lemma ScaledRange(x: real, n: int)
    requires n as real == x * 1000000000000000000.0
    ensures InRange(x) <==> ScaledInRange(n)
  {
  }

  lemma ScaledOf(a: string, n: int)
    requires Accepted(a) && n as real == Value(a) * 1000000000000000000.0
    ensures Scaled(a) == n
  {
  }

  lemma ScaledCanonical(a: string)
    requires Accepted(a)
    ensures var c := Canonical(a).value; Accepted(c) && Scaled(c) == Scaled(a)
  {
    CanonicalPreserves(a);
  }

  /** Adding texts is adding scaled integers, within the range that texts have. */
  lemma ScaledAdd(a: string, b: string)
    requires Accepted(a) && Accepted(b)
    ensures Add(a, b).Some? <==> ScaledInRange(Scaled(a) + Scaled(b))
    ensures Add(a, b).Some? ==> Accepted(Add(a, b).value) && Scaled(Add(a, b).value) == Scaled(a) + Scaled(b)
  {
    AddExactly(a, b);
    ScaleBack(a);
    ScaleBack(b);
    ScaledRange(Value(a) + Value(b), Scaled(a) + Scaled(b));
    if Add(a, b).Some? {
      ScaledOf(Add(a, b).value, Scaled(a) + Scaled(b));
    }
  }

  // ------------------------------------------------------------- the parser

  method CheckDigits(s: string) returns (ok: bool)
    ensures ok == AllDigits(s)
  {
    for i := 0 to |s|
      invariant AllDigits(s[..i])
    {
      if s[i] < '0' || s[i] > '9' {
        return false;
      }
    }
    assert s[..|s|] == s;
    return true;
  }

  method TrimLeadingZeros(whole: string) returns (w: string)
    ensures w == LeadingTrimmed(whole)
  {
    w := whole;
    while w != "" && w[0] == '0'
      invariant TrimLeft(w, IsZero) == TrimLeft(whole, IsZero)
      decreases |w|
    {
      w := w[1..];
    }
    if w == "" {
      w := "0";
    }
  }

  method TrimTrailingZeros(fraction: string) returns (f: string)
    ensures f == TrailingTrimmed(fraction)
  {
    f := fraction;
    while f != "" && f[|f| - 1] == '0'
      invariant TrimRight(f, IsZero) == TrimRight(fraction, IsZero)
      decreases |f|
    {
      f := f[..|f| - 1];
    }
  }

  /** Checks, trims and prints the digits on either side of the point. */
  method PrintDigits(negative: bool, digits: string, decimals: string) returns (r: Option<string>)
    ensures r == if AllDigits(digits) && AllDigits(decimals) then CanonicalOf(Some(Parts(negative, digits, decimals))) else None
  {
    var wholeOk := CheckDigits(digits);
    var fractionOk := CheckDigits(decimals);
    if !wholeOk || !fractionOk {
      return None;
    }
    var whole := TrimLeadingZeros(digits);
    var fraction := TrimTrailingZeros(decimals);
    if |whole| > WHOLE_DIGITS || |fraction| > FRACTION_DIGITS {
      return None;
    }
    var out := whole;
    if fraction != "" {
      out := out + "." + fraction;
    }
    if negative && out != "0" {
      out := "-" + out;
    }
    return Some(out);
  }

  method SplitAndPrint(negative: bool, body: string) returns (r: Option<string>)
    ensures r == CanonicalOf(ParseUnsigned(negative, body))
  {
    var whole, fraction := BeforePoint(body), "";
    if |whole| < |body| {
      fraction := body[|whole| + 1..];
    }
    if whole == "" && fraction == "" {
      return None;
    }
    r := PrintDigits(negative, whole, fraction);
  }

  /** The parser as written: cut the sign, split at the point, check, trim and print. */
  method CanonicalDecimal(text: string) returns (r: Option<string>)
    ensures r == Canonical(text)
  {
    var s := Trimmed(text);
    if s == "" || |s| > MAX_LENGTH {
      return None;
    }
    var negative := s[0] == '-';
    if s[0] == '-' || s[0] == '+' {
      s := s[1..];
    }
    r := SplitAndPrint(negative, s);
  }
}

/**
 * The confidence the Shell and Web plugins read from a classifier reply: the first match of
 * the regex `\d+\.\d+`, compared exactly against a threshold given in hundredths.
 */
module Confidence {
  import opened Wrappers
  import opened TextUtil

  /** A numeral `\d+\.\d+`, kept as its integer and fractional digit strings. */
  datatype Decimal = Decimal(whole: string, frac: string)

  predicate AllDigits(s: string) {
    forall i :: 0 <= i < |s| ==> IsDigit(s[i])
  }

  predicate WellFormed(d: Decimal) {
    |d.whole| > 0 && |d.frac| > 0 && AllDigits(d.whole) && AllDigits(d.frac)
  }

  /** The float `0.00` returned when the reply holds no numeral. */
  const Zero := Decimal("0", "00")
  /** The float `1.0` returned by the trigger-phrase check of ImageGen. */
  const One := Decimal("1", "0")

  function DigitValue(c: char): nat {
    if IsDigit(c) then c as int - '0' as int else 0
  }

  /** The number a digit string denotes. */
  function DigitsValue(ds: string): nat
    decreases |ds|
  {
    if |ds| == 0 then 0 else DigitsValue(ds[..|ds| - 1]) * 10 + DigitValue(ds[|ds| - 1])
  }

  function Pow10(n: nat): (p: nat)
    ensures p > 0
  {
    if n == 0 then 1 else 10 * Pow10(n - 1)
  }

  /** The exact value of `d` is at least `hundredths / 100`. */
  predicate AtLeast(d: Decimal, hundredths: nat) {
    100 * (DigitsValue(d.whole) * Pow10(|d.frac|) + DigitsValue(d.frac)) >= hundredths * Pow10(|d.frac|)
  }

  /** Length of the run of ASCII digits that starts at `i`. */
  function DigitRun(s: string, i: nat): (n: nat)
    requires i <= |s|
    ensures i + n <= |s|
    ensures forall j :: i <= j < i + n ==> IsDigit(s[j])
    ensures i + n == |s| || !IsDigit(s[i + n])
    decreases |s| - i
  {
    if i < |s| && IsDigit(s[i]) then 1 + DigitRun(s, i + 1) else 0
  }

  /**
   * The match of `\d+\.\d+` that starts at index `i`, if there is one. Backtracking `\d+` to a
   * shorter run would leave a digit where the dot must be, so only the maximal run of digits
   * can be followed by the dot; the fractional part is the maximal run after it.
   */
  function NumeralAt(s: string, i: nat): (r: Option<Decimal>)
    requires i <= |s|
    ensures r.Some? ==> WellFormed(r.value)
  {
    var w := DigitRun(s, i);
    if w == 0 || i + w >= |s| || s[i + w] != '.' then None
    else
      var f := DigitRun(s, i + w + 1);
      if f == 0 then None else Some(Decimal(s[i..i + w], s[i + w + 1..i + w + 1 + f]))
  }

  /** The leftmost start index at or after `from` where the numeral regex matches. */
  function FirstNumeralFrom(s: string, from: nat): (r: Option<nat>)
    requires from <= |s|
    ensures r.Some? ==> from <= r.value <= |s| && NumeralAt(s, r.value).Some?
    ensures r.Some? ==> forall j :: from <= j < r.value ==> NumeralAt(s, j).None?
    ensures r.None? ==> forall j :: from <= j <= |s| ==> NumeralAt(s, j).None?
    decreases |s| - from
  {
    if NumeralAt(s, from).Some? then Some(from)
    else if from == |s| then None
    else FirstNumeralFrom(s, from + 1)
  }

  /** `re.search(r"\d+\.\d+", s)`: the leftmost numeral of `s`, if any. */
  function FirstNumeral(s: string): (r: Option<Decimal>)
    ensures r.Some? ==> WellFormed(r.value)
    ensures r.Some? ==> exists i :: 0 <= i <= |s| && NumeralAt(s, i) == r &&
                                    forall j :: 0 <= j < i ==> NumeralAt(s, j).None?
    ensures r.None? <==> forall i :: 0 <= i <= |s| ==> NumeralAt(s, i).None?
  {
    match FirstNumeralFrom(s, 0)
    case None => None
    case Some(i) =>
      assert forall j :: 0 <= j < i ==> NumeralAt(s, j).None?;
      NumeralAt(s, i)
  }

  /** The `(accept, confidence)` pair a threshold check returns. */
  datatype Decision = Decision(accept: bool, confidence: Decimal)

  /**
   * The threshold check after the classifier has replied: no numeral gives `(False, 0.00)`,
   * otherwise the numeral is the confidence and it accepts iff the value reaches the threshold.
   */
  function Decide(reply: string, hundredths: nat): (d: Decision)
    ensures d.accept ==> FirstNumeral(reply).Some? && AtLeast(FirstNumeral(reply).value, hundredths)
    ensures FirstNumeral(reply).Some? ==> (d.accept <==> AtLeast(FirstNumeral(reply).value, hundredths))
    ensures FirstNumeral(reply).None? ==> d == Decision(false, Zero)
    ensures FirstNumeral(reply).Some? ==> d.confidence == FirstNumeral(reply).value
  {
    match FirstNumeral(reply)
    case None => Decision(false, Zero)
    case Some(n) => Decision(AtLeast(n, hundredths), n)
  }

  lemma MulMonotone(a: nat, b: nat, c: nat)
    requires a <= b
    ensures a * c <= b * c
  {
  }

  /** A reply accepted at a higher threshold is accepted at every lower one (Shell's 0.60 vs Web's 0.50). */
  lemma LowerThresholdAccepts(reply: string, low: nat, high: nat)
    requires low <= high && Decide(reply, high).accept
    ensures Decide(reply, low).accept
  {
    var n := FirstNumeral(reply).value;
    MulMonotone(low, high, Pow10(|n.frac|));
  }

  /** A reply reading `0.75` is accepted at the 0.60 threshold with exactly that confidence. */
  lemma DecideAcceptsExample()
    ensures Decide("0.75", 60) == Decision(true, Decimal("0", "75"))
  {
    var a := "0.75";
    assert DigitRun(a, 1) == 0 && DigitRun(a, 0) == 1;
    assert DigitRun(a, 4) == 0 && DigitRun(a, 3) == 1 && DigitRun(a, 2) == 2;
    assert a[0..1] == "0" && a[2..4] == "75";
    assert NumeralAt(a, 0) == Some(Decimal("0", "75"));
    assert DigitsValue("75") == 75;
  }

  /** A reply reading `0.59` falls short of 0.60 but reaches 0.50. */
  lemma DecideThresholdExample()
    ensures Decide("0.59", 60) == Decision(false, Decimal("0", "59"))
    ensures Decide("0.59", 50).accept
  {
    var b := "0.59";
    assert DigitRun(b, 1) == 0 && DigitRun(b, 0) == 1;
    assert DigitRun(b, 4) == 0 && DigitRun(b, 3) == 1 && DigitRun(b, 2) == 2;
    assert b[0..1] == "0" && b[2..4] == "59";
    assert NumeralAt(b, 0) == Some(Decimal("0", "59"));
    assert DigitsValue("59") == 59;
  }

  /** A reply without `digits.digits` is refused with confidence `0.00`. */
  lemma DecideRefusesExample()
    ensures Decide("ok", 50) == Decision(false, Zero)
  {
    var c := "ok";
    assert DigitRun(c, 0) == 0 && DigitRun(c, 1) == 0 && DigitRun(c, 2) == 0;
    assert FirstNumeralFrom(c, 2).None?;
    assert FirstNumeralFrom(c, 0).None?;
  }
}

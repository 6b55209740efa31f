/** JavaScript's reading of a string as a number, as the organizer's event
    form uses it: the implicit `Number(s)` conversion behind `s < 0`, and
    `parseInt(s)`. `None` stands for NaN. Only decimal numerals are read:
    an optional sign, digits, an optional fraction. */
module JsNumbers {
  import opened Common
  import opened JsStrings

  predicate IsDigit(c: char)
  {
    '0' <= c <= '9'
  }

  /** Every character of `t` from `lo` up to `hi` is a digit. */
  predicate DigitsIn(t: string, lo: nat, hi: nat)
    requires lo <= hi <= |t|
  {
    forall i :: lo <= i < hi ==> IsDigit(t[i])
  }

  function DigitValue(c: char): (v: nat)
    requires IsDigit(c)
    ensures v <= 9
  {
    (c as int - '0' as int) as nat
  }

  /** Where the run of digits that starts at `i` ends. */
  function DigitEnd(t: string, i: nat): (j: nat)
    requires i <= |t|
    ensures i <= j <= |t| && DigitsIn(t, i, j)
    ensures j < |t| ==> !IsDigit(t[j])
    decreases |t| - i
  {
    if i < |t| && IsDigit(t[i]) then DigitEnd(t, i + 1) else i
  }

  /** The value of the digits from `lo` up to `hi`, most significant first. */
  function WholeValue(t: string, lo: nat, hi: nat): nat
    requires lo <= hi <= |t| && DigitsIn(t, lo, hi)
    decreases hi - lo
  {
    if lo == hi then 0 else WholeValue(t, lo, hi - 1) * 10 + DigitValue(t[hi - 1])
  }

  /** The value of the digits from `lo` up to `hi` read after a decimal
      point: "25" is 0.25. */
  function FractionValue(t: string, lo: nat, hi: nat): real
    requires lo <= hi <= |t| && DigitsIn(t, lo, hi)
    decreases hi - lo
  {
    if lo == hi then 0.0 else (DigitValue(t[lo]) as real + FractionValue(t, lo + 1, hi)) / 10.0
  }

  /** A fraction written in digits lies in [0, 1). */
  lemma {:induction false} FractionBounds(t: string, lo: nat, hi: nat)
    requires lo <= hi <= |t| && DigitsIn(t, lo, hi)
    ensures 0.0 <= FractionValue(t, lo, hi) < 1.0
    decreases hi - lo
  {
    if lo < hi {
      FractionBounds(t, lo + 1, hi);
    }
  }

  /** The unsigned decimal literal that fills `t` from `i` to its end: digits,
      optionally followed by a point and more digits, with at least one digit
      in all (".5" and "5." both read). */
  function UnsignedDecimal(t: string, i: nat): Option<real>
    requires i <= |t|
  {
    var j := DigitEnd(t, i);
    if j == |t| then
      if j > i then Some(WholeValue(t, i, j) as real) else None
    else if t[j] == '.' && DigitEnd(t, j + 1) == |t| && (j > i || j + 1 < |t|) then
      Some(WholeValue(t, i, j) as real + FractionValue(t, j + 1, |t|))
    else None
  }

  /** A sign, then an unsigned decimal literal. */
  function SignedDecimal(t: string): Option<real>
  {
    if t != [] && t[0] == '-' then
      match UnsignedDecimal(t, 1)
      case Some(v) => Some(-v)
      case None => None
    else if t != [] && t[0] == '+' then UnsignedDecimal(t, 1)
    else UnsignedDecimal(t, 0)
  }

  /** `Number(s)`: white space around the numeral is ignored and a blank
      string reads as 0. */
  function NumberOf(s: string): Option<real>
  {
    var t := Trim(s);
    if t == "" then Some(0.0) else SignedDecimal(t)
  }

  /** The value of the digits that start at `i`; NaN when there are none. */
  function LeadingDigits(t: string, i: nat): Option<int>
    requires i <= |t|
  {
    var j := DigitEnd(t, i);
    if j == i then None else Some(WholeValue(t, i, j))
  }

  /** A sign, then the leading digits. */
  function SignedLeadingDigits(t: string): Option<int>
  {
    if t != [] && t[0] == '-' then
      match LeadingDigits(t, 1)
      case Some(w) => Some(-w)
      case None => None
    else if t != [] && t[0] == '+' then LeadingDigits(t, 1)
    else LeadingDigits(t, 0)
  }

  /** `parseInt(s)`: leading white space and a sign are skipped, then the
      longest run of digits is read; NaN when there is none. */
  function ParseInt(s: string): Option<int>
  {
    SignedLeadingDigits(TrimStart(s))
  }

  /** Truncation toward zero, what `parseInt` does to the value of a numeral. */
  function TruncateTowardZero(v: real): int
  {
    if v >= 0.0 then v.Floor else -((-v).Floor)
  }

  /** `s` is a numeral: an optional sign (`k` is its length), digits up to
      `p`, and, if anything follows, a point and more digits. */
  predicate IsNumeral(s: string, k: nat, p: nat)
  {
    && k <= 1 && k < p <= |s|
    && (k == 1 ==> s[0] == '-' || s[0] == '+')
    && DigitsIn(s, k, p)
    && (p < |s| ==> s[p] == '.' && DigitsIn(s, p + 1, |s|))
  }

  /** The value `Number` reads from a numeral. */
  function NumeralValue(s: string, k: nat, p: nat): real
    requires IsNumeral(s, k, p)
  {
    var v := WholeValue(s, k, p) as real + (if p < |s| then FractionValue(s, p + 1, |s|) else 0.0);
    if k == 1 && s[0] == '-' then -v else v
  }

  /** On a numeral with digits before its point, `Number` reads its value and
      `parseInt` reads that value truncated toward zero: "12.7" gives 12.7
      and 12, "-3.9" gives -3.9 and -3. */
  lemma ParseIntTruncatesNumber(s: string, k: nat, p: nat)
    requires IsNumeral(s, k, p)
    ensures NumberOf(s) == Some(NumeralValue(s, k, p))
    ensures ParseInt(s) == Some(TruncateTowardZero(NumeralValue(s, k, p)))
  {
    NumeralUntrimmed(s, k, p);
    UnsignedReadings(s, k, p);
    var w := WholeValue(s, k, p);
    var f := if p < |s| then FractionValue(s, p + 1, |s|) else 0.0;
    if p < |s| {
      FractionBounds(s, p + 1, |s|);
    }
    FloorOfWholePlusFraction(w, f);
  }

  /** Past its sign, a numeral reads as whole part plus fraction, and its
      leading digits are its whole part. */
  lemma UnsignedReadings(s: string, k: nat, p: nat)
    requires IsNumeral(s, k, p)
    ensures UnsignedDecimal(s, k) == Some(WholeValue(s, k, p) as real + (if p < |s| then FractionValue(s, p + 1, |s|) else 0.0))
    ensures LeadingDigits(s, k) == Some(WholeValue(s, k, p))
  {
    DigitEndStops(s, k, p);
    if p < |s| {
      DigitEndStops(s, p + 1, |s|);
    }
  }

  /** Bounds a non-negative whole part plus a fraction in [0, 1) pin down the
      floor. */
  lemma FloorOfWholePlusFraction(w: nat, f: real)
    requires 0.0 <= f < 1.0
    ensures (w as real + f).Floor == w
  {
  }

  /** The digit run ends at the first non-digit. */
  lemma {:induction false} DigitEndStops(t: string, i: nat, j: nat)
    requires i <= j <= |t| && DigitsIn(t, i, j) && (j < |t| ==> !IsDigit(t[j]))
    ensures DigitEnd(t, i) == j
    decreases j - i
  {
    if i < j {
      DigitEndStops(t, i + 1, j);
    }
  }

  /** A numeral starts with a sign or a digit and ends with a point or a
      digit, so trimming leaves it as it is. */
  lemma NumeralUntrimmed(s: string, k: nat, p: nat)
    requires IsNumeral(s, k, p)
    ensures TrimStart(s) == s && Trim(s) == s
  {
    assert !IsWhiteSpace(s[0]) by {
      if k == 0 { assert IsDigit(s[0]); }
    }
    assert !IsWhiteSpace(s[|s| - 1]) by {
      if p == |s| { assert IsDigit(s[|s| - 1]); }
      else if p + 1 < |s| { assert IsDigit(s[|s| - 1]); }
    }
  }
}

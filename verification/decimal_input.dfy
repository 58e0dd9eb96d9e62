/**
 * The text a quotation field may hold, and how it is read as a number.
 *
 * Every input field of the calculator screen passes each edit through the pattern
 * `^\d*\.?\d*$` (Java regex syntax, `\d` being the ASCII digits): some digits, at most one
 * decimal point, some more digits. The prices are computed from the field text with
 * Kotlin's `String.toDoubleOrNull()`, which this module models on exactly the strings the
 * filter lets through.
 */
module DecimalInput {
  import opened Optional

  predicate IsDigit(c: char) { '0' <= c <= '9' }

  predicate AllDigits(s: string) { forall i :: 0 <= i < |s| ==> IsDigit(s[i]) }

  predicate HasDigit(s: string) { exists i :: 0 <= i < |s| && IsDigit(s[i]) }

  /** The language of `^\d*\.?\d*$`, read off the pattern: digits, an optional point, digits. */
  ghost predicate MatchesPattern(s: string) {
    AllDigits(s) || exists i :: PointAt(s, i)
  }

  /** Which side of the decimal point the matcher is on. */
  datatype Side = Whole | Fraction

  /** A left-to-right matcher for the pattern: digits anywhere, one point while still on the whole part. */
  function Scan(s: string, side: Side): bool {
    if s == [] then true
    else if IsDigit(s[0]) then Scan(s[1..], side)
    else s[0] == '.' && side == Whole && Scan(s[1..], Fraction)
  }

  /**
   * The `onValueChange` guard of `InputField`: an edit is passed on when it is empty or
   * matches the pattern (the empty string matches the pattern anyway).
   */
  predicate PassesFilter(edit: string): (ok: bool)
    ensures edit == [] ==> ok
    ensures ok ==> DotCount(edit) <= 1
  {
    ScanCounts(edit, Whole);
    edit == [] || Scan(edit, Whole)
  }

  /** The guard accepts exactly the strings in the language of the pattern. */
  lemma FilterMatchesPattern(edit: string)
    ensures PassesFilter(edit) <==> MatchesPattern(edit)
  {
    ScanWhole(edit);
  }

  lemma AllDigitsCons(s: string)
    requires s != []
    ensures AllDigits(s) <==> IsDigit(s[0]) && AllDigits(s[1..])
  {
    if IsDigit(s[0]) && AllDigits(s[1..]) {
      forall i | 0 <= i < |s| ensures IsDigit(s[i]) {
        if i > 0 { assert s[i] == s[1..][i - 1]; }
      }
    }
  }

  lemma {:induction false} ScanFraction(s: string)
    ensures Scan(s, Fraction) <==> AllDigits(s)
  {
    if s != [] {
      ScanFraction(s[1..]);
      AllDigitsCons(s);
    }
  }

  /** A point in `t` at `i` that splits it into digits on both sides. */
  ghost predicate PointAt(t: string, i: int) {
    0 <= i < |t| && t[i] == '.' && AllDigits(t[..i]) && AllDigits(t[i + 1..])
  }

  lemma PointAfterDigit(s: string, i: int)
    requires s != [] && IsDigit(s[0]) && PointAt(s[1..], i)
    ensures PointAt(s, i + 1)
  {
    var t := s[1..];
    assert s[i + 2..] == t[i + 1..];
    forall j | 0 <= j < i + 1 ensures IsDigit(s[j]) {
      if j > 0 { assert s[j] == t[..i][j - 1]; }
    }
    assert AllDigits(s[..i + 1]);
  }

  lemma PointBeforeDigit(s: string, i: int)
    requires s != [] && IsDigit(s[0]) && PointAt(s, i)
    ensures i > 0 && PointAt(s[1..], i - 1)
  {
    var t := s[1..];
    assert t[i..] == s[i + 1..];
    forall j | 0 <= j < i - 1 ensures IsDigit(t[j]) {
      assert t[j] == s[..i][j + 1];
    }
    assert AllDigits(t[..i - 1]);
  }

  lemma PatternAfterDigit(s: string)
    requires s != [] && IsDigit(s[0])
    ensures MatchesPattern(s) <==> MatchesPattern(s[1..])
  {
    AllDigitsCons(s);
    if MatchesPattern(s[1..]) && !AllDigits(s[1..]) {
      var i :| PointAt(s[1..], i);
      PointAfterDigit(s, i);
    }
    if MatchesPattern(s) && !AllDigits(s) {
      var i :| PointAt(s, i);
      PointBeforeDigit(s, i);
    }
  }

  lemma PatternAfterPoint(s: string)
    requires s != [] && s[0] == '.'
    ensures MatchesPattern(s) <==> AllDigits(s[1..])
  {
    if AllDigits(s[1..]) {
      assert s[..0] == [] && s[0 + 1..] == s[1..];
      assert PointAt(s, 0);
    }
    if MatchesPattern(s) {
      var i :| PointAt(s, i);
      assert i == 0;
    }
  }

  lemma {:induction false} ScanWhole(s: string)
    ensures Scan(s, Whole) <==> MatchesPattern(s)
  {
    if s != [] {
      if IsDigit(s[0]) {
        ScanWhole(s[1..]);
        PatternAfterDigit(s);
      } else if s[0] == '.' {
        ScanFraction(s[1..]);
        PatternAfterPoint(s);
      } else {
        assert !AllDigits(s);
        assert forall i :: PointAt(s, i) ==> i == 0;
      }
    }
  }

  /** How many decimal points `s` holds. */
  function DotCount(s: string): nat {
    if s == [] then 0 else (if s[0] == '.' then 1 else 0) + DotCount(s[1..])
  }

  /** The filter as the comment beside it in the source puts it: only digits and at most one point. */
  lemma {:induction false} FilterIsDigitsAndOnePoint(s: string)
    ensures PassesFilter(s) <==>
      (forall i :: 0 <= i < |s| ==> IsDigit(s[i]) || s[i] == '.') && DotCount(s) <= 1
  {
    ScanCounts(s, Whole);
  }

  lemma {:induction false} ScanCounts(s: string, side: Side)
    ensures Scan(s, side) <==>
      (forall i :: 0 <= i < |s| ==> IsDigit(s[i]) || s[i] == '.') &&
      DotCount(s) <= (if side == Whole then 1 else 0)
  {
    if s != [] {
      ScanCounts(s[1..], side);
      ScanCounts(s[1..], Fraction);
      var t := s[1..];
      assert (forall i :: 0 <= i < |s| ==> IsDigit(s[i]) || s[i] == '.') <==>
             (IsDigit(s[0]) || s[0] == '.') && (forall i :: 0 <= i < |t| ==> IsDigit(t[i]) || t[i] == '.') by {
        if (IsDigit(s[0]) || s[0] == '.') && (forall i :: 0 <= i < |t| ==> IsDigit(t[i]) || t[i] == '.') {
          forall i | 0 <= i < |s| ensures IsDigit(s[i]) || s[i] == '.' {
            if i > 0 { assert s[i] == t[i - 1]; }
          }
        }
      }
    }
  }

  /** The number a run of decimal digits denotes, most significant digit first. */
  function DigitsValue(s: string): nat
    requires AllDigits(s)
  {
    if s == [] then 0 else DigitsValue(s[..|s| - 1]) * 10 + (s[|s| - 1] as int - '0' as int)
  }

  function Pow10(k: nat): (p: nat)
    ensures p >= 1
  {
    if k == 0 then 1 else 10 * Pow10(k - 1)
  }

  /** Position of the first decimal point, or `|s|` when there is none. */
  function PointIndex(s: string): (i: nat)
    ensures i <= |s|
    ensures forall j :: 0 <= j < i ==> s[j] != '.'
    ensures i < |s| ==> s[i] == '.'
  {
    if s == [] || s[0] == '.' then 0 else 1 + PointIndex(s[1..])
  }

  /**
   * `toDoubleOrNull` on a string the filter accepts: null when there is no digit at all
   * (the empty field and a lone "."), otherwise the whole part plus the fraction part,
   * either of which may be empty ("5." is 5, ".5" is one half).
   */
  function ParseDecimal(s: string): (r: Option<real>)
    requires PassesFilter(s)
    ensures r.None? <==> !HasDigit(s)
    ensures r.Some? ==> r.value >= 0.0
  {
    if !HasDigit(s) then None
    else
      var i := PointIndex(s);
      if i == |s| then
        FilterMatchesPattern(s);
        Some(DigitsValue(s) as real)
      else
        SplitAtPoint(s, i);
        Some(PointValue(s[..i], s[i + 1..]))
  }

  /** The value of whole-part digits `a` followed by fraction digits `b`. */
  function PointValue(a: string, b: string): (v: real)
    requires AllDigits(a) && AllDigits(b)
    ensures v >= DigitsValue(a) as real
  {
    DigitsValue(a) as real + DigitsValue(b) as real / Pow10(|b|) as real
  }

  /** In an accepted string, both sides of the first point are digits only. */
  lemma SplitAtPoint(s: string, i: nat)
    requires PassesFilter(s)
    requires i == PointIndex(s) < |s|
    ensures AllDigits(s[..i]) && AllDigits(s[i + 1..])
  {
    FilterMatchesPattern(s);
    if AllDigits(s) {
      assert false;
    }
    var k :| 0 <= k < |s| && s[k] == '.' && AllDigits(s[..k]) && AllDigits(s[k + 1..]);
    PointAfterDigits(s, k);
  }

  lemma {:induction false} PointAfterDigits(s: string, k: nat)
    requires k < |s| && s[k] == '.' && AllDigits(s[..k])
    ensures PointIndex(s) == k
  {
    if k > 0 {
      assert s[0] == s[..k][0];
      assert s[1..][..k - 1] == s[..k][1..];
      PointAfterDigits(s[1..], k - 1);
    }
  }

  /** Reading digits then more digits is scaling the first run by the length of the second. */
  lemma {:induction false} DigitsValueAppend(a: string, b: string)
    requires AllDigits(a) && AllDigits(b)
    ensures AllDigits(a + b)
    ensures DigitsValue(a + b) == DigitsValue(a) * Pow10(|b|) + DigitsValue(b)
  {
    if b != [] {
      var ab := a + b;
      var b' := b[..|b| - 1];
      assert ab[..|ab| - 1] == a + b';
      assert ab[|ab| - 1] == b[|b| - 1];
      assert b[..|b| - 1] == b';
      DigitsValueAppend(a, b');
      var d := b[|b| - 1] as int - '0' as int;
      assert DigitsValue(ab) == DigitsValue(a + b') * 10 + d;
      assert DigitsValue(b) == DigitsValue(b') * 10 + d;
      assert Pow10(|b|) == 10 * Pow10(|b'|);
      ShiftDigit(DigitsValue(a), Pow10(|b'|), DigitsValue(b'), d);
    } else {
      assert a + b == a;
    }
  }

  /**
   * `toDoubleOrNull` of "a.b" is the integer spelled by all the digits, divided by ten to the
   * number of digits after the point; with `b` empty this says "5." reads as 5.
   */
  lemma PointShiftsValue(a: string, b: string)
    requires AllDigits(a) && AllDigits(b) && a + b != []
    ensures PassesFilter(a + "." + b)
    ensures ParseDecimal(a + "." + b) == Some(DigitsValue(a + b) as real / Pow10(|b|) as real)
  {
    ParsePointed(a, b);
    PointValueScales(a, b);
  }

  lemma ParsePointed(a: string, b: string)
    requires AllDigits(a) && AllDigits(b) && a + b != []
    ensures PassesFilter(a + "." + b)
    ensures ParseDecimal(a + "." + b) == Some(PointValue(a, b))
  {
    PointedText(a, b);
    ParseAtPoint(a + "." + b, |a|);
  }

  lemma PointValueScales(a: string, b: string)
    requires AllDigits(a) && AllDigits(b)
    ensures AllDigits(a + b)
    ensures PointValue(a, b) == DigitsValue(a + b) as real / Pow10(|b|) as real
  {
    DigitsValueAppend(a, b);
    ScaledSum(DigitsValue(a + b), DigitsValue(a), DigitsValue(b), Pow10(|b|));
  }

  lemma ParseAtPoint(s: string, i: nat)
    requires PassesFilter(s) && HasDigit(s) && i == PointIndex(s) < |s|
    ensures AllDigits(s[..i]) && AllDigits(s[i + 1..])
    ensures ParseDecimal(s) == Some(PointValue(s[..i], s[i + 1..]))
  {
    SplitAtPoint(s, i);
    assert PointIndex(s) != |s|;
  }

  /** The shape of "a.b": accepted, has a digit, and its first point is the one after `a`. */
  lemma PointedText(a: string, b: string)
    requires AllDigits(a) && AllDigits(b) && a + b != []
    ensures var s := a + "." + b;
      && PassesFilter(s) && HasDigit(s) && PointIndex(s) == |a|
      && s[..|a|] == a && s[|a| + 1..] == b && |s| - |a| - 1 == |b|
  {
    var s := a + "." + b;
    assert s[|a|] == '.' && s[..|a|] == a && s[|a| + 1..] == b;
    assert PointAt(s, |a|);
    FilterMatchesPattern(s);
    PointAfterDigits(s, |a|);
    if a != [] {
      assert IsDigit(s[0]);
    } else {
      assert IsDigit(s[1]);
    }
  }

  lemma ShiftDigit(x: int, p: int, y: int, d: int)
    ensures (x * p + y) * 10 + d == x * (10 * p) + (y * 10 + d)
  {
  }

  lemma ScaledSum(n: nat, x: nat, y: nat, p: nat)
    requires p >= 1 && n == x * p + y
    ensures n as real / p as real == x as real + y as real / p as real
  {
    var pr := p as real;
    assert (x * p) as real == x as real * pr;
    assert (x as real * pr + y as real) / pr == x as real * pr / pr + y as real / pr;
  }

  function DigitChar(d: nat): char
    requires d < 10
  {
    ('0' as int + d) as char
  }

  /** Decimal notation of a natural number, most significant digit first, without leading zeros. */
  function NatToDecimal(n: nat): (s: string)
    ensures s != [] && AllDigits(s)
  {
    if n < 10 then [DigitChar(n)] else NatToDecimal(n / 10) + [DigitChar(n % 10)]
  }

  /** Whole numbers written out in decimal pass the filter and read back as themselves. */
  lemma {:induction false} WholeNumberRoundTrip(n: nat)
    ensures PassesFilter(NatToDecimal(n))
    ensures ParseDecimal(NatToDecimal(n)) == Some(n as real)
  {
    var s := NatToDecimal(n);
    assert IsDigit(s[0]);
    FilterMatchesPattern(s);
    NoPointInDigits(s);
    DigitsOfDecimal(n);
  }

  lemma {:induction false} NoPointInDigits(s: string)
    requires AllDigits(s)
    ensures PointIndex(s) == |s|
  {
    if s != [] {
      assert IsDigit(s[0]);
      NoPointInDigits(s[1..]);
    }
  }

  lemma {:induction false} DigitsOfDecimal(n: nat)
    ensures DigitsValue(NatToDecimal(n)) == n
  {
    if n >= 10 {
      var s := NatToDecimal(n);
      assert s[..|s| - 1] == NatToDecimal(n / 10);
      DigitsOfDecimal(n / 10);
    }
  }

  /** The field reading `text.toDoubleOrNull() ?: 0.0` used for every dimension and price. */
  function ValueOrZero(s: string): (v: real)
    requires PassesFilter(s)
    ensures v >= 0.0
    ensures !HasDigit(s) ==> v == 0.0
  {
    ParseDecimal(s).GetOr(0.0)
  }
}

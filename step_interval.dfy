/**
 Conversion of a bar-interval string such as "5m", "1h" or "15m" into minutes.

 library.c parses it two ways: the backtest reads everything but the last
 character as the count and the last character as the unit, while the live
 setup reads one character of count and one character of unit.
 */
module StepInterval {

  datatype Option<T> = None | Some(value: T)

  /**
   The host's `substring(s, start, count)`, with both ends clamped to the
   string: an out-of-range request yields the part that exists.
   */
  function Substring(s: string, start: int, count: int): (r: string)
    ensures |r| <= |s|
    ensures 0 <= start && 0 <= count && start + count <= |s| ==> r == s[start..start + count]
  {
    var from := if start < 0 then 0 else if start > |s| then |s| else start;
    var to := if count < 0 then from else if from + count > |s| then |s| else from + count;
    s[from..to]
  }

  predicate IsDigit(c: char) {
    '0' <= c <= '9'
  }

  predicate IsDigits(s: string) {
    forall i :: 0 <= i < |s| ==> IsDigit(s[i])
  }

  function DigitValue(c: char): int {
    c as int - '0' as int
  }

  function DigitChar(d: nat): (c: char)
    requires d < 10
    ensures IsDigit(c) && DigitValue(c) == d
  {
    ('0' as int + d) as char
  }

  /** The value of a decimal numeral, read most significant digit first. */
  function DigitsValue(s: string): (r: int)
    ensures IsDigits(s) ==> 0 <= r
  {
    if |s| == 0 then 0 else DigitsValue(s[..|s| - 1]) * 10 + DigitValue(s[|s| - 1])
  }

  /**
   The host's `toInteger`, for the strings this model covers: a non-empty run
   of decimal digits. Anything else has no value here.
   */
  function ToInteger(s: string): (r: Option<int>)
    ensures r.Some? <==> |s| > 0 && IsDigits(s)
  {
    if |s| > 0 && IsDigits(s) then Some(DigitsValue(s)) else None
  }

  /** The unit letter applied to a count: h, d, w and M scale it; any other unit leaves it. */
  function ScaleToMinutes(n: int, unit: string): (r: int)
    ensures n >= 0 ==> n <= r <= n * 43920
    ensures n > 0 ==> (r == n <==> unit != "h" && unit != "d" && unit != "w" && unit != "M")
  {
    if unit == "h" then n * 60
    else if unit == "d" then n * 24 * 60
    else if unit == "w" then n * 7 * 24 * 60
    else if unit == "M" then n * 305 * 24 * 6
    else n
  }

  /**
   Step of the backtest: count = all but the last character, unit = the last
   character. There is a step exactly when a digit count precedes the unit,
   and it is that count, leading zeros and all, scaled by the unit.
   */
  function BacktestStepMinutes(typeStepSymbol: string): (r: Option<int>)
    ensures r.Some? <==> |typeStepSymbol| >= 2 && IsDigits(typeStepSymbol[..|typeStepSymbol| - 1])
    ensures r.Some? ==> DigitsValue(typeStepSymbol[..|typeStepSymbol| - 1]) <= r.value
    ensures r.Some? ==> r.value == ScaleToMinutes(DigitsValue(typeStepSymbol[..|typeStepSymbol| - 1]),
                                                  [typeStepSymbol[|typeStepSymbol| - 1]])
  {
    assert |typeStepSymbol| >= 1 ==>
             Substring(typeStepSymbol, |typeStepSymbol| - 1, 1) == [typeStepSymbol[|typeStepSymbol| - 1]];
    var count := ToInteger(Substring(typeStepSymbol, 0, |typeStepSymbol| - 1));
    var unit := Substring(typeStepSymbol, |typeStepSymbol| - 1, 1);
    if count.None? then None else Some(ScaleToMinutes(count.value, unit))
  }

  /**
   Step of the live setup: count = the first character, unit = the second.
   There is a step exactly when the string starts with a digit, and it is at
   most nine months of minutes.
   */
  function LiveStepMinutes(typeStepSymbol: string): (r: Option<int>)
    ensures r.Some? <==> |typeStepSymbol| >= 1 && IsDigit(typeStepSymbol[0])
    ensures r.Some? ==> 0 <= r.value <= 9 * 43920
  {
    var count := ToInteger(Substring(typeStepSymbol, 0, 1));
    var unit := Substring(typeStepSymbol, 1, 1);
    if count.None? then None
    else
      var c := typeStepSymbol[0];
      assert Substring(typeStepSymbol, 0, 1) == [c] && [c][..0] == [];
      assert DigitsValue([c]) == DigitValue(c);
      assert count.value == DigitValue(c);
      Some(ScaleToMinutes(count.value, unit))
  }

  /** The shortest decimal numeral of `n`. */
  function DecimalString(n: nat): (r: string)
    ensures |r| > 0 && IsDigits(r)
    decreases n
  {
    if n < 10 then [DigitChar(n)] else DecimalString(n / 10) + [DigitChar(n % 10)]
  }

  /** Reading back the numeral written for `n` gives `n`. */
  lemma {:induction false} DecimalRoundTrip(n: nat)
    ensures ToInteger(DecimalString(n)) == Some(n)
  {
    var s := DecimalString(n);
    if n < 10 {
      OneDigit(n);
    } else {
      DecimalRoundTrip(n / 10);
      assert s[..|s| - 1] == DecimalString(n / 10);
      assert DigitsValue(s) == DigitsValue(DecimalString(n / 10)) * 10 + n % 10;
    }
  }

  /** Every unit acts as a fixed factor: one unit of it in minutes, times the count. */
  lemma UnitFactors(n: int, unit: string)
    ensures ScaleToMinutes(n, unit) == n * ScaleToMinutes(1, unit)
    ensures ScaleToMinutes(1, "h") == 60 && ScaleToMinutes(1, "d") == 1440
    ensures ScaleToMinutes(1, "w") == 10080 && ScaleToMinutes(1, "M") == 43920
    ensures ScaleToMinutes(1, "M") as real == 30.5 * 24.0 * 60.0
    ensures unit != "h" && unit != "d" && unit != "w" && unit != "M" ==> ScaleToMinutes(n, unit) == n
  {}

  /** The backtest reads a count of any length: "<n><u>" gives n scaled by u. */
  lemma BacktestReadsWholeCount(n: nat, u: char)
    ensures BacktestStepMinutes(DecimalString(n) + [u]) == Some(ScaleToMinutes(n, [u]))
  {
    var s := DecimalString(n) + [u];
    assert Substring(s, 0, |s| - 1) == DecimalString(n);
    assert Substring(s, |s| - 1, 1) == [u];
    DecimalRoundTrip(n);
  }

  /** The live setup reads only the first digit and takes the second character as the unit. */
  lemma LiveReadsFirstDigit(d: nat, u: char, rest: string)
    requires d < 10
    ensures LiveStepMinutes([DigitChar(d), u] + rest) == Some(ScaleToMinutes(d, [u]))
  {
    var s := [DigitChar(d), u] + rest;
    assert Substring(s, 0, 1) == [DigitChar(d)];
    assert Substring(s, 1, 1) == [u];
    OneDigit(d);
  }

  lemma OneDigit(d: nat)
    requires d < 10
    ensures DigitsValue([DigitChar(d)]) == d
  {
    assert [DigitChar(d)][..0] == [];
  }

  /** For a one-digit count the two parsers agree. */
  lemma ParsersAgreeOnOneDigit(d: nat, u: char)
    requires d < 10
    ensures LiveStepMinutes([DigitChar(d), u]) == BacktestStepMinutes([DigitChar(d), u])
  {
    LiveReadsFirstDigit(d, u, []);
    BacktestReadsWholeCount(d, u);
    assert DecimalString(d) + [u] == [DigitChar(d), u] + [];
  }

  /** Leading zeros are read as part of the count: "05h" is five hours. */
  lemma LeadingZeroCount()
    ensures BacktestStepMinutes("05h") == Some(300)
  {
    assert "05h"[..2] == "05" && "05"[..1] == "0" && "0"[..0] == [];
  }

  /** "15m": the backtest reads 15 minutes, the live setup reads the "1" and the unit "5", so 1 minute. */
  lemma FifteenMinutes()
    ensures BacktestStepMinutes("15m") == Some(15)
    ensures LiveStepMinutes("15m") == Some(1)
  {
    BacktestReadsWholeCount(15, 'm');
    assert DecimalString(15) == "15";
    LiveReadsFirstDigit(1, '5', "m");
    assert [DigitChar(1), '5'] + "m" == "15m";
  }

  /**
   A string whose part before the last character is not a digit count (it is
   empty, or holds a non-digit) has no backtest step; the empty string has no
   live step either.
   */
  lemma NoCountNoStep(typeStepSymbol: string)
    requires |typeStepSymbol| <= 1 || !IsDigits(typeStepSymbol[..|typeStepSymbol| - 1])
    ensures BacktestStepMinutes(typeStepSymbol) == None
    ensures |typeStepSymbol| == 0 ==> LiveStepMinutes(typeStepSymbol) == None
  {}
}

/** The merchant's trade-in line, and the decimal rendering of the value it quotes. */
module Dialogue {

  predicate IsDigit(c: char) {
    '0' <= c <= '9'
  }

  function Digit(d: nat): (c: char)
    requires d < 10
    ensures IsDigit(c) && (c as int) - ('0' as int) == d
  {
    ('0' as int + d) as char
  }

  /** How string interpolation renders a non-negative integer: its decimal digits, without leading zeros. */
  function Decimal(n: nat): (s: string)
    ensures |s| >= 1
    ensures forall i :: 0 <= i < |s| ==> IsDigit(s[i])
    ensures (s[0] == '0') == (n == 0)
    decreases n
  {
    if n < 10 then [Digit(n)] else Decimal(n / 10) + [Digit(n % 10)]
  }

  /** The number a string of decimal digits denotes. */
  function DecimalValue(s: string): nat
    requires forall i :: 0 <= i < |s| ==> IsDigit(s[i])
    decreases |s|
  {
    if s == [] then 0
    else DecimalValue(s[..|s| - 1]) * 10 + DigitValue(s[|s| - 1])
  }

  function DigitValue(c: char): nat
    requires IsDigit(c)
  {
    var d := (c as int) - ('0' as int);
    assert d >= 0;
    d
  }

  /** Reading back the rendered value gives the value. */
  lemma {:induction false} DecimalRoundTrip(n: nat)
    ensures DecimalValue(Decimal(n)) == n
    decreases n
  {
    var s := Decimal(n);
    if n >= 10 {
      DecimalRoundTrip(n / 10);
      assert s[..|s| - 1] == Decimal(n / 10);
    }
  }

  // The fixed text around the two interpolated values, colour codes included.
  const Opening: string := "\n" + "`!MightyE`7 looks at you and says, \"`#I'll give you `^"
  const Middle: string := "`# trade-in value for your `5"
  const Closing: string := "`#."

  /** The line appended to the scene description when the trade-in value is positive:
      the fixed opening, the value in decimal, the fixed middle, the weapon name and the
      closing, in that order. */
  function TradeInLine(name: string, value: nat): (line: string)
    ensures |line| == |Opening| + |Decimal(value)| + |Middle| + |name| + |Closing|
    ensures line[..|Opening|] == Opening
    ensures line[0] == '\n'
    ensures line[|line| - |Closing|..] == Closing
  {
    var line := Opening + Decimal(value) + Middle + name + Closing;
    assert line[0] == Opening[0];
    line
  }

  /** The line starts on a new line, quotes the value in decimal and names the weapon,
      at fixed positions after the opening text. */
  lemma TradeInLineShowsValueAndName(name: string, value: nat)
    ensures var line := TradeInLine(name, value);
            var a := |Opening|;
            var b := a + |Decimal(value)|;
            var c := b + |Middle|;
            && line[0] == '\n'
            && c + |name| <= |line|
            && line[a..b] == Decimal(value)
            && DecimalValue(line[a..b]) == value
            && line[c..c + |name|] == name
  {
    DecimalRoundTrip(value);
  }
}

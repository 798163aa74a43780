/**
 * The console lines the procedure renders while the operator holds the
 * buttons: the fixed-width bar `[====   ] (n/total sec)` of `prog` and of
 * the hold window, and the countdown announcement. Every such line ends in
 * a carriage return so that the next one overwrites it; a window ends with
 * a line break.
 */
module Progress {

  /** Which line is drawn; `Text` gives its characters. */
  datatype Line = BarLine(tick: int, total: int) | CountdownLine(secondsLeft: nat) | LineEnd

  /** A bar line names a tick inside its window. */
  predicate Drawable(l: Line)
  {
    l.BarLine? ==> 0 <= l.tick < l.total
  }

  /** A line a window of `sec` ticks may show: one of its own bars, or the line break ending it. */
  predicate WindowLine(l: Line, sec: int)
  {
    l == LineEnd || (l.BarLine? && l.total == sec && 0 <= l.tick < sec)
  }

  function Text(l: Line): string
    requires Drawable(l)
  {
    match l
    case BarLine(i, sec) => Bar(i, sec)
    case CountdownLine(n) => CountdownText(n)
    case LineEnd => "\n"
  }

  /** `n` copies of `c`, built one character at a time as the C loops print them. */
  function Repeat(c: char, n: int): (s: string)
    ensures |s| == if n > 0 then n else 0
    ensures forall k :: 0 <= k < |s| ==> s[k] == c
    decreases n
  {
    if n <= 0 then [] else Repeat(c, n - 1) + [c]
  }

  function DigitChar(d: int): (c: char)
    requires 0 <= d < 10
    ensures '0' <= c <= '9'
  {
    ('0' as int + d) as char
  }

  function DigitValue(c: char): int
  {
    c as int - '0' as int
  }

  /** A non-negative number as `printf("%d")` writes it. */
  function Decimal(n: nat): (s: string)
    ensures |s| >= 1
    ensures forall k :: 0 <= k < |s| ==> '0' <= s[k] <= '9'
    ensures s[0] == '0' ==> n == 0
  {
    if n < 10 then [DigitChar(n)] else Decimal(n / 10) + [DigitChar(n % 10)]
  }

  /** Reads a string of decimal digits back as a number. */
  function ParseDecimal(s: string): int
  {
    if s == [] then 0 else ParseDecimal(s[..|s| - 1]) * 10 + DigitValue(s[|s| - 1])
  }

  /** The number printed in a progress line can be read back unchanged. */
  lemma {:induction false} DecimalRoundTrip(n: nat)
    ensures ParseDecimal(Decimal(n)) == n
  {
    var s := Decimal(n);
    if n < 10 {
      assert s[..0] == [];
    } else {
      assert s[..|s| - 1] == Decimal(n / 10);
      DecimalRoundTrip(n / 10);
    }
  }

  /** The line drawn for tick `i` of a window of `sec` seconds. */
  function Bar(i: int, sec: int): string
    requires 0 <= i < sec
  {
    "[" + Repeat('=', i + 1) + Repeat(' ', sec - i - 1)
    + "] (" + Decimal(i + 1) + "/" + Decimal(sec) + " sec)\r"
  }

  /**
   * The bracket holds exactly `sec` characters, the first `i + 1` of them
   * `=` and the rest spaces, and the line ends in a carriage return.
   */
  lemma BarShape(i: int, sec: int)
    requires 0 <= i < sec
    ensures |Bar(i, sec)| > sec + 1
    ensures Bar(i, sec)[0] == '[' && Bar(i, sec)[sec + 1] == ']'
    ensures forall k :: 1 <= k <= sec ==> Bar(i, sec)[k] == if k <= i + 1 then '=' else ' '
    ensures Bar(i, sec)[|Bar(i, sec)| - 1] == '\r'
  {
    var fill := Repeat('=', i + 1);
    var pad := Repeat(' ', sec - i - 1);
    var b := Bar(i, sec);
    assert b[..sec + 2] == "[" + fill + pad + "]";
  }

  /**
   * The two counters of a progress line: what it announces as elapsed and
   * as the total, read back from its text.
   */
  lemma BarCounts(i: int, sec: int)
    requires 0 <= i < sec
    ensures Bar(i, sec)[sec + 4..] == Decimal(i + 1) + "/" + Decimal(sec) + " sec)\r"
    ensures ParseDecimal(Decimal(i + 1)) == i + 1 && ParseDecimal(Decimal(sec)) == sec
  {
    var head := "[" + Repeat('=', i + 1) + Repeat(' ', sec - i - 1) + "] (";
    assert |head| == sec + 4;
    assert Bar(i, sec) == head + (Decimal(i + 1) + "/" + Decimal(sec) + " sec)\r");
    DecimalRoundTrip(i + 1);
    DecimalRoundTrip(sec);
  }

  /**
   * One progress line as the C code prints it: a fill loop and a pad loop
   * that share the counter `j`.
   */
  method RenderBar(i: int, sec: int) returns (line: string)
    requires 0 <= i < sec
    ensures line == Bar(i, sec)
  {
    line := "[";
    var j := 0;
    while j < i + 1
      invariant 0 <= j <= i + 1
      invariant line == "[" + Repeat('=', j)
    {
      line := line + "=";
      j := j + 1;
    }
    while j < sec
      invariant i + 1 <= j <= sec
      invariant line == "[" + Repeat('=', i + 1) + Repeat(' ', j - i - 1)
    {
      line := line + " ";
      j := j + 1;
    }
    line := line + "] (" + Decimal(i + 1) + "/" + Decimal(sec) + " sec)\r";
  }

  /** The countdown announcement printed `n` seconds before the hold window. */
  function CountdownText(n: nat): string
  {
    "preparing... (STEP2 will start after " + Decimal(n) + " seconds)\r"
  }
}

/**
 * The few pieces of Go's standard library that the scheduler leans on, as
 * pure functions: strings.Index and strings.Split with a one-character
 * separator, strconv.Atoi on a 64-bit platform, and the truncating `%`.
 */
module GoStrings {

  /** strings.Index with a one-character needle: the first position of `c`, or -1. */
  function Index(s: string, c: char): (r: int)
    ensures r == -1 <==> c !in s
    ensures r != -1 ==> 0 <= r < |s| && s[r] == c && c !in s[..r]
  {
    if |s| == 0 then -1
    else if s[0] == c then 0
    else
      var r := Index(s[1..], c);
      if r == -1 then -1
      else
        assert s[..r + 1] == [s[0]] + s[1..][..r];
        r + 1
  }

  /** The inverse of Split: the parts glued back together around `sep`. */
  function Join(parts: seq<string>, sep: char): string
    requires |parts| >= 1
  {
    if |parts| == 1 then parts[0] else parts[0] + [sep] + Join(parts[1..], sep)
  }

  /**
   * strings.Split with a one-character separator: the pieces of `s` between
   * the occurrences of `sep`. There is always at least one piece (the empty
   * string splits into [""]), no piece contains `sep`, and joining the
   * pieces gives `s` back.
   */
  function Split(s: string, sep: char): (parts: seq<string>)
    ensures |parts| >= 1
    ensures forall i :: 0 <= i < |parts| ==> sep !in parts[i]
    ensures Join(parts, sep) == s
    decreases |s|
  {
    var i := Index(s, sep);
    if i == -1 then [s]
    else
      var rest := Split(s[i + 1..], sep);
      var parts := [s[..i]] + rest;
      assert parts[1..] == rest;
      assert s == s[..i] + [sep] + s[i + 1..];
      parts
  }

  /** Splitting gives exactly one piece precisely when the separator is absent. */
  lemma SplitSingle(s: string, sep: char)
    ensures |Split(s, sep)| == 1 <==> sep !in s
    ensures sep !in s ==> Split(s, sep) == [s]
  {
  }

  /**
   * A string with at least one separator splits into exactly two pieces iff
   * the separator occurs once; the pieces are then what lies before and
   * after it.
   */
  lemma SplitPair(s: string, sep: char)
    requires sep in s
    ensures var i := Index(s, sep);
      && (|Split(s, sep)| == 2 <==> sep !in s[i + 1..])
      && Split(s, sep)[0] == s[..i]
      && (|Split(s, sep)| == 2 ==> Split(s, sep)[1] == s[i + 1..])
  {
    var i := Index(s, sep);
    SplitSingle(s[i + 1..], sep);
  }

  /** Round trip the other way: pieces free of the separator are recovered from their join. */
  lemma {:induction false} SplitJoin(parts: seq<string>, sep: char)
    requires |parts| >= 1
    requires forall i :: 0 <= i < |parts| ==> sep !in parts[i]
    ensures Split(Join(parts, sep), sep) == parts
  {
    if |parts| == 1 {
      SplitSingle(parts[0], sep);
    } else {
      var head, tail := parts[0], Join(parts[1..], sep);
      var s := head + [sep] + tail;
      assert s == Join(parts, sep);
      var i := Index(s, sep);
      assert s[|head|] == sep;
      assert i == |head|;
      assert s[..i] == head;
      assert s[i + 1..] == tail;
      SplitJoin(parts[1..], sep);
    }
  }

  const MAX_INT: int := 0x7fff_ffff_ffff_ffff
  const MIN_INT: int := -0x8000_0000_0000_0000

  predicate IsDigit(c: char) {
    '0' <= c <= '9'
  }

  predicate AllDigits(s: string) {
    forall i :: 0 <= i < |s| ==> IsDigit(s[i])
  }

  /** The value of a run of decimal digits, most significant first. */
  function DigitsValue(s: string): nat
    requires AllDigits(s)
  {
    if |s| == 0 then 0
    else DigitsValue(s[..|s| - 1]) * 10 + (s[|s| - 1] as int - '0' as int)
  }

  /** Saturation to the range of Go's 64-bit `int`, which ParseInt applies on overflow. */
  function Clamp(n: int): int {
    if n > MAX_INT then MAX_INT else if n < MIN_INT then MIN_INT else n
  }

  /** What strconv.Atoi accepts: an optional sign followed by at least one decimal digit. */
  predicate IsDecimal(s: string) {
    || (|s| >= 1 && AllDigits(s))
    || (|s| >= 2 && (s[0] == '+' || s[0] == '-') && AllDigits(s[1..]))
  }

  /**
   * strconv.Atoi with its error dropped, as the scheduler calls it: a
   * well-formed decimal gives its value (saturated to 64 bits, as Go
   * returns on a range error), anything else gives 0.
   */
  function Atoi(s: string): (n: int)
    ensures MIN_INT <= n <= MAX_INT
    ensures !IsDecimal(s) ==> n == 0
    ensures |s| >= 1 && AllDigits(s) ==> n == Clamp(DigitsValue(s))
  {
    if |s| >= 1 && AllDigits(s) then Clamp(DigitsValue(s))
    else if |s| >= 2 && (s[0] == '+' || s[0] == '-') && AllDigits(s[1..]) then
      Clamp(if s[0] == '-' then -(DigitsValue(s[1..]) as int) else DigitsValue(s[1..]))
    else 0
  }

  /**
   * Go's `%` on int: the quotient is truncated toward zero, so the remainder
   * carries the dividend's sign (Dafny's own `%` is Euclidean). For a
   * non-negative dividend it is the remainder modulo the divisor's magnitude.
   */
  function GoRem(x: int, y: int): (r: int)
    requires y != 0
    ensures x >= 0 && y > 0 ==> r == x % y
    ensures var m := if y < 0 then -y else y; -m < r < m
    ensures r < 0 ==> x < 0
    ensures r > 0 ==> x > 0
  {
    var m := if y < 0 then -y else y;
    if x >= 0 then
      assert 0 <= x % m < m && (x == 0 ==> x % m == 0);
      x % m
    else
      assert 0 <= (-x) % m < m;
      -((-x) % m)
  }
}

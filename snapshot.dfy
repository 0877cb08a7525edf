/**
 * The timestamp snapshot a dispatch round shares with every item it
 * evaluates: the clock rendered with Go's layout "2006-01-02 15:04:05",
 * a space, and the weekday as one digit (0 is Sunday), 21 characters in
 * all. The evaluator reads each field back by slicing fixed positions.
 */
module Snapshot {
  import opened GoStrings

  /** The clock components the round reads from time.Now(). */
  datatype Clock = Clock(year: int, month: int, day: int, hour: int, minute: int, second: int, weekday: int)

  /** A superset of the readings Go's clock can produce, with four-digit years. */
  predicate ValidClock(c: Clock) {
    && 0 <= c.year <= 9999
    && 1 <= c.month <= 12
    && 1 <= c.day <= 31
    && 0 <= c.hour < 24
    && 0 <= c.minute < 60
    && 0 <= c.second < 60
    && 0 <= c.weekday < 7
  }

  /** The six clock fields a time specification constrains. */
  datatype Field = Second | Minute | Hour | Day | Weekday | Month

  function Digit(d: int): char
    requires 0 <= d < 10
  {
    ('0' as int + d) as char
  }

  /** Two-digit, zero-padded rendering ("05"). */
  function Pad2(n: int): string
    requires 0 <= n < 100
  {
    [Digit(n / 10), Digit(n % 10)]
  }

  /** Four-digit, zero-padded rendering, as Go prints a year of 0..9999. */
  function Pad4(n: int): string
    requires 0 <= n < 10000
  {
    Pad2(n / 100) + Pad2(n % 100)
  }

  /** The snapshot string the round builds once and hands to every item. */
  function Format(c: Clock): (t: string)
    requires ValidClock(c)
    ensures |t| == 21
  {
    Pad4(c.year) + "-" + Pad2(c.month) + "-" + Pad2(c.day) + " "
      + Pad2(c.hour) + ":" + Pad2(c.minute) + ":" + Pad2(c.second)
      + " " + [Digit(c.weekday)]
  }

  /** The fixed slice of the snapshot the evaluator compares a field against. */
  function Slice(t: string, f: Field): string
    requires |t| == 21
  {
    match f
    case Hour => t[11..13]
    case Minute => t[14..16]
    case Second => t[17..19]
    case Day => t[8..10]
    case Month => t[5..7]
    case Weekday => t[20..21]
  }

  /** The clock's value for a field. */
  function Component(c: Clock, f: Field): int {
    match f
    case Second => c.second
    case Minute => c.minute
    case Hour => c.hour
    case Day => c.day
    case Weekday => c.weekday
    case Month => c.month
  }

  /** How the snapshot spells a field's value: two padded digits, or one for the weekday. */
  function Render(c: Clock, f: Field): string
    requires ValidClock(c)
  {
    if f == Weekday then [Digit(c.weekday)] else Pad2(Component(c, f))
  }

  /** Reads a snapshot back into its clock: the partner of Format. */
  function Decode(t: string): Clock
    requires |t| == 21
  {
    Clock(Atoi(t[..4]), Atoi(Slice(t, Month)), Atoi(Slice(t, Day)), Atoi(Slice(t, Hour)),
          Atoi(Slice(t, Minute)), Atoi(Slice(t, Second)), Atoi(Slice(t, Weekday)))
  }

  /** A padded number reads back as itself. */
  lemma AtoiPad2(n: int)
    requires 0 <= n < 100
    ensures AllDigits(Pad2(n)) && Atoi(Pad2(n)) == n
  {
    var s := Pad2(n);
    assert s[..1] == [Digit(n / 10)];
    AtoiDigit(n / 10);
    AtoiDigit(n % 10);
    assert DigitsValue(s[..1]) == n / 10;
    assert DigitsValue(s) == n / 10 * 10 + n % 10;
  }

  lemma AtoiPad4(n: int)
    requires 0 <= n < 10000
    ensures Atoi(Pad4(n)) == n
  {
    var s := Pad4(n);
    assert s[..3][..2] == Pad2(n / 100);
    assert s[..2] == Pad2(n / 100);
    assert s[..3] == Pad2(n / 100) + [Digit(n % 100 / 10)];
    AtoiPad2(n / 100);
    assert DigitsValue(s[..2]) == n / 100;
    assert DigitsValue(s) == n / 100 * 100 + n % 100 / 10 * 10 + n % 10;
  }

  lemma AtoiDigit(d: int)
    requires 0 <= d < 10
    ensures AllDigits([Digit(d)]) && DigitsValue([Digit(d)]) == d
    ensures Atoi([Digit(d)]) == d
  {
    assert Digit(d) as int - '0' as int == d;
    assert [Digit(d)][..0] == [];
    assert DigitsValue([Digit(d)]) == DigitsValue([]) * 10 + d;
  }

  /**
   * Each slice the evaluator takes of a formatted snapshot is exactly the
   * rendering of that field, and reads back as the clock's value.
   */
  lemma FormatSlice(c: Clock, f: Field)
    requires ValidClock(c)
    ensures Slice(Format(c), f) == Render(c, f)
    ensures Atoi(Slice(Format(c), f)) == Component(c, f)
  {
    var t := Format(c);
    match f
    case Hour => assert t[11..13] == Pad2(c.hour); AtoiPad2(c.hour);
    case Minute => assert t[14..16] == Pad2(c.minute); AtoiPad2(c.minute);
    case Second => assert t[17..19] == Pad2(c.second); AtoiPad2(c.second);
    case Day => assert t[8..10] == Pad2(c.day); AtoiPad2(c.day);
    case Month => assert t[5..7] == Pad2(c.month); AtoiPad2(c.month);
    case Weekday => assert t[20..21] == [Digit(c.weekday)]; AtoiDigit(c.weekday);
  }

  /** Round trip: a formatted snapshot decodes to the clock it came from. */
  lemma DecodeFormat(c: Clock)
    requires ValidClock(c)
    ensures Decode(Format(c)) == c
  {
    var t := Format(c);
    assert t[..4] == Pad4(c.year);
    AtoiPad4(c.year);
    FormatSlice(c, Month);
    FormatSlice(c, Day);
    FormatSlice(c, Hour);
    FormatSlice(c, Minute);
    FormatSlice(c, Second);
    FormatSlice(c, Weekday);
  }

  /** Distinct clocks give distinct snapshots. */
  lemma FormatInjective(c: Clock, d: Clock)
    requires ValidClock(c) && ValidClock(d)
    requires Format(c) == Format(d)
    ensures c == d
  {
    DecodeFormat(c);
    DecodeFormat(d);
  }
}

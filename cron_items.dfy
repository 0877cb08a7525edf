/**
 * A registered item and the six-field check: the time specification is split
 * on single spaces into "second minute hour day-of-month day-of-week month",
 * and each token is matched against its slice of the round's snapshot, in the
 * order hour, minute, second, day, month, weekday. The first field that does
 * not match decides the outcome, so a fault in a later field is never reached
 * once an earlier field has failed to match.
 */
module CronItems {
  import opened GoStrings
  import opened Snapshot
  import opened TimeMatch

  /** The caller's task function, seen only through an identifier. */
  type TaskId = nat

  /** One registry entry: task, time specification, dedup key and description. */
  datatype CronItem = CronItem(task: TaskId, spec: string, key: string, desc: string)

  /** Position of a field's token in the six-token specification. */
  function TokenIndex(f: Field): (i: nat)
    ensures i < 6
  {
    match f
    case Second => 0
    case Minute => 1
    case Hour => 2
    case Day => 3
    case Weekday => 4
    case Month => 5
  }

  /** The order in which the evaluator consults the fields. */
  const CHECK_ORDER: seq<Field> := [Hour, Minute, Second, Day, Month, Weekday]

  /** Whether the token for field `f` matches that field's slice of `t`. */
  predicate FieldMatches(tokens: seq<string>, t: string, f: Field)
    requires |tokens| == 6 && |t| == 21
  {
    FieldVerdict(tokens[TokenIndex(f)], Slice(t, f)) == Match
  }

  /** The verdict of the first field in `order` that does not match, or Match. */
  function FirstMiss(tokens: seq<string>, t: string, order: seq<Field>): Verdict
    requires |tokens| == 6 && |t| == 21
  {
    if order == [] then Match
    else
      var v := FieldVerdict(tokens[TokenIndex(order[0])], Slice(t, order[0]));
      if v == Match then FirstMiss(tokens, t, order[1..]) else v
  }

  /** The outcome of checking a specification against a snapshot. */
  function ItemVerdict(spec: string, t: string): Verdict
    requires |t| == 21
  {
    var tokens := Split(spec, ' ');
    if |tokens| != 6 then NoMatch else FirstMiss(tokens, t, CHECK_ORDER)
  }

  lemma {:induction false} FirstMissMatch(tokens: seq<string>, t: string, order: seq<Field>)
    requires |tokens| == 6 && |t| == 21
    ensures FirstMiss(tokens, t, order) == Match <==>
      forall i :: 0 <= i < |order| ==> FieldMatches(tokens, t, order[i])
  {
    if order != [] {
      FirstMissMatch(tokens, t, order[1..]);
      assert forall i :: 1 <= i < |order| ==> order[i] == order[1..][i - 1];
    }
  }

  /** The field at position `k` of `order` faults, and every field before it matches. */
  predicate FaultsFirstAt(tokens: seq<string>, t: string, order: seq<Field>, k: int)
    requires |tokens| == 6 && |t| == 21
  {
    && 0 <= k < |order|
    && FieldVerdict(tokens[TokenIndex(order[k])], Slice(t, order[k])) == Fault
    && forall i :: 0 <= i < k ==> FieldMatches(tokens, t, order[i])
  }

  lemma {:induction false} FirstMissFault(tokens: seq<string>, t: string, order: seq<Field>)
    requires |tokens| == 6 && |t| == 21
    ensures FirstMiss(tokens, t, order) == Fault <==> exists k :: FaultsFirstAt(tokens, t, order, k)
  {
    if order != [] {
      FirstMissFault(tokens, t, order[1..]);
      var v := FieldVerdict(tokens[TokenIndex(order[0])], Slice(t, order[0]));
      if v == Match {
        if FirstMiss(tokens, t, order) == Fault {
          var k :| FaultsFirstAt(tokens, t, order[1..], k);
          forall i | 0 <= i < k + 1 ensures FieldMatches(tokens, t, order[i]) {
            if i > 0 { assert order[i] == order[1..][i - 1]; }
          }
          assert FaultsFirstAt(tokens, t, order, k + 1);
        }
        if exists k :: FaultsFirstAt(tokens, t, order, k) {
          var k :| FaultsFirstAt(tokens, t, order, k);
          assert k != 0;
          forall i | 0 <= i < k - 1 ensures FieldMatches(tokens, t, order[1..][i]) {
            assert order[1..][i] == order[i + 1];
          }
          assert FaultsFirstAt(tokens, t, order[1..], k - 1);
        }
      } else if v == Fault {
        assert FaultsFirstAt(tokens, t, order, 0);
      } else {
        forall k | 0 <= k < |order| ensures !FaultsFirstAt(tokens, t, order, k) {
          if k > 0 { assert !FieldMatches(tokens, t, order[0]); }
        }
      }
    }
  }

  /** Where a field stands in the check order; every field is checked. */
  function CheckPosition(f: Field): (k: nat)
    ensures k < 6 && CHECK_ORDER[k] == f
  {
    match f
    case Hour => 0
    case Minute => 1
    case Second => 2
    case Day => 3
    case Month => 4
    case Weekday => 5
  }

  /**
   * An item matches iff its specification splits on single spaces into
   * exactly six tokens and every token matches its slice of the snapshot.
   */
  lemma ItemMatchIff(spec: string, t: string)
    requires |t| == 21
    ensures ItemVerdict(spec, t) == Match <==>
      var tokens := Split(spec, ' ');
      |tokens| == 6 && forall f: Field :: FieldMatches(tokens, t, f)
  {
    var tokens := Split(spec, ' ');
    if |tokens| == 6 {
      FirstMissMatch(tokens, t, CHECK_ORDER);
      if forall i :: 0 <= i < 6 ==> FieldMatches(tokens, t, CHECK_ORDER[i]) {
        forall f: Field ensures FieldMatches(tokens, t, f) {
          assert CHECK_ORDER[CheckPosition(f)] == f;
        }
      }
    }
  }

  /**
   * An item faults iff it has six tokens and, checking hour, minute, second,
   * day, month, weekday in turn, the first token that does not match faults.
   */
  lemma ItemFaultIff(spec: string, t: string)
    requires |t| == 21
    ensures ItemVerdict(spec, t) == Fault <==>
      var tokens := Split(spec, ' ');
      |tokens| == 6 && exists k :: FaultsFirstAt(tokens, t, CHECK_ORDER, k)
  {
    var tokens := Split(spec, ' ');
    if |tokens| == 6 {
      FirstMissFault(tokens, t, CHECK_ORDER);
    }
  }

  /** A specification without exactly six tokens never matches and never faults, whatever the time. */
  lemma MalformedSpecInert(spec: string, t: string)
    requires |t| == 21
    requires |Split(spec, ' ')| != 6
    ensures ItemVerdict(spec, t) == NoMatch
  {
  }

  /**
   * Against a formatted snapshot, an item matches iff each of its six
   * tokens matches that field's rendering (two zero-padded digits, or one
   * digit for the weekday).
   */
  lemma ClockMatchIff(spec: string, c: Clock)
    requires ValidClock(c)
    ensures ItemVerdict(spec, Format(c)) == Match <==>
      var tokens := Split(spec, ' ');
      |tokens| == 6 && forall f: Field :: FieldVerdict(tokens[TokenIndex(f)], Render(c, f)) == Match
  {
    var t := Format(c);
    var tokens := Split(spec, ' ');
    ItemMatchIff(spec, t);
    if |tokens| == 6 {
      forall f: Field
        ensures FieldMatches(tokens, t, f) <==> FieldVerdict(tokens[TokenIndex(f)], Render(c, f)) == Match
      {
        FormatSlice(c, f);
      }
    }
  }

  /** The six tokens of a specification whose only constrained field is the second. */
  lemma SecondsOnlyTokens(tok: string)
    requires ' ' !in tok
    ensures Split(tok + " * * * * *", ' ') == [tok, "*", "*", "*", "*", "*"]
  {
    var parts := [tok, "*", "*", "*", "*", "*"];
    assert Join(parts[5..], ' ') == "*";
    assert Join(parts[4..], ' ') == "* *";
    assert Join(parts[3..], ' ') == "* * *";
    assert Join(parts[2..], ' ') == "* * * *";
    assert Join(parts[1..], ' ') == "* * * * *";
    assert Join(parts, ' ') == tok + " * * * * *";
    SplitJoin(parts, ' ');
  }

  /** With only the second constrained, the item's verdict is that of the second's token. */
  lemma SecondsOnly(tok: string, t: string)
    requires |t| == 21 && ' ' !in tok
    ensures ItemVerdict(tok + " * * * * *", t) == FieldVerdict(tok, Slice(t, Second))
  {
    SecondsOnlyTokens(tok);
    var tokens := [tok, "*", "*", "*", "*", "*"];
    var v := FieldVerdict(tok, Slice(t, Second));
    assert FirstMiss(tokens, t, CHECK_ORDER[5..]) == Match;
    assert FirstMiss(tokens, t, CHECK_ORDER[4..]) == Match;
    assert FirstMiss(tokens, t, CHECK_ORDER[3..]) == Match;
    assert FirstMiss(tokens, t, CHECK_ORDER[2..]) == v;
    assert FirstMiss(tokens, t, CHECK_ORDER[1..]) == v;
    assert FirstMiss(tokens, t, CHECK_ORDER) == v;
  }

  /** The step token with divisor 5 against a two-digit zero-padded value: a match exactly on multiples of five. */
  lemma EveryFifthField(n: int)
    requires 0 <= n < 100
    ensures FieldVerdict("*/5", Pad2(n)) == (if n % 5 == 0 then Match else NoMatch)
  {
    var tok := "*/5";
    assert Index(tok, '/') == 1;
    assert tok[..1] == "*" && tok[2..] == [Digit(5)];
    AtoiDigit(5);
    AtoiPad2(n);
  }

  /** "0-5" against a two-digit zero-padded value: a match exactly from 0 to 5. */
  lemma FirstSixField(n: int)
    requires 0 <= n < 100
    ensures FieldVerdict("0-5", Pad2(n)) == (if n <= 5 then Match else NoMatch)
  {
    var tok := "0-5";
    assert Index(tok, '-') == 1;
    assert tok[..1] == [Digit(0)] && tok[2..] == [Digit(5)];
    AtoiDigit(0);
    AtoiDigit(5);
    AtoiPad2(n);
  }

  /** A spec whose second token steps by 5 and whose other tokens are stars fires at seconds 00, 05, ..., 55 and at no other second, and never faults. */
  lemma EveryFifthSecond(c: Clock)
    requires ValidClock(c)
    ensures ItemVerdict("*/5 * * * * *", Format(c)) == (if c.second % 5 == 0 then Match else NoMatch)
  {
    assert "*/5" + " * * * * *" == "*/5 * * * * *";
    SecondsOnly("*/5", Format(c));
    FormatSlice(c, Second);
    EveryFifthField(c.second);
  }

  /** "0-5 * * * * *" fires at seconds 00 to 05 inclusive and not from 06 to 59. */
  lemma FirstSixSeconds(c: Clock)
    requires ValidClock(c)
    ensures ItemVerdict("0-5 * * * * *", Format(c)) == (if c.second <= 5 then Match else NoMatch)
  {
    assert "0-5" + " * * * * *" == "0-5 * * * * *";
    SecondsOnly("0-5", Format(c));
    FormatSlice(c, Second);
    FirstSixField(c.second);
  }

  /** Exact tokens against a two-digit zero-padded value: "5" never equals it, "05" equals it only for 5. */
  lemma PaddedField(n: int)
    requires 0 <= n < 100
    ensures FieldVerdict("5", Pad2(n)) == NoMatch
    ensures FieldVerdict("05", Pad2(n)) == (if n == 5 then Match else NoMatch)
  {
    assert |Pad2(n)| == 2;
    assert Pad2(n) == "05" <==> n == 5;
  }

  /** The weekday slice is one unpadded digit, so there the exact token "5" is the one that matches 5. */
  lemma WeekdayField(d: int)
    requires 0 <= d < 7
    ensures FieldVerdict("5", [Digit(d)]) == (if d == 5 then Match else NoMatch)
    ensures FieldVerdict("05", [Digit(d)]) == NoMatch
  {
    assert [Digit(d)] == "5" <==> d == 5;
  }

  /**
   * Exact tokens compare verbatim against zero-padded values: "5" never
   * fires, while "05" fires exactly at second 05.
   */
  lemma PaddingMatters(c: Clock)
    requires ValidClock(c)
    ensures ItemVerdict("5 * * * * *", Format(c)) == NoMatch
    ensures ItemVerdict("05 * * * * *", Format(c)) == (if c.second == 5 then Match else NoMatch)
  {
    assert "5" + " * * * * *" == "5 * * * * *";
    assert "05" + " * * * * *" == "05 * * * * *";
    SecondsOnly("5", Format(c));
    SecondsOnly("05", Format(c));
    FormatSlice(c, Second);
    PaddedField(c.second);
  }
}

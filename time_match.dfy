/**
 * The field matcher: one crontab token against one clock value cut from the
 * snapshot. The source returns a boolean with inverted polarity (true means
 * "skip this item") and panics on a division by zero; here the three
 * outcomes are named: Match (false), NoMatch (true), Fault (the panic).
 */
module TimeMatch {
  import opened GoStrings

  datatype Verdict = Match | NoMatch | Fault

  /** The shapes a token can take, in the order the matcher tests for them. */
  datatype Token =
    | Any                              // "*"
    | Range(lo: string, hi: string)    // exactly one '-'
    | BadRange                         // two or more '-'
    | List(items: seq<string>)         // ',' and no '-'
    | Step(n: string)                  // "*/n": '/' and neither '-' nor ','
    | BadStep                          // '/' with a left side other than "*", or two '/'
    | Exact(s: string)                 // none of "-,/"

  /**
   * Reading a token: "*" first, then any '-' makes it a range, then any ','
   * a list, then any '/' a step; everything else is compared verbatim.
   */
  function Classify(tok: string): (k: Token)
    ensures k.Exact? ==> k.s == tok && tok != "*" && '-' !in tok && ',' !in tok && '/' !in tok
    ensures k.Range? ==> '-' !in k.lo && '-' !in k.hi && tok == k.lo + "-" + k.hi
  {
    if tok == "*" then Any
    else if '-' in tok then
      var i := Index(tok, '-');
      assert tok == tok[..i] + "-" + tok[i + 1..];
      if '-' in tok[i + 1..] then BadRange else Range(tok[..i], tok[i + 1..])
    else if ',' in tok then List(Split(tok, ','))
    else if '/' in tok then
      var i := Index(tok, '/');
      if '/' in tok[i + 1..] || tok[..i] != "*" then BadStep else Step(tok[i + 1..])
    else Exact(tok)
  }

  /** What a token of each shape says about a value. */
  function Evaluate(k: Token, value: string): Verdict {
    match k
    case Any => Match
    case Range(lo, hi) => if Atoi(lo) <= Atoi(value) <= Atoi(hi) then Match else NoMatch
    case BadRange => NoMatch
    case List(items) => if value in items then Match else NoMatch
    case Step(n) =>
      if Atoi(n) == 0 then Fault
      else if GoRem(Atoi(value), Atoi(n)) == 0 then Match else NoMatch
    case BadStep => NoMatch
    case Exact(s) => if s == value then Match else NoMatch
  }

  /** The reference meaning of one field token against one value. */
  function FieldVerdict(tok: string, value: string): Verdict {
    Evaluate(Classify(tok), value)
  }

  /**
   * The matcher as the source runs it: the same tests in the same order,
   * strings.Split on the separator, a search loop over the list elements,
   * and Atoi with its error ignored. A zero divisor is the fault the
   * source's `%` panics with.
   */
  method AnalyzeTime(a: string, b: string) returns (v: Verdict)
    ensures v == FieldVerdict(a, b)
  {
    if a == "*" {
      return Match;
    }
    if Index(a, '-') > -1 {
      var aa := Split(a, '-');
      SplitPair(a, '-');
      if |aa| != 2 {
        return NoMatch;
      }
      var a1 := Atoi(aa[0]);
      var a2 := Atoi(aa[1]);
      var a3 := Atoi(b);
      if a3 >= a1 && a3 <= a2 {
        return Match;
      } else {
        return NoMatch;
      }
    }
    if Index(a, ',') > -1 {
      var ok := true;
      var aa := Split(a, ',');
      for j := 0 to |aa|
        invariant ok && b !in aa[..j]
      {
        if aa[j] == b {
          ok := false;
          break;
        }
      }
      return if ok then NoMatch else Match;
    }
    if Index(a, '/') > -1 {
      var aa := Split(a, '/');
      SplitPair(a, '/');
      if |aa| != 2 {
        return NoMatch;
      }
      if aa[0] != "*" {
        return NoMatch;
      }
      var a1 := Atoi(aa[1]);
      var a2 := Atoi(b);
      if a1 == 0 {
        return Fault;
      }
      if GoRem(a2, a1) == 0 {
        return Match;
      } else {
        return NoMatch;
      }
    }
    if a != b {
      return NoMatch;
    }
    return Match;
  }

  /** "*" matches every value. */
  lemma StarMatchesAll(value: string)
    ensures FieldVerdict("*", value) == Match
  {
  }

  /** A token with none of "-,/" matches only the identical string, and never faults. */
  lemma ExactIsVerbatim(tok: string, value: string)
    requires tok != "*" && '-' !in tok && ',' !in tok && '/' !in tok
    ensures FieldVerdict(tok, value) == Match <==> tok == value
    ensures FieldVerdict(tok, value) != Fault
  {
  }

  /**
   * Any token holding a '-' is a range, whatever else it holds: it never
   * matches unless it splits into exactly two parts, and then it matches iff
   * the value lies between the parts read as numbers (unparsable parts read
   * as 0). It never faults.
   */
  lemma RangeMeaning(tok: string, value: string)
    requires '-' in tok
    ensures var parts := Split(tok, '-');
      FieldVerdict(tok, value) ==
        if |parts| == 2 && Atoi(parts[0]) <= Atoi(value) <= Atoi(parts[1]) then Match else NoMatch
  {
    SplitPair(tok, '-');
  }

  /** A list (',' without '-') matches iff the value equals one of its elements verbatim. */
  lemma ListMeaning(tok: string, value: string)
    requires ',' in tok && '-' !in tok
    ensures FieldVerdict(tok, value) == Match <==> value in Split(tok, ',')
    ensures FieldVerdict(tok, value) != Fault
  {
  }

  /**
   * A step ('/' without '-' or ',') matches iff it splits into exactly two
   * parts, the left one is "*", and the value is a multiple of the right
   * one; a right part that reads as 0 (a literal 0 or anything unparsable)
   * faults instead.
   */
  lemma StepMeaning(tok: string, value: string)
    requires '/' in tok && '-' !in tok && ',' !in tok
    ensures var parts := Split(tok, '/');
      FieldVerdict(tok, value) ==
        if |parts| != 2 || parts[0] != "*" then NoMatch
        else if Atoi(parts[1]) == 0 then Fault
        else if GoRem(Atoi(value), Atoi(parts[1])) == 0 then Match
        else NoMatch
  {
    SplitPair(tok, '/');
  }

  /** The matcher faults only on a well-formed step token ("*" "/" n) whose n reads as 0. */
  lemma FaultOnlyOnZeroStep(tok: string, value: string)
    requires FieldVerdict(tok, value) == Fault
    ensures var k := Classify(tok); k.Step? && Atoi(k.n) == 0
    ensures '/' in tok && '-' !in tok && ',' !in tok
  {
  }
}

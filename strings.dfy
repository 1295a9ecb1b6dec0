/**
 * The small pieces of Go's `strings` and `strconv` packages that the client
 * relies on: `strings.Join` and `strconv.Itoa`, each with an inverse
 * (a cut/split at a separator character, and a decimal parser) so that
 * what the builders write into a parameter value can be read back.
 */
module Strings {
  import opened Wrappers

  /** Total length of the elements. */
  function TotalLength(elems: seq<string>): nat
  {
    if elems == [] then 0 else |elems[0]| + TotalLength(elems[1..])
  }

  /**
   * strings.Join: the elements with `sep` between consecutive ones; no
   * elements give "". Nothing is dropped: the result is as long as the
   * elements plus one separator between each consecutive pair, and it starts
   * with the first element.
   */
  function Join(elems: seq<string>, sep: string): (r: string)
    ensures elems == [] ==> r == ""
    ensures |elems| >= 1 ==> elems[0] <= r && |r| == TotalLength(elems) + (|elems| - 1) * |sep|
  {
    if elems == [] then ""
    else if |elems| == 1 then elems[0]
    else elems[0] + sep + Join(elems[1..], sep)
  }

  /** Splits `s` at the first occurrence of `c`; None when `c` does not occur. */
  function Cut(s: string, c: char): (r: Option<(string, string)>)
    ensures r.None? <==> c !in s
    ensures r.Some? ==> c !in r.value.0 && s == r.value.0 + [c] + r.value.1
  {
    if s == [] then None
    else if s[0] == c then Some(([], s[1..]))
    else
      match Cut(s[1..], c)
      case None => None
      case Some((before, after)) => Some(([s[0]] + before, after))
  }

  /** Cutting at a character that the first part does not contain finds exactly that part. */
  lemma {:induction false} CutAt(before: string, c: char, after: string)
    requires c !in before
    ensures Cut(before + [c] + after, c) == Some((before, after))
  {
    var s := before + [c] + after;
    if before == [] {
      assert s[0] == c && s[1..] == after;
    } else {
      assert s[0] == before[0] != c;
      assert s[1..] == before[1..] + [c] + after;
      CutAt(before[1..], c, after);
      assert [s[0]] + before[1..] == before;
    }
  }

  /** The pieces of `s` between occurrences of `c` (strings.Split with a one-character separator). */
  function Split(s: string, c: char): (parts: seq<string>)
    ensures |parts| >= 1
    decreases |s|
  {
    match Cut(s, c)
    case None => [s]
    case Some((before, after)) => [before] + Split(after, c)
  }

  /** Joining the pieces of a split gives back the original string. */
  lemma {:induction false} JoinSplit(s: string, c: char)
    ensures Join(Split(s, c), [c]) == s
    decreases |s|
  {
    match Cut(s, c)
    case None =>
    case Some((before, after)) =>
      JoinSplit(after, c);
      assert Split(s, c) == [before] + Split(after, c);
  }

  /** A non-empty list of elements free of `c` is recovered by splitting its join at `c`. */
  lemma {:induction false} SplitJoin(elems: seq<string>, c: char)
    requires |elems| >= 1
    requires forall i | 0 <= i < |elems| :: c !in elems[i]
    ensures Split(Join(elems, [c]), c) == elems
  {
    if |elems| == 1 {
      assert Cut(elems[0], c).None?;
    } else {
      var rest := Join(elems[1..], [c]);
      assert Join(elems, [c]) == elems[0] + [c] + rest;
      CutAt(elems[0], c, rest);
      SplitJoin(elems[1..], c);
      assert elems == [elems[0]] + elems[1..];
    }
  }

  predicate IsDigit(ch: char)
  {
    '0' <= ch <= '9'
  }

  predicate AllDigits(s: string)
  {
    forall i | 0 <= i < |s| :: IsDigit(s[i])
  }

  function DigitChar(d: nat): (ch: char)
    requires d < 10
    ensures IsDigit(ch)
  {
    ('0' as int + d) as char
  }

  function DigitValue(ch: char): (d: nat)
    requires IsDigit(ch)
    ensures d < 10
  {
    ch as int - '0' as int
  }

  /** The decimal numeral of a natural number, without leading zeros. */
  function Decimal(n: nat): (s: string)
    ensures |s| >= 1 && AllDigits(s)
    ensures s[0] == '0' ==> n == 0
    decreases n
  {
    if n < 10 then [DigitChar(n)] else Decimal(n / 10) + [DigitChar(n % 10)]
  }

  /** The number a string of decimal digits denotes. */
  function DecimalValue(s: string): nat
    requires AllDigits(s)
  {
    if s == [] then 0 else DecimalValue(s[..|s| - 1]) * 10 + DigitValue(s[|s| - 1])
  }

  /** strconv.Itoa: the base-10 form of `n`, with a leading '-' when negative. */
  function Itoa(n: int): (s: string)
    ensures |s| >= 1
    ensures s[0] == '-' <==> n < 0
    ensures AllDigits(if n < 0 then s[1..] else s)
    // canonical form: no leading zeros, and "0" is the only numeral starting with '0'
    ensures n < 0 ==> |s| >= 2 && s[1] != '0'
    ensures n >= 0 && s[0] == '0' ==> s == "0"
  {
    if n < 0 then "-" + Decimal(-n) else Decimal(n)
  }

  /** Reads an optionally negative decimal numeral; None for anything else. */
  function ParseInt(s: string): Option<int>
  {
    if |s| >= 2 && s[0] == '-' && AllDigits(s[1..]) then Some(-(DecimalValue(s[1..]) as int))
    else if |s| >= 1 && AllDigits(s) then Some(DecimalValue(s))
    else None
  }

  lemma {:induction false} DecimalRoundTrip(n: nat)
    ensures DecimalValue(Decimal(n)) == n
    decreases n
  {
    if n >= 10 {
      var s := Decimal(n);
      assert s[..|s| - 1] == Decimal(n / 10);
      DecimalRoundTrip(n / 10);
    }
  }

  /** Itoa loses nothing: parsing its output gives the number back. */
  lemma ItoaRoundTrip(n: int)
    ensures ParseInt(Itoa(n)) == Some(n)
  {
    if n < 0 {
      DecimalRoundTrip(-n);
      assert Itoa(n)[1..] == Decimal(-n);
    } else {
      DecimalRoundTrip(n);
    }
  }

  /** Distinct numbers are written as distinct strings. */
  lemma ItoaInjective(m: int, n: int)
    requires Itoa(m) == Itoa(n)
    ensures m == n
  {
    ItoaRoundTrip(m);
    ItoaRoundTrip(n);
  }
}

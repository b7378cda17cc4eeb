/**
 * The parts of Java's runtime library that the core's text handling relies on, with Java's
 * semantics written out: String.indexOf, lastIndexOf, substring, startsWith and replace,
 * BufferedReader.readLine, Integer/Long.toString and Integer/Long.valueOf (radix 10), and the
 * exceptions these and the core's collaborators raise.
 */
module JavaLang {
  import opened Wrappers

  /** The exceptions of the modelled code, keeping what the model needs of each. */
  datatype Exception =
    | IOError(message: string)                             // java.io.IOException (and its subclasses); the text comes from the environment
    | Timeout(message: string)                             // java.util.concurrent.TimeoutException, thrown by the core itself
    | NumberFormat(input: string)                          // NumberFormatException from Integer.valueOf or Long.valueOf
    | NullNumber                                           // NumberFormatException from Long.valueOf(null)
    | IndexOutOfBounds(begin: int, end: int, length: int)  // StringIndexOutOfBoundsException from String.substring
    | IllegalPort(port: int)                               // IllegalArgumentException from java.net.Socket: port outside 0..65535

  const IntMin: int := -0x8000_0000
  const IntMax: int := 0x7fff_ffff
  const LongMin: int := -0x8000_0000_0000_0000
  const LongMax: int := 0x7fff_ffff_ffff_ffff

  // ---------------------------------------------------------------- decimal numbers

  predicate IsDigit(c: char) { '0' <= c <= '9' }

  predicate AllDigits(s: string) { forall i :: 0 <= i < |s| ==> IsDigit(s[i]) }

  /** The value of a non-empty run of decimal digits, most significant first. */
  function DigitsValue(s: string): nat
    requires AllDigits(s)
  {
    if s == [] then 0 else 10 * DigitsValue(s[..|s| - 1]) + ((s[|s| - 1] as int) - ('0' as int))
  }

  /** The decimal digits of n without leading zeros ("0" for zero). */
  function NatDigits(n: nat): (s: string)
    ensures |s| >= 1 && AllDigits(s) && DigitsValue(s) == n
    ensures n >= 10 ==> s[0] != '0'
  {
    var last := (('0' as int) + n % 10) as char;
    if n < 10 then [last]
    else
      var front := NatDigits(n / 10);
      assert (front + [last])[..|front|] == front;
      front + [last]
  }

  /** Integer.toString and Long.toString: the text Java's string concatenation gives an integer. */
  function DecimalString(n: int): (s: string)
    ensures |s| >= 1
    ensures forall i :: 0 <= i < |s| ==> IsDigit(s[i]) || (i == 0 && s[i] == '-')
  {
    if n < 0 then "-" + NatDigits(-n) else NatDigits(n)
  }

  /**
   * Integer.parseInt / Long.parseLong with radix 10 for the range lo..hi: an optional sign
   * '-' or '+', then at least one digit, and the value must lie in the range.
   */
  function ParseDecimal(s: string, lo: int, hi: int): (r: Option<int>)
    ensures r.Some? ==> lo <= r.value <= hi
    ensures r.Some? ==> |s| >= 1 && (IsDigit(s[0]) || s[0] == '-' || s[0] == '+')
  {
    if s == [] then None
    else
      var digits := if s[0] == '-' || s[0] == '+' then s[1..] else s;
      if digits == [] || !AllDigits(digits) then None
      else
        var magnitude: int := DigitsValue(digits);
        var v := if s[0] == '-' then -magnitude else magnitude;
        if lo <= v <= hi then Some(v) else None
  }

  /** Integer.valueOf(String): a Java int, or None where Java throws NumberFormatException. */
  function ParseInt(s: string): (r: Option<int>)
    ensures r.Some? ==> IntMin <= r.value <= IntMax
  {
    ParseDecimal(s, IntMin, IntMax)
  }

  /** Long.valueOf(String): a Java long, or None where Java throws NumberFormatException. */
  function ParseLong(s: string): (r: Option<int>)
    ensures r.Some? ==> LongMin <= r.value <= LongMax
  {
    ParseDecimal(s, LongMin, LongMax)
  }

  /** Printing an integer and parsing it back gives the integer, for every value in range. */
  lemma DecimalRoundTrip(n: int, lo: int, hi: int)
    requires lo <= n <= hi
    ensures ParseDecimal(DecimalString(n), lo, hi) == Some(n)
  {
    var s := DecimalString(n);
    if n < 0 {
      assert s[1..] == NatDigits(-n);
    } else {
      assert IsDigit(s[0]);
    }
  }

  lemma IntRoundTrip(n: int)
    requires IntMin <= n <= IntMax
    ensures ParseInt(DecimalString(n)) == Some(n)
  {
    DecimalRoundTrip(n, IntMin, IntMax);
  }

  lemma LongRoundTrip(n: int)
    requires LongMin <= n <= LongMax
    ensures ParseLong(DecimalString(n)) == Some(n)
  {
    DecimalRoundTrip(n, LongMin, LongMax);
  }

  /** A printed integer holds no separator the core splits on. */
  lemma DecimalStringPlain(n: int)
    ensures ':' !in DecimalString(n) && ' ' !in DecimalString(n)
    ensures '\n' !in DecimalString(n) && '\r' !in DecimalString(n)
  {
    var s := DecimalString(n);
    forall i | 0 <= i < |s| ensures s[i] != ':' && s[i] != ' ' && s[i] != '\n' && s[i] != '\r' {
      assert IsDigit(s[i]) || s[i] == '-';
    }
  }

  // ---------------------------------------------------------------- strings

  /** p occurs in s at index k. */
  predicate MatchAt(s: string, p: string, k: int)
  {
    0 <= k && k + |p| <= |s| && s[k..k + |p|] == p
  }

  function IndexOfFrom(s: string, p: string, k: nat): (r: int)
    requires k <= |s|
    ensures r == -1 || (k <= r && MatchAt(s, p, r))
    ensures forall j :: k <= j && (r == -1 || j < r) ==> !MatchAt(s, p, j)
    decreases |s| - k
  {
    if k + |p| > |s| then -1
    else if s[k..k + |p|] == p then k
    else IndexOfFrom(s, p, k + 1)
  }

  /**
   * String.indexOf(str, fromIndex): the first occurrence of p at or after from (a negative
   * from counts as 0), or -1.
   */
  function IndexOf(s: string, p: string, from: int): (r: int)
    ensures r == -1 || (MatchAt(s, p, r) && (from <= r || p == []))
    ensures forall j :: from <= j && (r == -1 || j < r) ==> !MatchAt(s, p, j)
  {
    IndexOfFrom(s, p, if from < 0 then 0 else if from > |s| then |s| else from)
  }

  /** String.lastIndexOf: the last index holding c, or -1. */
  function LastIndexOf(s: string, c: char): (r: int)
    ensures -1 <= r < |s|
    ensures r >= 0 ==> s[r] == c
    ensures forall j :: r < j < |s| ==> s[j] != c
  {
    if s == [] then -1
    else if s[|s| - 1] == c then |s| - 1
    else LastIndexOf(s[..|s| - 1], c)
  }

  /** String.startsWith. */
  predicate StartsWith(s: string, p: string)
  {
    |p| <= |s| && s[..|p|] == p
  }

  /** String.substring(begin, end), which throws unless 0 <= begin <= end <= length. */
  function Substring(s: string, begin: int, end: int): (r: Result<string, Exception>)
    ensures r.Ok? <==> 0 <= begin <= end <= |s|
    ensures r.Ok? ==> |r.value| == end - begin
  {
    if 0 <= begin <= end <= |s| then Ok(s[begin..end]) else Err(IndexOutOfBounds(begin, end, |s|))
  }

  /** String.replace(c, ""): s with every occurrence of c taken out, the rest in order. */
  function Without(s: string, c: char): (r: string)
    ensures c !in r
    ensures |r| <= |s|
    ensures c !in s ==> r == s
  {
    if s == [] then []
    else (if s[0] == c then [] else [s[0]]) + Without(s[1..], c)
  }

  // ---------------------------------------------------------------- line reading

  predicate IsLineBreak(c: char) { c == '\n' || c == '\r' }

  predicate NoLineBreak(s: string) { forall i :: 0 <= i < |s| ==> !IsLineBreak(s[i]) }

  /** The length of the text before the first line break of s. */
  function LineEnd(s: string): (k: nat)
    ensures k <= |s|
    ensures NoLineBreak(s[..k])
    ensures k < |s| ==> IsLineBreak(s[k])
  {
    if s == [] then 0
    else if IsLineBreak(s[0]) then 0
    else
      var k := 1 + LineEnd(s[1..]);
      assert s[..k] == [s[0]] + s[1..][..k - 1];
      k
  }

  /** The first line break of s is at k. */
  lemma {:induction false} LineEndAt(s: string, k: nat)
    requires k < |s| && IsLineBreak(s[k]) && NoLineBreak(s[..k])
    ensures LineEnd(s) == k
  {
    if k > 0 {
      assert s[..k][0] == s[0];
      var t := s[1..];
      var u := t[..k - 1];
      forall i | 0 <= i < |u| ensures !IsLineBreak(u[i]) {
        assert u[i] == s[..k][i + 1];
      }
      LineEndAt(t, k - 1);
    }
  }

  /**
   * BufferedReader.readLine over the characters not yet read: null at the end of the input,
   * otherwise the text up to the next '\n', '\r' or "\r\n", which is consumed as well.
   */
  function ReadLine(rest: string): (r: (Option<string>, string))
    ensures r.0.None? <==> rest == []
    ensures r.0.None? ==> r.1 == []
    ensures r.0.Some? ==> NoLineBreak(r.0.value)
    ensures rest != [] ==> |r.1| < |rest|
  {
    if rest == [] then (None, [])
    else
      var k := LineEnd(rest);
      if k == |rest| then (Some(rest), [])
      else if rest[k] == '\r' && k + 1 < |rest| && rest[k + 1] == '\n' then (Some(rest[..k]), rest[k + 2..])
      else (Some(rest[..k]), rest[k + 1..])
  }

  /** A line written with a '\n' terminator is read back whole, and reading resumes after it. */
  lemma ReadTerminatedLine(line: string, rest: string)
    requires NoLineBreak(line)
    ensures ReadLine(line + "\n" + rest) == (Some(line), rest)
  {
    var s := line + "\n" + rest;
    assert s[..|line|] == line;
    LineEndAt(s, |line|);
    var k := LineEnd(s);
    assert s[..k] == line;
    assert s[k + 1..] == rest;
  }

  /** BufferedReader.readLine on a whole text: its first line, or null for an empty text. */
  function FirstLine(text: string): (line: Option<string>)
    ensures line.None? <==> text == []
    ensures line.Some? ==> NoLineBreak(line.value) && StartsWith(text, line.value)
  {
    var l := ReadLine(text).0;
    if l.Some? then assert text[..LineEnd(text)] == l.value; l else l
  }
}

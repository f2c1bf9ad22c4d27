/** Small facts about strings: decimal numbers, and texts joined and split at a mark. */
module Texts {

  predicate IsDigit(c: char) {
    '0' <= c <= '9'
  }

  predicate AllDigits(s: string) {
    forall i :: 0 <= i < |s| ==> IsDigit(s[i])
  }

  function DigitValue(c: char): nat
    requires IsDigit(c)
  {
    (c as int) - ('0' as int)
  }

  function Digit(n: nat): (c: char)
    requires n < 10
    ensures IsDigit(c) && DigitValue(c) == n
  {
    (('0' as int) + n) as char
  }

  /** `str(n)`. */
  function Decimal(n: nat): (s: string)
    ensures s != [] && AllDigits(s)
  {
    if n < 10 then [Digit(n)] else Decimal(n / 10) + [Digit(n % 10)]
  }

  /** `int(s)` of a string of digits. */
  function Value(s: string): nat
    requires AllDigits(s)
    decreases |s|
  {
    if s == [] then 0 else 10 * Value(s[..|s| - 1]) + DigitValue(s[|s| - 1])
  }

  lemma {:induction false} ValueOfDecimal(n: nat)
    ensures Value(Decimal(n)) == n
  {
    if n < 10 {
      assert Decimal(n)[..0] == [];
    } else {
      ValueOfDecimal(n / 10);
      assert Decimal(n)[..|Decimal(n)| - 1] == Decimal(n / 10);
    }
  }

  lemma DecimalInjective(m: nat, n: nat)
    requires Decimal(m) == Decimal(n)
    ensures m == n
  {
    ValueOfDecimal(m);
    ValueOfDecimal(n);
  }

  predicate StartsWith(s: string, prefix: string) {
    |prefix| <= |s| && s[..|prefix|] == prefix
  }

  predicate EndsWith(s: string, suffix: string) {
    |suffix| <= |s| && s[|s| - |suffix|..] == suffix
  }

  lemma PrefixFirst(s: string, prefix: string)
    requires prefix != ""
    ensures StartsWith(s, prefix) ==> s[0] == prefix[0]
  {
    if StartsWith(s, prefix) {
      assert s[0] == s[..|prefix|][0];
    }
  }

  // ---- Joining and splitting ----

  /** `mark.join(parts)`. */
  function Join(parts: seq<string>, mark: char): string {
    if parts == [] then ""
    else if |parts| == 1 then parts[0]
    else parts[0] + [mark] + Join(parts[1..], mark)
  }

  /** The position of the first mark, or the length. */
  function FirstMark(s: string, mark: char): (i: nat)
    ensures i <= |s| && mark !in s[..i] && (i < |s| ==> s[i] == mark)
  {
    if s == [] || s[0] == mark then 0
    else
      assert forall i {:trigger s[1..][..i]} :: 0 <= i < |s| ==> s[..i + 1] == [s[0]] + s[1..][..i];
      1 + FirstMark(s[1..], mark)
  }

  /** `s.split(mark)`. */
  function Split(s: string, mark: char): (parts: seq<string>)
    ensures parts != []
    decreases |s|
  {
    var i := FirstMark(s, mark);
    if i == |s| then [s] else [s[..i]] + Split(s[i + 1..], mark)
  }

  lemma {:induction false} FirstMarkAt(s: string, rest: string, mark: char)
    requires mark !in s
    ensures FirstMark(s, mark) == |s|
    ensures FirstMark(s + [mark] + rest, mark) == |s|
    decreases |s|
  {
    if s != [] {
      assert s[0] in s && (s + [mark] + rest)[1..] == s[1..] + [mark] + rest;
      FirstMarkAt(s[1..], rest, mark);
    }
  }

  lemma {:induction false} SplitParts(s: string, mark: char)
    ensures forall part | part in Split(s, mark) :: mark !in part
    decreases |s|
  {
    var i := FirstMark(s, mark);
    if i < |s| {
      SplitParts(s[i + 1..], mark);
    } else {
      assert s == s[..i];
    }
  }

  lemma {:induction false} SplitJoin(parts: seq<string>, mark: char)
    requires parts != [] && forall part | part in parts :: mark !in part
    ensures Split(Join(parts, mark), mark) == parts
    decreases |parts|
  {
    assert parts[0] in parts;
    if |parts| == 1 {
      FirstMarkAt(parts[0], "", mark);
    } else {
      var rest := Join(parts[1..], mark);
      var s := parts[0] + [mark] + rest;
      FirstMarkAt(parts[0], rest, mark);
      assert s[..|parts[0]|] == parts[0] && s[|parts[0]| + 1..] == rest;
      SplitJoin(parts[1..], mark);
    }
  }

  lemma SplitAt(s: string, rest: string, mark: char)
    requires mark !in s
    ensures Split(s + [mark] + rest, mark) == [s] + Split(rest, mark)
  {
    var joined := s + [mark] + rest;
    FirstMarkAt(s, rest, mark);
    assert joined[..|s|] == s && joined[|s| + 1..] == rest;
  }

  lemma Regrouped(head: string, tail: string, b: string, mark: char)
    ensures head + [mark] + tail + [mark] + b == head + [mark] + (tail + [mark] + b)
  {
  }

  lemma Prepended(head: string, first: seq<string>, second: seq<string>)
    ensures [head] + (first + second) == [head] + first + second
  {
  }

  /** Splitting a joined text splits both parts. */
  lemma {:induction false} SplitOfJoined(a: string, b: string, mark: char)
    ensures Split(a + [mark] + b, mark) == Split(a, mark) + Split(b, mark)
    decreases |a|
  {
    var i := FirstMark(a, mark);
    if i == |a| {
      assert a == a[..i];
      SplitAt(a, b, mark);
    } else {
      var head, tail := a[..i], a[i + 1..];
      assert a == head + [mark] + tail;
      SplitAt(head, tail, mark);
      Regrouped(head, tail, b, mark);
      SplitAt(head, tail + [mark] + b, mark);
      SplitOfJoined(tail, b, mark);
      Prepended(head, Split(tail, mark), Split(b, mark));
    }
  }

  /** However many parts contain the mark, the others are read back. */
  lemma {:induction false} SplitKeeps(parts: seq<string>, part: string, mark: char)
    requires part in parts && mark !in part
    ensures part in Split(Join(parts, mark), mark)
    decreases |parts|
  {
    if |parts| == 1 {
      FirstMarkAt(part, "", mark);
    } else {
      SplitOfJoined(parts[0], Join(parts[1..], mark), mark);
      if part == parts[0] {
        FirstMarkAt(part, "", mark);
      } else {
        SplitKeeps(parts[1..], part, mark);
      }
    }
  }

  /** Splitting undoes joining exactly when no part contains the mark. */
  lemma SplitJoinExactly(parts: seq<string>, mark: char)
    requires parts != []
    ensures Split(Join(parts, mark), mark) == parts <==> forall part | part in parts :: mark !in part
  {
    if forall part | part in parts :: mark !in part {
      SplitJoin(parts, mark);
    } else {
      SplitParts(Join(parts, mark), mark);
    }
  }

  /** Where two marked texts agree, the longer head and the longer tail contain the mark. */
  lemma MarkShows(a: string, x: string, b: string, y: string, mark: char)
    requires a + [mark] + x == b + [mark] + y && |a| < |b|
    ensures mark in b && mark in x
  {
    var s := a + [mark] + x;
    assert s[|a|] == mark && s[|a|] == b[|a|];
    assert s[|b|] == (b + [mark] + y)[|b|] && s[|b|] == x[|b| - |a| - 1];
  }

  /** A text after the last mark can be read back. */
  lemma FirstPartUnique(a: string, b: string, x: string, y: string, mark: char)
    requires a + [mark] + x == b + [mark] + y && mark !in a && mark !in b
    ensures a == b && x == y
  {
    FirstMarkAt(a, x, mark);
    FirstMarkAt(b, y, mark);
    var s := a + [mark] + x;
    assert s[..|a|] == a && s[..|b|] == b && s[|a| + 1..] == x && s[|b| + 1..] == y;
  }

  lemma LastPartUnique(a: string, b: string, x: string, y: string, mark: char)
    requires a + [mark] + x == b + [mark] + y && mark !in x && mark !in y
    ensures a == b && x == y
  {
    var s := a + [mark] + x;
    assert |a| == |b| by {
      if |a| < |b| {
        MarkShows(a, x, b, y, mark);
      } else if |b| < |a| {
        MarkShows(b, y, a, x, mark);
      }
    }
    assert s[..|a|] == a && s[..|b|] == b && s[|a| + 1..] == x && s[|b| + 1..] == y;
  }
}

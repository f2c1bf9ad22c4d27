/** The locale-agnostic number reader of `eval/classes.py`: which reading a number token has when either mark, a comma
    or a point, may group thousands or start the decimals. */
module NumberReader {
  import opened Options
  import opened Texts

  const SPACES := {' ', '\U{00A0}', '\U{202F}', '\''}
  const MINUS := '\U{2212}'

  predicate IsMark(c: char) {
    c == ',' || c == '.'
  }

  function Other(mark: char): char {
    if mark == ',' then '.' else ','
  }

  /** The token without group spaces, its minus sign plain. */
  function Bare(token: string): string {
    if token == [] then []
    else
      var c := token[0];
      (if c in SPACES then [] else if c == MINUS then ['-'] else [c]) + Bare(token[1..])
  }

  /** `s.replace(c, "")` and `s.replace(",", ".")`. */
  function Without(s: string, c: char): string {
    if s == [] then [] else (if s[0] == c then [] else [s[0]]) + Without(s[1..], c)
  }

  function Pointed(s: string): string {
    if s == [] then [] else [if s[0] == ',' then '.' else s[0]] + Pointed(s[1..])
  }

  /** `s.lstrip("-")`. */
  function Unsigned(s: string): string {
    if s != [] && s[0] == '-' then Unsigned(s[1..]) else s
  }

  /** The mark that occurs last: `bare[max(bare.rfind(","), bare.rfind("."))]`. */
  function LastMark(s: string): Option<char> {
    if s == [] then None else if IsMark(s[|s| - 1]) then Some(s[|s| - 1]) else LastMark(s[..|s| - 1])
  }

  predicate Thousands(groups: seq<string>) {
    forall i | 0 < i < |groups| :: |groups[i]| == 3
  }

  /** The numeral a token stands for; `None` is the ambiguous one. */
  function Reading(token: string): Option<string> {
    var bare := Bare(token);
    if ',' !in bare && '.' !in bare then Some(bare)
    else if ',' in bare && '.' in bare then
      match LastMark(bare)
      case Some(mark) => Some(Pointed(Without(bare, Other(mark))))
      case None => None
    else
      var mark := if ',' in bare then ',' else '.';
      var groups := Split(Unsigned(bare), mark);
      if Thousands(groups) && |groups| == 2 then None
      else if Thousands(groups) then Some(Without(bare, mark))
      else Some(Pointed(bare))
  }

  /** A decimal number: its sign, its digits, and how many of them are decimals. */
  datatype Number = Number(negative: bool, digits: nat, decimals: nat)

  /** `Decimal(numeral)` of a sign, digits, and perhaps a point and more digits; `None` is `InvalidOperation`. */
  function Parsed(numeral: string): Option<Number> {
    var negative := numeral != [] && numeral[0] == '-';
    var plain := if negative then numeral[1..] else numeral;
    var parts := Split(plain, '.');
    if |parts| == 1 && AllDigits(parts[0]) && parts[0] != "" then Some(Number(negative, Value(parts[0]), 0))
    else if |parts| == 2 && AllDigits(parts[0] + parts[1]) && parts[0] + parts[1] != "" then
      Some(Number(negative, Value(parts[0] + parts[1]), |parts[1]|))
    else None
  }

  /** `_decimal`. */
  function Read(token: string): Option<Number> {
    match Reading(token)
    case Some(numeral) => Parsed(numeral)
    case None => None
  }

  /** Without a digit there is no number, whatever its sign and point. */
  lemma NoDigitsNoNumber(sign: string)
    requires sign == "" || sign == "-"
    ensures Parsed(sign) == None && Parsed(sign + ".") == None
  {
    assert "-"[1..] == "" && "-."[1..] == ".";
    assert "" + "." == "." && "-" + "." == "-.";
    SplitAt("", "", '.');
    assert "" + ['.'] + "" == ".";
    assert Split("", '.') == [""];
  }

  // ---- Neither mark is special ----

  function Swapped(s: string): string {
    if s == [] then [] else [if IsMark(s[0]) then Other(s[0]) else s[0]] + Swapped(s[1..])
  }

  lemma {:induction false} BareSwapped(token: string)
    ensures Bare(Swapped(token)) == Swapped(Bare(token))
  {
    if token != [] {
      BareSwapped(token[1..]);
      assert Swapped(token)[1..] == Swapped(token[1..]);
      var c := token[0];
      var kept := if c in SPACES then [] else if c == MINUS then ['-'] else [c];
      assert Bare(token) == kept + Bare(token[1..]);
      SwappedJoined(kept, Bare(token[1..]));
    }
  }

  lemma {:induction false} SwappedJoined(a: string, b: string)
    ensures Swapped(a + b) == Swapped(a) + Swapped(b)
  {
    if a == [] {
      assert a + b == b;
    } else {
      assert (a + b)[1..] == a[1..] + b;
      SwappedJoined(a[1..], b);
    }
  }

  lemma {:induction false} MarksSwapped(s: string)
    ensures |Swapped(s)| == |s|
    ensures forall i | 0 <= i < |s| :: Swapped(s)[i] == if IsMark(s[i]) then Other(s[i]) else s[i]
    ensures (',' in Swapped(s) <==> '.' in s) && ('.' in Swapped(s) <==> ',' in s)
  {
    if s != [] {
      MarksSwapped(s[1..]);
      assert s == [s[0]] + s[1..];
    }
  }

  lemma {:induction false} LastMarkSwapped(s: string)
    ensures LastMark(Swapped(s)) == match LastMark(s) case Some(mark) => Some(Other(mark)) case None => None
    decreases |s|
  {
    MarksSwapped(s);
    if s != [] {
      var most := s[..|s| - 1];
      assert s == most + [s[|s| - 1]];
      SwappedJoined(most, [s[|s| - 1]]);
      assert Swapped([s[|s| - 1]]) == [Swapped(s)[|s| - 1]];
      assert Swapped(s)[..|s| - 1] == Swapped(most);
      LastMarkSwapped(most);
    }
  }

  lemma {:induction false} WithoutSwapped(s: string, mark: char)
    requires IsMark(mark)
    ensures Pointed(Without(Swapped(s), Other(mark))) == Pointed(Without(s, mark))
  {
    if s != [] {
      WithoutSwapped(s[1..], mark);
      assert Swapped(s)[1..] == Swapped(s[1..]);
      var c, d := s[0], Swapped(s)[0];
      var x, y := Without(s[1..], mark), Without(Swapped(s[1..]), Other(mark));
      if c != mark {
        assert Without(s, mark) == [c] + x && Without(Swapped(s), Other(mark)) == [d] + y;
        assert ([c] + x)[1..] == x && ([d] + y)[1..] == y;
      } else {
        assert Without(s, mark) == x && Without(Swapped(s), Other(mark)) == y;
      }
    }
  }

  lemma {:induction false} WithoutLone(s: string, mark: char)
    requires IsMark(mark) && Other(mark) !in s
    ensures Without(Swapped(s), Other(mark)) == Without(s, mark)
  {
    if s != [] {
      assert s[0] in s && forall c | c in s[1..] :: c in s;
      WithoutLone(s[1..], mark);
      assert Swapped(s)[1..] == Swapped(s[1..]);
    }
  }

  lemma {:induction false} PointedSwapped(s: string)
    ensures Pointed(Swapped(s)) == Pointed(s)
  {
    if s != [] {
      PointedSwapped(s[1..]);
      assert Swapped(s)[1..] == Swapped(s[1..]);
    }
  }

  lemma {:induction false} UnsignedSwapped(s: string)
    ensures Unsigned(Swapped(s)) == Swapped(Unsigned(s))
  {
    if s != [] && s[0] == '-' {
      assert Swapped(s)[1..] == Swapped(s[1..]);
      UnsignedSwapped(s[1..]);
    }
  }

  /** A text cut at its first mark. */
  lemma Cut(s: string, mark: char) returns (head: string, rest: string)
    requires mark in s
    ensures s == head + [mark] + rest && mark !in head && |rest| < |s|
    ensures forall c | c in head || c in rest :: c in s
  {
    var i := FirstMark(s, mark);
    assert i < |s| by {
      assert mark in s[..|s|];
    }
    head, rest := s[..i], s[i + 1..];
  }

  lemma SwappedAround(head: string, mark: char, rest: string)
    requires IsMark(mark) && mark !in head && Other(mark) !in head
    ensures Swapped(head + [mark] + rest) == head + [Other(mark)] + Swapped(rest)
  {
    SwappedJoined(head + [mark], rest);
    SwappedJoined(head, [mark]);
    SwappedUnmarked(head);
    assert Swapped([mark]) == [Other(mark)];
  }

  lemma {:induction false} SplitSwapped(s: string, mark: char)
    requires IsMark(mark) && Other(mark) !in s
    ensures Split(Swapped(s), Other(mark)) == Split(s, mark)
    decreases |s|
  {
    if mark in s {
      var head, rest := Cut(s, mark);
      SwappedAround(head, mark, rest);
      SplitAt(head, rest, mark);
      SplitAt(head, Swapped(rest), Other(mark));
      SplitSwapped(rest, mark);
    } else {
      SwappedUnmarked(s);
      SplitWhole(s, mark);
      SplitWhole(s, Other(mark));
    }
  }

  lemma UnsignedPart(s: string, c: char)
    requires c !in s
    ensures c !in Unsigned(s)
  {
    if s != [] && s[0] == '-' {
      assert forall d | d in s[1..] :: d in s;
      UnsignedPart(s[1..], c);
    }
  }

  lemma ReadingSwapped(token: string, mark: char)
    requires IsMark(mark) && mark in Bare(token) && Other(mark) !in Bare(token)
    ensures Reading(Swapped(token)) == Reading(token)
  {
    var bare := Bare(token);
    BareSwapped(token);
    MarksSwapped(bare);
    UnsignedPart(bare, Other(mark));
    UnsignedSwapped(bare);
    SplitSwapped(Unsigned(bare), mark);
    WithoutLone(bare, mark);
    PointedSwapped(bare);
  }

  /** Neutrality: for every token, exchanging commas and points never changes its reading. */
  lemma SeparatorNeutral(token: string)
    ensures Reading(Swapped(token)) == Reading(token) && Read(Swapped(token)) == Read(token)
  {
    var bare := Bare(token);
    BareSwapped(token);
    MarksSwapped(bare);
    if ',' in bare && '.' in bare {
      LastMarkSwapped(bare);
      if LastMark(bare).Some? {
        LastMarkIsMark(bare);
        WithoutSwapped(bare, Other(LastMark(bare).value));
      }
    } else if ',' in bare {
      ReadingSwapped(token, ',');
    } else if '.' in bare {
      ReadingSwapped(token, '.');
    } else {
      SwappedUnmarked(bare);
    }
  }

  lemma {:induction false} LastMarkIsMark(s: string)
    ensures LastMark(s).Some? ==> IsMark(LastMark(s).value)
    decreases |s|
  {
    if s != [] && !IsMark(s[|s| - 1]) {
      LastMarkIsMark(s[..|s| - 1]);
    }
  }

  lemma SwappedUnmarked(s: string)
    requires ',' !in s && '.' !in s
    ensures Swapped(s) == s
  {
    MarksSwapped(s);
  }

  // ---- Reading back what was printed ----

  /** The last three digits. */
  function Padded(n: nat): (s: string)
    ensures |s| == 3 && AllDigits(s)
  {
    [Digit(n / 10 / 10 % 10), Digit(n / 10 % 10), Digit(n % 10)]
  }

  /** A number printed with its thousands grouped. */
  function Grouped(n: nat, mark: char): string {
    if n < 1000 then Decimal(n) else Grouped(n / 1000, mark) + [mark] + Padded(n)
  }

  function Groups(n: nat): (groups: seq<string>)
    ensures groups != [] && Thousands(groups) && (|groups| > 1 <==> n >= 1000) && (|groups| > 2 <==> n >= 1000000)
    ensures forall group | group in groups :: AllDigits(group)
  {
    if n < 1000 then [Decimal(n)] else Groups(n / 1000) + [Padded(n)]
  }

  predicate IsSign(sign: string) {
    sign == "" || sign == "-" || sign == [MINUS]
  }

  /** Digits and marks only. */
  predicate Clean(s: string) {
    forall c | c in s :: IsDigit(c) || IsMark(c)
  }

  lemma DigitsClean(s: string)
    requires AllDigits(s)
    ensures Clean(s) && ',' !in s && '.' !in s && '-' !in s
  {
    forall c | c in s
      ensures IsDigit(c)
    {
      var i :| 0 <= i < |s| && s[i] == c;
    }
  }

  lemma {:induction false} GroupedClean(n: nat, mark: char)
    requires IsMark(mark)
    ensures Clean(Grouped(n, mark)) && Other(mark) !in Grouped(n, mark) && (mark in Grouped(n, mark) <==> n >= 1000)
  {
    if n < 1000 {
      DigitsClean(Decimal(n));
    } else {
      GroupedClean(n / 1000, mark);
      DigitsClean(Padded(n));
    }
  }

  lemma CleanKept(c: char)
    requires IsDigit(c) || IsMark(c)
    ensures c !in SPACES && c != MINUS
  {
  }

  lemma {:induction false} BareClean(s: string)
    requires Clean(s)
    ensures Bare(s) == s
  {
    if s != [] {
      assert s[0] in s;
      CleanKept(s[0]);
      assert forall c | c in s[1..] :: c in s;
      BareClean(s[1..]);
      assert Bare(s) == [s[0]] + s[1..];
    }
  }

  lemma BareSigned(sign: string, s: string)
    requires IsSign(sign) && Clean(s)
    ensures Bare(sign + s) == Dash(sign) + s
  {
    BareClean(s);
    if sign == "" {
      assert sign + s == s;
    } else {
      assert (sign + s)[0] == sign[0] && (sign + s)[1..] == s;
      assert '-' !in SPACES && MINUS !in SPACES;
    }
  }

  function Dash(sign: string): string {
    if sign == "" then "" else "-"
  }

  lemma UnsignedDash(sign: string, s: string)
    requires s != "" && s[0] != '-'
    ensures Unsigned(Dash(sign) + s) == s
  {
    assert Dash("-") == "-" && Dash("") == "";
    if sign == "" {
      assert Dash(sign) + s == s;
    } else {
      assert (Dash(sign) + s)[0] == '-' && (Dash(sign) + s)[1..] == s;
    }
  }

  lemma {:induction false} WithoutJoined(a: string, b: string, c: char)
    ensures Without(a + b, c) == Without(a, c) + Without(b, c)
  {
    if a == [] {
      assert a + b == b;
    } else {
      assert (a + b)[1..] == a[1..] + b;
      WithoutJoined(a[1..], b, c);
    }
  }

  lemma {:induction false} WithoutAbsent(s: string, c: char)
    requires c !in s
    ensures Without(s, c) == s
  {
    if s != [] {
      assert s[0] in s && forall d | d in s[1..] :: d in s;
      WithoutAbsent(s[1..], c);
      assert s == [s[0]] + s[1..];
    }
  }

  lemma {:induction false} PointedJoined(a: string, b: string)
    ensures Pointed(a + b) == Pointed(a) + Pointed(b)
  {
    if a == [] {
      assert a + b == b;
    } else {
      assert (a + b)[1..] == a[1..] + b;
      PointedJoined(a[1..], b);
    }
  }

  lemma {:induction false} PointedAbsent(s: string)
    requires ',' !in s
    ensures Pointed(s) == s
  {
    if s != [] {
      assert s[0] in s && forall d | d in s[1..] :: d in s;
      PointedAbsent(s[1..]);
    }
  }

  lemma Thousandth(n: nat)
    ensures n / 10 / 10 / 10 == n / 1000
  {
  }

  lemma DecimalPadded(n: nat)
    requires n >= 1000
    ensures Decimal(n) == Decimal(n / 1000) + Padded(n)
  {
    Thousandth(n);
    var a, b := n / 10, n / 10 / 10;
    assert Decimal(n) == Decimal(a) + [Digit(n % 10)];
    assert Decimal(a) == Decimal(b) + [Digit(a % 10)];
    assert Decimal(b) == Decimal(b / 10) + [Digit(b % 10)];
  }

  lemma {:induction false} GroupedRead(n: nat, mark: char)
    requires IsMark(mark)
    ensures Split(Grouped(n, mark), mark) == Groups(n) && Without(Grouped(n, mark), mark) == Decimal(n)
  {
    if n < 1000 {
      DigitsClean(Decimal(n));
      SplitWhole(Decimal(n), mark);
      WithoutAbsent(Decimal(n), mark);
    } else {
      GroupedRead(n / 1000, mark);
      DigitsClean(Padded(n));
      LastGroup(Grouped(n / 1000, mark), Padded(n), mark);
      DecimalPadded(n);
    }
  }

  lemma LastGroup(head: string, last: string, mark: char)
    requires mark !in last
    ensures Split(head + [mark] + last, mark) == Split(head, mark) + [last]
    ensures Without(head + [mark] + last, mark) == Without(head, mark) + last
  {
    SplitOfJoined(head, last, mark);
    SplitWhole(last, mark);
    WithoutLast(head, last, mark);
  }

  lemma WithoutLast(head: string, last: string, mark: char)
    requires mark !in last
    ensures Without(head + [mark] + last, mark) == Without(head, mark) + last
  {
    WithoutJoined(head + [mark], last, mark);
    WithoutJoined(head, [mark], mark);
    WithoutAbsent(last, mark);
    WithoutMark(mark);
    assert Without(head, mark) + "" == Without(head, mark);
  }

  lemma WithoutMark(mark: char)
    ensures Without([mark], mark) == ""
  {
  }

  lemma SplitWhole(s: string, mark: char)
    requires mark !in s
    ensures Split(s, mark) == [s]
  {
    FirstMarkAt(s, "", mark);
  }

  lemma ParsedWhole(sign: string, digits: string)
    requires AllDigits(digits) && digits != ""
    ensures Parsed(Dash(sign) + digits) == Some(Number(sign != "", Value(digits), 0))
  {
    DigitsClean(digits);
    SplitWhole(digits, '.');
    PlainPart(sign, digits);
  }

  lemma ParsedParts(numeral: string, negative: bool, plain: string, digits: string, fraction: string)
    requires numeral != "" && (numeral[0] == '-' <==> negative)
    requires if negative then numeral[1..] == plain else numeral == plain
    requires Split(plain, '.') == [digits, fraction] && AllDigits(digits + fraction) && digits + fraction != ""
    ensures Parsed(numeral) == Some(Number(negative, Value(digits + fraction), |fraction|))
  {
  }

  lemma ParsedFraction(sign: string, digits: string, fraction: string)
    requires AllDigits(digits) && AllDigits(fraction) && digits != ""
    ensures Parsed(Dash(sign) + (digits + ['.'] + fraction))
         == Some(Number(sign != "", Value(digits + fraction), |fraction|))
  {
    var plain := digits + ['.'] + fraction;
    MarkedOnce(digits, '.', fraction);
    PlainPart(sign, plain);
    ParsedParts(Dash(sign) + plain, sign != "", plain, digits, fraction);
  }

  lemma PlainPart(sign: string, plain: string)
    requires plain != "" && plain[0] != '-'
    ensures var numeral := Dash(sign) + plain;
            numeral != "" && (numeral[0] == '-' <==> sign != "")
            && (if sign != "" then numeral[1..] == plain else numeral == plain)
  {
  }

  /** The branch of a token with one kind of mark. */
  lemma ReadingOne(token: string, bare: string, mark: char, groups: seq<string>)
    requires Bare(token) == bare && IsMark(mark) && mark in bare && Other(mark) !in bare
    requires Split(Unsigned(bare), mark) == groups
    ensures Reading(token) == if !Thousands(groups) then Some(Pointed(bare))
                              else if |groups| == 2 then None else Some(Without(bare, mark))
  {
  }

  lemma WithoutSigned(sign: string, s: string, mark: char)
    requires IsMark(mark)
    ensures Without(Dash(sign) + s, mark) == Dash(sign) + Without(s, mark)
  {
    WithoutJoined(Dash(sign), s, mark);
    WithoutAbsent(Dash(sign), mark);
  }

  lemma SignedMarks(sign: string, s: string, mark: char)
    requires IsMark(mark)
    ensures mark in Dash(sign) + s <==> mark in s
  {
    assert mark !in Dash(sign);
  }

  lemma ReadingThousands(token: string, sign: string, grouped: string, mark: char, digits: string)
    requires IsMark(mark) && Bare(token) == Dash(sign) + grouped && mark in grouped && Other(mark) !in grouped
    requires grouped[0] != '-' && Without(grouped, mark) == digits
    requires Thousands(Split(grouped, mark)) && |Split(grouped, mark)| > 2
    ensures Reading(token) == Some(Dash(sign) + digits)
  {
    UnsignedDash(sign, grouped);
    WithoutSigned(sign, grouped, mark);
    SignedMarks(sign, grouped, mark);
    SignedMarks(sign, grouped, Other(mark));
    ReadingOne(token, Dash(sign) + grouped, mark, Split(grouped, mark));
  }

  lemma ReadParsed(token: string, numeral: string, number: Number)
    requires Reading(token) == Some(numeral) && Parsed(numeral) == Some(number)
    ensures Read(token) == Some(number)
  {
  }

  lemma ReadingGrouped(sign: string, n: nat, mark: char)
    requires IsSign(sign) && IsMark(mark) && n >= 1000000
    ensures Reading(sign + Grouped(n, mark)) == Some(Dash(sign) + Decimal(n))
  {
    var grouped := Grouped(n, mark);
    GroupedClean(n, mark);
    GroupedRead(n, mark);
    GroupedFirst(n, mark);
    BareSigned(sign, grouped);
    ReadingThousands(sign + grouped, sign, grouped, mark, Decimal(n));
  }

  /** A grouped integer with at least two separators reads back as printed. */
  lemma GroupedReadsBack(sign: string, n: nat, mark: char)
    requires IsSign(sign) && IsMark(mark) && n >= 1000000
    ensures Read(sign + Grouped(n, mark)) == Some(Number(sign != "", n, 0))
  {
    ReadingGrouped(sign, n, mark);
    ParsedWhole(sign, Decimal(n));
    ValueOfDecimal(n);
    ReadParsed(sign + Grouped(n, mark), Dash(sign) + Decimal(n), Number(sign != "", n, 0));
  }

  lemma {:induction false} GroupedFirst(n: nat, mark: char)
    ensures Grouped(n, mark) != "" && IsDigit(Grouped(n, mark)[0])
  {
    if n >= 1000 {
      GroupedFirst(n / 1000, mark);
    }
  }

  lemma {:induction false} LastMarkAt(s: string, mark: char, digits: string)
    requires IsMark(mark) && AllDigits(digits)
    ensures LastMark(s + [mark] + digits) == Some(mark)
    decreases |digits|
  {
    var whole := s + [mark] + digits;
    if digits != "" {
      var fewer := digits[..|digits| - 1];
      assert whole[..|whole| - 1] == s + [mark] + fewer && whole[|whole| - 1] == digits[|digits| - 1];
      LastMarkAt(s, mark, fewer);
    }
  }

  lemma ReadingMixed(token: string, sign: string, grouped: string, mark: char, fraction: string, digits: string)
    requires IsMark(mark) && Bare(token) == Dash(sign) + (grouped + [Other(mark)] + fraction)
    requires mark in grouped && AllDigits(fraction) && Without(grouped, mark) == digits && ',' !in digits
    ensures Reading(token) == Some(Dash(sign) + (digits + ['.'] + fraction))
  {
    var other, bare := Other(mark), Bare(token);
    DigitsClean(fraction);
    assert bare == (Dash(sign) + grouped) + [other] + fraction;
    assert mark in bare && other in bare by {
      BothIn(Dash(sign), grouped, mark, other, fraction);
    }
    LastMarkAt(Dash(sign) + grouped, other, fraction);
    ReadingBoth(token, bare, other);
    WithoutText(sign, grouped, digits, mark, fraction);
    PointedText(sign, digits, other, fraction);
  }

  lemma BothIn(dash: string, grouped: string, mark: char, other: char, fraction: string)
    requires mark in grouped
    ensures mark in (dash + grouped) + [other] + fraction && other in (dash + grouped) + [other] + fraction
  {
    var i :| 0 <= i < |grouped| && grouped[i] == mark;
    assert ((dash + grouped) + [other] + fraction)[|dash| + i] == mark;
    assert ((dash + grouped) + [other] + fraction)[|dash + grouped|] == other;
  }

  /** The branch of a token with both kinds of mark. */
  lemma ReadingBoth(token: string, bare: string, last: char)
    requires Bare(token) == bare && IsMark(last) && last in bare && Other(last) in bare && LastMark(bare) == Some(last)
    ensures Reading(token) == Some(Pointed(Without(bare, Other(last))))
  {
  }

  lemma MixedReadBack(sign: string, grouped: string, mark: char, fraction: string, digits: string)
    requires IsSign(sign) && IsMark(mark) && AllDigits(fraction) && Clean(grouped) && mark in grouped
    requires Without(grouped, mark) == digits && AllDigits(digits) && digits != ""
    ensures Read(sign + (grouped + [Other(mark)] + fraction))
         == Some(Number(sign != "", Value(digits + fraction), |fraction|))
  {
    var text := grouped + [Other(mark)] + fraction;
    assert Clean(text) by {
      DigitsClean(fraction);
    }
    BareSigned(sign, text);
    DigitsClean(digits);
    ReadingMixed(sign + text, sign, grouped, mark, fraction, digits);
    ParsedFraction(sign, digits, fraction);
    ReadParsed(sign + text, Dash(sign) + (digits + ['.'] + fraction),
               Number(sign != "", Value(digits + fraction), |fraction|));
  }

  /** A grouped number whose decimals start at the other mark reads back as printed. */
  lemma GroupedDecimalReadsBack(sign: string, n: nat, mark: char, fraction: string)
    requires IsSign(sign) && IsMark(mark) && n >= 1000 && AllDigits(fraction)
    ensures Read(sign + (Grouped(n, mark) + [Other(mark)] + fraction))
         == Some(Number(sign != "", Value(Decimal(n) + fraction), |fraction|))
  {
    GroupedClean(n, mark);
    GroupedRead(n, mark);
    MixedReadBack(sign, Grouped(n, mark), mark, fraction, Decimal(n));
  }

  lemma WithoutText(sign: string, grouped: string, digits: string, mark: char, fraction: string)
    requires IsMark(mark) && Without(grouped, mark) == digits && mark !in fraction
    ensures Without(Dash(sign) + (grouped + [Other(mark)] + fraction), mark)
         == Dash(sign) + (digits + [Other(mark)] + fraction)
  {
    WithoutJoined(Dash(sign), grouped + [Other(mark)] + fraction, mark);
    WithoutJoined(grouped + [Other(mark)], fraction, mark);
    WithoutJoined(grouped, [Other(mark)], mark);
    WithoutAbsent(Dash(sign), mark);
    WithoutAbsent([Other(mark)], mark);
    WithoutAbsent(fraction, mark);
  }

  lemma PointedText(sign: string, digits: string, mark: char, fraction: string)
    requires IsMark(mark) && ',' !in digits && ',' !in fraction
    ensures Pointed(Dash(sign) + (digits + [mark] + fraction)) == Dash(sign) + (digits + ['.'] + fraction)
  {
    PointedJoined(Dash(sign), digits + [mark] + fraction);
    PointedJoined(digits + [mark], fraction);
    PointedJoined(digits, [mark]);
    PointedAbsent(Dash(sign));
    PointedAbsent(digits);
    PointedAbsent(fraction);
    assert Pointed([mark]) == ['.'];
  }

  lemma ReadingDecimal(token: string, sign: string, digits: string, mark: char, fraction: string)
    requires IsMark(mark) && AllDigits(digits) && AllDigits(fraction) && digits != "" && |fraction| != 3
    requires Bare(token) == Dash(sign) + (digits + [mark] + fraction)
    ensures Reading(token) == Some(Dash(sign) + (digits + ['.'] + fraction))
  {
    var text := digits + [mark] + fraction;
    MarkedOnce(digits, mark, fraction);
    UnsignedDash(sign, text);
    SignedMarks(sign, text, mark);
    SignedMarks(sign, text, Other(mark));
    ReadingOne(token, Dash(sign) + text, mark, [digits, fraction]);
    assert !Thousands([digits, fraction]) by {
      assert [digits, fraction][1] == fraction;
    }
    DigitsClean(digits);
    DigitsClean(fraction);
    PointedText(sign, digits, mark, fraction);
  }

  lemma MarkedOnce(digits: string, mark: char, fraction: string)
    requires IsMark(mark) && AllDigits(digits) && AllDigits(fraction)
    ensures var text := digits + [mark] + fraction;
            mark in text && Other(mark) !in text && Split(text, mark) == [digits, fraction]
            && (digits != "" ==> text[0] != '-')
  {
    DigitsClean(digits);
    DigitsClean(fraction);
    SplitAt(digits, fraction, mark);
    SplitWhole(fraction, mark);
    assert (digits + [mark] + fraction)[|digits|] == mark;
  }

  lemma DigitsReadBack(sign: string, digits: string, mark: char, fraction: string)
    requires IsSign(sign) && IsMark(mark) && AllDigits(digits) && digits != "" && AllDigits(fraction) && |fraction| != 3
    ensures Read(sign + (digits + [mark] + fraction))
         == Some(Number(sign != "", Value(digits + fraction), |fraction|))
  {
    var text := digits + [mark] + fraction;
    assert Clean(text) by {
      DigitsClean(digits);
      DigitsClean(fraction);
    }
    BareSigned(sign, text);
    ReadingDecimal(sign + text, sign, digits, mark, fraction);
    ParsedFraction(sign, digits, fraction);
    ReadParsed(sign + text, Dash(sign) + (digits + ['.'] + fraction),
               Number(sign != "", Value(digits + fraction), |fraction|));
  }

  /** An ungrouped number reads back as printed unless it has exactly three decimals. */
  lemma DecimalReadsBack(sign: string, n: nat, mark: char, fraction: string)
    requires IsSign(sign) && IsMark(mark) && AllDigits(fraction) && |fraction| != 3
    ensures Read(sign + (Decimal(n) + [mark] + fraction))
         == Some(Number(sign != "", Value(Decimal(n) + fraction), |fraction|))
  {
    DigitsReadBack(sign, Decimal(n), mark, fraction);
  }

  // ---- Group spaces ----

  /** Characters that group digits without being marks. */
  predicate IsSpacing(gap: string) {
    forall c | c in gap :: c in SPACES
  }

  predicate AllSpacing(gaps: seq<string>) {
    forall gap | gap in gaps :: IsSpacing(gap)
  }

  /** A text with one gap before each of its characters, as long as there are gaps. */
  function Spaced(text: string, gaps: seq<string>): string
    decreases |text|
  {
    if text == [] || gaps == [] then text else gaps[0] + [text[0]] + Spaced(text[1..], gaps[1..])
  }

  lemma {:induction false} BareJoined(a: string, b: string)
    ensures Bare(a + b) == Bare(a) + Bare(b)
  {
    if a == [] {
      assert a + b == b;
    } else {
      assert (a + b)[1..] == a[1..] + b;
      BareJoined(a[1..], b);
    }
  }

  lemma {:induction false} SpacingGoes(gap: string)
    requires IsSpacing(gap)
    ensures Bare(gap) == ""
  {
    if gap != [] {
      assert gap[0] in gap && forall c | c in gap[1..] :: c in gap;
      SpacingGoes(gap[1..]);
    }
  }

  lemma {:induction false} BareSpaced(text: string, gaps: seq<string>)
    requires AllSpacing(gaps)
    ensures Bare(Spaced(text, gaps)) == Bare(text)
    decreases |text|
  {
    if text != [] && gaps != [] {
      var rest := Spaced(text[1..], gaps[1..]);
      assert gaps[0] in gaps && forall gap | gap in gaps[1..] :: gap in gaps;
      BareSpaced(text[1..], gaps[1..]);
      SpacingGoes(gaps[0]);
      assert [text[0]] + text[1..] == text;
      BareJoined(gaps[0] + [text[0]], rest);
      BareJoined(gaps[0], [text[0]]);
      BareJoined([text[0]], text[1..]);
    }
  }

  /** Group spaces are neutral: inserted anywhere in any token, they change neither its numeral nor its value. */
  lemma SpacesNeutral(token: string, gaps: seq<string>)
    requires AllSpacing(gaps)
    ensures Reading(Spaced(token, gaps)) == Reading(token) && Read(Spaced(token, gaps)) == Read(token)
  {
    BareSpaced(token, gaps);
  }

  /** So an integer reads back as printed, however its sign and digits are spaced. */
  lemma SpacedReadsBack(sign: string, n: nat, gaps: seq<string>)
    requires IsSign(sign) && AllSpacing(gaps)
    ensures Read(Spaced(sign + Decimal(n), gaps)) == Some(Number(sign != "", n, 0))
  {
    var token := sign + Decimal(n);
    SpacesNeutral(token, gaps);
    DigitsClean(Decimal(n));
    BareSigned(sign, Decimal(n));
    assert ',' !in Bare(token) && '.' !in Bare(token) by {
      SignedMarks(sign, Decimal(n), ',');
      SignedMarks(sign, Decimal(n), '.');
    }
    ParsedWhole(sign, Decimal(n));
    ValueOfDecimal(n);
    ReadParsed(token, Dash(sign) + Decimal(n), Number(sign != "", n, 0));
  }

  // ---- The ambiguous tokens ----

  /** One mark, and exactly three characters after it. */
  ghost predicate Ambiguous(bare: string) {
    exists head, mark, tail :: Splits(bare, head, mark, tail)
  }

  predicate Splits(bare: string, head: string, mark: char, tail: string) {
    IsMark(mark) && bare == head + [mark] + tail && |tail| == 3 && Unmarked(head) && Unmarked(tail)
  }

  predicate Unmarked(s: string) {
    ',' !in s && '.' !in s
  }

  /** A token has no reading exactly when it has one separator, followed by exactly three characters. */
  lemma AmbiguousExactly(token: string)
    ensures Reading(token).None? <==> Ambiguous(Bare(token))
  {
    var bare := Bare(token);
    if ',' in bare && '.' in bare {
      LastMarkExists(bare);
      forall head, mark, tail
        ensures !Splits(bare, head, mark, tail)
      {
        OneMarkOnly(bare, head, mark, tail);
      }
    } else if ',' in bare {
      OneKindAmbiguous(bare, ',');
    } else if '.' in bare {
      OneKindAmbiguous(bare, '.');
    } else {
      forall head, mark, tail
        ensures !Splits(bare, head, mark, tail)
      {
        OneMarkOnly(bare, head, mark, tail);
      }
    }
  }

  lemma {:induction false} LastMarkExists(s: string)
    requires exists c | c in s :: IsMark(c)
    ensures LastMark(s).Some?
    decreases |s|
  {
    if !IsMark(s[|s| - 1]) {
      var c :| c in s && IsMark(c);
      assert c in s[..|s| - 1];
      LastMarkExists(s[..|s| - 1]);
    }
  }

  lemma {:induction false} Dashes(s: string) returns (dashes: string)
    ensures s == dashes + Unsigned(s) && Unmarked(dashes)
  {
    if s != [] && s[0] == '-' {
      var rest := Dashes(s[1..]);
      dashes := ['-'] + rest;
    } else {
      dashes := "";
    }
  }

  lemma OneMarkOnly(bare: string, head: string, mark: char, tail: string)
    ensures Splits(bare, head, mark, tail) ==> mark in bare && Other(mark) !in bare
  {
    if Splits(bare, head, mark, tail) {
      assert bare[|head|] == mark;
    }
  }

  lemma OneKindAmbiguous(bare: string, mark: char)
    requires IsMark(mark) && mark in bare && Other(mark) !in bare
    ensures Thousands(Split(Unsigned(bare), mark)) && |Split(Unsigned(bare), mark)| == 2 <==> Ambiguous(bare)
  {
    var groups := Split(Unsigned(bare), mark);
    if |groups| == 2 && Thousands(groups) {
      TwoGroups(bare, mark);
    }
    if Ambiguous(bare) {
      var head, other, tail :| Splits(bare, head, other, tail);
      OneMarkOnly(bare, head, other, tail);
      AmbiguousGroups(bare, head, mark, tail);
    }
  }

  lemma TwoGroups(bare: string, mark: char)
    requires IsMark(mark) && Other(mark) !in bare
    requires |Split(Unsigned(bare), mark)| == 2 && |Split(Unsigned(bare), mark)[1]| == 3
    ensures Ambiguous(bare)
  {
    var dashes := Dashes(bare);
    var head, tail := TwoParts(Unsigned(bare), mark);
    UnsignedPart(bare, Other(mark));
    SplitsAfter(bare, dashes, head, mark, tail);
  }

  lemma SplitsAfter(bare: string, dashes: string, head: string, mark: char, tail: string)
    requires IsMark(mark) && |tail| == 3 && bare == dashes + (head + [mark] + tail)
    requires Unmarked(dashes) && mark !in head && mark !in tail
    requires Other(mark) !in head + [mark] + tail
    ensures Ambiguous(bare)
  {
    var text := head + [mark] + tail;
    assert forall i | 0 <= i < |head| :: text[i] == head[i];
    assert forall i | 0 <= i < |tail| :: text[|head| + 1 + i] == tail[i];
    assert Unmarked(dashes + head) && Unmarked(tail);
    assert Splits(bare, dashes + head, mark, tail);
  }

  lemma TwoParts(plain: string, mark: char) returns (head: string, tail: string)
    requires |Split(plain, mark)| == 2
    ensures plain == head + [mark] + tail && Split(plain, mark) == [head, tail] && mark !in head && mark !in tail
  {
    var i := FirstMark(plain, mark);
    head, tail := plain[..i], plain[i + 1..];
    SplitOne(tail, mark);
    SplitParts(plain, mark);
    assert Split(plain, mark) == [head, tail];
    assert head in [head, tail] && tail in [head, tail];
    assert plain == head + [mark] + tail;
  }

  lemma SplitOne(s: string, mark: char)
    requires |Split(s, mark)| == 1
    ensures Split(s, mark) == [s]
  {
  }

  lemma AmbiguousGroups(bare: string, head: string, mark: char, tail: string)
    requires Splits(bare, head, mark, tail)
    ensures Split(Unsigned(bare), mark) == [Unsigned(head), tail]
  {
    UnsignedHead(head, mark, tail);
    UnsignedPart(head, mark);
    SplitAt(Unsigned(head), tail, mark);
    SplitWhole(tail, mark);
  }

  lemma {:induction false} UnsignedHead(head: string, mark: char, tail: string)
    requires IsMark(mark)
    ensures Unsigned(head + [mark] + tail) == Unsigned(head) + [mark] + tail
  {
    if head != [] && head[0] == '-' {
      assert (head + [mark] + tail)[1..] == head[1..] + [mark] + tail;
      UnsignedHead(head[1..], mark, tail);
    }
  }

  // ---- The value ----

  function Power(n: nat): nat {
    if n == 0 then 1 else 10 * Power(n - 1)
  }

  lemma Shifted(n: nat, power: nat, value: nat, digit: nat)
    ensures 10 * (n * power + value) + digit == n * (10 * power) + (10 * value + digit)
  {
  }

  /** The digits of a printed number and its decimals are the number it stands for, scaled by its decimals. */
  lemma {:induction false} DigitsValue(n: nat, fraction: string)
    requires AllDigits(fraction)
    ensures Value(Decimal(n) + fraction) == n * Power(|fraction|) + Value(fraction)
    decreases |fraction|
  {
    if fraction == "" {
      assert Decimal(n) + fraction == Decimal(n);
      ValueOfDecimal(n);
    } else {
      var fewer, last := fraction[..|fraction| - 1], fraction[|fraction| - 1];
      assert Decimal(n) + fraction == (Decimal(n) + fewer) + [last] && fraction == fewer + [last];
      AppendedDigit(Decimal(n) + fewer, last);
      AppendedDigit(fewer, last);
      DigitsValue(n, fewer);
      Shifted(n, Power(|fewer|), Value(fewer), DigitValue(last));
    }
  }

  lemma AppendedDigit(digits: string, last: char)
    requires AllDigits(digits) && IsDigit(last)
    ensures Value(digits + [last]) == 10 * Value(digits) + DigitValue(last)
  {
    assert (digits + [last])[..|digits + [last]| - 1] == digits;
  }
}

/** The spymaster's hint check, validHint, which the console and the GUI's action panel share
    verbatim: "<clue>/<n>" with at most one trailing space before the '/', a one-word clue, and
    the first run of decimal digits after the '/' as the number of guesses. */
module Hints {
  import opened Wrappers
  import opened Roles

  /** Integer.MAX_VALUE: Integer.parseInt rejects any larger digit string. */
  const MAX_INT := 0x7fff_ffff

  /** The Java exceptions validHint can raise instead of answering. */
  datatype Exception = StringIndexOutOfBounds | NumberFormat | NullDereference

  /** validHint's outcome: true (with what it stored), false, or an exception. */
  datatype Verdict = Accepted(clue: string, guesses: int) | Rejected | Throws(e: Exception)

  predicate IsDigit(c: char) {
    '0' <= c <= '9'
  }

  predicate NoDigit(s: string) {
    forall i :: 0 <= i < |s| ==> !IsDigit(s[i])
  }

  predicate AllDigits(s: string) {
    forall i :: 0 <= i < |s| ==> IsDigit(s[i])
  }

  /** String.indexOf(char): the first position of `c`, or -1. */
  function IndexOf(s: string, c: char): (r: int)
    ensures r == -1 <==> c !in s
    ensures r != -1 ==> 0 <= r < |s| && s[r] == c && c !in s[..r]
  {
    if s == [] then -1
    else if s[0] == c then 0
    else
      var k := IndexOf(s[1..], c);
      assert s[1..][..(if k == -1 then 0 else k)] == s[1..(if k == -1 then 1 else k + 1)];
      if k == -1 then -1 else k + 1
  }

  /** removeTrailingSpace: drops one final ' '. Its argument must not be empty: the source takes
      substring(length - 1) first, which throws on "". */
  function RemoveTrailingSpace(s: string): (r: string)
    requires |s| > 0
    ensures s == r || s == r + [' ']
    ensures s[|s| - 1] == ' ' <==> |r| == |s| - 1
  {
    if s[|s| - 1] == ' ' then s[..|s| - 1] else s
  }

  /** Where the regex [0-9]+ starts its first match: the first digit, or -1. */
  function FirstDigit(s: string): (r: int)
    ensures r == -1 <==> NoDigit(s)
    ensures r != -1 ==> 0 <= r < |s| && IsDigit(s[r]) && NoDigit(s[..r])
  {
    if s == [] then -1
    else if IsDigit(s[0]) then 0
    else
      var k := FirstDigit(s[1..]);
      if k == -1 then -1
      else
        assert s[..k + 1] == [s[0]] + s[1..][..k];
        k + 1
  }

  /** The greedy part of a [0-9]+ match: the longest all-digit prefix. */
  function LeadingDigits(s: string): (r: string)
    ensures |r| <= |s| && r == s[..|r|] && AllDigits(r)
    ensures |r| == |s| || !IsDigit(s[|r|])
  {
    if s == [] || !IsDigit(s[0]) then [] else [s[0]] + LeadingDigits(s[1..])
  }

  /** Matcher.find() then group(0): the first maximal digit run, if any. */
  function FirstDigitRun(s: string): (r: Option<string>)
    ensures r.None? <==> NoDigit(s)
    ensures r.Some? ==> |r.value| > 0 && AllDigits(r.value)
  {
    var k := FirstDigit(s);
    if k == -1 then None else Some(LeadingDigits(s[k..]))
  }

  /** The value of a decimal digit string, as parseInt reads it (leading zeros allowed). */
  function DigitsValue(d: string): nat
    requires AllDigits(d)
  {
    if d == [] then 0 else DigitsValue(d[..|d| - 1]) * 10 + (d[|d| - 1] - '0') as nat
  }

  /** The canonical decimal spelling of a count. */
  function DecimalString(n: nat): (r: string)
    ensures |r| > 0 && AllDigits(r)
  {
    if n < 10 then ['0' + n as char] else DecimalString(n / 10) + ['0' + (n % 10) as char]
  }

  /** validHint as a function of the typed text. */
  function ParseHint(hint: string): (r: Verdict)
    ensures '/' !in hint ==> r == Rejected
    ensures r == Throws(StringIndexOutOfBounds) <==> |hint| > 0 && hint[0] == '/'
    ensures r.Throws? ==> r.e != NullDereference
    ensures r.Accepted? ==> ' ' !in r.clue && '/' !in r.clue && 0 <= r.guesses <= MAX_INT
    ensures var d := IndexOf(hint, '/');
      d > 0 ==> (r == Rejected <==> ' ' in RemoveTrailingSpace(hint[..d]) || NoDigit(hint[d + 1..]))
  {
    var delimiterIndex := IndexOf(hint, '/');
    if delimiterIndex == -1 then Rejected
    else if delimiterIndex == 0 then Throws(StringIndexOutOfBounds)
    else ParseParts(RemoveTrailingSpace(hint[..delimiterIndex]), hint[delimiterIndex + 1..])
  }

  /** validHint once the '/' is found: the clue before it (trailing space dropped) and the text
      after it. */
  function ParseParts(cluePortion: string, rest: string): (r: Verdict)
    ensures r.Throws? ==> r.e == NumberFormat
    ensures r.Accepted? ==> r.clue == cluePortion && ' ' !in cluePortion && 0 <= r.guesses <= MAX_INT
    ensures r == Rejected <==> ' ' in cluePortion || NoDigit(rest)
  {
    if ' ' in cluePortion then Rejected
    else match FirstDigitRun(rest)
      case None => Rejected
      case Some(digits) =>
        if DigitsValue(digits) > MAX_INT then Throws(NumberFormat)
        else Accepted(cluePortion, DigitsValue(digits))
  }

  /** countChar: the number of occurrences of `delimiter`. */
  method CountChar(s: string, delimiter: char) returns (count: nat)
    ensures count == multiset(s)[delimiter]
    ensures count == 0 <==> delimiter !in s
  {
    count := 0;
    var i := 0;
    while i < |s|
      invariant 0 <= i <= |s|
      invariant count == multiset(s[..i])[delimiter]
    {
      assert s[..i + 1] == s[..i] + [s[i]];
      if s[i] == delimiter {
        count := count + 1;
      }
      i := i + 1;
    }
    assert s[..i] == s;
  }

  /** validHint with setValidHint: stores clue and count in the spymaster exactly when accepted. */
  method ValidHint(hint: string, selected: Spymaster) returns (verdict: Verdict)
    modifies selected
    ensures verdict == ParseHint(hint)
    ensures verdict.Accepted? ==>
              selected.Value() == old(selected.Value()).(hint := verdict.clue, guesses := verdict.guesses)
    ensures !verdict.Accepted? ==> selected.Value() == old(selected.Value())
  {
    var delimiterIndex := IndexOf(hint, '/');
    if delimiterIndex == -1 {
      return Rejected;
    }
    if delimiterIndex == 0 {
      return Throws(StringIndexOutOfBounds);
    }
    var cluePortion := RemoveTrailingSpace(hint[..delimiterIndex]);
    var spaces := CountChar(cluePortion, ' ');
    if spaces != 0 {
      return Rejected;
    }
    var isDigits := FirstDigitRun(hint[delimiterIndex + 1..]);
    if isDigits.None? {
      return Rejected;
    }
    if DigitsValue(isDigits.value) > MAX_INT {
      return Throws(NumberFormat);
    }
    // The source also rejects a negative number here; a digit run never has one.
    var numberPortion := DigitsValue(isDigits.value);
    selected.SetHint(cluePortion);
    selected.SetGuesses(numberPortion);
    return Accepted(cluePortion, numberPortion);
  }

  // ---- The grammar validHint accepts ----

  lemma {:induction false} DecimalRoundTrip(n: nat)
    ensures DigitsValue(DecimalString(n)) == n
    decreases n
  {
    if n >= 10 {
      var d := DecimalString(n);
      assert d[..|d| - 1] == DecimalString(n / 10);
      DecimalRoundTrip(n / 10);
    }
  }

  lemma {:induction false} LeadingDigitsOf(digits: string, tail: string)
    requires AllDigits(digits)
    requires tail == [] || !IsDigit(tail[0])
    ensures LeadingDigits(digits + tail) == digits
    decreases |digits|
  {
    if digits == [] {
      assert digits + tail == tail;
    } else {
      assert (digits + tail)[1..] == digits[1..] + tail;
      LeadingDigitsOf(digits[1..], tail);
    }
  }

  lemma {:induction false} FirstDigitAfter(junk: string, rest: string)
    requires NoDigit(junk)
    requires |rest| > 0 && IsDigit(rest[0])
    ensures FirstDigit(junk + rest) == |junk|
    decreases |junk|
  {
    if junk == [] {
      assert junk + rest == rest;
    } else {
      assert (junk + rest)[1..] == junk[1..] + rest;
      FirstDigitAfter(junk[1..], rest);
    }
  }

  /** The first '/' splits the hint. */
  lemma SplitAtDelimiter(prefix: string, rest: string)
    requires '/' !in prefix && |prefix| > 0
    ensures ParseHint(prefix + "/" + rest) == ParseParts(RemoveTrailingSpace(prefix), rest)
  {
    var h := prefix + "/" + rest;
    assert h[|prefix|] == '/' && h[..|prefix|] == prefix && h[|prefix| + 1..] == rest;
    assert IndexOf(h, '/') == |prefix|;
  }

  /** The digit search finds a decimal count behind digit-free text. */
  lemma DigitRunOf(junk: string, digits: string, tail: string)
    requires NoDigit(junk) && AllDigits(digits) && |digits| > 0 && (tail == [] || !IsDigit(tail[0]))
    ensures FirstDigitRun(junk + digits + tail) == Some(digits)
  {
    assert junk + digits + tail == junk + (digits + tail);
    FirstDigitAfter(junk, digits + tail);
    assert (junk + (digits + tail))[|junk|..] == digits + tail;
    LeadingDigitsOf(digits, tail);
  }

  /** Completeness: a one-word clue, an optional space, '/', any text without digits, the count
      in decimal, then anything not starting with a digit, is accepted with exactly that clue
      and count when the count fits an int, and makes parseInt throw when it does not; e.g.
      "ocean/3", "ocean / 3" and "ocean / -1" (read as 1). */
  lemma HintAccepted(clue: string, pad: string, junk: string, n: nat, tail: string)
    requires ' ' !in clue && '/' !in clue
    requires pad == "" || pad == " "
    requires clue + pad != []
    requires NoDigit(junk) && (tail == [] || !IsDigit(tail[0]))
    ensures ParseHint(clue + pad + "/" + junk + DecimalString(n) + tail)
         == if n <= MAX_INT then Accepted(clue, n) else Throws(NumberFormat)
  {
    var rest := junk + DecimalString(n) + tail;
    assert clue + pad + "/" + junk + DecimalString(n) + tail == (clue + pad) + "/" + rest;
    SplitAtDelimiter(clue + pad, rest);
    assert RemoveTrailingSpace(clue + pad) == clue;
    DigitRunOf(junk, DecimalString(n), tail);
    DecimalRoundTrip(n);
  }

  /** A clue that still holds a space once one trailing space is dropped is refused, whatever
      follows the '/'. */
  lemma HintMultiWord(prefix: string, rest: string)
    requires '/' !in prefix && |prefix| > 0
    requires ' ' in RemoveTrailingSpace(prefix)
    ensures ParseHint(prefix + "/" + rest) == Rejected
  {
    SplitAtDelimiter(prefix, rest);
  }

  /** Where the digit search found its run: digit-free text, the run, and a rest that does not
      continue it. */
  lemma DigitRunShape(rest: string) returns (junk: string, tail: string)
    requires FirstDigitRun(rest).Some?
    ensures NoDigit(junk) && (tail == [] || !IsDigit(tail[0]))
    ensures rest == junk + FirstDigitRun(rest).value + tail
  {
    var k := FirstDigit(rest);
    var digits := LeadingDigits(rest[k..]);
    junk := rest[..k];
    tail := rest[k..][|digits|..];
    assert rest[k..] == digits + tail;
    assert rest == junk + rest[k..];
  }

  /** Soundness: an accepted hint has exactly that shape, with the count spelled by a digit run
      (possibly with leading zeros) whose value is the stored count. */
  lemma HintShape(h: string) returns (pad: string, junk: string, digits: string, tail: string)
    requires ParseHint(h).Accepted?
    ensures pad == "" || pad == " "
    ensures NoDigit(junk) && AllDigits(digits) && |digits| > 0 && (tail == [] || !IsDigit(tail[0]))
    ensures h == ParseHint(h).clue + pad + "/" + junk + digits + tail
    ensures DigitsValue(digits) == ParseHint(h).guesses
    ensures ' ' !in ParseHint(h).clue && '/' !in ParseHint(h).clue + pad
  {
    var prefix, rest := SplitAccepted(h);
    var clue := RemoveTrailingSpace(prefix);
    var v := ParseParts(clue, rest);
    assert v.Accepted? && v.clue == clue;
    pad := if prefix[|prefix| - 1] == ' ' then " " else "";
    assert prefix == clue + pad;
    assert FirstDigitRun(rest).Some?;
    digits := FirstDigitRun(rest).value;
    assert v.guesses == DigitsValue(digits);
    junk, tail := DigitRunShape(rest);
    Regroup(clue, pad, "/", junk, digits, tail);
  }

  lemma Regroup<T>(a: seq<T>, b: seq<T>, c: seq<T>, d: seq<T>, e: seq<T>, f: seq<T>)
    ensures (a + b) + c + (d + e + f) == a + b + c + d + e + f
  {
  }

  /** An accepted hint splits at its first '/' into a non-empty prefix and the rest. */
  lemma SplitAccepted(h: string) returns (prefix: string, rest: string)
    requires ParseHint(h).Accepted?
    ensures h == prefix + "/" + rest && '/' !in prefix && |prefix| > 0
    ensures ParseHint(h) == ParseParts(RemoveTrailingSpace(prefix), rest)
  {
    var d := IndexOf(h, '/');
    prefix, rest := h[..d], h[d + 1..];
    assert h == prefix + "/" + rest;
  }

  // ---- Inputs the source treats in ways its comments do not announce ----

  /** A minus sign is skipped by the digit search: "ocean / -1" stores 1 guess. */
  lemma NegativeCountReadAsPositive()
    ensures ParseHint("ocean / -1") == Accepted("ocean", 1)
  {
    assert DecimalString(1) == "1";
    assert "ocean" + " " + "/" + " -" + "1" + "" == "ocean / -1";
    HintAccepted("ocean", " ", " -", 1, "");
  }

  /** Two words are refused. */
  lemma MultiWordRejected()
    ensures ParseHint("two words/3") == Rejected
  {
    assert RemoveTrailingSpace("two words")[3] == ' ';
    HintMultiWord("two words", "3");
    assert "two words" + "/" + "3" == "two words/3";
  }

  /** Two spaces before the '/' are refused: only one is trimmed. */
  lemma DoubleSpaceRejected()
    ensures ParseHint("ocean  / 3") == Rejected
  {
    assert RemoveTrailingSpace("ocean  ")[5] == ' ';
    HintMultiWord("ocean  ", " 3");
    assert "ocean  " + "/" + " 3" == "ocean  / 3";
  }

  /** A zero count is accepted, though the comments ask for a non-zero one. */
  lemma ZeroAccepted()
    ensures ParseHint("ocean/0") == Accepted("ocean", 0)
  {
    HintAccepted("ocean", "", "", 0, "");
    assert "ocean" + "" + "/" + "" + DecimalString(0) + "" == "ocean/0";
  }
}

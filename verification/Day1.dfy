/** Day 1: calibration values.

    A line's calibration value is the two-digit number made of its first and
    last digit.  In the second part, spelled-out digits ("one" … "nine") are
    first rewritten into digit characters by a left-to-right scan that moves
    one character at a time, so overlapping words ("twone") are all seen. */
module Day1 {
  import opened Text

  /** The first digit of `line` stands at index `i`. */
  predicate FirstDigitAt(line: string, i: int) {
    0 <= i < |line| && IsDigit(line[i]) && forall k :: 0 <= k < i ==> !IsDigit(line[k])
  }

  /** The last digit of `line` stands at index `j`. */
  predicate LastDigitAt(line: string, j: int) {
    0 <= j < |line| && IsDigit(line[j]) && forall k :: j < k < |line| ==> !IsDigit(line[k])
  }

  lemma {:induction false} DigitsSome(s: string, i: nat)
    requires i < |s| && IsDigit(s[i])
    ensures Digits(s) != []
  {
    assert s == s[..i] + [s[i]] + s[i + 1..];
    DigitsConcat(s[..i] + [s[i]], s[i + 1..]);
    DigitsConcat(s[..i], [s[i]]);
    assert Digits([s[i]]) == [s[i]] + Digits([]);
  }

  /** The digits of a line begin with its first digit. */
  lemma {:induction false} DigitsFirst(line: string, i: int)
    requires FirstDigitAt(line, i)
    ensures Digits(line) != [] && Digits(line)[0] == line[i]
  {
    assert line == line[..i] + line[i..];
    DigitsConcat(line[..i], line[i..]);
    DigitsOfText(line[..i]);
  }

  /** The digits of a line end with its last digit. */
  lemma {:induction false} DigitsLast(line: string, j: int)
    requires LastDigitAt(line, j)
    ensures Digits(line) != [] && Digits(line)[|Digits(line)| - 1] == line[j]
  {
    assert line == line[..j + 1] + line[j + 1..];
    DigitsConcat(line[..j + 1], line[j + 1..]);
    DigitsOfText(line[j + 1..]);
    assert line[..j + 1] == line[..j] + [line[j]];
    DigitsConcat(line[..j], [line[j]]);
    assert Digits([line[j]]) == [line[j]] + Digits([]);
  }

  lemma {:induction false} DigitsEnds(line: string)
    ensures forall i :: FirstDigitAt(line, i) ==> Digits(line) != [] && Digits(line)[0] == line[i]
    ensures forall j :: LastDigitAt(line, j) ==> Digits(line) != [] && Digits(line)[|Digits(line)| - 1] == line[j]
    ensures Digits(line) == [] <==> forall k :: 0 <= k < |line| ==> !IsDigit(line[k])
  {
    DigitsStart(line);
    DigitsEnd(line);
    DigitsEmpty(line);
  }

  lemma {:induction false} DigitsStart(line: string)
    ensures forall i :: FirstDigitAt(line, i) ==> Digits(line) != [] && Digits(line)[0] == line[i]
  {
    forall i | FirstDigitAt(line, i)
      ensures Digits(line) != [] && Digits(line)[0] == line[i]
    {
      DigitsFirst(line, i);
    }
  }

  lemma {:induction false} DigitsEnd(line: string)
    ensures forall j :: LastDigitAt(line, j) ==> Digits(line) != [] && Digits(line)[|Digits(line)| - 1] == line[j]
  {
    forall j | LastDigitAt(line, j)
      ensures Digits(line) != [] && Digits(line)[|Digits(line)| - 1] == line[j]
    {
      DigitsLast(line, j);
    }
  }

  lemma {:induction false} DigitsEmpty(line: string)
    ensures Digits(line) == [] <==> forall k :: 0 <= k < |line| ==> !IsDigit(line[k])
  {
    if forall k :: 0 <= k < |line| ==> !IsDigit(line[k]) {
      DigitsOfText(line);
    } else {
      var k :| 0 <= k < |line| && IsDigit(line[k]);
      DigitsSome(line, k);
    }
  }

  /** Two digits read as a decimal number, and their recovery by `/` and `%`. */
  lemma {:induction false} TwoDigitsValue(a: char, b: char)
    requires IsDigit(a) && IsDigit(b)
    ensures DigitsValue([a, b]) == 10 * DigitValue(a) + DigitValue(b)
    ensures DigitsValue([a, b]) / 10 == DigitValue(a) && DigitsValue([a, b]) % 10 == DigitValue(b)
  {
    assert [a, b][..1] == [a];
    assert [a][..0] == [];
    assert DigitsValue([a]) == DigitValue(a);
    var n := 10 * DigitValue(a) + DigitValue(b);
    assert n / 10 == DigitValue(a) && n % 10 == DigitValue(b) by {
      assert n == DigitValue(a) * 10 + DigitValue(b) && 0 <= DigitValue(b) < 10;
    }
  }

  /** `line_to_calib_num`: the digits "first last" read as a number; a line
      with one digit repeats it and a line with none gives 0.  The source
      returns a `Result` because it parses the two characters as `u64`; on
      ASCII digits that parse cannot fail. */
  function CalibrationValue(line: string): (r: Result<nat>)
    ensures r.Ok? && r.value <= 99
    ensures (forall k :: 0 <= k < |line| ==> !IsDigit(line[k])) ==> r.value == 0
    ensures forall i :: FirstDigitAt(line, i) ==> r.value / 10 == DigitValue(line[i])
    ensures forall j :: LastDigitAt(line, j) ==> r.value % 10 == DigitValue(line[j])
  {
    var digits := Digits(line);
    DigitsEmpty(line);
    if |digits| == 0 then Ok(0)
    else
      DigitsStart(line);
      DigitsEnd(line);
      var first := digits[0];
      var last := if |digits| == 1 then digits[0] else digits[|digits| - 1];
      ParsePair(first, last)
  }

  /** The two characters `first`, `last` parsed as a `u64`. */
  function ParsePair(first: char, last: char): (r: Result<nat>)
    requires IsDigit(first) && IsDigit(last)
    ensures r.Ok? && r.value <= 99
    ensures r.value / 10 == DigitValue(first) && r.value % 10 == DigitValue(last)
  {
    TwoDigitsValue(first, last);
    match ParseUnsigned([first, last], 0xFFFF_FFFF_FFFF_FFFF)
    case Some(n) => Ok(n)
    case None => Err(BadNumber)
  }

  lemma {:induction false} CalibrationExamples()
    ensures CalibrationValue("asdfg") == Ok(0)
    ensures CalibrationValue("as1bnb") == Ok(11)
    ensures CalibrationValue("as76123nb") == Ok(73)
  {
    assert FirstDigitAt("as1bnb", 2) && LastDigitAt("as1bnb", 2);
    assert FirstDigitAt("as76123nb", 2) && LastDigitAt("as76123nb", 6);
  }

  /** `DIGITS_SPELL`: the spelled digits, in the order the scan tries them. */
  const DIGITS_SPELL: seq<(string, char)> := [
    ("one", '1'), ("two", '2'), ("three", '3'), ("four", '4'), ("five", '5'),
    ("six", '6'), ("seven", '7'), ("eight", '8'), ("nine", '9')
  ]

  /** `word` occurs in `line` starting at index `i`. */
  predicate WordAt(line: string, i: nat, word: string) {
    i + |word| <= |line| && line[i..i + |word|] == word
  }

  /** The digit of the first table entry, from entry `k` on, whose word
      starts at index `i` of `line`. */
  function SpelledFrom(line: string, i: nat, k: nat): Option<char>
    requires k <= |DIGITS_SPELL|
    decreases |DIGITS_SPELL| - k
  {
    if k == |DIGITS_SPELL| then None
    else if WordAt(line, i, DIGITS_SPELL[k].0) then Some(DIGITS_SPELL[k].1)
    else SpelledFrom(line, i, k + 1)
  }

  /** The character the rewrite emits for index `i`. */
  function SpelledAt(line: string, i: nat): char
    requires i < |line|
  {
    match SpelledFrom(line, i, 0)
    case Some(d) => d
    case None => line[i]
  }

  /** The whole rewrite of a line: one output character per input character. */
  function Rewrite(line: string): (r: string)
    ensures |r| == |line|
  {
    seq(|line|, i requires 0 <= i < |line| => SpelledAt(line, i))
  }

  /** The block of `map_spelled_digits` that tries each table entry at
      index `i` in turn and stops at the first whose word is there. */
  method FindSpelledDigit(line: string, i: nat) returns (found: Option<char>)
    requires i < |line|
    ensures found == SpelledFrom(line, i, 0)
  {
    found := None;
    var k := 0;
    while k < |DIGITS_SPELL|
      invariant 0 <= k <= |DIGITS_SPELL|
      invariant SpelledFrom(line, i, 0) == SpelledFrom(line, i, k)
    {
      var word := DIGITS_SPELL[k].0;
      if i + |word| <= |line| && line[i..i + |word|] == word {
        found := Some(DIGITS_SPELL[k].1);
        return;
      }
      k := k + 1;
    }
  }

  /** `map_spelled_digits`: the source's while loop over `out_indx`, which
      emits the digit of a word starting at the index, or else the character
      there, and advances by exactly one character.  It always succeeds, so
      the `Result` wrapper of the source is dropped. */
  method MapSpelledDigits(line: string) returns (ret: string)
    ensures ret == Rewrite(line)
  {
    var outIndex := 0;
    ret := [];
    while outIndex < |line|
      invariant 0 <= outIndex <= |line|
      invariant ret == Rewrite(line)[..outIndex]
    {
      var found := FindSpelledDigit(line, outIndex);
      match found {
        case Some(d) => ret := ret + [d];
        case None => ret := ret + [line[outIndex]];
      }
      outIndex := outIndex + 1;
    }
  }


  /** The table entry whose word begins with the characters `a` and `b`;
      the nine words have nine different two-letter beginnings. */
  function EntryOfPrefix(a: char, b: char): int {
    match (a, b)
    case ('o', 'n') => 0
    case ('t', 'w') => 1
    case ('t', 'h') => 2
    case ('f', 'o') => 3
    case ('f', 'i') => 4
    case ('s', 'i') => 5
    case ('s', 'e') => 6
    case ('e', 'i') => 7
    case ('n', 'i') => 8
    case _ => -1
  }

  lemma {:induction false} EntryOfOwnPrefix(k: nat)
    requires k < |DIGITS_SPELL|
    ensures |DIGITS_SPELL[k].0| >= 3 && EntryOfPrefix(DIGITS_SPELL[k].0[0], DIGITS_SPELL[k].0[1]) == k
  {
  }

  /** No spelled word is a prefix of another, so at most one starts at any index. */
  lemma {:induction false} WordsUnique(line: string, i: nat, k: nat, m: nat)
    requires k < |DIGITS_SPELL| && m < |DIGITS_SPELL|
    requires WordAt(line, i, DIGITS_SPELL[k].0) && WordAt(line, i, DIGITS_SPELL[m].0)
    ensures k == m
  {
    var a, b := DIGITS_SPELL[k].0, DIGITS_SPELL[m].0;
    EntryOfOwnPrefix(k);
    EntryOfOwnPrefix(m);
    assert a[0] == line[i] == b[0] && a[1] == line[i + 1] == b[1];
  }

  lemma {:induction false} SpelledFromFinds(line: string, i: nat, k: nat, m: nat)
    requires k <= m < |DIGITS_SPELL|
    requires WordAt(line, i, DIGITS_SPELL[m].0)
    ensures SpelledFrom(line, i, k) == Some(DIGITS_SPELL[m].1)
    decreases m - k
  {
    if WordAt(line, i, DIGITS_SPELL[k].0) {
      WordsUnique(line, i, k, m);
    } else {
      SpelledFromFinds(line, i, k + 1, m);
    }
  }

  lemma {:induction false} SpelledFromMisses(line: string, i: nat, k: nat)
    requires k <= |DIGITS_SPELL|
    requires forall m :: k <= m < |DIGITS_SPELL| ==> !WordAt(line, i, DIGITS_SPELL[m].0)
    ensures SpelledFrom(line, i, k) == None
    decreases |DIGITS_SPELL| - k
  {
    if k < |DIGITS_SPELL| {
      SpelledFromMisses(line, i, k + 1);
    }
  }

  /** Where a spelled word starts, the rewrite emits that word's digit,
      whatever the word's place in the table. */
  lemma {:induction false} RewriteWord(line: string, i: nat, m: nat)
    requires i < |line| && m < |DIGITS_SPELL|
    requires WordAt(line, i, DIGITS_SPELL[m].0)
    ensures Rewrite(line)[i] == DIGITS_SPELL[m].1
  {
    SpelledFromFinds(line, i, 0, m);
  }

  /** Where no spelled word starts, the rewrite keeps the input character. */
  lemma {:induction false} RewriteKeeps(line: string, i: nat)
    requires i < |line|
    requires forall m :: 0 <= m < |DIGITS_SPELL| ==> !WordAt(line, i, DIGITS_SPELL[m].0)
    ensures Rewrite(line)[i] == line[i]
  {
    SpelledFromMisses(line, i, 0);
  }

  predicate NoSpelledWord(line: string) {
    forall i, m :: 0 <= i < |line| && 0 <= m < |DIGITS_SPELL| ==> !WordAt(line, i, DIGITS_SPELL[m].0)
  }

  /** A line holding no spelled word is returned unchanged. */
  lemma {:induction false} RewriteIdentity(line: string)
    requires NoSpelledWord(line)
    ensures Rewrite(line) == line
  {
    forall i | 0 <= i < |line|
      ensures Rewrite(line)[i] == line[i]
    {
      RewriteKeeps(line, i);
    }
  }

  /** The rewrite at index `i`, found through the two characters there:
      they select the only entry that can match. */
  lemma {:induction false} RewriteByPrefix(line: string, i: nat)
    requires i < |line|
    ensures var e := if i + 2 <= |line| then EntryOfPrefix(line[i], line[i + 1]) else -1;
      Rewrite(line)[i] == if 0 <= e && WordAt(line, i, DIGITS_SPELL[e].0) then DIGITS_SPELL[e].1 else line[i]
  {
    if m :| 0 <= m < |DIGITS_SPELL| && WordAt(line, i, DIGITS_SPELL[m].0) {
      EntryOfOwnPrefix(m);
      assert line[i] == DIGITS_SPELL[m].0[0] && line[i + 1] == DIGITS_SPELL[m].0[1];
      RewriteWord(line, i, m);
    } else {
      RewriteKeeps(line, i);
    }
  }

  /** Where the two characters at `i` begin no spelled word, the input
      character is kept. */
  lemma {:induction false} RewriteNoPrefix(line: string, i: nat)
    requires i < |line|
    requires i + 2 > |line| || EntryOfPrefix(line[i], line[i + 1]) < 0
    ensures Rewrite(line)[i] == line[i]
  {
    forall m | 0 <= m < |DIGITS_SPELL|
      ensures !WordAt(line, i, DIGITS_SPELL[m].0)
    {
      EntryOfOwnPrefix(m);
      var w := DIGITS_SPELL[m].0;
      if i + |w| <= |line| {
        assert line[i..i + |w|][0] == line[i] && line[i..i + |w|][1] == line[i + 1];
      }
    }
    RewriteKeeps(line, i);
  }

  /** Overlapping words are both rewritten. */
  lemma {:induction false} RewriteOverlap()
    ensures Rewrite("twone") == "2w1ne"
  {
    var a := "twone";
    var r := Rewrite(a);
    assert r[0] == '2' by {
      assert a[0..3] == "two";
      RewriteWord(a, 0, 1);
    }
    assert r[1] == 'w' by { RewriteNoPrefix(a, 1); }
    assert r[2] == '1' by {
      assert a[2..5] == "one";
      RewriteWord(a, 2, 0);
    }
    assert r[3] == 'n' by { RewriteNoPrefix(a, 3); }
    assert r[4] == 'e' by { RewriteNoPrefix(a, 4); }
  }

  /** From index `j` on no two characters begin a spelled word, so the
      rewrite keeps that part of the line. */
  lemma {:induction false} RewriteKeepsFrom(line: string, j: nat)
    requires j <= |line|
    requires forall i :: j <= i < |line| - 1 ==> EntryOfPrefix(line[i], line[i + 1]) < 0
    ensures Rewrite(line)[j..] == line[j..]
  {
    forall i | j <= i < |line|
      ensures Rewrite(line)[i] == line[i]
    {
      RewriteNoPrefix(line, i);
    }
  }

  /** A word is replaced by its digit only at its first character; the rest
      of the word is kept, since the scan advances by one character. */
  lemma {:induction false} RewriteKeepsTail()
    ensures Rewrite("seven") == "7even"
  {
    var b := "seven";
    assert b[0..5] == "seven";
    RewriteWord(b, 0, 6);
    RewriteKeepsFrom(b, 1);
    assert Rewrite(b) == [Rewrite(b)[0]] + Rewrite(b)[1..];
  }

  /** `line_to_calib_num(line).unwrap_or(0)`; the default is never taken. */
  function CalibrationOrZero(line: string): nat {
    CalibrationValue(line).value
  }

  /** The fold of `part1`: the calibration values added up, a failing line counting 0. */
  function CalibrationSum(lines: seq<string>): (r: nat)
    ensures r <= 99 * |lines|
  {
    if lines == [] then 0 else CalibrationOrZero(lines[0]) + CalibrationSum(lines[1..])
  }

  /** `part1` on the lines of the input file. */
  function Part1(lines: seq<string>): (r: nat)
    ensures r <= 99 * |lines|
  {
    CalibrationSum(lines)
  }

  /** `part2`: every line rewritten, then summed as in `part1`. */
  function Part2(lines: seq<string>): (r: nat)
    ensures r <= 99 * |lines|
  {
    CalibrationSum(seq(|lines|, i requires 0 <= i < |lines| => Rewrite(lines[i])))
  }

  /** The fold adds up line by line: the sum over two lists of lines is the
      sum of their sums. */
  lemma {:induction false} CalibrationSumAppend(a: seq<string>, b: seq<string>)
    ensures CalibrationSum(a + b) == CalibrationSum(a) + CalibrationSum(b)
  {
    if a == [] {
      assert a + b == b;
    } else {
      assert (a + b)[0] == a[0];
      assert (a + b)[1..] == a[1..] + b;
      CalibrationSumAppend(a[1..], b);
    }
  }

  /** A single line adds its calibration value. */
  lemma {:induction false} CalibrationSumSingle(line: string)
    ensures CalibrationSum([line]) == CalibrationValue(line).value
  {
    assert [line][1..] == [];
  }

  /** `part1` is the sum of the calibration values of the lines: additive
      over lines, and one line's value on its own. */
  lemma {:induction false} Part1Append(a: seq<string>, b: seq<string>, line: string)
    ensures Part1(a + b) == Part1(a) + Part1(b)
    ensures Part1([line]) == CalibrationValue(line).value
  {
    CalibrationSumAppend(a, b);
    CalibrationSumSingle(line);
  }

  /** `part2` is the sum of the calibration values of the rewritten lines:
      additive over lines, and one line's value after the rewrite on its
      own. */
  lemma {:induction false} Part2Append(a: seq<string>, b: seq<string>, line: string)
    ensures Part2(a + b) == Part2(a) + Part2(b)
    ensures Part2([line]) == CalibrationValue(Rewrite(line)).value
  {
    var ra := seq(|a|, i requires 0 <= i < |a| => Rewrite(a[i]));
    var rb := seq(|b|, i requires 0 <= i < |b| => Rewrite(b[i]));
    var rab := seq(|a + b|, i requires 0 <= i < |a + b| => Rewrite((a + b)[i]));
    assert rab == ra + rb;
    CalibrationSumAppend(ra, rb);
    var r1 := seq(1, i requires 0 <= i < 1 => Rewrite([line][i]));
    assert r1 == [Rewrite(line)];
    CalibrationSumSingle(Rewrite(line));
  }

  /** Without spelled words the two parts agree. */
  lemma {:induction false} Part2WithoutWords(lines: seq<string>)
    requires forall i :: 0 <= i < |lines| ==> NoSpelledWord(lines[i])
    ensures Part2(lines) == Part1(lines)
  {
    var rewritten := seq(|lines|, i requires 0 <= i < |lines| => Rewrite(lines[i]));
    forall i | 0 <= i < |lines|
      ensures rewritten[i] == lines[i]
    {
      RewriteIdentity(lines[i]);
    }
    assert rewritten == lines;
  }
}

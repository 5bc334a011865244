/** Text handling shared by the four puzzle solvers.

    Input lines are ASCII strings (`seq<char>`); the Rust `char::is_numeric`
    and `char::is_ascii_digit` tests both become `IsDigit`, and
    `char::is_whitespace` becomes `IsWhitespace` on the ASCII range.  The
    library operations the solvers rely on (`str::split`, `str::split_once`,
    `str::split_whitespace`, `str::contains` and `str::parse` for unsigned
    integers) are written out here as functions. */
module Text {

  datatype Option<T> = None | Some(value: T)

  /** The kinds of failure the solvers report; the source attaches a message,
      the model keeps only the kind. */
  datatype ParseError = MissingDelimiter | BadNumber | NoColour

  datatype Result<T> = Ok(value: T) | Err(error: ParseError)

  const U8_MAX: nat := 255
  const U16_MAX: nat := 65535
  const U32_MAX: nat := 4294967295

  predicate IsDigit(c: char) {
    '0' <= c <= '9'
  }

  function DigitValue(c: char): (d: nat)
    requires IsDigit(c)
    ensures d < 10
  {
    c as int - '0' as int
  }

  function DigitChar(d: nat): (c: char)
    requires d < 10
    ensures IsDigit(c) && DigitValue(c) == d
  {
    ('0' as int + d) as char
  }

  predicate AllDigits(s: string) {
    forall i :: 0 <= i < |s| ==> IsDigit(s[i])
  }

  /** The value of a string of decimal digits, most significant first. */
  function DigitsValue(s: string): nat
    requires AllDigits(s)
  {
    if s == [] then 0 else DigitsValue(s[..|s| - 1]) * 10 + DigitValue(s[|s| - 1])
  }

  /** The digits of `s`, in order (`chars().filter(is_numeric)`). */
  function Digits(s: string): (r: string)
    ensures AllDigits(r) && |r| <= |s|
  {
    if s == [] then [] else (if IsDigit(s[0]) then [s[0]] else []) + Digits(s[1..])
  }

  lemma {:induction false} DigitsOfText(s: string)
    requires forall i :: 0 <= i < |s| ==> !IsDigit(s[i])
    ensures Digits(s) == []
  {
    if s != [] {
      DigitsOfText(s[1..]);
    }
  }

  lemma {:induction false} DigitsOfDigits(s: string)
    requires AllDigits(s)
    ensures Digits(s) == s
  {
    if s != [] {
      DigitsOfDigits(s[1..]);
    }
  }

  lemma {:induction false} DigitsConcat(a: string, b: string)
    ensures Digits(a + b) == Digits(a) + Digits(b)
  {
    if a == [] {
      assert a + b == b;
    } else {
      assert (a + b)[1..] == a[1..] + b;
      DigitsConcat(a[1..], b);
    }
  }

  /** The text `str::parse::<uN>` reads digits from: a single leading `+`
      is accepted and dropped. */
  function Magnitude(s: string): string {
    if |s| > 0 && s[0] == '+' then s[1..] else s
  }

  /** `str::parse` for an unsigned integer type whose largest value is `max`:
      an optional `+` followed by at least one ASCII digit and nothing else,
      with a value that fits.  Leading zeros are accepted. */
  function ParseUnsigned(s: string, max: nat): (r: Option<nat>)
    ensures r.Some? <==> Magnitude(s) != [] && AllDigits(Magnitude(s)) && DigitsValue(Magnitude(s)) <= max
    ensures r.Some? ==> r.value <= max
  {
    var m := Magnitude(s);
    if m != [] && AllDigits(m) && DigitsValue(m) <= max then Some(DigitsValue(m)) else None
  }

  /** The decimal rendering of `n` without leading zeros (`n.to_string()`). */
  function Decimal(n: nat): (s: string)
    ensures s != [] && AllDigits(s) && s[0] != '+'
  {
    if n < 10 then [DigitChar(n)] else Decimal(n / 10) + [DigitChar(n % 10)]
  }

  lemma {:induction false} DecimalValue(n: nat)
    ensures DigitsValue(Decimal(n)) == n
  {
    if n >= 10 {
      var s := Decimal(n);
      assert s[..|s| - 1] == Decimal(n / 10);
      DecimalValue(n / 10);
    }
  }

  /** Parsing the decimal rendering of a value that fits gives the value back. */
  lemma {:induction false} ParseDecimal(n: nat, max: nat)
    requires n <= max
    ensures ParseUnsigned(Decimal(n), max) == Some(n)
  {
    DecimalValue(n);
  }

  /** The first index of `c` in `s`. */
  function IndexOf(s: string, c: char): (r: Option<nat>)
    ensures r.None? <==> c !in s
    ensures r.Some? ==> r.value < |s| && s[r.value] == c && c !in s[..r.value]
  {
    if s == [] then None
    else if s[0] == c then Some(0)
    else match IndexOf(s[1..], c)
      case None => None
      case Some(i) => assert s[1..][..i] == s[1..i + 1]; Some(i + 1)
  }

  /** `str::split_once(c)`: the text before and after the first `c`. */
  function SplitOnce(s: string, c: char): (r: Option<(string, string)>)
    ensures r.None? <==> c !in s
    ensures r.Some? ==> c !in r.value.0 && s == r.value.0 + [c] + r.value.1
  {
    match IndexOf(s, c)
    case None => None
    case Some(i) =>
      assert s == s[..i] + [c] + s[i + 1..];
      Some((s[..i], s[i + 1..]))
  }

  /** Splitting at a separator that does not occur before it. */
  lemma {:induction false} SplitOnceAt(a: string, c: char, b: string)
    requires c !in a
    ensures SplitOnce(a + [c] + b, c) == Some((a, b))
  {
    var s := a + [c] + b;
    assert s[|a|] == c;
    assert s[..|a|] == a;
    var i := IndexOf(s, c).value;
    assert i == |a|;
    assert s[i + 1..] == b;
  }

  /** `str::split(c)`: the pieces between separators; there is always one
      more piece than there are separators, so `""` gives `[""]`. */
  function Split(s: string, c: char): (r: seq<string>)
    ensures |r| >= 1
    ensures forall k :: 0 <= k < |r| ==> c !in r[k]
    decreases |s|
  {
    match SplitOnce(s, c)
    case None => [s]
    case Some((before, after)) => [before] + Split(after, c)
  }

  /** The inverse of `Split`: the pieces joined with `c` between them. */
  function Join(pieces: seq<string>, c: char): string
    requires |pieces| >= 1
  {
    if |pieces| == 1 then pieces[0] else pieces[0] + [c] + Join(pieces[1..], c)
  }

  lemma {:induction false} SplitJoin(pieces: seq<string>, c: char)
    requires |pieces| >= 1
    requires forall k :: 0 <= k < |pieces| ==> c !in pieces[k]
    ensures Split(Join(pieces, c), c) == pieces
  {
    if |pieces| > 1 {
      var rest := Join(pieces[1..], c);
      assert Join(pieces, c) == pieces[0] + [c] + rest;
      SplitOnceAt(pieces[0], c, rest);
      assert Split(Join(pieces, c), c) == [pieces[0]] + Split(rest, c);
      SplitJoin(pieces[1..], c);
      assert pieces == [pieces[0]] + pieces[1..];
    } else {
      assert SplitOnce(pieces[0], c).None?;
    }
  }

  /** Whether `w` occurs in `s` as a contiguous piece (`str::contains`). */
  predicate Contains(s: string, w: string)
    decreases |s|
  {
    (|w| <= |s| && s[..|w|] == w) || (s != [] && Contains(s[1..], w))
  }

  lemma {:induction false} ContainsAt(s: string, w: string, i: nat)
    requires i + |w| <= |s| && s[i..i + |w|] == w
    ensures Contains(s, w)
    decreases i
  {
    if i > 0 {
      assert s[1..][i - 1..i - 1 + |w|] == s[i..i + |w|];
      ContainsAt(s[1..], w, i - 1);
    } else {
      assert s[..|w|] == s[0..0 + |w|];
    }
  }

  lemma {:induction false} ContainsWitness(s: string, w: string) returns (i: nat)
    requires Contains(s, w)
    ensures i + |w| <= |s| && s[i..i + |w|] == w
    decreases |s|
  {
    if |w| <= |s| && s[..|w|] == w {
      i := 0;
    } else {
      var j := ContainsWitness(s[1..], w);
      assert s[1..][j..j + |w|] == s[j + 1..j + 1 + |w|];
      i := j + 1;
    }
  }

  /** `char::is_whitespace` on ASCII: space, tab, line feed, vertical tab,
      form feed and carriage return. */
  predicate IsWhitespace(c: char) {
    c == ' ' || '\t' <= c <= '\r'
  }

  predicate IsToken(t: string) {
    t != [] && forall i :: 0 <= i < |t| ==> !IsWhitespace(t[i])
  }

  /** The length of the run of non-whitespace at the start of `s`. */
  function TokenLength(s: string): (n: nat)
    ensures n <= |s|
    ensures forall i :: 0 <= i < n ==> !IsWhitespace(s[i])
    ensures n < |s| ==> IsWhitespace(s[n])
  {
    if s == [] || IsWhitespace(s[0]) then 0 else 1 + TokenLength(s[1..])
  }

  /** `str::split_whitespace`: the maximal runs of non-whitespace, in order. */
  function SplitWhitespace(s: string): (r: seq<string>)
    ensures forall k :: 0 <= k < |r| ==> IsToken(r[k])
    decreases |s|
  {
    if s == [] then []
    else if IsWhitespace(s[0]) then SplitWhitespace(s[1..])
    else
      var n := TokenLength(s);
      [s[..n]] + SplitWhitespace(s[n..])
  }

  /** Tokens each preceded by its own gap of whitespace. */
  function Padded(tokens: seq<string>, gaps: seq<string>): string
    requires |gaps| == |tokens|
  {
    if tokens == [] then [] else gaps[0] + tokens[0] + Padded(tokens[1..], gaps[1..])
  }

  lemma {:induction false} TokenLengthOf(t: string, rest: string)
    requires IsToken(t)
    requires rest == [] || IsWhitespace(rest[0])
    ensures TokenLength(t + rest) == |t|
    decreases |t|
  {
    if |t| > 1 {
      assert (t + rest)[1..] == t[1..] + rest;
      TokenLengthOf(t[1..], rest);
    } else {
      assert (t + rest)[1..] == rest;
    }
  }

  predicate AllWhitespace(s: string) {
    forall i :: 0 <= i < |s| ==> IsWhitespace(s[i])
  }

  lemma {:induction false} SplitAllWhitespace(s: string)
    requires AllWhitespace(s)
    ensures SplitWhitespace(s) == []
  {
    if s != [] {
      SplitAllWhitespace(s[1..]);
    }
  }

  /** Padding two lists of tokens one after the other pads their
      concatenation. */
  lemma {:induction false} PaddedAppend(xs: seq<string>, gs: seq<string>, ys: seq<string>, hs: seq<string>)
    requires |gs| == |xs| && |hs| == |ys|
    ensures Padded(xs + ys, gs + hs) == Padded(xs, gs) + Padded(ys, hs)
  {
    if xs == [] {
      assert xs + ys == ys && gs + hs == hs;
    } else {
      assert (xs + ys)[1..] == xs[1..] + ys && (gs + hs)[1..] == gs[1..] + hs;
      PaddedAppend(xs[1..], gs[1..], ys, hs);
    }
  }

  /** One or more whitespace characters. */
  predicate IsGap(g: string) {
    g != [] && AllWhitespace(g)
  }

  predicate AllGaps(gaps: seq<string>) {
    forall k :: 0 <= k < |gaps| ==> IsGap(gaps[k])
  }

  /** Whitespace in front of a text adds no pieces. */
  lemma {:induction false} SplitLeadingWhitespace(w: string, s: string)
    requires AllWhitespace(w)
    ensures SplitWhitespace(w + s) == SplitWhitespace(s)
    decreases |w|
  {
    if w == [] {
      assert w + s == s;
    } else {
      assert (w + s)[1..] == w[1..] + s;
      SplitLeadingWhitespace(w[1..], s);
    }
  }

  /** Splitting tokens, each after a gap of whitespace of any length, with
      any whitespace after them, gives the tokens back. */
  lemma {:induction false} SplitPadded(tokens: seq<string>, gaps: seq<string>, tail: string)
    requires |gaps| == |tokens|
    requires forall k :: 0 <= k < |tokens| ==> IsToken(tokens[k])
    requires AllGaps(gaps)
    requires AllWhitespace(tail)
    ensures SplitWhitespace(Padded(tokens, gaps) + tail) == tokens
  {
    if tokens == [] {
      assert Padded(tokens, gaps) + tail == tail;
      SplitAllWhitespace(tail);
    } else {
      var rest := Padded(tokens[1..], gaps[1..]) + tail;
      assert Padded(tokens, gaps) + tail == gaps[0] + (tokens[0] + rest);
      SplitLeadingWhitespace(gaps[0], tokens[0] + rest);
      if tokens[1..] != [] {
        assert IsGap(gaps[1]);
        assert rest[0] == gaps[1][0];
      } else {
        assert rest == tail;
      }
      SplitToken(tokens[0], rest);
      SplitPadded(tokens[1..], gaps[1..], tail);
    }
  }

  /** A token followed by text that starts with whitespace splits into the
      token and the pieces of that text. */
  lemma {:induction false} SplitToken(t: string, rest: string)
    requires IsToken(t)
    requires rest == [] || IsWhitespace(rest[0])
    ensures SplitWhitespace(t + rest) == [t] + SplitWhitespace(rest)
  {
    TokenLengthOf(t, rest);
    assert (t + rest)[0] == t[0];
    assert (t + rest)[..|t|] == t;
    assert (t + rest)[|t|..] == rest;
  }

  function Sum(xs: seq<nat>): nat {
    if xs == [] then 0 else xs[0] + Sum(xs[1..])
  }

  lemma {:induction false} SumAppend(xs: seq<nat>, ys: seq<nat>)
    ensures Sum(xs + ys) == Sum(xs) + Sum(ys)
  {
    if xs == [] {
      assert xs + ys == ys;
    } else {
      assert (xs + ys)[1..] == xs[1..] + ys;
      SumAppend(xs[1..], ys);
    }
  }
}

/** Day 4: scratch cards.  A card lists winning numbers and the numbers
    the player has; its score doubles with every winning number after the
    first that the player holds. */
module Day4 {
  import opened Text

  /** `ScratchCard`: the id is a `u16`, the numbers are `u8`s. */
  datatype Card = Card(id: nat, winning: seq<nat>, mine: seq<nat>)

  /** How many entries of `winning` occur among `mine`; a winning number
      listed twice counts twice. */
  function MatchCount(winning: seq<nat>, mine: seq<nat>): (k: nat)
    ensures k <= |winning|
    ensures k == 0 <==> forall i :: 0 <= i < |winning| ==> winning[i] !in mine
    ensures k == |winning| <==> forall i :: 0 <= i < |winning| ==> winning[i] in mine
  {
    if winning == [] then 0
    else (if winning[0] in mine then 1 else 0) + MatchCount(winning[1..], mine)
  }

  function Pow2(n: nat): (r: nat)
    ensures r >= 1
  {
    if n == 0 then 1 else 2 * Pow2(n - 1)
  }

  /** `ScratchCard::score`: zero without a match, otherwise two to the power
      of one less than the number of matches. */
  function Score(c: Card): (r: nat)
    ensures r == 0 <==> forall i :: 0 <= i < |c.winning| ==> c.winning[i] !in c.mine
    ensures r <= Pow2(|c.winning|) / 2
  {
    var k := MatchCount(c.winning, c.mine);
    if k == 0 then 0
    else
      Pow2Monotone(k - 1, |c.winning| - 1);
      Pow2(k - 1)
  }

  lemma {:induction false} Pow2Monotone(m: nat, n: nat)
    requires m <= n
    ensures Pow2(m) <= Pow2(n)
    decreases n
  {
    if m < n {
      Pow2Monotone(m, n - 1);
    }
  }

  lemma {:induction false} MatchCountAppend(winning: seq<nat>, x: nat, mine: seq<nat>)
    ensures MatchCount(winning + [x], mine) == MatchCount(winning, mine) + (if x in mine then 1 else 0)
  {
    if winning != [] {
      assert (winning + [x])[1..] == winning[1..] + [x];
      MatchCountAppend(winning[1..], x, mine);
    } else {
      assert winning + [x] == [x];
    }
  }

  /** One more winning number that the player holds doubles the score, or
      makes it one when it was zero; one the player lacks changes nothing. */
  lemma {:induction false} ScoreExtend(c: Card, x: nat)
    ensures var s := Score(Card(c.id, c.winning + [x], c.mine));
      if x !in c.mine then s == Score(c)
      else if Score(c) == 0 then s == 1
      else s == 2 * Score(c)
  {
    MatchCountAppend(c.winning, x, c.mine);
  }

  lemma {:induction false} MatchCountSameSet(winning: seq<nat>, mine1: seq<nat>, mine2: seq<nat>)
    requires forall x :: x in mine1 <==> x in mine2
    ensures MatchCount(winning, mine1) == MatchCount(winning, mine2)
  {
    if winning != [] {
      MatchCountSameSet(winning[1..], mine1, mine2);
    }
  }

  /** The score depends only on which numbers the player holds, not on their
      order or repetitions. */
  lemma {:induction false} ScoreSameSet(c: Card, mine: seq<nat>)
    requires forall x :: x in c.mine <==> x in mine
    ensures Score(c) == Score(Card(c.id, c.winning, mine))
  {
    MatchCountSameSet(c.winning, c.mine, mine);
  }

  /** The card of the source's example scores 8: four of its winning
      numbers are held. */
  lemma {:induction false} ExampleScore()
    ensures Score(Card(1, [41, 48, 83, 86, 17], [83, 86, 6, 31, 17, 9, 48, 53])) == 8
  {
    ExampleMatches();
    assert Pow2(3) == 8;
  }

  /** Four of the example's winning numbers are held. */
  lemma {:induction false} ExampleMatches()
    ensures MatchCount([41, 48, 83, 86, 17], [83, 86, 6, 31, 17, 9, 48, 53]) == 4
  {
    var mine := [83, 86, 6, 31, 17, 9, 48, 53];
    var w := [41, 48, 83, 86, 17];
    assert 41 !in mine by {
      assert forall i :: 0 <= i < |mine| ==> mine[i] != 41;
    }
    var held := w[1..];
    assert held == [48, 83, 86, 17];
    assert mine[6] == 48 && mine[0] == 83 && mine[1] == 86 && mine[4] == 17;
    assert forall i :: 0 <= i < |held| ==> held[i] in mine;
  }

  predicate AllNumbers(tokens: seq<string>) {
    forall k :: 0 <= k < |tokens| ==> ParseUnsigned(tokens[k], U8_MAX).Some?
  }

  /** Each whitespace-separated token parsed as a `u8`; the first failure
      fails the whole list. */
  function ParseNumbers(tokens: seq<string>): (r: Result<seq<nat>>)
    ensures r.Ok? <==> AllNumbers(tokens)
    ensures r.Err? ==> r.error == BadNumber
    ensures r.Ok? ==> (|r.value| == |tokens| &&
      forall k :: 0 <= k < |tokens| ==> r.value[k] == ParseUnsigned(tokens[k], U8_MAX).value)
  {
    if tokens == [] then Ok([])
    else match ParseUnsigned(tokens[0], U8_MAX)
      case None => Err(BadNumber)
      case Some(n) =>
        match ParseNumbers(tokens[1..])
        case Err(e) => Err(e)
        case Ok(ns) => Ok([n] + ns)
  }

  /** `ScratchCard::try_from_line`: split at the first ':', read the id from
      the digits before it, split the rest at the first '|', and read the
      numbers on either side. */
  function ParseCard(line: string): (r: Result<Card>)
    ensures ':' !in line ==> r == Err(MissingDelimiter)
    ensures ':' in line && '|' !in SplitOnce(line, ':').value.1 ==> r.Err?
    ensures r.Ok? ==> (':' in line &&
      var (front, back) := SplitOnce(line, ':').value;
      ParseUnsigned(Digits(front), U16_MAX) == Some(r.value.id) &&
      '|' in back &&
      var (win, my) := SplitOnce(back, '|').value;
      ParseNumbers(SplitWhitespace(win)) == Ok(r.value.winning) &&
      ParseNumbers(SplitWhitespace(my)) == Ok(r.value.mine))
  {
    match SplitOnce(line, ':')
    case None => Err(MissingDelimiter)
    case Some((front, back)) =>
      match ParseUnsigned(Digits(front), U16_MAX)
      case None => Err(BadNumber)
      case Some(id) =>
        match SplitOnce(back, '|')
        case None => Err(MissingDelimiter)
        case Some((win, my)) =>
          match ParseNumbers(SplitWhitespace(win))
          case Err(e) => Err(e)
          case Ok(winning) =>
            match ParseNumbers(SplitWhitespace(my))
            case Err(e) => Err(e)
            case Ok(mine) => Ok(Card(id, winning, mine))
  }

  /** Where whitespace goes on a card line: the gap after "Card", the gap
      before each winning number, the whitespace before the '|', the gap
      before each number held and the whitespace that ends the line. */
  datatype Layout = Layout(idGap: string, winGaps: seq<string>, barGap: string, mineGaps: seq<string>, trailing: string)

  /** `layout` has a gap for every number of `c`; a gap is one or more
      whitespace characters, the '|' and the end of the line may be preceded
      by any whitespace, none included. */
  predicate LaysOut(layout: Layout, c: Card) {
    && IsGap(layout.idGap)
    && |layout.winGaps| == |c.winning| && AllGaps(layout.winGaps)
    && AllWhitespace(layout.barGap)
    && |layout.mineGaps| == |c.mine| && AllGaps(layout.mineGaps)
    && AllWhitespace(layout.trailing)
  }

  /** The puzzle's card format, `Card <id>: <winning> | <mine>`, with the
      whitespace that `layout` chooses; the puzzle input right-aligns ids and
      numbers with extra spaces. */
  function RenderCard(c: Card, layout: Layout): string
    requires |layout.winGaps| == |c.winning| && |layout.mineGaps| == |c.mine|
  {
    "Card" + layout.idGap + Decimal(c.id) + ":" + Padded(Decimals(c.winning), layout.winGaps) +
    layout.barGap + "|" + Padded(Decimals(c.mine), layout.mineGaps) + layout.trailing
  }

  /** One space after "Card", before each number and before the bar, and
      nothing at the end of the line. */
  function SingleSpaced(c: Card): (layout: Layout)
    ensures LaysOut(layout, c)
  {
    Layout(" ", seq(|c.winning|, _ => " "), " ", seq(|c.mine|, _ => " "), "")
  }

  function Decimals(ns: seq<nat>): (r: seq<string>)
    ensures |r| == |ns|
  {
    seq(|ns|, k requires 0 <= k < |ns| => Decimal(ns[k]))
  }

  predicate Renderable(c: Card) {
    c.id <= U16_MAX &&
    (forall k :: 0 <= k < |c.winning| ==> c.winning[k] <= U8_MAX) &&
    (forall k :: 0 <= k < |c.mine| ==> c.mine[k] <= U8_MAX)
  }

  lemma {:induction false} DecimalsAreTokens(ns: seq<nat>)
    ensures forall k :: 0 <= k < |ns| ==> IsToken(Decimals(ns)[k]) && AllDigits(Decimals(ns)[k])
  {
    forall k | 0 <= k < |ns|
      ensures IsToken(Decimals(ns)[k]) && AllDigits(Decimals(ns)[k])
    {
      var d := Decimal(ns[k]);
      assert forall i :: 0 <= i < |d| ==> IsDigit(d[i]);
    }
  }

  /** The numbers on one side of the card parse back to themselves. */
  lemma {:induction false} ParseRenderedNumbers(ns: seq<nat>, gaps: seq<string>, tail: string)
    requires forall k :: 0 <= k < |ns| ==> ns[k] <= U8_MAX
    requires |gaps| == |ns| && AllGaps(gaps)
    requires AllWhitespace(tail)
    ensures ParseNumbers(SplitWhitespace(Padded(Decimals(ns), gaps) + tail)) == Ok(ns)
  {
    DecimalsAreTokens(ns);
    SplitPadded(Decimals(ns), gaps, tail);
    NumbersOfDecimals(ns);
  }

  lemma {:induction false} NumbersOfDecimals(ns: seq<nat>)
    requires forall k :: 0 <= k < |ns| ==> ns[k] <= U8_MAX
    ensures ParseNumbers(Decimals(ns)) == Ok(ns)
  {
    var texts := Decimals(ns);
    forall k | 0 <= k < |ns|
      ensures ParseUnsigned(texts[k], U8_MAX) == Some(ns[k])
    {
      ParseDecimal(ns[k], U8_MAX);
    }
    var parsed := ParseNumbers(texts);
    assert parsed.Ok?;
    assert parsed.value == ns;
  }

  /** Digits and whitespace contain neither delimiter. */
  lemma {:induction false} PaddedDecimals(ns: seq<nat>, gaps: seq<string>)
    requires |gaps| == |ns| && AllGaps(gaps)
    ensures ':' !in Padded(Decimals(ns), gaps) && '|' !in Padded(Decimals(ns), gaps)
  {
    DecimalsAreTokens(ns);
    PaddedChars(Decimals(ns), gaps);
  }

  lemma {:induction false} PaddedChars(tokens: seq<string>, gaps: seq<string>)
    requires |gaps| == |tokens| && AllGaps(gaps)
    requires forall k :: 0 <= k < |tokens| ==> AllDigits(tokens[k])
    ensures forall i :: 0 <= i < |Padded(tokens, gaps)| ==>
      IsWhitespace(Padded(tokens, gaps)[i]) || IsDigit(Padded(tokens, gaps)[i])
  {
    if tokens != [] {
      PaddedChars(tokens[1..], gaps[1..]);
      var s := Padded(tokens, gaps);
      var g := gaps[0];
      var rest := Padded(tokens[1..], gaps[1..]);
      assert s == g + tokens[0] + rest;
      assert AllWhitespace(g);
      forall i | 0 <= i < |s|
        ensures IsWhitespace(s[i]) || IsDigit(s[i])
      {
        if i < |g| {
          assert s[i] == g[i];
        } else if i < |g| + |tokens[0]| {
          assert s[i] == tokens[0][i - |g|];
        } else {
          assert s[i] == rest[i - |g| - |tokens[0]|];
        }
      }
    }
  }

  lemma {:induction false} DigitsOfCardHeader(id: nat, gap: string)
    requires AllWhitespace(gap)
    ensures Digits("Card" + gap + Decimal(id)) == Decimal(id)
  {
    var d := Decimal(id);
    DigitsOfText("Card" + gap);
    DigitsOfDigits(d);
    DigitsConcat("Card" + gap, d);
  }

  lemma {:induction false} SplitCardLine(c: Card, layout: Layout)
    requires LaysOut(layout, c)
    ensures SplitOnce(RenderCard(c, layout), ':') ==
      Some(("Card" + layout.idGap + Decimal(c.id), Padded(Decimals(c.winning), layout.winGaps) +
        layout.barGap + "|" + Padded(Decimals(c.mine), layout.mineGaps) + layout.trailing))
  {
    var header := "Card" + layout.idGap + Decimal(c.id);
    assert ':' !in Decimal(c.id);
    assert ':' !in layout.idGap;
    assert ':' !in header;
    var back := Padded(Decimals(c.winning), layout.winGaps) +
      layout.barGap + "|" + Padded(Decimals(c.mine), layout.mineGaps) + layout.trailing;
    assert RenderCard(c, layout) == header + [':'] + back;
    SplitOnceAt(header, ':', back);
  }

  lemma {:induction false} SplitCardNumbers(c: Card, layout: Layout)
    requires LaysOut(layout, c)
    ensures SplitOnce(Padded(Decimals(c.winning), layout.winGaps) +
        layout.barGap + "|" + Padded(Decimals(c.mine), layout.mineGaps) + layout.trailing, '|') ==
      Some((Padded(Decimals(c.winning), layout.winGaps) + layout.barGap,
        Padded(Decimals(c.mine), layout.mineGaps) + layout.trailing))
  {
    var win := Padded(Decimals(c.winning), layout.winGaps) + layout.barGap;
    var my := Padded(Decimals(c.mine), layout.mineGaps) + layout.trailing;
    PaddedDecimals(c.winning, layout.winGaps);
    assert '|' !in layout.barGap;
    assert '|' !in win;
    assert Padded(Decimals(c.winning), layout.winGaps) + layout.barGap + "|" +
      Padded(Decimals(c.mine), layout.mineGaps) + layout.trailing == win + ['|'] + my;
    SplitOnceAt(win, '|', my);
  }

  /** Parsing the rendering of a card whose numbers fit their types gives
      the card back, whatever whitespace the layout puts between its parts. */
  lemma {:induction false} ParseRenderedCard(c: Card, layout: Layout)
    requires Renderable(c)
    requires LaysOut(layout, c)
    ensures ParseCard(RenderCard(c, layout)) == Ok(c)
  {
    SplitCardLine(c, layout);
    SplitCardNumbers(c, layout);
    DigitsOfCardHeader(c.id, layout.idGap);
    ParseDecimal(c.id, U16_MAX);
    ParseRenderedNumbers(c.winning, layout.winGaps, layout.barGap);
    ParseRenderedNumbers(c.mine, layout.mineGaps, layout.trailing);
  }

  /** In particular every card whose numbers fit their types parses back
      from its single-spaced line. */
  lemma {:induction false} ParseSingleSpacedCard(c: Card)
    requires Renderable(c)
    ensures ParseCard(RenderCard(c, SingleSpaced(c))) == Ok(c)
  {
    ParseRenderedCard(c, SingleSpaced(c));
  }

  /** The card of the source's test, with the double spaces that align its
      one-digit numbers. */
  function ExampleCard(): Card {
    Card(1, [41, 48, 83, 86, 17], [83, 86, 6, 31, 17, 9, 48, 53])
  }

  function ExampleLayout(): Layout {
    Layout(" ", [" ", " ", " ", " ", " "], " ", [" ", " ", "  ", " ", " ", "  ", " ", " "], "")
  }

  lemma {:induction false} ExampleLaysOut()
    ensures LaysOut(ExampleLayout(), ExampleCard()) && Renderable(ExampleCard())
  {
  }

  /** The example's layout renders the example card as the test's line,
      written here in five pieces: header, winning numbers, bar, and the
      numbers held in two halves. */
  lemma {:induction false} ExampleRendering()
    ensures RenderCard(ExampleCard(), ExampleLayout()) ==
      "Card 1:" + " 41 48 83 86 17" + " |" + " 83 86  6 31" + " 17  9 48 53"
  {
    var c, layout := ExampleCard(), ExampleLayout();
    ExampleWinning();
    ExampleMine();
    assert Decimal(1) == "1";
    CardLineParts(Padded(Decimals(c.winning), layout.winGaps), Padded(Decimals(c.mine), layout.mineGaps));
  }

  lemma {:induction false} ExampleWinning()
    ensures Padded(Decimals(ExampleCard().winning), ExampleLayout().winGaps) == " 41 48 83 86 17"
  {
    WinningDecimals();
    WinningPadded();
  }

  lemma {:induction false} ExampleMine()
    ensures Padded(Decimals(ExampleCard().mine), ExampleLayout().mineGaps) == " 83 86  6 31" + " 17  9 48 53"
  {
    var xs, gs, ys, hs := MineFront(), MineFrontGaps(), MineBack(), MineBackGaps();
    assert ExampleCard().mine == xs + ys && ExampleLayout().mineGaps == gs + hs;
    DecimalsAppend(xs, ys);
    PaddedAppend(Decimals(xs), gs, Decimals(ys), hs);
    MineFrontPadded();
    MineBackPadded();
  }

  lemma {:induction false} CardLineParts(win: string, mine: string)
    ensures "Card" + " " + "1" + ":" + win + " " + "|" + mine + "" == "Card 1:" + win + " |" + mine
  {
    assert "Card" + " " + "1" + ":" == "Card 1:";
    assert " " + "|" == " |";
  }

  lemma {:induction false} DecimalsAppend(xs: seq<nat>, ys: seq<nat>)
    ensures Decimals(xs + ys) == Decimals(xs) + Decimals(ys)
  {
    var d := Decimals(xs + ys);
    forall k | 0 <= k < |d|
      ensures d[k] == (Decimals(xs) + Decimals(ys))[k]
    {
      if k < |xs| {
        assert (xs + ys)[k] == xs[k];
      } else {
        assert (xs + ys)[k] == ys[k - |xs|];
      }
    }
  }

  lemma {:induction false} WinningDecimals()
    ensures Decimals([41, 48, 83, 86, 17]) == ["41", "48", "83", "86", "17"]
  {
    var d := Decimals([41, 48, 83, 86, 17]);
    assert Decimal(41) == "41";
    assert Decimal(48) == "48";
    assert Decimal(83) == "83";
    assert Decimal(86) == "86";
    assert Decimal(17) == "17";
    assert d[0] == "41" && d[1] == "48" && d[2] == "83" && d[3] == "86" && d[4] == "17";
  }

  lemma {:induction false} WinningPadded()
    ensures Padded(["41", "48", "83", "86", "17"], [" ", " ", " ", " ", " "]) == " 41 48 83 86 17"
  {
  }

  /** The numbers held on the example card, in two halves, with their gaps. */
  function MineFront(): seq<nat> { [83, 86, 6, 31] }
  function MineFrontGaps(): seq<string> { [" ", " ", "  ", " "] }
  function MineBack(): seq<nat> { [17, 9, 48, 53] }
  function MineBackGaps(): seq<string> { [" ", "  ", " ", " "] }

  lemma {:induction false} MineFrontPadded()
    ensures Padded(Decimals(MineFront()), MineFrontGaps()) == " 83 86  6 31"
  {
    var d := Decimals(MineFront());
    assert Decimal(83) == "83";
    assert Decimal(86) == "86";
    assert Decimal(6) == "6";
    assert Decimal(31) == "31";
    assert d[0] == "83" && d[1] == "86" && d[2] == "6" && d[3] == "31";
    assert d == ["83", "86", "6", "31"];
  }

  lemma {:induction false} MineBackPadded()
    ensures Padded(Decimals(MineBack()), MineBackGaps()) == " 17  9 48 53"
  {
    var d := Decimals(MineBack());
    assert Decimal(17) == "17";
    assert Decimal(9) == "9";
    assert Decimal(48) == "48";
    assert Decimal(53) == "53";
    assert d[0] == "17" && d[1] == "9" && d[2] == "48" && d[3] == "53";
    assert d == ["17", "9", "48", "53"];
  }

  /** So the test's line parses into the example card. */
  lemma {:induction false} ExampleParses()
    ensures ParseCard("Card 1:" + " 41 48 83 86 17" + " |" + " 83 86  6 31" + " 17  9 48 53") == Ok(ExampleCard())
  {
    ExampleLaysOut();
    ParseRenderedCard(ExampleCard(), ExampleLayout());
    ExampleRendering();
  }

  predicate AllCardsParse(lines: seq<string>) {
    forall k :: 0 <= k < |lines| ==> ParseCard(lines[k]).Ok?
  }

  function Scores(lines: seq<string>): (r: seq<nat>)
    requires AllCardsParse(lines)
    ensures |r| == |lines|
    ensures forall k :: 0 <= k < |lines| ==> r[k] == Score(ParseCard(lines[k]).value)
  {
    seq(|lines|, k requires 0 <= k < |lines| => Score(ParseCard(lines[k]).value))
  }

  /** `part1`: every line must be a card; the answer is the sum of their
      scores. */
  function Part1(lines: seq<string>): (r: Result<nat>)
    ensures r.Ok? <==> AllCardsParse(lines)
    ensures r.Ok? ==> r.value == Sum(Scores(lines))
  {
    if AllCardsParse(lines) then Ok(Sum(Scores(lines))) else FirstError(lines)
  }

  /** The error of the first line that is not a card. */
  function FirstError(lines: seq<string>): (r: Result<nat>)
    requires !AllCardsParse(lines)
    ensures r.Err?
  {
    if ParseCard(lines[0]).Err? then Err(ParseCard(lines[0]).error)
    else FirstError(lines[1..])
  }

  lemma {:induction false} ScoresAppend(a: seq<string>, b: seq<string>)
    requires AllCardsParse(a) && AllCardsParse(b)
    ensures AllCardsParse(a + b) && Scores(a + b) == Scores(a) + Scores(b)
  {
    forall k | 0 <= k < |a + b|
      ensures ParseCard((a + b)[k]).Ok?
    {
      if k < |a| { assert (a + b)[k] == a[k]; } else { assert (a + b)[k] == b[k - |a|]; }
    }
    assert Scores(a + b) == Scores(a) + Scores(b);
  }

  /** Cards add up independently of one another: the total of two lists of
      cards is the sum of their totals. */
  lemma {:induction false} Part1Append(a: seq<string>, b: seq<string>)
    requires AllCardsParse(a) && AllCardsParse(b)
    ensures Part1(a).Ok? && Part1(b).Ok? && Part1(a + b).Ok?
    ensures Part1(a + b).value == Part1(a).value + Part1(b).value
  {
    ScoresAppend(a, b);
    var sa, sb := Scores(a), Scores(b);
    SumAppend(sa, sb);
    assert Part1(a + b) == Ok(Sum(sa + sb));
    assert Part1(a) == Ok(Sum(sa));
    assert Part1(b) == Ok(Sum(sb));
  }
}

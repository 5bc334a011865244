/** Day 2: the cube game.

    A line `Game N: a red, b green; c blue; ...` records the cubes shown in
    each draw of game N.  Part 1 adds the ids of the games possible with at
    most 12 red, 13 green and 14 blue cubes; part 2 adds the "power" of the
    smallest disposition that makes each game possible. */
module Day2 {
  import opened Text

  datatype Colour = Red | Green | Blue

  /** `CubesDisposition`: how many cubes of each colour a draw shows;
      `None` where the colour is absent. */
  datatype Disposition = Disposition(red: Option<nat>, green: Option<nat>, blue: Option<nat>)

  /** `GameOutcome`: a game id and its draws, in order. */
  datatype Game = Game(id: nat, draws: seq<Disposition>)

  function CountOf(d: Disposition, c: Colour): Option<nat> {
    match c
    case Red => d.red
    case Green => d.green
    case Blue => d.blue
  }

  /** `unwrap_or_default`: an absent colour counts as 0. */
  function OrZero(x: Option<nat>): nat {
    match x
    case None => 0
    case Some(n) => n
  }

  /** `unwrap_or(1)`: an absent colour counts as 1. */
  function OrOne(x: Option<nat>): nat {
    match x
    case None => 1
    case Some(n) => n
  }

  /** The order `Option` has in Rust: `None` below every `Some`. */
  predicate OptLe(x: Option<nat>, y: Option<nat>) {
    x.None? || (y.Some? && x.value <= y.value)
  }

  function OptMax(x: Option<nat>, y: Option<nat>): Option<nat> {
    if OptLe(x, y) then y else x
  }

  /** `CubesDisposition::power`: the product of the three counts. */
  function Power(d: Disposition): (r: nat)
    ensures r == 0 <==> d.red == Some(0) || d.green == Some(0) || d.blue == Some(0)
  {
    OrOne(d.red) * OrOne(d.green) * OrOne(d.blue)
  }

  // ---------------------------------------------------------------------
  // Parsing one draw

  /** The first colour name `piece` contains, trying red, green, blue in turn. */
  function ColourIn(piece: string): Option<Colour> {
    if Contains(piece, "red") then Some(Red)
    else if Contains(piece, "green") then Some(Green)
    else if Contains(piece, "blue") then Some(Blue)
    else None
  }

  /** One comma-separated piece of a draw: the number formed by all its
      ASCII digits, read as a `u8`, for the first colour it names. */
  function ParsePiece(piece: string): (r: Result<(Colour, nat)>)
    ensures r.Ok? <==> Digits(piece) != [] && DigitsValue(Digits(piece)) <= U8_MAX && ColourIn(piece).Some?
    ensures r.Ok? ==> r.value == (ColourIn(piece).value, DigitsValue(Digits(piece)))
  {
    match ParseUnsigned(Digits(piece), U8_MAX)
    case None => Err(BadNumber)
    case Some(n) =>
      match ColourIn(piece)
      case None => Err(NoColour)
      case Some(c) => Ok((c, n))
  }

  predicate AllPiecesParse(pieces: seq<string>) {
    forall k :: 0 <= k < |pieces| ==> ParsePiece(pieces[k]).Ok?
  }

  /** Every piece parsed, stopping at the first failure. */
  function ParsePieces(pieces: seq<string>): (r: Result<seq<(Colour, nat)>>)
    ensures r.Ok? <==> AllPiecesParse(pieces)
    ensures r.Ok? ==> (|r.value| == |pieces| &&
      forall k :: 0 <= k < |pieces| ==> r.value[k] == ParsePiece(pieces[k]).value)
  {
    if pieces == [] then Ok([])
    else
      match ParsePiece(pieces[0])
      case Err(e) => Err(e)
      case Ok(p) =>
        match ParsePieces(pieces[1..])
        case Err(e) => Err(e)
        case Ok(ps) => Ok([p] + ps)
  }

  /** The fold over the parsed pieces: the cubes of colour `c` added up. */
  function Total(ps: seq<(Colour, nat)>, c: Colour): nat {
    if ps == [] then 0 else (if ps[0].0 == c then ps[0].1 else 0) + Total(ps[1..], c)
  }

  function NoneIfZero(n: nat): Option<nat> {
    if n > 0 then Some(n) else None
  }

  /** `CubesDisposition::try_from`: split at `,`, parse every piece, add up
      the counts of each colour; a colour whose total is 0 is absent. */
  function ParseDraw(s: string): (r: Result<Disposition>)
    ensures r.Ok? <==> AllPiecesParse(Split(s, ','))
    ensures r.Ok? ==> ((r.value.red.None? || r.value.red.value > 0) &&
      (r.value.green.None? || r.value.green.value > 0) && (r.value.blue.None? || r.value.blue.value > 0))
  {
    var pieces := Split(s, ',');
    match ParsePieces(pieces)
    case Err(e) => Err(e)
    case Ok(ps) => Ok(Disposition(NoneIfZero(Total(ps, Red)), NoneIfZero(Total(ps, Green)), NoneIfZero(Total(ps, Blue))))
  }

  // ---------------------------------------------------------------------
  // Parsing a game

  /** Every draw parsed, stopping at the first failure. */
  function ParseDraws(segments: seq<string>): (r: Result<seq<Disposition>>)
    ensures r.Ok? <==> forall k :: 0 <= k < |segments| ==> ParseDraw(segments[k]).Ok?
    ensures r.Ok? ==> (|r.value| == |segments| &&
      forall k :: 0 <= k < |segments| ==> r.value[k] == ParseDraw(segments[k]).value)
  {
    if segments == [] then Ok([])
    else
      match ParseDraw(segments[0])
      case Err(e) => Err(e)
      case Ok(d) =>
        match ParseDraws(segments[1..])
        case Err(e) => Err(e)
        case Ok(ds) => Ok([d] + ds)
  }

  /** `GameOutcome::try_from`: the id is the text between the first space
      and the next `:`, read as a `u32`; the draws are the `;`-separated
      segments after the first `:` of the line. */
  function ParseGame(line: string): (r: Result<Game>)
    ensures ' ' !in line ==> r == Err(MissingDelimiter)
    ensures ' ' in line && ':' !in SplitOnce(line, ' ').value.1 ==> r == Err(MissingDelimiter)
    ensures r.Ok? ==>
      var idText := SplitOnce(SplitOnce(line, ' ').value.1, ':').value.0;
      var segments := Split(SplitOnce(line, ':').value.1, ';');
      && ParseUnsigned(idText, U32_MAX) == Some(r.value.id)
      && |r.value.draws| == |segments|
      && forall k :: 0 <= k < |segments| ==> ParseDraw(segments[k]) == Ok(r.value.draws[k])
  {
    match SplitOnce(line, ' ')
    case None => Err(MissingDelimiter)
    case Some((_, rest)) =>
      match SplitOnce(rest, ':')
      case None => Err(MissingDelimiter)
      case Some((idText, _)) =>
        match ParseUnsigned(idText, U32_MAX)
        case None => Err(BadNumber)
        case Some(id) =>
          match SplitOnce(line, ':')
          case None => Err(MissingDelimiter)
          case Some((_, drawsText)) =>
            match ParseDraws(Split(drawsText, ';'))
            case Err(e) => Err(e)
            case Ok(draws) => Ok(Game(id, draws))
  }

  // ---------------------------------------------------------------------
  // Rendering, the inverse of parsing

  function ColourName(c: Colour): string {
    match c
    case Red => "red"
    case Green => "green"
    case Blue => "blue"
  }

  /** The colours a draw shows, with their counts, in the order red, green, blue. */
  function PresentPairs(d: Disposition): seq<(Colour, nat)> {
    (if d.red.Some? then [(Red, d.red.value)] else []) +
    (if d.green.Some? then [(Green, d.green.value)] else []) +
    (if d.blue.Some? then [(Blue, d.blue.value)] else [])
  }

  /** One piece as the puzzle writes it: `" 6 blue"`. */
  function RenderPiece(p: (Colour, nat)): string {
    " " + Decimal(p.1) + " " + ColourName(p.0)
  }

  /** The dispositions a parse can produce: some colour present, every count
      between 1 and 255. A present count of 0 cannot come back from a parse:
      the piece `" 0 red"` yields an absent red (`ExplicitZeroVanishes`). */
  predicate Renderable(d: Disposition) {
    (d.red.Some? || d.green.Some? || d.blue.Some?) &&
    (d.red.Some? ==> 0 < d.red.value <= U8_MAX) &&
    (d.green.Some? ==> 0 < d.green.value <= U8_MAX) &&
    (d.blue.Some? ==> 0 < d.blue.value <= U8_MAX)
  }

  function RenderPieces(d: Disposition): (r: seq<string>)
    ensures |r| == |PresentPairs(d)|
  {
    var pairs := PresentPairs(d);
    seq(|pairs|, k requires 0 <= k < |pairs| => RenderPiece(pairs[k]))
  }

  /** A draw as the puzzle writes it: `" 1 red, 2 green, 6 blue"`. */
  function RenderDraw(d: Disposition): string
    requires Renderable(d)
  {
    Join(RenderPieces(d), ',')
  }

  function RenderDraws(draws: seq<Disposition>): (r: seq<string>)
    requires forall k :: 0 <= k < |draws| ==> Renderable(draws[k])
    ensures |r| == |draws|
  {
    if draws == [] then [] else [RenderDraw(draws[0])] + RenderDraws(draws[1..])
  }

  /** A game as the puzzle writes it: `"Game 3: 20 red, 8 green, 6 blue; 5 blue"`. */
  function RenderGame(g: Game): string
    requires g.draws != [] && forall k :: 0 <= k < |g.draws| ==> Renderable(g.draws[k])
  {
    "Game " + Decimal(g.id) + ":" + Join(RenderDraws(g.draws), ';')
  }

  lemma {:induction false} NotContainedWithout(s: string, w: string, k: nat)
    requires k < |w| && w[k] !in s
    ensures !Contains(s, w)
  {
    if Contains(s, w) {
      var i := ContainsWitness(s, w);
    }
  }

  /** The characters of a rendered piece: a space, digits, a space and the
      colour name; so no separator, and no letter the other names need. */
  lemma {:induction false} PieceChars(p: (Colour, nat))
    ensures ',' !in RenderPiece(p) && ';' !in RenderPiece(p) && ':' !in RenderPiece(p)
    ensures p.0 == Green ==> 'd' !in RenderPiece(p)
    ensures p.0 == Blue ==> 'r' !in RenderPiece(p) && 'g' !in RenderPiece(p)
  {
    var piece := RenderPiece(p);
    var digits := Decimal(p.1);
    forall i | 0 <= i < |piece|
      ensures piece[i] == ' ' || IsDigit(piece[i]) || piece[i] in ColourName(p.0)
    {
      if 1 <= i < 1 + |digits| {
        assert piece[i] == digits[i - 1];
      } else if i >= 2 + |digits| {
        assert piece[i] == ColourName(p.0)[i - 2 - |digits|];
      }
    }
  }

  lemma {:induction false} PieceDigits(p: (Colour, nat))
    ensures Digits(RenderPiece(p)) == Decimal(p.1)
  {
    var name := " " + ColourName(p.0);
    assert RenderPiece(p) == " " + Decimal(p.1) + name;
    DigitsConcat(" " + Decimal(p.1), name);
    DigitsConcat(" ", Decimal(p.1));
    DigitsOfText(" ");
    NameHasNoDigits(p.0);
    DigitsOfDigits(Decimal(p.1));
  }

  lemma {:induction false} NameHasNoDigits(c: Colour)
    ensures Digits(" " + ColourName(c)) == []
  {
    var name := " " + ColourName(c);
    assert forall i :: 0 <= i < |name| ==> !IsDigit(name[i]);
    DigitsOfText(name);
  }

  lemma {:induction false} PieceColour(p: (Colour, nat))
    ensures ColourIn(RenderPiece(p)) == Some(p.0)
  {
    var piece := RenderPiece(p);
    var pos := 2 + |Decimal(p.1)|;
    assert piece[pos..pos + |ColourName(p.0)|] == ColourName(p.0);
    ContainsAt(piece, ColourName(p.0), pos);
    PieceChars(p);
    match p.0 {
      case Red =>
      case Green =>
        NotContainedWithout(piece, "red", 2);
      case Blue =>
        NotContainedWithout(piece, "red", 0);
        NotContainedWithout(piece, "green", 0);
    }
  }

  /** A rendered piece parses back to its colour and count. */
  lemma {:induction false} ParseRenderedPiece(p: (Colour, nat))
    requires p.1 <= U8_MAX
    ensures ParsePiece(RenderPiece(p)) == Ok(p)
  {
    PieceDigits(p);
    PieceColour(p);
    ParseDecimal(p.1, U8_MAX);
  }

  lemma {:induction false} TotalAppend(a: seq<(Colour, nat)>, b: seq<(Colour, nat)>, c: Colour)
    ensures Total(a + b, c) == Total(a, c) + Total(b, c)
  {
    if a == [] {
      assert a + b == b;
    } else {
      assert (a + b)[1..] == a[1..] + b;
      TotalAppend(a[1..], b, c);
    }
  }

  lemma {:induction false} PresentPairsFacts(d: Disposition)
    requires Renderable(d)
    ensures |PresentPairs(d)| >= 1
    ensures forall k :: 0 <= k < |PresentPairs(d)| ==>
      0 < PresentPairs(d)[k].1 <= U8_MAX
    ensures forall c :: Total(PresentPairs(d), c) == OrZero(CountOf(d, c))
  {
    var r: seq<(Colour, nat)> := if d.red.Some? then [(Red, d.red.value)] else [];
    var g: seq<(Colour, nat)> := if d.green.Some? then [(Green, d.green.value)] else [];
    var b: seq<(Colour, nat)> := if d.blue.Some? then [(Blue, d.blue.value)] else [];
    forall c
      ensures Total(PresentPairs(d), c) == OrZero(CountOf(d, c))
    {
      TotalAppend(r + g, b, c);
      TotalAppend(r, g, c);
    }
  }

  /** Rendering a draw and parsing it back gives the draw. */
  lemma {:induction false} ParseRenderedDraw(d: Disposition)
    requires Renderable(d)
    ensures ParseDraw(RenderDraw(d)) == Ok(d)
  {
    var pieces := RenderPieces(d);
    var pairs := PresentPairs(d);
    PresentPairsFacts(d);
    forall k | 0 <= k < |pieces|
      ensures ',' !in pieces[k] && ParsePiece(pieces[k]) == Ok(pairs[k])
    {
      PieceChars(pairs[k]);
      ParseRenderedPiece(pairs[k]);
    }
    SplitJoin(pieces, ',');
    var parsed := ParsePieces(pieces);
    assert parsed.Ok?;
    assert parsed.value == pairs;
  }

  lemma {:induction false} JoinAvoids(pieces: seq<string>, sep: char, c: char)
    requires |pieces| >= 1 && sep != c
    requires forall k :: 0 <= k < |pieces| ==> c !in pieces[k]
    ensures c !in Join(pieces, sep)
  {
    if |pieces| > 1 {
      JoinAvoids(pieces[1..], sep, c);
    }
  }

  lemma {:induction false} DrawSeparators(d: Disposition)
    requires Renderable(d)
    ensures ';' !in RenderDraw(d) && ':' !in RenderDraw(d)
  {
    var pieces := RenderPieces(d);
    PresentPairsFacts(d);
    forall k | 0 <= k < |pieces|
      ensures ';' !in pieces[k] && ':' !in pieces[k]
    {
      PieceChars(PresentPairs(d)[k]);
    }
    JoinAvoids(pieces, ',', ';');
    JoinAvoids(pieces, ',', ':');
  }

  lemma {:induction false} RenderDrawsAt(draws: seq<Disposition>, k: nat)
    requires forall j :: 0 <= j < |draws| ==> Renderable(draws[j])
    requires k < |draws|
    ensures RenderDraws(draws)[k] == RenderDraw(draws[k])
  {
    if k > 0 {
      RenderDrawsAt(draws[1..], k - 1);
    }
  }

  /** Where the three `split_once` calls of the game parser cut a rendered line. */
  lemma {:induction false} GameLineSplits(id: string, body: string)
    requires AllDigits(id)
    ensures SplitOnce("Game " + id + ":" + body, ' ') == Some(("Game", id + ":" + body))
    ensures SplitOnce(id + ":" + body, ':') == Some((id, body))
    ensures SplitOnce("Game " + id + ":" + body, ':') == Some(("Game " + id, body))
  {
    SplitAtSpace(id, body);
    SplitAtColon(id, body);
    SplitLineAtColon(id, body);
  }

  lemma {:induction false} SplitAtSpace(id: string, body: string)
    ensures SplitOnce("Game " + id + ":" + body, ' ') == Some(("Game", id + ":" + body))
  {
    var line := "Game " + id + ":" + body;
    assert line[4] == ' ' && line[..4] == "Game";
    assert line[5..] == id + ":" + body;
  }

  lemma {:induction false} SplitAtColon(id: string, body: string)
    requires AllDigits(id)
    ensures SplitOnce(id + ":" + body, ':') == Some((id, body))
  {
    var rest := id + ":" + body;
    assert rest[|id|] == ':' && rest[..|id|] == id && rest[|id| + 1..] == body;
    assert ':' !in id;
  }

  lemma {:induction false} SplitLineAtColon(id: string, body: string)
    requires AllDigits(id)
    ensures SplitOnce("Game " + id + ":" + body, ':') == Some(("Game " + id, body))
  {
    var head := "Game " + id;
    var line := head + ":" + body;
    assert line[|head|] == ':' && line[..|head|] == head && line[|head| + 1..] == body;
    assert ':' !in head by {
      forall i | 0 <= i < |head| ensures head[i] != ':' {
        if i >= 5 { assert head[i] == id[i - 5]; }
      }
    }
  }

  /** The rendered draws parse back, one by one, to the draws. */
  lemma {:induction false} ParseDrawsOfRendered(draws: seq<Disposition>)
    requires forall k :: 0 <= k < |draws| ==> Renderable(draws[k])
    ensures ParseDraws(RenderDraws(draws)) == Ok(draws)
  {
    var texts := RenderDraws(draws);
    forall k | 0 <= k < |texts|
      ensures ParseDraw(texts[k]) == Ok(draws[k])
    {
      RenderDrawsAt(draws, k);
      ParseRenderedDraw(draws[k]);
    }
    var parsed := ParseDraws(texts);
    assert parsed.Ok?;
    assert parsed.value == draws;
  }

  /** The draws of a game, joined with `;` and split again, parse back to
      the draws. */
  lemma {:induction false} ParseRenderedDraws(draws: seq<Disposition>)
    requires draws != [] && forall k :: 0 <= k < |draws| ==> Renderable(draws[k])
    ensures ParseDraws(Split(Join(RenderDraws(draws), ';'), ';')) == Ok(draws)
  {
    var texts := RenderDraws(draws);
    forall k | 0 <= k < |texts|
      ensures ';' !in texts[k]
    {
      RenderDrawsAt(draws, k);
      DrawSeparators(draws[k]);
    }
    SplitJoin(texts, ';');
    ParseDrawsOfRendered(draws);
  }

  /** Rendering a game and parsing it back gives the game. */
  lemma {:induction false} ParseRenderedGame(g: Game)
    requires g.id <= U32_MAX
    requires g.draws != [] && forall k :: 0 <= k < |g.draws| ==> Renderable(g.draws[k])
    ensures ParseGame(RenderGame(g)) == Ok(g)
  {
    GameLineSplits(Decimal(g.id), Join(RenderDraws(g.draws), ';'));
    ParseDecimal(g.id, U32_MAX);
    ParseRenderedDraws(g.draws);
  }

  // ---------------------------------------------------------------------
  // Pieces in any order

  /** A list of pieces as a line could write them: not empty, each count
      between 0 and 255, colours in any order and possibly repeated. */
  predicate PiecesWritable(pairs: seq<(Colour, nat)>) {
    |pairs| >= 1 && forall k :: 0 <= k < |pairs| ==> pairs[k].1 <= U8_MAX
  }

  /** The pieces `" <n> <colour>"` joined with `,`, in the list's own order. */
  function DrawText(pairs: seq<(Colour, nat)>): string
    requires |pairs| >= 1
  {
    Join(seq(|pairs|, k requires 0 <= k < |pairs| => RenderPiece(pairs[k])), ',')
  }

  /** The disposition a list of pieces stands for: each colour's total, and
      no entry for a colour whose total is 0. */
  function DrawOf(pairs: seq<(Colour, nat)>): Disposition {
    Disposition(NoneIfZero(Total(pairs, Red)), NoneIfZero(Total(pairs, Green)), NoneIfZero(Total(pairs, Blue)))
  }

  /** The order of the pieces does not matter, and a colour named twice is
      added up. */
  lemma {:induction false} ParseDrawInAnyOrder(pairs: seq<(Colour, nat)>)
    requires PiecesWritable(pairs)
    ensures ';' !in DrawText(pairs) && ':' !in DrawText(pairs)
    ensures ParseDraw(DrawText(pairs)) == Ok(DrawOf(pairs))
  {
    var pieces := seq(|pairs|, k requires 0 <= k < |pairs| => RenderPiece(pairs[k]));
    forall k | 0 <= k < |pieces|
      ensures ',' !in pieces[k] && ';' !in pieces[k] && ':' !in pieces[k] && ParsePiece(pieces[k]) == Ok(pairs[k])
    {
      PieceChars(pairs[k]);
      ParseRenderedPiece(pairs[k]);
    }
    JoinAvoids(pieces, ',', ';');
    JoinAvoids(pieces, ',', ':');
    SplitJoin(pieces, ',');
    var parsed := ParsePieces(pieces);
    assert parsed.Ok?;
    assert parsed.value == pairs;
  }

  /** A colour whose pieces all say 0 adds up to 0. */
  lemma {:induction false} TotalOfZeros(pairs: seq<(Colour, nat)>, c: Colour)
    requires forall k :: 0 <= k < |pairs| && pairs[k].0 == c ==> pairs[k].1 == 0
    ensures Total(pairs, c) == 0
  {
    if pairs != [] {
      TotalOfZeros(pairs[1..], c);
    }
  }

  /** A colour named only with count 0, as in `" 0 red, 2 green"`, or not
      named at all, is absent from the parsed draw. */
  lemma {:induction false} ExplicitZeroVanishes(pairs: seq<(Colour, nat)>, c: Colour)
    requires PiecesWritable(pairs)
    requires forall k :: 0 <= k < |pairs| && pairs[k].0 == c ==> pairs[k].1 == 0
    ensures ParseDraw(DrawText(pairs)).Ok? && CountOf(ParseDraw(DrawText(pairs)).value, c).None?
  {
    ParseDrawInAnyOrder(pairs);
    TotalOfZeros(pairs, c);
  }

  /** A game line whose draws list their pieces in any order. */
  function GameText(id: nat, draws: seq<seq<(Colour, nat)>>): string
    requires draws != [] && forall k :: 0 <= k < |draws| ==> PiecesWritable(draws[k])
  {
    "Game " + Decimal(id) + ":" + Join(seq(|draws|, k requires 0 <= k < |draws| && PiecesWritable(draws[k]) => DrawText(draws[k])), ';')
  }

  /** The draws of such a game line, each parsed on its own. */
  lemma {:induction false} ParseDrawTexts(draws: seq<seq<(Colour, nat)>>)
    requires forall k :: 0 <= k < |draws| ==> PiecesWritable(draws[k])
    ensures var texts := seq(|draws|, k requires 0 <= k < |draws| && PiecesWritable(draws[k]) => DrawText(draws[k]));
      (forall k :: 0 <= k < |texts| ==> ';' !in texts[k]) &&
      ParseDraws(texts) == Ok(seq(|draws|, k requires 0 <= k < |draws| => DrawOf(draws[k])))
  {
    var texts := seq(|draws|, k requires 0 <= k < |draws| && PiecesWritable(draws[k]) => DrawText(draws[k]));
    var want := seq(|draws|, k requires 0 <= k < |draws| => DrawOf(draws[k]));
    forall k | 0 <= k < |texts|
      ensures ';' !in texts[k] && ParseDraw(texts[k]) == Ok(want[k])
    {
      ParseDrawInAnyOrder(draws[k]);
    }
    var parsed := ParseDraws(texts);
    assert parsed.Ok?;
    assert parsed.value == want;
  }

  /** Such a game line parses to the draws' dispositions, in order. */
  lemma {:induction false} ParseGameInAnyOrder(id: nat, draws: seq<seq<(Colour, nat)>>)
    requires id <= U32_MAX
    requires draws != [] && forall k :: 0 <= k < |draws| ==> PiecesWritable(draws[k])
    ensures ParseGame(GameText(id, draws)) ==
      Ok(Game(id, seq(|draws|, k requires 0 <= k < |draws| => DrawOf(draws[k]))))
  {
    var texts := seq(|draws|, k requires 0 <= k < |draws| && PiecesWritable(draws[k]) => DrawText(draws[k]));
    ParseDrawTexts(draws);
    SplitJoin(texts, ';');
    GameLineSplits(Decimal(id), Join(texts, ';'));
    ParseDecimal(id, U32_MAX);
  }


  // ---------------------------------------------------------------------
  // Possible games and the smallest disposition

  /** The draw fits under the bounds, an absent colour counting 0. */
  predicate Fits(d: Disposition, maxR: nat, maxG: nat, maxB: nat) {
    OrZero(d.red) <= maxR && OrZero(d.green) <= maxG && OrZero(d.blue) <= maxB
  }

  /** How many draws exceed the bounds (the source's `filter(!fits).count()`). */
  function CountMisfits(draws: seq<Disposition>, maxR: nat, maxG: nat, maxB: nat): (r: nat)
    ensures r <= |draws|
    ensures r == 0 <==> forall k :: 0 <= k < |draws| ==> Fits(draws[k], maxR, maxG, maxB)
  {
    if draws == [] then 0
    else (if Fits(draws[0], maxR, maxG, maxB) then 0 else 1) + CountMisfits(draws[1..], maxR, maxG, maxB)
  }

  /** `GameOutcome::is_possibile`: no draw exceeds the bounds. */
  function IsPossible(g: Game, maxR: nat, maxG: nat, maxB: nat): (r: bool)
    ensures r <==> forall k :: 0 <= k < |g.draws| ==> Fits(g.draws[k], maxR, maxG, maxB)
  {
    CountMisfits(g.draws, maxR, maxG, maxB) == 0
  }

  /** `iter().map(colour).max()` over the draws: the largest count of colour
      `c` under the `None < Some` order, `None` for no draws. */
  function MaxCount(draws: seq<Disposition>, c: Colour): (r: Option<nat>)
    ensures forall k :: 0 <= k < |draws| ==> OptLe(CountOf(draws[k], c), r)
    ensures r.None? || exists k :: 0 <= k < |draws| && CountOf(draws[k], c) == r
  {
    if draws == [] then None
    else
      var rest := MaxCount(draws[1..], c);
      assert forall k :: 1 <= k < |draws| ==> draws[k] == draws[1..][k - 1];
      OptMax(CountOf(draws[0], c), rest)
  }

  /** `GameOutcome::min_disposition`: the componentwise maximum of the draws. */
  function MinDisposition(g: Game): (r: Disposition)
    ensures forall k, c :: 0 <= k < |g.draws| ==> OptLe(CountOf(g.draws[k], c), CountOf(r, c))
    ensures forall c :: CountOf(r, c).None? || exists k :: 0 <= k < |g.draws| && CountOf(g.draws[k], c) == CountOf(r, c)
  {
    Disposition(MaxCount(g.draws, Red), MaxCount(g.draws, Green), MaxCount(g.draws, Blue))
  }

  /** A game with no draws needs no cubes. */
  lemma {:induction false} MinDispositionEmpty(g: Game)
    requires g.draws == []
    ensures MinDisposition(g) == Disposition(None, None, None)
  {
  }

  /** A game is possible exactly when its smallest disposition fits. */
  lemma {:induction false} PossibleIffMinimumFits(g: Game, maxR: nat, maxG: nat, maxB: nat)
    ensures IsPossible(g, maxR, maxG, maxB) <==> Fits(MinDisposition(g), maxR, maxG, maxB)
  {
    var m := MinDisposition(g);
    if IsPossible(g, maxR, maxG, maxB) {
      forall c
        ensures OrZero(CountOf(m, c)) <= (match c case Red => maxR case Green => maxG case Blue => maxB)
      {
        if CountOf(m, c).Some? {
          var k :| 0 <= k < |g.draws| && CountOf(g.draws[k], c) == CountOf(m, c);
          assert Fits(g.draws[k], maxR, maxG, maxB);
        }
      }
      assert OrZero(CountOf(m, Red)) <= maxR;
      assert OrZero(CountOf(m, Green)) <= maxG;
      assert OrZero(CountOf(m, Blue)) <= maxB;
    }
    if Fits(m, maxR, maxG, maxB) {
      forall k | 0 <= k < |g.draws|
        ensures Fits(g.draws[k], maxR, maxG, maxB)
      {
        assert OptLe(CountOf(g.draws[k], Red), CountOf(m, Red));
        assert OptLe(CountOf(g.draws[k], Green), CountOf(m, Green));
        assert OptLe(CountOf(g.draws[k], Blue), CountOf(m, Blue));
      }
    }
  }

  // ---------------------------------------------------------------------
  // The answers

  const MAX_RED: nat := 12
  const MAX_GREEN: nat := 13
  const MAX_BLUE: nat := 14

  /** What one line adds to `part1`: nothing when it does not parse. */
  function PossibleId(line: string): nat {
    match ParseGame(line)
    case Err(_) => 0
    case Ok(g) => if IsPossible(g, MAX_RED, MAX_GREEN, MAX_BLUE) then g.id else 0
  }

  /** What one line adds to `part2`: nothing when it does not parse. */
  function LinePower(line: string): (r: nat)
    ensures r == 0 <==> ParseGame(line).Err?
  {
    match ParseGame(line)
    case Err(_) => 0
    case Ok(g) => ParsedPowerPositive(line, g); Power(MinDisposition(g))
  }

  /** No colour of `d` is present with count 0. */
  predicate NoZeroCount(d: Disposition) {
    d.red != Some(0) && d.green != Some(0) && d.blue != Some(0)
  }

  /** A game that parses has a positive power: the parser never produces a
      present count of 0, and the smallest disposition takes its counts from
      the draws. */
  lemma {:induction false} ParsedPowerPositive(line: string, g: Game)
    requires ParseGame(line) == Ok(g)
    ensures Power(MinDisposition(g)) > 0
  {
    ParsedDrawsNoZero(line, g);
    MinDispositionNoZero(g);
  }

  /** Every draw of a parsed game has its present counts positive. */
  lemma {:induction false} ParsedDrawsNoZero(line: string, g: Game)
    requires ParseGame(line) == Ok(g)
    ensures forall k :: 0 <= k < |g.draws| ==> NoZeroCount(g.draws[k])
  {
    var segments := Split(SplitOnce(line, ':').value.1, ';');
    forall k | 0 <= k < |g.draws|
      ensures NoZeroCount(g.draws[k])
    {
      assert ParseDraw(segments[k]) == Ok(g.draws[k]);
    }
  }

  /** The smallest disposition of draws with no zero count has none either. */
  lemma {:induction false} MinDispositionNoZero(g: Game)
    requires forall k :: 0 <= k < |g.draws| ==> NoZeroCount(g.draws[k])
    ensures NoZeroCount(MinDisposition(g))
  {
    var m := MinDisposition(g);
    forall c
      ensures CountOf(m, c) != Some(0)
    {
      if CountOf(m, c).Some? {
        var k :| 0 <= k < |g.draws| && CountOf(g.draws[k], c) == CountOf(m, c);
        assert NoZeroCount(g.draws[k]);
      }
    }
    assert CountOf(m, Red) == m.red && CountOf(m, Green) == m.green && CountOf(m, Blue) == m.blue;
  }

  /** A head and a tail that sum to 0 both are 0: the step that carries "the
      total is 0 exactly when every term is 0" from a list's tail to the list. */
  lemma {:induction false} ZeroSumStep<T>(xs: seq<T>, f: T -> nat, rest: nat)
    requires xs != []
    requires rest == 0 <==> forall k :: 0 <= k < |xs[1..]| ==> f(xs[1..][k]) == 0
    ensures f(xs[0]) + rest == 0 <==> forall k :: 0 <= k < |xs| ==> f(xs[k]) == 0
  {
    if forall k :: 0 <= k < |xs| ==> f(xs[k]) == 0 {
      forall k | 0 <= k < |xs[1..]| ensures f(xs[1..][k]) == 0 {
        assert xs[1..][k] == xs[k + 1];
      }
    }
    if f(xs[0]) + rest == 0 {
      forall k | 0 <= k < |xs| ensures f(xs[k]) == 0 {
        if k > 0 {
          assert xs[k] == xs[1..][k - 1];
        }
      }
    }
  }

  /** `part1`: the ids of the possible games among the lines that parse; 0
      exactly when no line contributes an id. */
  function Part1(lines: seq<string>): (r: nat)
    ensures r == 0 <==> forall k :: 0 <= k < |lines| ==> PossibleId(lines[k]) == 0
  {
    if lines == [] then 0
    else
      var rest := Part1(lines[1..]);
      ZeroSumStep(lines, PossibleId, rest);
      PossibleId(lines[0]) + rest
  }

  /** `part2`: the powers of the smallest dispositions of the lines that
      parse; 0 exactly when no line parses. */
  function Part2(lines: seq<string>): (r: nat)
    ensures r == 0 <==> forall k :: 0 <= k < |lines| ==> ParseGame(lines[k]).Err?
  {
    if lines == [] then 0
    else
      var rest := Part2(lines[1..]);
      ZeroSumStep(lines, LinePower, rest);
      LinePower(lines[0]) + rest
  }

  lemma {:induction false} PartsAppend(a: seq<string>, b: seq<string>)
    ensures Part1(a + b) == Part1(a) + Part1(b)
    ensures Part2(a + b) == Part2(a) + Part2(b)
  {
    if a == [] {
      assert a + b == b;
    } else {
      assert (a + b)[1..] == a[1..] + b;
      PartsAppend(a[1..], b);
    }
  }

  /** A line that does not parse is skipped by both parts, wherever it stands. */
  lemma {:induction false} SkipsUnparsable(a: seq<string>, line: string, b: seq<string>)
    requires ParseGame(line).Err?
    ensures Part1(a + [line] + b) == Part1(a + b)
    ensures Part2(a + [line] + b) == Part2(a + b)
  {
    PartsAppend(a + [line], b);
    PartsAppend(a, [line]);
    PartsAppend(a, b);
    assert [line][1..] == [];
  }

  /** Part 1 counts a game exactly when every draw fits under 12, 13, 14. */
  lemma {:induction false} Part1Single(g: Game)
    requires g.id <= U32_MAX
    requires g.draws != [] && forall k :: 0 <= k < |g.draws| ==> Renderable(g.draws[k])
    ensures Part1([RenderGame(g)]) == if Fits(MinDisposition(g), MAX_RED, MAX_GREEN, MAX_BLUE) then g.id else 0
  {
    ParseRenderedGame(g);
    Part1OfParsed(RenderGame(g), g);
  }

  /** Part 2 of a rendered game is the power of its smallest disposition. */
  lemma {:induction false} Part2Single(g: Game)
    requires g.id <= U32_MAX
    requires g.draws != [] && forall k :: 0 <= k < |g.draws| ==> Renderable(g.draws[k])
    ensures Part2([RenderGame(g)]) == Power(MinDisposition(g))
  {
    ParseRenderedGame(g);
    Part2OfParsed(RenderGame(g), g);
  }

  /** A single line that parses counts its id exactly when the smallest
      disposition of its game fits in the bag. */
  lemma {:induction false} Part1OfParsed(line: string, g: Game)
    requires ParseGame(line) == Ok(g)
    ensures Part1([line]) == if Fits(MinDisposition(g), MAX_RED, MAX_GREEN, MAX_BLUE) then g.id else 0
  {
    Part1One(line);
    PossibleIffMinimumFits(g, MAX_RED, MAX_GREEN, MAX_BLUE);
  }

  /** A single line that parses adds the power of the smallest disposition
      of its game to part 2. */
  lemma {:induction false} Part2OfParsed(line: string, g: Game)
    requires ParseGame(line) == Ok(g)
    ensures Part2([line]) == Power(MinDisposition(g))
  {
    assert [line][1..] == [];
  }

  lemma {:induction false} Part1One(line: string)
    ensures Part1([line]) == PossibleId(line)
  {
    assert [line][1..] == [];
  }
}

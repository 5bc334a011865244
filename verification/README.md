# Advent of Code 2023, days 1 to 4, in Dafny

This project models the puzzle solvers for the first four days of Advent of
Code 2023 and proves properties of the model. Each day reads a text file of
lines and folds them into one number.

- **Day 1, Trebuchet** (`Day1.dfy`). A line's calibration value is its first
  and last decimal digit read as a two-digit number, or 0 when the line has no
  digit. Part 2 first rewrites spelled digits ("one" … "nine") in place.
  `map_spelled_digits` replaces only the first letter of each word found, so
  overlapping words such as "twone" both count.
- **Day 2, Cube Conundrum** (`Day2.dfy`). A game line `Game <id>: <draw>; <draw>; …`
  is parsed into cube dispositions, one per draw. Part 1 sums the ids of the
  games possible with 12 red, 13 green and 14 blue cubes. Part 2 sums the
  power of each game's minimal disposition.
- **Day 3, Gear Ratios** (`Day3.dfy`). The symbols of the schematic are
  collected first. The numbers next to a symbol are the part numbers: they are
  found line by line, and each run of digits is checked against its own line
  and the lines above and below. A `*` next to exactly two part numbers is a
  gear, and its ratio is their product.
- **Day 4, Scratchcards** (`Day4.dfy`). A card line
  `Card <id>: <winning> | <mine>` scores 0 when none of the winning numbers is
  held, and otherwise 2 to the power of (matches − 1).

`Text.dfy` holds the pieces of the Rust standard library the solvers rely on:
`str::parse` for unsigned integers (an optional `+`, overflow as an error),
`split_once`, `split`, `split_whitespace`, `contains`, digit filtering and
summation. The line parsers of day 2 and day 4 have renderers beside them,
and the model proves the round trip `parse(render(x)) == Ok(x)`. For day 2 the
pieces of a draw may come in any order, repeat a colour or give it 0 cubes.
For day 4 any run of whitespace may separate the numbers, as in the
right-aligned puzzle input. Day 3's `try_from_line` has no renderer: its
contract ties the parsed part numbers to the maximal digit runs of the line.

Every function and lemma works on values. The operations whose source loops
with updates are methods with loop invariants, each proved equal to a
specification function: `Day1.FindSpelledDigit`, `Day1.MapSpelledDigits`,
`Day3.FindSymbols`, `Day3.FromLine` and `Day3.FindPartNumbers`. The lemmas
speak about those functions. `Day3.Part1` and `Day3.Part2` are methods that
call them.

Where the unit tests and the code disagree, the code is modelled.
`src/day1.rs:101-105` expects "asseven23" to become "as723". The code
replaces only the first letter of "seven", which gives "as7even23".
`Day1.RewriteKeepsTail` proves the code's behaviour on "seven".

## Model

| member | source | states |
|---|---|---|
| Text.ParseUnsigned | src/day1.rs:24-25 | `str::parse::<uN>`: succeeds exactly when the text without an optional leading `+` is a non-empty digit string whose value is at most the type's maximum; the value is then within that bound |
| Text.ParseDecimal | src/day2.rs:144 | the decimal rendering of any number within the bound parses back to that number |
| Text.SplitOnce | src/day2.rs:137-148 | `split_once`: fails exactly when the delimiter is absent; otherwise the first part does not hold the delimiter and prefix + delimiter + suffix is the input |
| Text.SplitOnceAt | src/day4.rs:44-54 | splitting `a + [c] + b` at `c`, when `a` holds no `c`, gives back `(a, b)` |
| Text.Split | src/day2.rs:59 | `split`: gives at least one piece, and no piece holds the separator |
| Text.SplitJoin | src/day2.rs:153 | splitting a joined list of separator-free pieces gives the pieces back |
| Text.SplitWhitespace | src/day4.rs:57 | `split_whitespace`: every piece is a non-empty run of non-whitespace |
| Text.SplitLeadingWhitespace | src/day4.rs:57 | whitespace in front of a text adds no pieces to its split |
| Text.SplitToken | src/day4.rs:57 | a token followed by whitespace or the end splits off as one piece |
| Text.SplitPadded | src/day4.rs:56-63 | tokens, each after a gap of one or more whitespace characters, with any whitespace after them, split back into the same tokens |
| Text.Digits | src/day1.rs:21 | the digit filter keeps only digits and never lengthens the text |
| Text.DigitsConcat | src/day1.rs:21 | filtering digits distributes over concatenation |
| Text.SumAppend | src/day3.rs:8 | the sum of a concatenation is the sum of the parts |
| Day1.CalibrationValue | src/day1.rs:20-28 | `line_to_calib_num`: always Ok and at most 99; 0 when the line has no digit; the tens digit is the first digit of the line and the units digit the last (the same digit when there is only one) |
| Day1.ParsePair | src/day1.rs:24-25 | the two-character text of two digits parses to 10 × first + last |
| Day1.CalibrationExamples | src/day1.rs:76-93 | "asdfg" gives 0, "as1bnb" gives 11 and "as76123nb" gives 73 |
| Day1.DigitsEnds | src/day1.rs:21-25 | the filtered digits start with the line's first digit and end with its last, and are empty exactly when the line has no digit |
| Day1.Rewrite | src/day1.rs:42-70 | the rewritten line has the length of the original |
| Day1.FindSpelledDigit | src/day1.rs:47-58 | the inner loop over the spelling table finds the digit of the table's first word that starts at the position, or nothing |
| Day1.MapSpelledDigits | src/day1.rs:42-70 | `map_spelled_digits` computes the position-by-position rewrite |
| Day1.WordsUnique | src/day1.rs:30-40 | at most one spelled digit starts at any position |
| Day1.RewriteWord | src/day1.rs:49-55 | where a spelled digit starts, its first letter becomes the digit |
| Day1.RewriteKeeps | src/day1.rs:47-58 | where no spelled digit starts, the character is kept |
| Day1.RewriteIdentity | src/day1.rs:42-70 | a line with no spelled digit is left unchanged |
| Day1.RewriteByPrefix | src/day1.rs:30-58 | the rewrite at a position depends only on which word's first two letters start there, and on whether that whole word is present |
| Day1.RewriteOverlap | src/day1.rs:42-70 | overlapping words both count: "twone" becomes "2w1ne" |
| Day1.RewriteKeepsFrom | src/day1.rs:47-58 | a suffix with no two-letter word start in it is left unchanged |
| Day1.RewriteKeepsTail | src/day1.rs:101-111 | "seven" becomes "7even": the rest of a word is kept |
| Day1.CalibrationSum | src/day1.rs:5-8 | the fold of calibration values is at most 99 per line; its value line by line is stated by `Day1.CalibrationSumAppend` and `Day1.CalibrationSumSingle` |
| Day1.Part1 | src/day1.rs:3-10 | part 1 is at most 99 per line; `Day1.Part1Append` states its value |
| Day1.Part2 | src/day1.rs:11-18 | part 2 is at most 99 per line; `Day1.Part2Append` states its value |
| Day1.CalibrationSumAppend | src/day1.rs:5-8 | the fold of calibration values over two lists of lines is the sum of the two folds |
| Day1.CalibrationSumSingle | src/day1.rs:5-8 | the fold over one line is that line's calibration value |
| Day1.Part1Append | src/day1.rs:3-10 | part 1 is additive over lines, and part 1 of one line is its calibration value |
| Day1.Part2Append | src/day1.rs:11-18 | part 2 is additive over lines, and part 2 of one line is the calibration value of the rewritten line |
| Day1.Part2WithoutWords | src/day1.rs:11-18 | on input with no spelled digit, part 2 equals part 1 |
| Day2.Power | src/day2.rs:35-39 | the power is 0 exactly when some colour is present with count 0 (a missing colour counts as 1) |
| Day2.ParsePiece | src/day2.rs:60-75 | a comma-separated piece parses exactly when its digits form a `u8` and it names a colour; the result is the first colour named, in the order red, green, blue, with that number |
| Day2.ParsePieces | src/day2.rs:58-76 | all pieces parse exactly when each one does, and the results are in order |
| Day2.ParseDraw | src/day2.rs:52-88 | `CubesDisposition::try_from`: Ok exactly when every comma-separated piece parses; each colour present in the result has a count above 0 |
| Day2.ParseDraws | src/day2.rs:152-155 | the draws of a game parse exactly when each segment does, one disposition per segment |
| Day2.ParseGame | src/day2.rs:136-157 | `GameOutcome::try_from`: fails when the line has no space, or no `:` after the first space; on success the id is the `u32` between the first space and the first `:` after it, and the draws are the `;`-separated segments after the first `:` |
| Day2.ParseRenderedPiece | src/day2.rs:60-75 | a piece rendered as `<n> <colour>` with any `u8` count n, 0 included, parses back to itself |
| Day2.ParseRenderedDraw | src/day2.rs:52-88 | a rendered disposition parses back to itself |
| Day2.ParseDrawsOfRendered | src/day2.rs:152-155 | rendered draws parse back to the same draws |
| Day2.ParseRenderedDraws | src/day2.rs:145-155 | draws joined with `;` split and parse back to the same draws |
| Day2.ParseRenderedGame | src/day2.rs:136-157 | a rendered game line `Game <id>: …` parses back to the same game |
| Day2.ParseDrawInAnyOrder | src/day2.rs:52-88 | pieces `" <n> <colour>"` with counts from 0 to 255, joined with `,`, in any order and with colours repeated or missing, parse to each colour's total, with no entry for a colour whose total is 0 |
| Day2.ExplicitZeroVanishes | src/day2.rs:77-88 | a colour named only with count 0 is absent from the parsed draw: a total of 0 becomes `None` |
| Day2.ParseGameInAnyOrder | src/day2.rs:136-157 | a game line `Game <id>:` followed by such draws (counts from 0 to 255) joined with `;` parses to that id and those dispositions, in order; this is the shape of the unit tests at src/day2.rs:164-212 |
| Day2.CountMisfits | src/day2.rs:99-108 | the number of draws that exceed the bag is 0 exactly when every draw fits |
| Day2.IsPossible | src/day2.rs:98-109 | `is_possibile`: true exactly when every draw fits, a missing colour counting as 0 |
| Day2.MaxCount | src/day2.rs:112-117 | the `Option` maximum is at least every draw's count, with `None` below `Some`, and it is one of those counts |
| Day2.MinDisposition | src/day2.rs:111-131 | `min_disposition`: each colour bounds that colour in every draw and is the count of some draw, or absent |
| Day2.MinDispositionEmpty | src/day2.rs:111-131 | a game without draws has the all-absent minimal disposition |
| Day2.PossibleIffMinimumFits | src/day2.rs:98-131 | a game is possible exactly when its minimal disposition fits in the bag |
| Day2.PartsAppend | src/day2.rs:4-25 | both parts are additive over the lines |
| Day2.SkipsUnparsable | src/day2.rs:9-10 | lines that do not parse are skipped by both parts |
| Day2.Part1 | src/day2.rs:4-15 | part 1 is 0 exactly when no line contributes an id: each line either fails to parse, is impossible, or has id 0 |
| Day2.Part2 | src/day2.rs:16-25 | part 2 is 0 exactly when no line parses: a parsed game always has a positive power; what one parsed line adds is stated by `Day2.Part2OfParsed` |
| Day2.LinePower | src/day2.rs:19-23 | a line adds a power of 0 to part 2 exactly when it does not parse; a parsed line adds its power (`Day2.Part2OfParsed`) |
| Day2.ParsedPowerPositive | src/day2.rs:35-39 | the minimal disposition of a parsed game has a positive power, since no parsed count is 0 |
| Day2.ParsedDrawsNoZero | src/day2.rs:77-88 | every draw of a parsed game has its present counts above 0 |
| Day2.MinDispositionNoZero | src/day2.rs:111-131 | the minimal disposition of draws without a zero count has none either |
| Day2.Part2Single | src/day2.rs:16-25 | part 2 of the line of any game it can read back is the power of the game's smallest disposition |
| Day2.Part2OfParsed | src/day2.rs:16-25 | part 2 of a parsed line is the power of the smallest disposition its game fits in: the product of its red, green and blue counts, a colour never drawn counting as 1 |
| Day2.Part1OfParsed | src/day2.rs:4-15 | part 1 of a parsed line is its id exactly when the game's minimal disposition fits in 12 red, 13 green and 14 blue cubes |
| Day2.Part1Single | src/day2.rs:4-15 | part 1 of a rendered game is its id exactly when its minimal disposition fits in the bag |
| Day3.NewSymbols | src/day3.rs:29-34 | the new symbols of a line are exactly its characters that are neither a digit nor `.` and not already known |
| Day3.FindSymbols | src/day3.rs:26-39 | `find_symbols` computes the symbol list line by line |
| Day3.SymbolsOfExact | src/day3.rs:26-39 | a character is in the symbol list exactly when it is a symbol and occurs in the schematic |
| Day3.SymbolsOfExtends | src/day3.rs:28-36 | each line only appends to the list, and what it appends was not there before |
| Day3.RepeatsOnOneLine | src/day3.rs:29-35 | a symbol repeated on one line is appended twice |
| Day3.RunEnd | src/day3.rs:152-174 | a run of digits ends at the last digit before a non-digit or the end of the line |
| Day3.DigitRunsValid | src/day3.rs:152-174 | the runs are in order, maximal, separated by non-digits, on the given line, and cover every digit |
| Day3.DigitRunsEmpty | src/day3.rs:152-174 | a line has no run exactly when it has no digit |
| Day3.DigitIndices | src/day3.rs:153-158 | the indices of the digits of a line, increasing |
| Day3.FromLine | src/day3.rs:152-174 | `PartNumberCoordinates::from_line` computes the maximal digit runs of the line |
| Day3.DigitRunsExample | src/day3.rs:242-248 | "467..114.." has runs 0–2 and 5–7 |
| Day3.CountSymbols | src/day3.rs:187-191 | the count of symbol characters is 0 exactly when the text holds no symbol |
| Day3.CheckAgainstLine | src/day3.rs:176-192 | `check_against_line`: true exactly when a symbol lies from one column before the run to one column after it, clipped to the line |
| Day3.ParseRuns | src/day3.rs:76-85 | the runs parse exactly when each is a `u32`; one part number per run, with the run's value |
| Day3.TryFromLine | src/day3.rs:76-85 | `try_from_line`: fails exactly when some run exceeds `u32`; otherwise one part number per run, in order |
| Day3.RunValue | src/day3.rs:78-83 | the text of a run is all digits, and its number is their value when that fits in `u32` |
| Day3.KeepParts | src/day3.rs:94-111 | the kept part numbers are exactly those next to a symbol on their line or a neighbouring line, in order |
| Day3.ReadLine | src/day3.rs:87-113 | `read_line`: fails exactly when `try_from_line` does; otherwise it keeps exactly the part numbers next to a symbol, in order |
| Day3.LineParts | src/day3.rs:43-57 | a line's contribution is ordered and lies on that line; a failing line contributes nothing |
| Day3.FlattenIn | src/day3.rs:41-60 | an item is in the concatenation exactly when it is in one of the lists |
| Day3.FlattenMember | src/day3.rs:41-60 | a part number is in the concatenation exactly when it is in its own line's list |
| Day3.FindPartNumbers | src/day3.rs:41-60 | `find_part_numbers` computes the concatenation of the lines' contributions |
| Day3.LinePartsMember | src/day3.rs:43-57 | `unwrap_or_default`: a line that fails to parse contributes nothing; otherwise exactly its kept part numbers |
| Day3.PartNumbersOrdered | src/day3.rs:41-60 | the part numbers are ordered by line, then by column |
| Day3.PartNumbersMember | src/day3.rs:41-60 | a part number is found exactly when its own line contributes it |
| Day3.KeepIffSymbolTouches | src/day3.rs:93-112 | in a rectangular schematic, a run is kept exactly when a symbol occupies one of its 8-neighbour cells |
| Day3.PartNumbersTouchSymbols | src/day3.rs:3-10 | the part numbers are exactly the runs of lines that parse whose 8-neighbourhood holds a symbol |
| Day3.AdjacentIffTouches | src/day3.rs:131-150 | with the exact line distance, `is_symbol_adjacent` is the 8-neighbourhood of the run |
| Day3.IsSymbolAdjacent | src/day3.rs:131-150 | for a run of at least one column: a cell is adjacent exactly when it is at most one line away, within one column of the run, and not a cell of the run itself |
| Day3.IsSymbolAdjacentAsWritten | src/day3.rs:131-150 | the source's test with `i16` casts: on the run's own line as the exact test, otherwise the lines must be 1 or 65535 apart modulo 65536 |
| Day3.WrappedDifference | src/day3.rs:140 | the `i16` absolute difference of two cast line indices is 1 exactly when the indices are ±1 apart modulo 65536 |
| Day3.CastDifference | src/day3.rs:140 | subtracting after casting to `i16` keeps the difference modulo 65536 |
| Day3.ResidueOfI16 | src/day3.rs:140 | an `i16` value is 1 or −1 exactly when a congruent number is 1 or 65535 modulo 65536 |
| Day3.AsI16 | src/day3.rs:140 | `as i16` keeps the value modulo 65536, in the range of `i16` |
| Day3.AbsI16 | src/day3.rs:140 | `i16::abs` with wrapping: -32768 stays negative |
| Day3.AsWrittenAgrees | src/day3.rs:131-150 | on fewer than 32768 lines, the `i16` computation equals the exact one |
| Day3.AsWrittenWrapsAround | src/day3.rs:140 | the `i16` computation finds a run on line 65536 next to a cell on line 1, which is not in its neighbourhood |
| Day3.AdjacentParts | src/day3.rs:226-229 | the part numbers next to a cell are exactly those whose adjacency test holds there, in order |
| Day3.GearAt | src/day3.rs:225-233 | a gear found at a cell holds two part numbers of the list, both adjacent to the cell, the earlier one first when the list is ordered |
| Day3.OrderedCard | src/day3.rs:215-236 | ordered part numbers are distinct |
| Day3.GearAtExactlyTwo | src/day3.rs:215-236 | a `*` is a gear exactly when exactly two distinct part numbers touch it, and the gear holds those two |
| Day3.StarColumns | src/day3.rs:216-221 | the columns of `*` on a line, increasing |
| Day3.StarColumnsComplete | src/day3.rs:216-221 | every `*` of the line is listed |
| Day3.GearsAt | src/day3.rs:223-235 | at most one gear per candidate column; every gear holds part numbers of the list on the row or a neighbouring line; `Day3.GearsAtColumns` pairs the gears one to one with their columns |
| Day3.LineGears | src/day3.rs:215-236 | `Gear::from_line`: at most one gear per character of the line; every gear holds part numbers of the list on that line or a neighbouring one; `Day3.LineGearsColumns` states its count and order |
| Day3.Ratio | src/day3.rs:212-214 | `ratio`: 0 exactly when one of the two numbers is 0, and otherwise at least each of them |
| Day3.GearsAtMember | src/day3.rs:215-236 | a gear is found on a line exactly when some listed column yields it |
| Day3.GearsAtColumns | src/day3.rs:223-235 | the `k`-th gear found is the gear at the `k`-th listed column that has one, and there are as many gears as such columns |
| Day3.GearColumnsExact | src/day3.rs:223-235 | a column is among the gear columns exactly when it is listed and exactly two entries of the part-number list are adjacent to it |
| Day3.GearColumnsIncreasing | src/day3.rs:223-235 | columns scanned left to right give gears left to right |
| Day3.LineGearsColumns | src/day3.rs:215-236 | `Gear::from_line` yields one gear per `*` with exactly two adjacent entries in the part-number list, left to right, with none dropped or merged: two `*` next to the same two numbers give two gears |
| Day3.LineGearsMember | src/day3.rs:215-236 | `Gear::from_line` yields exactly the gears at the line's `*` cells |
| Day3.GearsMember | src/day3.rs:17-21 | the gears of the schematic are exactly the gears of its lines |
| Day3.Part1 | src/day3.rs:3-10 | part 1 is the sum of the part numbers of the schematic |
| Day3.Part2 | src/day3.rs:11-24 | part 2 is the sum of the ratios of the gears of the schematic |
| Day3.ReadLineExample | src/day3.rs:249-259 | "..35..633." between "...*......" and "......#..." keeps 35 and 633 |
| Day3.TryFromLineExample | src/day3.rs:249-259 | "..35..633." parses to 35 at columns 2–3 and 633 at columns 6–8 |
| Day4.MatchCount | src/day4.rs:30-34 | the number of winning numbers held is at most the number of winning numbers; 0 exactly when none is held, and all exactly when each is held |
| Day4.Score | src/day4.rs:29-41 | `score`: 0 exactly when no winning number is held, otherwise at most half of 2 to the number of winning numbers |
| Day4.ScoreExtend | src/day4.rs:29-41 | adding a winning number that is held doubles a non-zero score or makes a zero score 1; one that is not held keeps the score |
| Day4.ScoreSameSet | src/day4.rs:33 | the score depends only on which numbers are held, not on their order or repetition |
| Day4.ExampleScore | src/day4.rs:73-93 | the example card scores 8 |
| Day4.ParseNumbers | src/day4.rs:56-63 | the numbers parse exactly when every token is a `u8`, in order |
| Day4.ParseCard | src/day4.rs:43-65 | `try_from_line`: fails when the line has no `:`, or no `|` after it; on success the id is the `u16` read from the digits before `:`, and the numbers are the tokens on each side of `|` |
| Day4.ParseRenderedCard | src/day4.rs:43-65 | a card `Card <id>: <winning> | <mine>` rendered with any layout, a gap of one or more whitespace characters after `Card` and before each number and any whitespace before `|` and at the end, parses back to itself |
| Day4.ParseSingleSpacedCard | src/day4.rs:43-65 | a card whose numbers fit their types, written with one space after `Card`, before each number and before `|`, parses back to itself |
| Day4.ExampleRendering | src/day4.rs:73-76 | the example card, with a double space before its one-digit numbers 6 and 9, renders as the test's line, written as five joined pieces |
| Day4.ExampleParses | src/day4.rs:73-91 | the test's line parses into the example card |
| Day4.Part1 | src/day4.rs:3-12 | part 1 fails exactly when some line fails to parse; otherwise it is the sum of the scores |
| Day4.FirstError | src/day4.rs:6-9 | collecting the cards stops with an error when a line fails |
| Day4.Part1Append | src/day4.rs:3-12 | part 1 is additive over lines that parse |

## Left out

- Reading the input file (`tokio::fs::read_to_string`, `lines()`), the async runtime and `src/main.rs`: every part takes the lines as a sequence.
- `char::is_numeric` accepts every Unicode numeric character. The model treats only ASCII `0`–`9` as digits, and it indexes lines by character where the source mixes byte and character indices.
- The `Result` that `map_spelled_digits` returns is always `Ok`. The model returns the string, so the `filter(is_ok)` in day 1, part 2 has nothing to drop.
- The `u64` sums of day 1 are unbounded in the model, which bounds them by 99 per line instead.
- Day2.ParseDraw: the `u8` sum of a colour's pieces is unbounded in the model. The source overflows, and panics in a debug build, when one draw names a colour with more than 255 cubes in total.
- Day2.PartsAppend: the `u32` sums of ids and powers are unbounded in the model.
- Day3.Rectangular: the schematic is required to be rectangular. On ragged input `check_against_line` can slice out of range and panic, and the model does not capture that panic.
- Day3.ReadLine: its precondition asks that every run can be checked against all three lines. The source checks the line above first, then the line below, and its own line last, and it stops at the first line with a symbol next to the run, so a later line is not always read.
- Day3.Part2: the `u32` gear ratio (`Day3.Ratio`) and the `u32` sums of both parts are unbounded in the model.
- Day3.IsSymbolAdjacent: the difference of the line indices is exact. A debug build of the source panics when the `i16` subtraction overflows, and a release build wraps. `Day3.IsSymbolAdjacentAsWritten` models the release-build behaviour.
- Day4.Score: `2_u32.pow` overflows, and panics in a debug build, on a card with more than 32 matches. The model's power of two is unbounded.
- Day4.Part1: the `u32` sum of the scores is unbounded in the model.

## Findings

| source | as written | input that shows it | evidently intended | confidence | as-written member | corrected member |
|---|---|---|---|---|---|---|
| src/day3.rs:140 | both line indices are cast `as i16` before they are subtracted, so indices 65536 apart compare equal | a run on line 65536 at column 0 and a `*` on line 1, column 0 | the exact distance between the lines, so that only the line above and the line below count | not executed | Day3.AsWrittenWrapsAround | Day3.AdjacentIffTouches |

/** Day 3: the engine schematic.  A grid of lines holds numbers and symbols;
    a number is a part number when a symbol touches it, and a `*` touching
    exactly two part numbers is a gear. */
module Day3 {
  import opened Text

  /** `PartNumberCoordinates`: the line of a run of digits and the columns
      of its first and last digit (both inclusive). */
  datatype Coordinates = Coordinates(line: nat, start: nat, end: nat)

  datatype PartNumber = PartNumber(num: nat, coords: Coordinates)

  /** `Gear`: the two part numbers next to a `*`. */
  datatype Gear = Gear(first: PartNumber, second: PartNumber)

  // ---------------------------------------------------------------------
  // Symbols

  /** Anything that is neither a digit nor `.` is a symbol. */
  predicate IsSymbol(c: char) {
    !IsDigit(c) && c != '.'
  }

  /** The symbols of `line` not among `known`, in line order; a symbol that
      occurs twice on the line is kept twice. */
  function NewSymbols(line: string, known: seq<char>): (r: seq<char>)
    ensures forall c :: c in r <==> c in line && IsSymbol(c) && c !in known
  {
    if line == [] then []
    else (if IsSymbol(line[0]) && line[0] !in known then [line[0]] else []) + NewSymbols(line[1..], known)
  }

  /** The symbols collected from the first lines of the grid: each line adds
      its symbols that no earlier line had. */
  function SymbolsOf(lines: seq<string>): seq<char>
  {
    if lines == [] then []
    else
      var known := SymbolsOf(lines[..|lines| - 1]);
      known + NewSymbols(lines[|lines| - 1], known)
  }

  /** `find_symbols` */
  method FindSymbols(lines: seq<string>) returns (symbols: seq<char>)
    ensures symbols == SymbolsOf(lines)
  {
    symbols := [];
    for i := 0 to |lines|
      invariant symbols == SymbolsOf(lines[..i])
    {
      assert lines[..i + 1][..i] == lines[..i];
      var newSymbols := NewSymbols(lines[i], symbols);
      symbols := symbols + newSymbols;
    }
    assert lines[..|lines|] == lines;
  }

  predicate InGrid(lines: seq<string>, c: char) {
    exists i :: 0 <= i < |lines| && c in lines[i]
  }

  /** The symbols found are exactly the symbols that occur in the grid. */
  lemma {:induction false} SymbolsOfExact(lines: seq<string>, c: char)
    ensures c in SymbolsOf(lines) <==> IsSymbol(c) && InGrid(lines, c)
  {
    if lines != [] {
      var front := lines[..|lines| - 1];
      SymbolsOfExact(front, c);
      if InGrid(lines, c) && !InGrid(front, c) {
        var i :| 0 <= i < |lines| && c in lines[i];
        assert i == |lines| - 1;
      }
      if InGrid(front, c) {
        var i :| 0 <= i < |front| && c in front[i];
        assert lines[i] == front[i];
      }
    }
  }

  /** Collecting more lines only appends: the symbols of a shorter prefix of
      the grid come first, and none of them is appended again. */
  lemma {:induction false} SymbolsOfExtends(lines: seq<string>, k: nat)
    requires k <= |lines|
    ensures SymbolsOf(lines[..k]) <= SymbolsOf(lines)
    ensures forall j :: |SymbolsOf(lines[..k])| <= j < |SymbolsOf(lines)| ==>
      SymbolsOf(lines)[j] !in SymbolsOf(lines[..k])
    decreases |lines|
  {
    if k == |lines| {
      assert lines[..k] == lines;
    } else {
      var front := lines[..|lines| - 1];
      assert front[..k] == lines[..k];
      SymbolsOfExtends(front, k);
      var known := SymbolsOf(front);
      forall j | |known| <= j < |SymbolsOf(lines)|
        ensures SymbolsOf(lines)[j] !in SymbolsOf(lines[..k])
      {
        var c := SymbolsOf(lines)[j];
        assert c in NewSymbols(lines[|lines| - 1], known);
        assert c !in known;
      }
    }
  }

  /** Repeats on one line survive: a line `*.*` yields `*` twice. */
  lemma {:induction false} RepeatsOnOneLine()
    ensures SymbolsOf(["*.*"]) == ['*', '*']
  {
    var line := "*.*";
    assert ["*.*"][..0] == [];
    assert SymbolsOf(["*.*"]) == NewSymbols(line, []);
    assert line[1..] == ".*" && line[1..][1..] == "*" && line[1..][1..][1..] == [];
    assert NewSymbols("*", []) == ['*'];
    assert NewSymbols(".*", []) == ['*'];
    assert NewSymbols(line, []) == ['*'] + NewSymbols(".*", []);
  }

  // ---------------------------------------------------------------------
  // Digit runs

  /** A run of `line`: digits from `start` to `end`, with no digit just
      before or just after. */
  predicate IsRunOf(line: string, c: Coordinates) {
    c.start <= c.end < |line| &&
    (forall i :: c.start <= i <= c.end ==> IsDigit(line[i])) &&
    (c.start == 0 || !IsDigit(line[c.start - 1])) &&
    (c.end + 1 == |line| || !IsDigit(line[c.end + 1]))
  }

  /** The last column of the stretch of digits that begins at `i`. */
  function RunEnd(line: string, i: nat): (e: nat)
    requires i < |line| && IsDigit(line[i])
    ensures i <= e < |line|
    ensures forall j :: i <= j <= e ==> IsDigit(line[j])
    ensures e + 1 == |line| || !IsDigit(line[e + 1])
    decreases |line| - i
  {
    if i + 1 < |line| && IsDigit(line[i + 1]) then RunEnd(line, i + 1) else i
  }

  /** A stretch of digits ending where the digits stop ends at `RunEnd`. */
  lemma {:induction false} RunEndAt(line: string, i: nat, e: nat)
    requires i <= e < |line|
    requires forall j :: i <= j <= e ==> IsDigit(line[j])
    requires e + 1 == |line| || !IsDigit(line[e + 1])
    ensures RunEnd(line, i) == e
    decreases e - i
  {
    if i < e {
      RunEndAt(line, i + 1, e);
    }
  }

  /** The runs of digits of `line` from column `i` on, left to right. */
  function RunsFrom(line: string, i: nat, idx: nat): seq<Coordinates>
    decreases |line| - i
  {
    if i >= |line| then []
    else if !IsDigit(line[i]) then RunsFrom(line, i + 1, idx)
    else [Coordinates(idx, i, RunEnd(line, i))] + RunsFrom(line, RunEnd(line, i) + 1, idx)
  }

  /** The maximal runs of digits of a line, as `from_line` finds them. */
  function DigitRuns(line: string, idx: nat): seq<Coordinates> {
    RunsFrom(line, 0, idx)
  }

  /** `runs` are runs of `line` on line `idx`, from column `from` on, left to
      right with at least one column between consecutive runs. */
  predicate ValidRuns(line: string, idx: nat, from: nat, runs: seq<Coordinates>) {
    (forall k :: 0 <= k < |runs| ==> runs[k].line == idx && from <= runs[k].start && IsRunOf(line, runs[k])) &&
    (forall j, k :: 0 <= j < k < |runs| ==> runs[j].end + 1 < runs[k].start)
  }

  /** The runs from column `i` on are runs of the line, left to right, with
      at least one column between consecutive runs; the first may start at
      `i` itself only if `i` does not continue an earlier stretch of digits. */
  lemma {:induction false} RunsFromValid(line: string, i: nat, idx: nat)
    requires i == 0 || i >= |line| || !IsDigit(line[i - 1]) || !IsDigit(line[i])
    ensures ValidRuns(line, idx, i, RunsFrom(line, i, idx))
    decreases |line| - i
  {
    if i < |line| {
      if !IsDigit(line[i]) {
        RunsFromValid(line, i + 1, idx);
        ValidRunsWiden(line, idx, i, i + 1, RunsFrom(line, i + 1, idx));
      } else {
        var c := Coordinates(idx, i, RunEnd(line, i));
        assert RunsFrom(line, i, idx) == [c] + RunsFrom(line, c.end + 1, idx);
        RunsFromValid(line, c.end + 1, idx);
        RunEndIsRun(line, idx, i);
        ValidRunsCons(line, idx, c, RunsFrom(line, c.end + 1, idx));
      }
    }
  }

  /** A stretch of digits that starts after a column that is not a digit is
      a run up to its `RunEnd`. */
  lemma {:induction false} RunEndIsRun(line: string, idx: nat, i: nat)
    requires i < |line| && IsDigit(line[i])
    requires i == 0 || !IsDigit(line[i - 1])
    ensures IsRunOf(line, Coordinates(idx, i, RunEnd(line, i)))
  {
  }

  /** Runs from column `b` on are runs from any earlier column on. */
  lemma {:induction false} ValidRunsWiden(line: string, idx: nat, a: nat, b: nat, runs: seq<Coordinates>)
    requires a <= b && ValidRuns(line, idx, b, runs)
    ensures ValidRuns(line, idx, a, runs)
  {
  }

  /** A run followed, after a column that is not a digit, by valid runs. */
  lemma {:induction false} ValidRunsCons(line: string, idx: nat, c: Coordinates, rest: seq<Coordinates>)
    requires c.line == idx && IsRunOf(line, c)
    requires ValidRuns(line, idx, c.end + 1, rest)
    ensures ValidRuns(line, idx, c.start, [c] + rest)
  {
    var r := [c] + rest;
    forall k | 0 <= k < |rest|
      ensures c.end + 1 < rest[k].start
    {
      assert IsDigit(line[rest[k].start]);
    }
    assert forall k :: 1 <= k < |r| ==> r[k] == rest[k - 1];
  }

  /** Column `p` lies in one of `runs`. */
  predicate InSomeRun(runs: seq<Coordinates>, p: nat) {
    exists k :: 0 <= k < |runs| && runs[k].start <= p <= runs[k].end
  }

  /** Every digit from column `i` on lies in one of the runs from `i`. */
  lemma {:induction false} RunsFromCover(line: string, i: nat, idx: nat, p: nat)
    requires i <= p < |line| && IsDigit(line[p])
    ensures InSomeRun(RunsFrom(line, i, idx), p)
    decreases |line| - i
  {
    var r := RunsFrom(line, i, idx);
    if !IsDigit(line[i]) {
      RunsFromCover(line, i + 1, idx, p);
      var r1 := RunsFrom(line, i + 1, idx);
      assert r == r1;
    } else if p <= RunEnd(line, i) {
      assert r[0].start <= p <= r[0].end;
    } else {
      var e := RunEnd(line, i);
      RunsFromCover(line, e + 1, idx, p);
      var r1 := RunsFrom(line, e + 1, idx);
      var k :| 0 <= k < |r1| && r1[k].start <= p <= r1[k].end;
      assert r[k + 1] == r1[k];
    }
  }

  /** A stretch without digits adds no run. */
  lemma {:induction false} RunsFromSkip(line: string, a: nat, b: nat, idx: nat)
    requires a <= b <= |line|
    requires forall i :: a <= i < b ==> !IsDigit(line[i])
    ensures RunsFrom(line, a, idx) == RunsFrom(line, b, idx)
    decreases b - a
  {
    if a < b {
      RunsFromSkip(line, a + 1, b, idx);
    }
  }

  /** The digit runs of a line are exactly its maximal runs: each is a run
      of the line on line `idx`, they come left to right with at least one
      column between them, and every digit lies in one of them. */
  lemma {:induction false} DigitRunsValid(line: string, idx: nat)
    ensures ValidRuns(line, idx, 0, DigitRuns(line, idx))
    ensures forall p :: 0 <= p < |line| && IsDigit(line[p]) ==> InSomeRun(DigitRuns(line, idx), p)
  {
    RunsFromValid(line, 0, idx);
    forall p | 0 <= p < |line| && IsDigit(line[p])
      ensures InSomeRun(DigitRuns(line, idx), p)
    {
      RunsFromCover(line, 0, idx, p);
    }
  }

  /** A line has no run exactly when it has no digit. */
  lemma {:induction false} DigitRunsEmpty(line: string, idx: nat)
    ensures DigitRuns(line, idx) == [] <==> forall i :: 0 <= i < |line| ==> !IsDigit(line[i])
  {
    if exists i :: 0 <= i < |line| && IsDigit(line[i]) {
      var i :| 0 <= i < |line| && IsDigit(line[i]);
      RunsFromCover(line, 0, idx, i);
    } else {
      RunsFromSkip(line, 0, |line|, idx);
    }
  }

  /** The example of the source's test: `467..114..` has two runs, the first
      from column 0 to column 2. */
  lemma {:induction false} DigitRunsExample()
    ensures DigitRuns("467..114..", 0) == [Coordinates(0, 0, 2), Coordinates(0, 5, 7)]
  {
    var line := "467..114..";
    RunEndAt(line, 0, 2);
    RunEndAt(line, 5, 7);
    RunsFromSkip(line, 3, 5, 0);
    RunsFromSkip(line, 8, 10, 0);
  }

  predicate AllDigitsIn(line: string, beg: nat, end: nat) {
    beg <= end < |line| && forall i :: beg <= i <= end ==> IsDigit(line[i])
  }

  predicate NoDigitsIn(line: string, lo: nat, hi: nat) {
    hi <= |line| && forall i :: lo <= i < hi ==> !IsDigit(line[i])
  }

  /** The column indices of the digits of `line[..n]`, in order. */
  function DigitIndices(line: string, n: nat): (r: seq<nat>)
    requires n <= |line|
    ensures forall k :: 0 <= k < |r| ==> r[k] < n && IsDigit(line[r[k]])
    ensures forall j, k :: 0 <= j < k < |r| ==> r[j] < r[k]
  {
    if n == 0 then []
    else DigitIndices(line, n - 1) + (if IsDigit(line[n - 1]) then [n - 1] else [])
  }

  /** Every digit column of `line[..n]` is listed. */
  lemma {:induction false} DigitIndicesComplete(line: string, n: nat, i: nat)
    requires i < n <= |line| && IsDigit(line[i])
    ensures i in DigitIndices(line, n)
  {
    if i < n - 1 {
      DigitIndicesComplete(line, n - 1, i);
    }
  }

  /** A column with no listed index between `lo` and `hi` holds no digit. */
  lemma {:induction false} NoDigitsBetween(line: string, nums: seq<nat>, lo: nat, hi: nat)
    requires nums == DigitIndices(line, |line|) && hi <= |line|
    requires forall k :: 0 <= k < |nums| ==> nums[k] < lo || nums[k] >= hi
    ensures NoDigitsIn(line, lo, hi)
  {
    forall i | lo <= i < hi
      ensures !IsDigit(line[i])
    {
      if IsDigit(line[i]) {
        DigitIndicesComplete(line, |line|, i);
        assert false;
      }
    }
  }

  /** A stretch of digits followed by non-digits up to column `x` is the
      first run from its start, and the runs continue from `x`. */
  lemma {:induction false} CloseRun(line: string, beg: nat, end: nat, x: nat, idx: nat)
    requires end < x && (end + 1 < x || x == |line|)
    requires AllDigitsIn(line, beg, end) && NoDigitsIn(line, end + 1, x)
    ensures RunsFrom(line, beg, idx) == [Coordinates(idx, beg, end)] + RunsFrom(line, x, idx)
  {
    RunEndAt(line, beg, end);
    RunsFromSkip(line, end + 1, x, idx);
  }

  /** A gap between digit columns `j - 1` and `j` closes the run that ends
      at column `nums[j - 1]`. */
  lemma {:induction false} CloseRunAt(line: string, nums: seq<nat>, j: nat, beg: nat, idx: nat)
    requires nums == DigitIndices(line, |line|) && 0 < j < |nums|
    requires nums[j] - nums[j - 1] > 1 && AllDigitsIn(line, beg, nums[j - 1])
    ensures RunsFrom(line, beg, idx) == [Coordinates(idx, beg, nums[j - 1])] + RunsFrom(line, nums[j], idx)
  {
    var end, x := nums[j - 1], nums[j];
    forall k | 0 <= k < |nums|
      ensures nums[k] < end + 1 || nums[k] >= x
    {
      if k < j { assert nums[k] <= nums[j - 1]; }
    }
    NoDigitsBetween(line, nums, end + 1, x);
    CloseRun(line, beg, end, x, idx);
  }

  /** After the last digit column the run open at `beg` is the last run. */
  lemma {:induction false} CloseLastRun(line: string, nums: seq<nat>, beg: nat, idx: nat)
    requires nums == DigitIndices(line, |line|) && |nums| > 0
    requires AllDigitsIn(line, beg, nums[|nums| - 1])
    ensures RunsFrom(line, beg, idx) == [Coordinates(idx, beg, nums[|nums| - 1])] + RunsFrom(line, |line|, idx)
  {
    var end := nums[|nums| - 1];
    forall k | 0 <= k < |nums|
      ensures nums[k] < end + 1
    {
      if k < |nums| - 1 { assert nums[k] < nums[|nums| - 1]; }
    }
    NoDigitsBetween(line, nums, end + 1, |line|);
    CloseRun(line, beg, end, |line|, idx);
  }

  /** A digit column right after a run of digits extends it. */
  lemma {:induction false} ExtendRun(line: string, nums: seq<nat>, j: nat, beg: nat)
    requires nums == DigitIndices(line, |line|) && 0 < j < |nums|
    requires nums[j] - nums[j - 1] <= 1 && AllDigitsIn(line, beg, nums[j - 1])
    ensures AllDigitsIn(line, beg, nums[j])
  {
    var end, x := nums[j - 1], nums[j];
    assert end < x && x < |line| && IsDigit(line[x]);
    forall i | beg <= i <= x
      ensures IsDigit(line[i])
    {
      if i < x { assert i <= end; }
    }
  }

  /** `PartNumberCoordinates::from_line`: walk the digit columns, closing a
      run whenever the next digit is not adjacent to the previous one. */
  method FromLine(line: string, idx: nat) returns (coordinates: seq<Coordinates>)
    ensures coordinates == DigitRuns(line, idx)
  {
    var nums := DigitIndices(line, |line|);
    if |nums| == 0 {
      NoDigitsBetween(line, nums, 0, |line|);
      RunsFromSkip(line, 0, |line|, idx);
      return [];
    }
    var beg: nat, end: nat := nums[0], nums[0];
    NoDigitsBetween(line, nums, 0, nums[0]);
    RunsFromSkip(line, 0, nums[0], idx);
    coordinates := [];
    for j := 0 to |nums|
      invariant j == 0 ==> end == nums[0]
      invariant j > 0 ==> end == nums[j - 1]
      invariant AllDigitsIn(line, beg, end)
      invariant DigitRuns(line, idx) == coordinates + RunsFrom(line, beg, idx)
    {
      var x := nums[j];
      if x - end > 1 {
        CloseRunAt(line, nums, j, beg, idx);
        coordinates := coordinates + [Coordinates(idx, beg, end)];
        beg := x;
      }
      else if j > 0 {
        ExtendRun(line, nums, j, beg);
      }
      end := x;
    }
    CloseLastRun(line, nums, beg, idx);
    RunsFromSkip(line, |line|, |line|, idx);
    coordinates := coordinates + [Coordinates(idx, beg, end)];
  }

  // ---------------------------------------------------------------------
  // Windows and part numbers

  /** The first column of the window around a run: one before the run,
      clamped at column 0. */
  function WindowStart(c: Coordinates): nat {
    if c.start > 0 then c.start - 1 else 0
  }

  /** The last column of the window around a run on `line`: one after the
      run, clamped at the line's last column. */
  function WindowEnd(c: Coordinates, line: string): nat
    requires |line| > 0
  {
    if c.end < |line| - 1 then c.end + 1 else |line| - 1
  }

  /** What `check_against_line` needs to slice `line`: the line is not empty
      and the window does not start more than one column past its end. */
  predicate Checkable(c: Coordinates, line: string) {
    |line| > 0 && WindowStart(c) <= WindowEnd(c, line) + 1
  }

  /** How many characters of `s` are among `symbols`. */
  function CountSymbols(s: string, symbols: seq<char>): (n: nat)
    ensures n <= |s|
    ensures n == 0 <==> forall i :: 0 <= i < |s| ==> s[i] !in symbols
  {
    if s == [] then 0 else (if s[0] in symbols then 1 else 0) + CountSymbols(s[1..], symbols)
  }

  /** `PartNumberCoordinates::check_against_line`: some symbol lies in the
      run's window on `line`. */
  function CheckAgainstLine(c: Coordinates, line: string, symbols: seq<char>): (b: bool)
    requires Checkable(c, line)
    ensures b <==> exists j :: WindowStart(c) <= j <= WindowEnd(c, line) && line[j] in symbols
  {
    var w := line[WindowStart(c)..WindowEnd(c, line) + 1];
    assert forall j :: WindowStart(c) <= j <= WindowEnd(c, line) ==> line[j] == w[j - WindowStart(c)];
    CountSymbols(w, symbols) != 0
  }

  /** The digits of run `c` of `line`. */
  function RunText(line: string, c: Coordinates): string
    requires c.start <= c.end < |line|
  {
    line[c.start..c.end + 1]
  }

  /** The value of run `c` of `line` as `str::parse::<u32>` reads it. */
  function RunNumber(line: string, c: Coordinates): Option<nat>
    requires c.start <= c.end < |line|
  {
    ParseUnsigned(RunText(line, c), U32_MAX)
  }

  predicate RunsInside(line: string, runs: seq<Coordinates>) {
    forall k :: 0 <= k < |runs| ==> runs[k].start <= runs[k].end < |line|
  }

  predicate AllRunsFit(line: string, runs: seq<Coordinates>)
    requires RunsInside(line, runs)
  {
    forall k :: 0 <= k < |runs| ==> RunNumber(line, runs[k]).Some?
  }

  /** Each run read as a `u32`; the first that does not fit fails them all. */
  function ParseRuns(line: string, runs: seq<Coordinates>): (r: Result<seq<PartNumber>>)
    requires RunsInside(line, runs)
    ensures r.Ok? <==> AllRunsFit(line, runs)
    ensures r.Ok? ==> (|r.value| == |runs| &&
      forall k :: 0 <= k < |runs| ==>
        r.value[k] == PartNumber(RunNumber(line, runs[k]).value, runs[k]))
  {
    if runs == [] then Ok([])
    else match RunNumber(line, runs[0])
      case None => Err(BadNumber)
      case Some(n) =>
        match ParseRuns(line, runs[1..])
        case Err(e) => Err(e)
        case Ok(ps) => Ok([PartNumber(n, runs[0])] + ps)
  }

  /** `PartNumber::try_from_line`: the runs of the line with their values. */
  function TryFromLine(line: string, idx: nat): (r: Result<seq<PartNumber>>)
    ensures RunsInside(line, DigitRuns(line, idx))
    ensures r.Ok? <==> AllRunsFit(line, DigitRuns(line, idx))
    ensures r.Ok? ==> (|r.value| == |DigitRuns(line, idx)| &&
      forall k :: 0 <= k < |r.value| ==> (r.value[k].coords == DigitRuns(line, idx)[k] &&
        Some(r.value[k].num) == RunNumber(line, DigitRuns(line, idx)[k])))
  {
    DigitRunsValid(line, idx);
    ParseRuns(line, DigitRuns(line, idx))
  }

  /** A run's text parses exactly when its value fits in a `u32`, and then
      to that value. */
  lemma {:induction false} RunValue(line: string, c: Coordinates)
    requires IsRunOf(line, c)
    ensures AllDigits(RunText(line, c))
    ensures RunNumber(line, c) ==
      if DigitsValue(RunText(line, c)) <= U32_MAX then Some(DigitsValue(RunText(line, c))) else None
  {
    var t := RunText(line, c);
    assert forall i :: 0 <= i < |t| ==> t[i] == line[c.start + i];
    assert t[0] != '+' by { assert IsDigit(line[c.start]); }
  }

  /** The neighbouring lines a run is checked against can be sliced. */
  predicate NeighboursCheckable(c: Coordinates, prev: Option<string>, next: Option<string>) {
    (prev.Some? ==> Checkable(c, prev.value)) && (next.Some? ==> Checkable(c, next.value))
  }

  /** The filter of `read_line`: a symbol in the window on the line above,
      else on the line below, else on the run's own line. */
  predicate Keep(c: Coordinates, cur: string, prev: Option<string>, next: Option<string>, symbols: seq<char>)
    requires Checkable(c, cur) && NeighboursCheckable(c, prev, next)
  {
    (prev.Some? && CheckAgainstLine(c, prev.value, symbols)) ||
    (next.Some? && CheckAgainstLine(c, next.value, symbols)) ||
    CheckAgainstLine(c, cur, symbols)
  }

  predicate AllCheckable(parts: seq<PartNumber>, cur: string, prev: Option<string>, next: Option<string>) {
    forall k :: 0 <= k < |parts| ==> Checkable(parts[k].coords, cur) && NeighboursCheckable(parts[k].coords, prev, next)
  }

  /** `a` comes before `b` in reading order, with a gap between them when
      they share a line. */
  predicate Before(a: Coordinates, b: Coordinates) {
    a.line < b.line || (a.line == b.line && a.end + 1 < b.start)
  }

  predicate Ordered(parts: seq<PartNumber>) {
    forall i, j :: 0 <= i < j < |parts| ==> Before(parts[i].coords, parts[j].coords)
  }

  /** The parts that `Keep` accepts, in their order. */
  function KeepParts(parts: seq<PartNumber>, cur: string, prev: Option<string>, next: Option<string>, symbols: seq<char>): (r: seq<PartNumber>)
    requires AllCheckable(parts, cur, prev, next)
    ensures forall p {:trigger p in r} {:trigger p in parts} :: p in r <==> (p in parts && Checkable(p.coords, cur) &&
      NeighboursCheckable(p.coords, prev, next) && Keep(p.coords, cur, prev, next, symbols))
    ensures Ordered(parts) ==> Ordered(r)
  {
    if parts == [] then []
    else
      var rest := KeepParts(parts[1..], cur, prev, next, symbols);
      assert forall p :: p in parts[1..] ==> p in parts;
      if Keep(parts[0].coords, cur, prev, next, symbols) then
        if Ordered(parts) then OrderedHead(parts, rest); [parts[0]] + rest else [parts[0]] + rest
      else rest
  }

  /** A sequence chosen from the tail of an ordered sequence can follow its head. */
  lemma {:induction false} OrderedHead(parts: seq<PartNumber>, rest: seq<PartNumber>)
    requires parts != [] && Ordered(parts) && Ordered(rest)
    requires forall p {:trigger p in rest} :: p in rest ==> p in parts[1..]
    ensures Ordered([parts[0]] + rest)
  {
    var all := [parts[0]] + rest;
    forall i, j | 0 <= i < j < |all|
      ensures Before(all[i].coords, all[j].coords)
    {
      assert all[j] == rest[j - 1] && all[j] in rest;
      if i == 0 {
        var k :| 0 <= k < |parts[1..]| && parts[1..][k] == all[j];
        assert parts[k + 1] == all[j];
      } else {
        assert all[i] == rest[i - 1];
      }
    }
  }

  predicate ReadLineCallable(cur: string, prev: Option<string>, next: Option<string>, idx: nat) {
    forall k :: 0 <= k < |DigitRuns(cur, idx)| ==> NeighboursCheckable(DigitRuns(cur, idx)[k], prev, next)
  }

  /** `PartNumber::read_line`: the part numbers of `cur`, which fails when
      one of its numbers does not fit in a `u32`. */
  function ReadLine(cur: string, prev: Option<string>, next: Option<string>, symbols: seq<char>, idx: nat): (r: Result<seq<PartNumber>>)
    requires ReadLineCallable(cur, prev, next, idx)
    ensures r.Ok? <==> TryFromLine(cur, idx).Ok?
    ensures r.Ok? ==> forall p {:trigger p in r.value} {:trigger p in TryFromLine(cur, idx).value} :: p in r.value <==> (p in TryFromLine(cur, idx).value &&
      Checkable(p.coords, cur) && NeighboursCheckable(p.coords, prev, next) &&
      Keep(p.coords, cur, prev, next, symbols))
    ensures r.Ok? ==> Ordered(r.value)
  {
    match TryFromLine(cur, idx)
    case Err(e) => Err(e)
    case Ok(parts) =>
      DigitRunsValid(cur, idx);
      assert Ordered(parts);
      Ok(KeepParts(parts, cur, prev, next, symbols))
  }

  // ---------------------------------------------------------------------
  // Part numbers of the whole schematic

  /** All lines have the same length, as in the puzzle's schematics. */
  predicate Rectangular(lines: seq<string>) {
    forall i :: 0 <= i < |lines| ==> |lines[i]| == |lines[0]|
  }

  /** The line above line `i`; the first line has none. */
  function Upper(lines: seq<string>, i: nat): Option<string>
    requires i < |lines|
  {
    if i == 0 then None else Some(lines[i - 1])
  }

  /** The line below line `i`; the last line has none. */
  function Lower(lines: seq<string>, i: nat): Option<string>
    requires i < |lines|
  {
    if i == |lines| - 1 then None else Some(lines[i + 1])
  }

  /** In a rectangular schematic every run can be checked against the lines
      next to it. */
  lemma {:induction false} GridCallable(lines: seq<string>, i: nat)
    requires Rectangular(lines) && i < |lines|
    ensures ReadLineCallable(lines[i], Upper(lines, i), Lower(lines, i), i)
  {
    DigitRunsValid(lines[i], i);
  }

  /** What line `i` contributes: its part numbers, or nothing when one of
      its numbers does not fit in a `u32`. */
  function LineParts(lines: seq<string>, symbols: seq<char>, i: nat): (r: seq<PartNumber>)
    requires Rectangular(lines) && i < |lines|
    ensures Ordered(r) && forall p {:trigger p in r} :: p in r ==> p.coords.line == i && p.coords.start <= p.coords.end
  {
    GridCallable(lines, i);
    DigitRunsValid(lines[i], i);
    match ReadLine(lines[i], Upper(lines, i), Lower(lines, i), symbols, i)
    case Ok(parts) => parts
    case Err(_) => []
  }

  /** The lists of a sequence of lists, one after the other. */
  function Flatten<T>(ss: seq<seq<T>>): seq<T> {
    if ss == [] then [] else Flatten(ss[..|ss| - 1]) + ss[|ss| - 1]
  }

  /** An element of a concatenation comes from one of the lists. */
  lemma {:induction false} FlattenIn<T>(ss: seq<seq<T>>, x: T)
    ensures x in Flatten(ss) <==> exists i :: 0 <= i < |ss| && x in ss[i]
  {
    if ss != [] {
      var front, last := ss[..|ss| - 1], ss[|ss| - 1];
      assert Flatten(ss) == Flatten(front) + last;
      FlattenIn(front, x);
      if x in Flatten(front) {
        var i :| 0 <= i < |front| && x in front[i];
        assert ss[i] == front[i];
      } else if x !in last {
        forall i | 0 <= i < |ss|
          ensures x !in ss[i]
        {
          if i < |front| {
            assert ss[i] == front[i];
          }
        }
      }
    }
  }

  /** List `i` is ordered and holds part numbers of line `i` only. */
  predicate LinesInOrder(ss: seq<seq<PartNumber>>) {
    forall i :: 0 <= i < |ss| ==> (Ordered(ss[i]) &&
      forall p {:trigger p in ss[i]} :: p in ss[i] ==> p.coords.line == i && p.coords.start <= p.coords.end)
  }

  lemma {:induction false} FlattenOrdered(ss: seq<seq<PartNumber>>)
    requires LinesInOrder(ss)
    ensures Ordered(Flatten(ss))
    ensures forall p {:trigger p in Flatten(ss)} :: p in Flatten(ss) ==> p.coords.line < |ss| && p.coords.start <= p.coords.end
  {
    if ss != [] {
      var front, last := ss[..|ss| - 1], ss[|ss| - 1];
      assert LinesInOrder(front) by {
        forall i | 0 <= i < |front| ensures front[i] == ss[i] { }
      }
      FlattenOrdered(front);
      var ff := Flatten(front);
      var all := ff + last;
      assert Flatten(ss) == all;
      forall i, j | 0 <= i < j < |all|
        ensures Before(all[i].coords, all[j].coords)
      {
        if j < |ff| {
          assert all[i] == ff[i] && all[j] == ff[j];
        } else if i >= |ff| {
          assert all[i] == last[i - |ff|] && all[j] == last[j - |ff|];
        } else {
          assert all[i] == ff[i] && all[j] == last[j - |ff|];
          assert all[i] in ff && all[j] in last;
        }
      }
    }
  }

  lemma {:induction false} FlattenMember(ss: seq<seq<PartNumber>>, p: PartNumber)
    requires LinesInOrder(ss)
    ensures p in Flatten(ss) <==> p.coords.line < |ss| && p in ss[p.coords.line]
  {
    if ss != [] {
      var front, last := ss[..|ss| - 1], ss[|ss| - 1];
      assert LinesInOrder(front) by {
        forall i | 0 <= i < |front| ensures front[i] == ss[i] { }
      }
      FlattenMember(front, p);
      FlattenOrdered(front);
      assert Flatten(ss) == Flatten(front) + last;
      if p.coords.line < |front| {
        assert front[p.coords.line] == ss[p.coords.line];
      }
    }
  }

  /** What each line of the schematic contributes, in line order. */
  function Contributions(lines: seq<string>, symbols: seq<char>): (ss: seq<seq<PartNumber>>)
    requires Rectangular(lines)
    ensures |ss| == |lines|
  {
    seq(|lines|, i requires 0 <= i < |lines| => LineParts(lines, symbols, i))
  }

  lemma {:induction false} ContributionsInOrder(lines: seq<string>, symbols: seq<char>)
    requires Rectangular(lines)
    ensures LinesInOrder(Contributions(lines, symbols))
  {
    var ss := Contributions(lines, symbols);
    forall i | 0 <= i < |ss|
      ensures Ordered(ss[i]) &&
        forall p: PartNumber {:trigger p in ss[i]} :: p in ss[i] ==> p.coords.line == i && p.coords.start <= p.coords.end
    {
      assert ss[i] == LineParts(lines, symbols, i);
    }
  }

  /** The part numbers of the schematic, line after line. */
  function PartNumbers(lines: seq<string>, symbols: seq<char>): seq<PartNumber>
    requires Rectangular(lines)
  {
    Flatten(Contributions(lines, symbols))
  }

  /** `find_part_numbers` */
  method FindPartNumbers(lines: seq<string>, symbols: seq<char>) returns (partNumbers: seq<PartNumber>)
    requires Rectangular(lines)
    ensures partNumbers == PartNumbers(lines, symbols)
  {
    ghost var ss := Contributions(lines, symbols);
    partNumbers := [];
    for indx := 0 to |lines|
      invariant partNumbers == Flatten(ss[..indx])
    {
      var upperLine := if indx == 0 then None else Some(lines[indx - 1]);
      var lowerLine := if indx == |lines| - 1 then None else Some(lines[indx + 1]);
      GridCallable(lines, indx);
      var read := ReadLine(lines[indx], upperLine, lowerLine, symbols, indx);
      var found := if read.Ok? then read.value else [];
      assert found == ss[indx];
      assert ss[..indx + 1][..indx] == ss[..indx];
      partNumbers := partNumbers + found;
    }
    assert ss[..|lines|] == ss;
  }

  /** Line `i` contributes nothing when one of its numbers does not fit in
      a `u32`, and otherwise the runs of the line with their values that
      `Keep` accepts against the lines above and below. */
  lemma {:induction false} LinePartsMember(lines: seq<string>, symbols: seq<char>, i: nat, p: PartNumber)
    requires Rectangular(lines) && i < |lines|
    ensures TryFromLine(lines[i], i).Err? ==> LineParts(lines, symbols, i) == []
    ensures TryFromLine(lines[i], i).Ok? ==> (p in LineParts(lines, symbols, i) <==> (p in TryFromLine(lines[i], i).value &&
      Checkable(p.coords, lines[i]) && NeighboursCheckable(p.coords, Upper(lines, i), Lower(lines, i)) &&
      Keep(p.coords, lines[i], Upper(lines, i), Lower(lines, i), symbols)))
  {
    GridCallable(lines, i);
  }

  /** The part numbers come in reading order: by line, then left to right. */
  lemma {:induction false} PartNumbersOrdered(lines: seq<string>, symbols: seq<char>)
    requires Rectangular(lines)
    ensures Ordered(PartNumbers(lines, symbols))
    ensures Spans(PartNumbers(lines, symbols))
  {
    ContributionsInOrder(lines, symbols);
    FlattenOrdered(Contributions(lines, symbols));
  }

  /** A part number of the schematic is one of the part numbers of its own
      line. */
  lemma {:induction false} PartNumbersMember(lines: seq<string>, symbols: seq<char>, p: PartNumber)
    requires Rectangular(lines)
    ensures p in PartNumbers(lines, symbols) <==> p.coords.line < |lines| && p in LineParts(lines, symbols, p.coords.line)
  {
    ContributionsInOrder(lines, symbols);
    FlattenMember(Contributions(lines, symbols), p);
  }

  // ---------------------------------------------------------------------
  // Adjacency

  /** The distance between two lines, or between two columns. */
  function Dist(a: nat, b: nat): nat {
    if a <= b then b - a else a - b
  }

  /** Cell (`row`, `col`) lies outside run `c` and touches one of its cells
      horizontally, vertically or diagonally. */
  predicate Touches(c: Coordinates, row: nat, col: nat) {
    !(row == c.line && c.start <= col <= c.end) &&
    exists x :: c.start <= x <= c.end && Dist(row, c.line) <= 1 && Dist(col, x) <= 1
  }

  /** The test of `is_symbol_adjacent` once it knows whether the cell is on
      the run's own line or on a line next to it. */
  function AdjacentGiven(c: Coordinates, sameLine: bool, nextLine: bool, col: nat): bool {
    if sameLine then (c.start > 0 && col == c.start - 1) || col == c.end + 1
    else if nextLine then WindowStart(c) <= col <= c.end + 1
    else false
  }

  /** `PartNumberCoordinates::is_symbol_adjacent` with the distance between
      lines taken exactly: column `col` of line `row` is next to run `c`. */
  function IsSymbolAdjacent(c: Coordinates, row: nat, col: nat): (r: bool)
    ensures c.start <= c.end ==>
      (r <==> Dist(c.line, row) <= 1 && WindowStart(c) <= col <= c.end + 1 && !(row == c.line && c.start <= col <= c.end))
  {
    AdjacentGiven(c, c.line == row, Dist(c.line, row) == 1, col)
  }

  /** The adjacency test is the 8-neighbourhood of the run. */
  lemma {:induction false} AdjacentIffTouches(c: Coordinates, row: nat, col: nat)
    requires c.start <= c.end
    ensures IsSymbolAdjacent(c, row, col) <==> Touches(c, row, col)
  {
    if IsSymbolAdjacent(c, row, col) {
      var x := if col < c.start then c.start else if col > c.end then c.end else col;
      assert Dist(col, x) <= 1;
    }
  }

  /** `as i16`: the low 16 bits of `n` read in two's complement. */
  function AsI16(n: int): (r: int)
    ensures -32768 <= r < 32768 && (n - r) % 65536 == 0
  {
    var m := n % 65536;
    if m < 32768 then m else m - 65536
  }

  /** `i16::abs` as a release build computes it: -32768 stays -32768. */
  function AbsI16(n: int): (r: int)
    requires -32768 <= n < 32768
    ensures -32768 <= r < 32768
    ensures r == n || r == -n
    ensures r >= 0 || n == -32768
  {
    if n >= 0 || n == -32768 then n else -n
  }

  /** `is_symbol_adjacent` as written: both line indices are cast to `i16`
      before they are subtracted, so lines 65536 apart look equal. */
  function IsSymbolAdjacentAsWritten(c: Coordinates, row: nat, col: nat): (r: bool)
    ensures r == AdjacentGiven(c, c.line == row, (c.line - row) % 65536 == 1 || (c.line - row) % 65536 == 65535, col)
  {
    var d := AsI16(AsI16(c.line) - AsI16(row));
    WrappedDifference(c.line, row);
    AdjacentGiven(c, c.line == row, AbsI16(d) == 1, col)
  }

  /** The `i16` difference of two casts is 1 or -1 exactly when the numbers
      are 1 or -1 apart modulo 65536. */
  lemma {:induction false} WrappedDifference(a: int, b: int)
    ensures AbsI16(AsI16(AsI16(a) - AsI16(b))) == 1 <==> (a - b) % 65536 == 1 || (a - b) % 65536 == 65535
  {
    var y := AsI16(AsI16(a) - AsI16(b));
    CastDifference(a, b);
    ResidueOfI16(a - b, y);
  }

  /** Casting before and after subtracting keeps the difference modulo
      65536. */
  lemma {:induction false} CastDifference(a: int, b: int)
    ensures (a - b - AsI16(AsI16(a) - AsI16(b))) % 65536 == 0
  {
    var x := AsI16(a) - AsI16(b);
    var y := AsI16(x);
    var p := (a - AsI16(a)) / 65536;
    var q := (b - AsI16(b)) / 65536;
    var t := (x - y) / 65536;
    assert a - AsI16(a) == p * 65536;
    assert b - AsI16(b) == q * 65536;
    assert x - y == t * 65536;
    assert a - b - y == (p - q + t) * 65536;
  }

  /** An `i16` value is 1 or -1 exactly when a number congruent to it is 1
      or 65535 modulo 65536. */
  lemma {:induction false} ResidueOfI16(d: int, y: int)
    requires -32768 <= y < 32768 && (d - y) % 65536 == 0
    ensures (y == 1 <==> d % 65536 == 1) && (y == -1 <==> d % 65536 == 65535)
  {
    var t := (d - y) / 65536;
    assert d == y + t * 65536;
    if y >= 0 {
      assert d % 65536 == y;
    } else {
      assert d % 65536 == y + 65536;
    }
  }

  /** On grids of fewer than 32768 lines the cast changes nothing. */
  lemma {:induction false} AsWrittenAgrees(c: Coordinates, row: nat, col: nat)
    requires c.line < 32768 && row < 32768
    ensures IsSymbolAdjacentAsWritten(c, row, col) == IsSymbolAdjacent(c, row, col)
  {
    assert AsI16(c.line) == c.line && AsI16(row) == row;
    assert AsI16(c.line - row) == c.line - row;
  }

  /** A run on line 65536 is judged next to a `*` on line 1. */
  lemma {:induction false} AsWrittenWrapsAround()
    ensures IsSymbolAdjacentAsWritten(Coordinates(65536, 0, 0), 1, 0)
    ensures !IsSymbolAdjacent(Coordinates(65536, 0, 0), 1, 0)
    ensures !Touches(Coordinates(65536, 0, 0), 1, 0)
  {
    assert AsI16(65536) == 0 && AsI16(1) == 1 && AsI16(-1) == -1;
    AdjacentIffTouches(Coordinates(65536, 0, 0), 1, 0);
  }

  // ---------------------------------------------------------------------
  // Gears

  /** Every part number spans at least one column. */
  predicate Spans(parts: seq<PartNumber>) {
    forall p {:trigger p in parts} :: p in parts ==> p.coords.start <= p.coords.end
  }

  /** The part numbers of `parts` next to column `col` of line `row`, in
      their order. */
  function AdjacentParts(parts: seq<PartNumber>, row: nat, col: nat): (r: seq<PartNumber>)
    ensures forall p {:trigger p in r} {:trigger p in parts} :: p in r <==> p in parts && IsSymbolAdjacent(p.coords, row, col)
    ensures Ordered(parts) ==> Ordered(r)
  {
    if parts == [] then []
    else
      var rest := AdjacentParts(parts[1..], row, col);
      assert forall p :: p in parts[1..] ==> p in parts;
      if IsSymbolAdjacent(parts[0].coords, row, col) then
        if Ordered(parts) then OrderedHead(parts, rest); [parts[0]] + rest else [parts[0]] + rest
      else rest
  }

  /** The gear at column `col` of line `row`: the two part numbers next to
      it when there are exactly two, in their order. */
  function GearAt(parts: seq<PartNumber>, row: nat, col: nat): (r: Option<Gear>)
    ensures r.Some? ==> r.value.first in parts && IsSymbolAdjacent(r.value.first.coords, row, col)
    ensures r.Some? ==> r.value.second in parts && IsSymbolAdjacent(r.value.second.coords, row, col)
    ensures r.Some? && Ordered(parts) ==> Before(r.value.first.coords, r.value.second.coords)
  {
    var adjacent := AdjacentParts(parts, row, col);
    if |adjacent| == 2 then Some(Gear(adjacent[0], adjacent[1])) else None
  }

  /** The part numbers that touch cell (`row`, `col`). */
  function TouchingParts(parts: seq<PartNumber>, row: nat, col: nat): set<PartNumber> {
    set p | p in parts && Touches(p.coords, row, col)
  }

  lemma {:induction false} OrderedTail(parts: seq<PartNumber>)
    requires parts != [] && Ordered(parts)
    ensures Ordered(parts[1..])
  {
    var tail := parts[1..];
    forall i, j | 0 <= i < j < |tail| ensures Before(tail[i].coords, tail[j].coords) {
      assert tail[i] == parts[i + 1] && tail[j] == parts[j + 1];
    }
  }

  /** The first of ordered part numbers does not come back later. */
  lemma {:induction false} HeadNotInTail(parts: seq<PartNumber>)
    requires parts != [] && Ordered(parts) && Spans(parts)
    ensures parts[0] !in parts[1..]
  {
    forall k | 1 <= k < |parts|
      ensures parts[k] != parts[0]
    {
      assert Before(parts[0].coords, parts[k].coords);
      assert parts[0] in parts;
    }
  }

  lemma {:induction false} SetOfCons<T>(s: seq<T>)
    requires s != []
    ensures (set x | x in s) == {s[0]} + (set x | x in s[1..])
  {
    assert forall x :: x in s <==> x == s[0] || x in s[1..];
  }

  /** Ordered part numbers that span a column are all different. */
  lemma {:induction false} OrderedCard(parts: seq<PartNumber>)
    requires Ordered(parts) && Spans(parts)
    ensures |set p | p in parts| == |parts|
  {
    if parts != [] {
      var tail := parts[1..];
      OrderedTail(parts);
      assert Spans(tail) by {
        forall p | p in tail ensures p in parts { }
      }
      OrderedCard(tail);
      SetOfCons(parts);
      HeadNotInTail(parts);
    }
  }

  /** A `*` is a gear exactly when two part numbers touch it; the gear holds
      those two, the one that comes first in reading order first. */
  lemma {:induction false} GearAtExactlyTwo(parts: seq<PartNumber>, row: nat, col: nat)
    requires Ordered(parts) && Spans(parts)
    ensures GearAt(parts, row, col).Some? <==> |TouchingParts(parts, row, col)| == 2
    ensures GearAt(parts, row, col).Some? ==>
      var g := GearAt(parts, row, col).value;
      TouchingParts(parts, row, col) == {g.first, g.second} && Before(g.first.coords, g.second.coords)
  {
    var adjacent := AdjacentParts(parts, row, col);
    assert Spans(adjacent);
    OrderedCard(adjacent);
    AdjacentAreTouching(parts, row, col);
    if |adjacent| == 2 {
      PairSet(adjacent);
    }
  }

  lemma {:induction false} PairSet<T>(xs: seq<T>)
    requires |xs| == 2
    ensures (set x | x in xs) == {xs[0], xs[1]}
  {
    assert forall x :: x in xs <==> x == xs[0] || x == xs[1];
  }

  /** The parts next to a cell, as a set, are the parts that touch it. */
  lemma {:induction false} AdjacentAreTouching(parts: seq<PartNumber>, row: nat, col: nat)
    requires Spans(parts)
    ensures (set p | p in AdjacentParts(parts, row, col)) == TouchingParts(parts, row, col)
  {
    forall p | p in parts
      ensures IsSymbolAdjacent(p.coords, row, col) <==> Touches(p.coords, row, col)
    {
      AdjacentIffTouches(p.coords, row, col);
    }
    var adjacent := AdjacentParts(parts, row, col);
    assert forall p :: p in adjacent <==> p in parts && Touches(p.coords, row, col);
  }

  /** The columns of the `*` among the first `n` columns of `line`, left to
      right. */
  function StarColumns(line: string, n: nat): (r: seq<nat>)
    requires n <= |line|
    ensures forall k :: 0 <= k < |r| ==> r[k] < n && line[r[k]] == '*'
    ensures forall j, k :: 0 <= j < k < |r| ==> r[j] < r[k]
    ensures |r| <= n
  {
    if n == 0 then [] else StarColumns(line, n - 1) + (if line[n - 1] == '*' then [n - 1] else [])
  }

  lemma {:induction false} StarColumnsComplete(line: string, n: nat, col: nat)
    requires col < n <= |line| && line[col] == '*'
    ensures col in StarColumns(line, n)
  {
    if col < n - 1 {
      StarColumnsComplete(line, n - 1, col);
    }
  }

  /** The gears at the columns `cols` of line `row`, in the order of `cols`. */
  function GearsAt(parts: seq<PartNumber>, row: nat, cols: seq<nat>): (r: seq<Gear>)
    ensures |r| <= |cols|
    ensures forall g :: g in r ==> g.first in parts && g.second in parts
    ensures forall g :: g in r ==> Dist(g.first.coords.line, row) <= 1 && Dist(g.second.coords.line, row) <= 1
  {
    if cols == [] then []
    else (match GearAt(parts, row, cols[0]) case Some(g) => [g] case None => []) + GearsAt(parts, row, cols[1..])
  }

  lemma {:induction false} GearsAtMember(parts: seq<PartNumber>, row: nat, cols: seq<nat>, g: Gear)
    ensures g in GearsAt(parts, row, cols) <==> exists k :: 0 <= k < |cols| && GearAt(parts, row, cols[k]) == Some(g)
  {
    if cols != [] {
      GearsAtMember(parts, row, cols[1..], g);
      if exists k :: 0 <= k < |cols[1..]| && GearAt(parts, row, cols[1..][k]) == Some(g) {
        var k :| 0 <= k < |cols[1..]| && GearAt(parts, row, cols[1..][k]) == Some(g);
        assert cols[k + 1] == cols[1..][k];
      }
      if exists k :: 0 <= k < |cols| && GearAt(parts, row, cols[k]) == Some(g) {
        var k :| 0 <= k < |cols| && GearAt(parts, row, cols[k]) == Some(g);
        if k > 0 {
          assert cols[1..][k - 1] == cols[k];
        }
      }
    }
  }

  /** `Gear::from_line`: the gears at the `*` of line `row`, left to right. */
  function LineGears(line: string, parts: seq<PartNumber>, row: nat): (r: seq<Gear>)
    ensures |r| <= |line|
    ensures forall g :: g in r ==> g.first in parts && g.second in parts
    ensures forall g :: g in r ==> Dist(g.first.coords.line, row) <= 1 && Dist(g.second.coords.line, row) <= 1
  {
    var cols := StarColumns(line, |line|);
    GearsAt(parts, row, cols)
  }

  /** `g` is the gear at some `*` of `line`, which is line `row`. */
  predicate LineHasGear(line: string, parts: seq<PartNumber>, row: nat, g: Gear) {
    exists col :: 0 <= col < |line| && line[col] == '*' && GearAt(parts, row, col) == Some(g)
  }

  /** The gears of a line are the gears at its `*` characters. */
  lemma {:induction false} LineGearsMember(line: string, parts: seq<PartNumber>, row: nat, g: Gear)
    ensures g in LineGears(line, parts, row) <==> LineHasGear(line, parts, row, g)
  {
    var cols := StarColumns(line, |line|);
    GearsAtMember(parts, row, cols, g);
    if LineHasGear(line, parts, row, g) {
      var col :| 0 <= col < |line| && line[col] == '*' && GearAt(parts, row, col) == Some(g);
      StarColumnsComplete(line, |line|, col);
      var k :| 0 <= k < |cols| && cols[k] == col;
    }
  }

  /** The columns are strictly increasing. */
  predicate Increasing(cols: seq<nat>) {
    forall j, k :: 0 <= j < k < |cols| ==> cols[j] < cols[k]
  }

  /** The columns of `cols` at which a gear stands, in the order of `cols`. */
  function GearColumns(parts: seq<PartNumber>, row: nat, cols: seq<nat>): seq<nat> {
    if cols == [] then []
    else (if GearAt(parts, row, cols[0]).Some? then [cols[0]] else []) + GearColumns(parts, row, cols[1..])
  }

  /** `GearsAt` keeps one gear per column that has one, in column order: its
      `k`-th gear is the gear at the `k`-th such column. */
  lemma {:induction false} GearsAtColumns(parts: seq<PartNumber>, row: nat, cols: seq<nat>)
    ensures |GearColumns(parts, row, cols)| == |GearsAt(parts, row, cols)|
    ensures forall k :: 0 <= k < |GearColumns(parts, row, cols)| ==>
      GearAt(parts, row, GearColumns(parts, row, cols)[k]) == Some(GearsAt(parts, row, cols)[k])
  {
    if cols != [] {
      GearsAtColumns(parts, row, cols[1..]);
      var ct, gt := GearColumns(parts, row, cols[1..]), GearsAt(parts, row, cols[1..]);
      var head := GearAt(parts, row, cols[0]);
      if head.Some? {
        var cs, gs := [cols[0]] + ct, [head.value] + gt;
        assert GearColumns(parts, row, cols) == cs;
        assert GearsAt(parts, row, cols) == gs;
        forall k | 0 <= k < |cs|
          ensures GearAt(parts, row, cs[k]) == Some(gs[k])
        {
          if k > 0 {
            assert cs[k] == ct[k - 1] && gs[k] == gt[k - 1];
          }
        }
      }
    }
  }

  /** Every column of `cols` at which a gear stands is kept, and only those. */
  lemma {:induction false} GearColumnsExact(parts: seq<PartNumber>, row: nat, cols: seq<nat>, c: nat)
    ensures c in GearColumns(parts, row, cols) <==> c in cols && GearAt(parts, row, c).Some?
  {
    if cols != [] {
      GearColumnsExact(parts, row, cols[1..], c);
      assert c in cols <==> c == cols[0] || c in cols[1..];
    }
  }

  lemma {:induction false} GearColumnsWithin(parts: seq<PartNumber>, row: nat, cols: seq<nat>, k: nat)
    requires k < |GearColumns(parts, row, cols)|
    ensures GearColumns(parts, row, cols)[k] in cols
  {
    var head := if GearAt(parts, row, cols[0]).Some? then [cols[0]] else [];
    var ct := GearColumns(parts, row, cols[1..]);
    assert GearColumns(parts, row, cols) == head + ct;
    if k >= |head| {
      GearColumnsWithin(parts, row, cols[1..], k - |head|);
      assert ct[k - |head|] in cols[1..];
    }
  }

  /** Columns taken from increasing columns are increasing. */
  lemma {:induction false} GearColumnsIncreasing(parts: seq<PartNumber>, row: nat, cols: seq<nat>)
    requires Increasing(cols)
    ensures Increasing(GearColumns(parts, row, cols))
  {
    if cols != [] {
      var tail := cols[1..];
      GearColumnsIncreasing(parts, row, tail);
      var ct := GearColumns(parts, row, tail);
      forall k | 0 <= k < |ct|
        ensures cols[0] < ct[k]
      {
        GearColumnsWithin(parts, row, tail, k);
        var i :| 0 <= i < |tail| && tail[i] == ct[k];
        assert tail[i] == cols[i + 1];
      }
    }
  }

  /** The gears of a line correspond one to one, left to right, to the `*`
      columns of the line at which a gear stands. */
  lemma {:induction false} LineGearsColumns(line: string, parts: seq<PartNumber>, row: nat)
    ensures var cs := GearColumns(parts, row, StarColumns(line, |line|));
      |cs| == |LineGears(line, parts, row)| && Increasing(cs) &&
      (forall k :: 0 <= k < |cs| ==>
        cs[k] < |line| && line[cs[k]] == '*' && GearAt(parts, row, cs[k]) == Some(LineGears(line, parts, row)[k])) &&
      (forall col :: 0 <= col < |line| && line[col] == '*' && GearAt(parts, row, col).Some? ==> col in cs)
  {
    var cols := StarColumns(line, |line|);
    var cs := GearColumns(parts, row, cols);
    GearsAtColumns(parts, row, cols);
    GearColumnsIncreasing(parts, row, cols);
    forall k | 0 <= k < |cs|
      ensures cs[k] < |line| && line[cs[k]] == '*'
    {
      GearColumnsExact(parts, row, cols, cs[k]);
    }
    forall col | 0 <= col < |line| && line[col] == '*' && GearAt(parts, row, col).Some?
      ensures col in cs
    {
      StarColumnsComplete(line, |line|, col);
      GearColumnsExact(parts, row, cols, col);
    }
  }

  /** The gears of every line, line after line. */
  function Gears(lines: seq<string>, parts: seq<PartNumber>): seq<Gear> {
    Flatten(seq(|lines|, row requires 0 <= row < |lines| => LineGears(lines[row], parts, row)))
  }

  /** The gears of the schematic are the gears at its `*` cells. */
  lemma {:induction false} GearsMember(lines: seq<string>, parts: seq<PartNumber>, g: Gear)
    ensures g in Gears(lines, parts) <==> exists row :: 0 <= row < |lines| && LineHasGear(lines[row], parts, row, g)
  {
    var per := seq(|lines|, row requires 0 <= row < |lines| => LineGears(lines[row], parts, row));
    FlattenIn(per, g);
    forall row | 0 <= row < |lines|
      ensures g in per[row] <==> LineHasGear(lines[row], parts, row, g)
    {
      LineGearsMember(lines[row], parts, row, g);
    }
  }

  /** `Gear::ratio` */
  function Ratio(g: Gear): (r: nat)
    ensures r == 0 <==> g.first.num == 0 || g.second.num == 0
    ensures g.second.num > 0 ==> r >= g.first.num
    ensures g.first.num > 0 ==> r >= g.second.num
  {
    g.first.num * g.second.num
  }

  function Ratios(gears: seq<Gear>): seq<nat> {
    seq(|gears|, k requires 0 <= k < |gears| => Ratio(gears[k]))
  }

  function Nums(parts: seq<PartNumber>): seq<nat> {
    seq(|parts|, k requires 0 <= k < |parts| => parts[k].num)
  }

  // ---------------------------------------------------------------------
  // What the part numbers are

  /** Some symbol on line `row` touches run `c`. */
  predicate RowTouches(lines: seq<string>, row: nat, c: Coordinates)
    requires row < |lines|
  {
    exists col :: 0 <= col < |lines[row]| && IsSymbol(lines[row][col]) && Touches(c, row, col)
  }

  /** Some symbol of the grid touches run `c`. */
  predicate SymbolTouches(lines: seq<string>, c: Coordinates) {
    exists row :: 0 <= row < |lines| && RowTouches(lines, row, c)
  }

  /** Checking a line within one line of run `c` against the symbols of the
      whole grid finds a symbol exactly when a symbol of that line touches
      the run. */
  lemma {:induction false} RowCheck(lines: seq<string>, row: nat, c: Coordinates)
    requires row < |lines| && c.start <= c.end < |lines[row]|
    requires Dist(row, c.line) <= 1
    requires row == c.line ==> IsRunOf(lines[row], c)
    ensures Checkable(c, lines[row])
    ensures CheckAgainstLine(c, lines[row], SymbolsOf(lines)) <==> RowTouches(lines, row, c)
  {
    var line := lines[row];
    if CheckAgainstLine(c, line, SymbolsOf(lines)) {
      var j :| WindowStart(c) <= j <= WindowEnd(c, line) && line[j] in SymbolsOf(lines);
      SymbolsOfExact(lines, line[j]);
      AdjacentIffTouches(c, row, j);
      assert IsSymbolAdjacent(c, row, j);
    }
    if RowTouches(lines, row, c) {
      var col :| 0 <= col < |line| && IsSymbol(line[col]) && Touches(c, row, col);
      AdjacentIffTouches(c, row, col);
      assert line[col] in lines[row];
      SymbolsOfExact(lines, line[col]);
      assert WindowStart(c) <= col <= WindowEnd(c, line);
    }
  }

  /** A symbol that touches run `c` lies on its line or on a line next to it. */
  lemma {:induction false} TouchingRows(lines: seq<string>, c: Coordinates)
    requires c.line < |lines|
    ensures SymbolTouches(lines, c) <==>
      RowTouches(lines, c.line, c) ||
      (c.line > 0 && RowTouches(lines, c.line - 1, c)) ||
      (c.line + 1 < |lines| && RowTouches(lines, c.line + 1, c))
  {
    var i := c.line;
    if SymbolTouches(lines, c) {
      var row :| 0 <= row < |lines| && RowTouches(lines, row, c);
      var col :| 0 <= col < |lines[row]| && IsSymbol(lines[row][col]) && Touches(c, row, col);
      assert Dist(row, i) <= 1;
      assert row == i || row + 1 == i || row == i + 1;
    }
    if i > 0 && RowTouches(lines, i - 1, c) {
      assert 0 <= i - 1 < |lines|;
    }
    if i + 1 < |lines| && RowTouches(lines, i + 1, c) {
      assert 0 <= i + 1 < |lines|;
    }
  }

  /** The filter of `read_line` looks at the line above, the line below and
      the run's own line, where those exist. */
  lemma {:induction false} KeepAsRows(lines: seq<string>, c: Coordinates, symbols: seq<char>)
    requires c.line < |lines|
    requires Checkable(c, lines[c.line]) && NeighboursCheckable(c, Upper(lines, c.line), Lower(lines, c.line))
    ensures c.line > 0 ==> Checkable(c, lines[c.line - 1])
    ensures c.line + 1 < |lines| ==> Checkable(c, lines[c.line + 1])
    ensures Keep(c, lines[c.line], Upper(lines, c.line), Lower(lines, c.line), symbols) <==>
      CheckAgainstLine(c, lines[c.line], symbols) ||
      (c.line > 0 && CheckAgainstLine(c, lines[c.line - 1], symbols)) ||
      (c.line + 1 < |lines| && CheckAgainstLine(c, lines[c.line + 1], symbols))
  {
  }

  /** Against the symbols of the whole grid, `read_line` keeps a run exactly
      when a symbol touches it. */
  lemma {:induction false} KeepIffSymbolTouches(lines: seq<string>, c: Coordinates)
    requires Rectangular(lines) && c.line < |lines| && IsRunOf(lines[c.line], c)
    ensures Checkable(c, lines[c.line]) && NeighboursCheckable(c, Upper(lines, c.line), Lower(lines, c.line))
    ensures Keep(c, lines[c.line], Upper(lines, c.line), Lower(lines, c.line), SymbolsOf(lines)) <==> SymbolTouches(lines, c)
  {
    var i := c.line;
    RowCheck(lines, i, c);
    if i > 0 {
      RowCheck(lines, i - 1, c);
    }
    if i + 1 < |lines| {
      RowCheck(lines, i + 1, c);
    }
    KeepAsRows(lines, c, SymbolsOf(lines));
    TouchingRows(lines, c);
  }

  /** The part numbers of the schematic are the runs of digits that fit in
      a `u32` on a line whose runs all fit, and that a symbol touches. */
  lemma {:induction false} PartNumbersTouchSymbols(lines: seq<string>, p: PartNumber)
    requires Rectangular(lines)
    ensures p in PartNumbers(lines, SymbolsOf(lines)) <==>
      p.coords.line < |lines| && TryFromLine(lines[p.coords.line], p.coords.line).Ok? &&
      p in TryFromLine(lines[p.coords.line], p.coords.line).value && SymbolTouches(lines, p.coords)
  {
    var symbols := SymbolsOf(lines);
    PartNumbersMember(lines, symbols, p);
    var i := p.coords.line;
    if i < |lines| {
      LinePartsMember(lines, symbols, i, p);
      var read := TryFromLine(lines[i], i);
      if read.Ok? && p in read.value {
        var k :| 0 <= k < |read.value| && read.value[k] == p;
        DigitRunsValid(lines[i], i);
        assert p.coords == DigitRuns(lines[i], i)[k];
        KeepIffSymbolTouches(lines, p.coords);
      }
    }
  }

  lemma {:induction false} ExampleRuns()
    ensures DigitRuns("..35..633.", 1) == [Coordinates(1, 2, 3), Coordinates(1, 6, 8)]
  {
    var line := "..35..633.";
    RunsFromSkip(line, 0, 2, 1);
    RunEndAt(line, 2, 3);
    RunsFromSkip(line, 4, 6, 1);
    RunEndAt(line, 6, 8);
    RunsFromSkip(line, 9, 10, 1);
  }

  lemma {:induction false} ExampleNumbers()
    ensures RunNumber("..35..633.", Coordinates(1, 2, 3)) == Some(35)
    ensures RunNumber("..35..633.", Coordinates(1, 6, 8)) == Some(633)
  {
    var line := "..35..633.";
    assert RunText(line, Coordinates(1, 2, 3)) == "35" by {
      assert line[2..4] == "35";
    }
    assert RunText(line, Coordinates(1, 6, 8)) == "633" by {
      assert line[6..9] == "633";
    }
    ValueOf35();
    ValueOf633();
  }

  lemma {:induction false} ValueOf35()
    ensures ParseUnsigned("35", U32_MAX) == Some(35)
  {
    assert "35"[..1] == "3" && "3"[..0] == [];
    assert DigitsValue("35") == 35;
  }

  lemma {:induction false} ValueOf633()
    ensures ParseUnsigned("633", U32_MAX) == Some(633)
  {
    assert "633"[..2] == "63" && "63"[..1] == "6" && "6"[..0] == [];
    assert DigitsValue("633") == 633;
  }

  /** The line `..35..633.` holds the numbers 35 and 633. */
  lemma {:induction false} TryFromLineExample()
    ensures TryFromLine("..35..633.", 1) ==
      Ok([PartNumber(35, Coordinates(1, 2, 3)), PartNumber(633, Coordinates(1, 6, 8))])
  {
    ExampleRuns();
    ExampleParse();
  }

  lemma {:induction false} ExampleParse()
    ensures ParseRuns("..35..633.", [Coordinates(1, 2, 3), Coordinates(1, 6, 8)]) ==
      Ok([PartNumber(35, Coordinates(1, 2, 3)), PartNumber(633, Coordinates(1, 6, 8))])
  {
    var line := "..35..633.";
    var runs := [Coordinates(1, 2, 3), Coordinates(1, 6, 8)];
    var parts := [PartNumber(35, runs[0]), PartNumber(633, runs[1])];
    ExampleNumbers();
    assert AllRunsFit(line, runs);
    var r := ParseRuns(line, runs).value;
    assert r[0] == parts[0] && r[1] == parts[1];
    assert r == parts;
  }

  /** In the example, 35 has the `*` above it and 633 the `#` below it. */
  lemma {:induction false} ExampleKept35()
    ensures Checkable(Coordinates(1, 2, 3), "..35..633.")
    ensures NeighboursCheckable(Coordinates(1, 2, 3), Some("...*......"), Some("......#..."))
    ensures Keep(Coordinates(1, 2, 3), "..35..633.", Some("...*......"), Some("......#..."), ['*', '#'])
  {
    var above := "...*......";
    assert CheckAgainstLine(Coordinates(1, 2, 3), above, ['*', '#']) by {
      assert above[3] in ['*', '#'];
    }
  }

  lemma {:induction false} ExampleKept633()
    ensures Checkable(Coordinates(1, 6, 8), "..35..633.")
    ensures NeighboursCheckable(Coordinates(1, 6, 8), Some("...*......"), Some("......#..."))
    ensures Keep(Coordinates(1, 6, 8), "..35..633.", Some("...*......"), Some("......#..."), ['*', '#'])
  {
    var below := "......#...";
    assert CheckAgainstLine(Coordinates(1, 6, 8), below, ['*', '#']) by {
      assert below[6] in ['*', '#'];
    }
  }

  /** The example of the source's test: against `...*......` above and
      `......#...` below, the line `..35..633.` has part numbers 35 and 633. */
  lemma {:induction false} ReadLineExample()
    ensures ReadLineCallable("..35..633.", Some("...*......"), Some("......#..."), 1)
    ensures ReadLine("..35..633.", Some("...*......"), Some("......#..."), ['*', '#'], 1) ==
      Ok([PartNumber(35, Coordinates(1, 2, 3)), PartNumber(633, Coordinates(1, 6, 8))])
  {
    var line, above, below := "..35..633.", "...*......", "......#...";
    var symbols := ['*', '#'];
    TryFromLineExample();
    ExampleRuns();
    ExampleKept35();
    ExampleKept633();
    var parts := [PartNumber(35, Coordinates(1, 2, 3)), PartNumber(633, Coordinates(1, 6, 8))];
    assert KeepParts(parts[1..], line, Some(above), Some(below), symbols) == [parts[1]] by {
      assert parts[1..][1..] == [];
    }
  }

  // ---------------------------------------------------------------------
  // Answers

  /** `part1`: the sum of the part numbers of the schematic. */
  method Part1(lines: seq<string>) returns (sum: nat)
    requires Rectangular(lines)
    ensures sum == Sum(Nums(PartNumbers(lines, SymbolsOf(lines))))
  {
    var symbols := FindSymbols(lines);
    var partNumbers := FindPartNumbers(lines, symbols);
    sum := Sum(Nums(partNumbers));
  }

  /** `part2`: the sum of the ratios of the gears of the schematic. */
  method Part2(lines: seq<string>) returns (sum: nat)
    requires Rectangular(lines)
    ensures sum == Sum(Ratios(Gears(lines, PartNumbers(lines, SymbolsOf(lines)))))
  {
    var symbols := FindSymbols(lines);
    var partNumbers := FindPartNumbers(lines, symbols);
    var gears := Gears(lines, partNumbers);
    sum := Sum(Ratios(gears));
  }
}

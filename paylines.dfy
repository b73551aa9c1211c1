/** Paylines, the pay table and the line-matching rule with its Wild
    substitution and re-anchoring. */
module Paylines {
  import opened Symbols

  /** Reels of the machine and visible rows per reel. */
  const ReelCount: nat := 5
  const RowCount: nat := 3

  /** A payline: for each reel, the row (0 top, 1 middle, 2 bottom) it passes through. */
  datatype Payline = Payline(pattern: seq<int>)

  /** The sixteen fixed paylines. */
  const BuiltInPaylines: seq<Payline> := [
    // straight rows
    Payline([0, 0, 0, 0, 0]), Payline([1, 1, 1, 1, 1]), Payline([2, 2, 2, 2, 2]),
    // V and inverted V
    Payline([0, 1, 2, 1, 0]), Payline([2, 1, 0, 1, 2]),
    // simple curves
    Payline([0, 0, 1, 0, 0]), Payline([2, 2, 1, 2, 2]), Payline([1, 0, 0, 0, 1]), Payline([1, 2, 2, 2, 1]),
    // zigzags
    Payline([0, 1, 0, 1, 0]), Payline([2, 1, 2, 1, 2]), Payline([1, 0, 1, 0, 1]), Payline([1, 2, 1, 2, 1]),
    // hard diagonals
    Payline([0, 1, 1, 1, 2]), Payline([2, 1, 1, 1, 0]), Payline([0, 1, 2, 2, 2])
  ]

  /** The payline has a row for each of `width` reels, each row below `height`. */
  predicate FitsGrid(line: Payline, width: int, height: int)
  {
    width <= |line.pattern| && forall r :: 0 <= r < width ==> 0 <= line.pattern[r] < height
  }

  /** Every built-in payline has one in-range row per reel of a 5x3 grid. */
  lemma BuiltInPaylinesFit()
    ensures |BuiltInPaylines| == 16
    ensures forall k :: 0 <= k < |BuiltInPaylines| ==>
              |BuiltInPaylines[k].pattern| == ReelCount && FitsGrid(BuiltInPaylines[k], ReelCount, RowCount)
  {
  }

  // ---------------------------------------------------------------------
  // Pay table

  /** Reference pay table: the multipliers of the bet for 3, 4 and 5 matches. */
  function PayTable(kind: SymbolType): seq<nat>
  {
    if kind == One then [5, 15, 50]
    else if kind == Two || kind == Three then [3, 10, 25]
    else if kind == Four || kind == Five then [2, 8, 20]
    else if kind == J || kind == K || kind == Q then [1, 4, 10]
    else if kind == Scatter then [5, 20, 100]
    else [10, 50, 200]
  }

  /** The payout of `count` matching `kind` symbols on one line. */
  function CalculatePayout(kind: SymbolType, count: int, betPerLine: int): (pay: int)
    ensures !(3 <= count <= 5) ==> pay == 0
    ensures betPerLine >= 0 ==> pay >= 0
  {
    if kind == One then
      (match count case 3 => betPerLine * 5 case 4 => betPerLine * 15 case 5 => betPerLine * 50 case _ => 0)
    else if kind == Two || kind == Three then
      (match count case 3 => betPerLine * 3 case 4 => betPerLine * 10 case 5 => betPerLine * 25 case _ => 0)
    else if kind == Four || kind == Five then
      (match count case 3 => betPerLine * 2 case 4 => betPerLine * 8 case 5 => betPerLine * 20 case _ => 0)
    else if kind == J || kind == Q || kind == K then
      (match count case 3 => betPerLine * 1 case 4 => betPerLine * 4 case 5 => betPerLine * 10 case _ => 0)
    else if kind == Scatter then
      (match count case 3 => betPerLine * 5 case 4 => betPerLine * 20 case 5 => betPerLine * 100 case _ => 0)
    else if kind == Wild then
      (match count case 3 => betPerLine * 10 case 4 => betPerLine * 50 case 5 => betPerLine * 200 case _ => 0)
    else 0
  }

  /** The payout of three, four or five matches is the bet times the pay
      table's multiplier for that run. */
  lemma PayoutFollowsTable(kind: SymbolType, count: int, betPerLine: int)
    requires 3 <= count <= 5
    ensures CalculatePayout(kind, count, betPerLine) == betPerLine * PayTable(kind)[count - 3]
  {
  }

  // ---------------------------------------------------------------------
  // The line-matching rule, stated in closed form

  /** What scanning one line yields: the kind the line is anchored on, the
      run length counted, and whether no mismatch disqualified the line. */
  datatype LineScan = LineScan(anchor: SymbolType, count: int, qualified: bool)

  /** Position of the first non-Wild symbol, or |line| if there is none. */
  function FirstNonWild(line: seq<SymbolType>): (j: nat)
    ensures j <= |line|
    ensures forall i :: 0 <= i < j ==> line[i] == Wild
    ensures j < |line| ==> line[j] != Wild
  {
    if line == [] || line[0] != Wild then 0 else 1 + FirstNonWild(line[1..])
  }

  /** Position of the first symbol at or after `from` that is neither `anchor`
      nor Wild, or |line| if there is none. */
  function FirstMismatch(line: seq<SymbolType>, anchor: SymbolType, from: nat): (d: nat)
    requires from <= |line|
    ensures from <= d <= |line|
    ensures forall i :: from <= i < d ==> line[i] == anchor || line[i] == Wild
    ensures d < |line| ==> line[d] != anchor && line[d] != Wild
    decreases |line| - from
  {
    if from == |line| then from
    else if line[from] != anchor && line[from] != Wild then from
    else FirstMismatch(line, anchor, from + 1)
  }

  /** The outcome of a line: an all-Wild line is a Wild run over the whole line.
      Otherwise the line is anchored on its first non-Wild symbol, at position
      j, and the run extends up to the first later symbol that is neither the
      anchor nor Wild; it is counted from reel 0 when j is 0 and from j itself
      otherwise (the Wilds before the anchor are not counted). The line is
      qualified when the run reaches the last reel. */
  function LineOutcome(line: seq<SymbolType>): (r: LineScan)
    requires |line| >= 1
    ensures 1 <= r.count <= |line|
    ensures r.anchor == Wild <==> forall k :: 0 <= k < |line| ==> line[k] == Wild
    ensures r.qualified ==> forall k :: 0 <= k < |line| ==> line[k] == r.anchor || line[k] == Wild
  {
    var j := FirstNonWild(line);
    if j == |line| then LineScan(Wild, |line|, true)
    else
      var d := FirstMismatch(line, line[j], j + 1);
      LineScan(line[j], d - j, d == |line|)
  }

  /** The line wins: it is qualified with a run of at least three. */
  predicate Pays(line: seq<SymbolType>)
    requires |line| >= 1
    ensures Pays(line) ==> |line| >= 3
  {
    var o := Scan(line);
    o.qualified && o.count >= 3
  }

  /** What a line pays for a bet. */
  function LinePayout(line: seq<SymbolType>, betPerLine: int): (pay: int)
    requires |line| >= 1
    ensures pay != 0 ==> Pays(line)
    ensures betPerLine >= 0 ==> pay >= 0
  {
    var o := Scan(line);
    if Pays(line) then CalculatePayout(o.anchor, o.count, betPerLine) else 0
  }

  // ---------------------------------------------------------------------
  // How the outcome evolves reel by reel

  lemma {:induction false} FirstNonWildSnoc(line: seq<SymbolType>, s: SymbolType)
    ensures FirstNonWild(line) < |line| ==> FirstNonWild(line + [s]) == FirstNonWild(line)
    ensures FirstNonWild(line) == |line| && s != Wild ==> FirstNonWild(line + [s]) == |line|
    ensures FirstNonWild(line) == |line| && s == Wild ==> FirstNonWild(line + [s]) == |line| + 1
  {
    if line != [] && line[0] == Wild {
      assert (line + [s])[1..] == line[1..] + [s];
      FirstNonWildSnoc(line[1..], s);
    }
  }

  lemma {:induction false} FirstMismatchSnoc(line: seq<SymbolType>, anchor: SymbolType, from: nat, s: SymbolType)
    requires from <= |line|
    ensures var d := FirstMismatch(line, anchor, from);
            var d' := FirstMismatch(line + [s], anchor, from);
            (d < |line| ==> d' == d) &&
            (d == |line| && (s == anchor || s == Wild) ==> d' == |line| + 1) &&
            (d == |line| && s != anchor && s != Wild ==> d' == |line|)
    decreases |line| - from
  {
    if from < |line| {
      assert (line + [s])[from] == line[from];
      if line[from] == anchor || line[from] == Wild {
        FirstMismatchSnoc(line, anchor, from + 1, s);
      }
    } else {
      assert (line + [s])[from] == s;
    }
  }

  /** A line of one symbol starts the scan: anchored on that symbol, run 1. */
  lemma LineOutcomeFirstReel(s: SymbolType)
    ensures LineOutcome([s]) == LineScan(s, 1, true)
  {
  }

  /** One step of the scan on the next reel's symbol: a symbol equal to the
      anchor, or a Wild, lengthens the run; any other symbol re-anchors a Wild
      anchor on itself with a run of 1, and disqualifies a line anchored on a
      non-Wild kind. A disqualified line stays as it is. */
  function Advance(o: LineScan, s: SymbolType): (r: LineScan)
    ensures !o.qualified ==> r == o
    ensures r.qualified ==> s == r.anchor || s == Wild
    ensures r.anchor != o.anchor ==> o.anchor == Wild && r == LineScan(s, 1, true)
    ensures r.qualified && r.anchor == o.anchor ==> r.count == o.count + 1
  {
    if !o.qualified then o
    else if s == o.anchor || s == Wild then o.(count := o.count + 1)
    else if o.anchor == Wild then LineScan(s, 1, true)
    else o.(qualified := false)
  }

  /** The closed form agrees with the scan, one reel at a time. */
  lemma {:induction false} LineOutcomeStep(line: seq<SymbolType>, s: SymbolType)
    requires |line| >= 1
    ensures LineOutcome(line + [s]) == Advance(LineOutcome(line), s)
  {
    var line' := line + [s];
    var j := FirstNonWild(line);
    FirstNonWildSnoc(line, s);
    if j < |line| {
      assert line'[j] == line[j];
      FirstMismatchSnoc(line, line[j], j + 1, s);
    } else if s != Wild {
      assert line'[j] == s;
    }
  }

  /** The scan as the evaluator runs it: the first reel's symbol anchors a run
      of one, and every further reel advances it. */
  function Scan(line: seq<SymbolType>): (r: LineScan)
    requires |line| >= 1
    ensures 1 <= r.count <= |line|
    ensures !r.qualified ==> r.anchor != Wild
    decreases |line|
  {
    if |line| == 1 then LineScan(line[0], 1, true)
    else Advance(Scan(line[..|line| - 1]), line[|line| - 1])
  }

  /** The reel-by-reel scan computes the closed-form outcome. */
  lemma {:induction false} ScanMatchesOutcome(line: seq<SymbolType>)
    requires |line| >= 1
    ensures Scan(line) == LineOutcome(line)
    decreases |line|
  {
    if |line| == 1 {
      assert line == [line[0]];
      LineOutcomeFirstReel(line[0]);
    } else {
      var init := line[..|line| - 1];
      assert line == init + [line[|line| - 1]];
      ScanMatchesOutcome(init);
      LineOutcomeStep(init, line[|line| - 1]);
    }
  }

  /** Scanning one more reel of a prefix is one step of the scan. */
  lemma ScanPrefixStep(line: seq<SymbolType>, k: nat)
    requires 1 <= k < |line|
    ensures Scan(line[..k + 1]) == Advance(Scan(line[..k]), line[k])
  {
    assert line[..k + 1][..k] == line[..k];
  }

  /** Once the scan of a prefix is disqualified, the scan of the whole line
      is that of the prefix. */
  lemma ScanStaysDisqualified(line: seq<SymbolType>, k: nat)
    requires 1 <= k <= |line|
    requires !Scan(line[..k]).qualified
    ensures Scan(line) == Scan(line[..k])
  {
    ScanMatchesOutcome(line[..k]);
    DisqualifiedPrefix(line, k);
    ScanMatchesOutcome(line);
  }

  /** Once a prefix of the line is disqualified, the rest of the line is never
      looked at: the outcome of the whole line is that of the prefix. */
  lemma {:induction false} DisqualifiedPrefix(line: seq<SymbolType>, k: nat)
    requires 1 <= k <= |line|
    requires !LineOutcome(line[..k]).qualified
    ensures LineOutcome(line) == LineOutcome(line[..k])
    decreases |line| - k
  {
    if k < |line| {
      assert line[..k + 1] == line[..k] + [line[k]];
      LineOutcomeStep(line[..k], line[k]);
      DisqualifiedPrefix(line, k + 1);
    } else {
      assert line[..k] == line;
    }
  }

  /** The anchor changes at most once: once a prefix is anchored on a non-Wild
      kind, the whole line is anchored on that same kind. */
  lemma {:induction false} AnchorSettles(line: seq<SymbolType>, k: nat)
    requires 1 <= k <= |line|
    requires LineOutcome(line[..k]).anchor != Wild
    ensures LineOutcome(line).anchor == LineOutcome(line[..k]).anchor
    decreases |line| - k
  {
    if k < |line| {
      assert line[..k + 1] == line[..k] + [line[k]];
      LineOutcomeStep(line[..k], line[k]);
      AnchorSettles(line, k + 1);
    } else {
      assert line[..k] == line;
    }
  }

  /** A line of `w` >= 1 Wilds followed by a non-Wild kind and then only that
      kind or Wilds is anchored on that kind, qualifies, and counts only the
      reels from the anchor on: the leading Wilds are discarded. */
  lemma LeadingWildsDiscarded(line: seq<SymbolType>, w: nat)
    requires 1 <= w < |line|
    requires forall i :: 0 <= i < w ==> line[i] == Wild
    requires line[w] != Wild
    requires forall i :: w < i < |line| ==> line[i] == line[w] || line[i] == Wild
    ensures LineOutcome(line) == LineScan(line[w], |line| - w, true)
  {
  }

  /** [Wild, Wild, Two, Two, Two] re-anchors on Two with a run of 3 and pays
      three times the bet. */
  lemma WildWildTwoTwoTwo(betPerLine: int)
    ensures LineOutcome([Wild, Wild, Two, Two, Two]) == LineScan(Two, 3, true)
    ensures LinePayout([Wild, Wild, Two, Two, Two], betPerLine) == 3 * betPerLine
  {
    var line := [Wild, Wild, Two, Two, Two];
    LeadingWildsDiscarded(line, 2);
    ScanMatchesOutcome(line);
  }

  /** [Wild, Wild, Wild, Two, Two] pays nothing although every reel matches
      Two with Wild substitution: the three Wilds are discarded. */
  lemma ThreeLeadingWildsPayNothing(betPerLine: int)
    ensures LineOutcome([Wild, Wild, Wild, Two, Two]) == LineScan(Two, 2, true)
    ensures LinePayout([Wild, Wild, Wild, Two, Two], betPerLine) == 0
  {
    var line := [Wild, Wild, Wild, Two, Two];
    LeadingWildsDiscarded(line, 3);
    ScanMatchesOutcome(line);
  }

  // ---------------------------------------------------------------------
  // The whole grid

  /** The payline has a row, inside the reel, for every reel of the kinds grid. */
  predicate LineFits(line: Payline, grid: seq<seq<SymbolType>>)
  {
    |grid| <= |line.pattern| && forall r :: 0 <= r < |grid| ==> 0 <= line.pattern[r] < |grid[r]|
  }

  /** The kinds grid has at least one reel and every payline fits it. */
  predicate LinesFit(lines: seq<Payline>, grid: seq<seq<SymbolType>>)
  {
    |grid| >= 1 && forall k :: 0 <= k < |lines| ==> LineFits(lines[k], grid)
  }

  /** The kinds a payline passes through, reel by reel. */
  function LineKinds(grid: seq<seq<SymbolType>>, line: Payline): (kinds: seq<SymbolType>)
    requires LineFits(line, grid)
    ensures |kinds| == |grid|
    ensures forall r :: 0 <= r < |grid| ==> kinds[r] == grid[r][line.pattern[r]]
  {
    seq(|grid|, (r: int) requires 0 <= r < |grid| => grid[r][line.pattern[r]])
  }

  /** Payout of the first `n` lines of a grid. */
  function LinesWin(lines: seq<Payline>, grid: seq<seq<SymbolType>>, betPerLine: int, n: nat): (total: int)
    requires LinesFit(lines, grid) && n <= |lines|
    ensures betPerLine >= 0 ==> total >= 0
  {
    if n == 0 then 0
    else
      var line := lines[n - 1];
      LinesWin(lines, grid, betPerLine, n - 1) + LinePayout(LineKinds(grid, line), betPerLine)
  }

  /** Total payout of a grid: the sum of the payouts of all the lines. */
  function TotalWin(lines: seq<Payline>, grid: seq<seq<SymbolType>>, betPerLine: int): (total: int)
    requires LinesFit(lines, grid)
    ensures betPerLine >= 0 ==> total >= 0
  {
    LinesWin(lines, grid, betPerLine, |lines|)
  }

  /** The cells, as (reel, row), that a payline passes through. */
  function LineCells(line: Payline, width: nat): (cells: set<(int, int)>)
    requires width <= |line.pattern|
    ensures forall r :: 0 <= r < width ==> (r, line.pattern[r]) in cells
    ensures forall c :: c in cells ==> 0 <= c.0 < width && c.1 == line.pattern[c.0]
  {
    if width == 0 then {} else LineCells(line, width - 1) + {(width - 1, line.pattern[width - 1])}
  }

  /** The cells of the winning lines among the first `n`. */
  function WinningCells(lines: seq<Payline>, grid: seq<seq<SymbolType>>, n: nat): (cells: set<(int, int)>)
    requires LinesFit(lines, grid) && n <= |lines|
    ensures forall c :: c in cells ==> 0 <= c.0 < |grid| && 0 <= c.1 < |grid[c.0]|
  {
    if n == 0 then {}
    else
      var line := lines[n - 1];
      WinningCells(lines, grid, n - 1) +
      (if Pays(LineKinds(grid, line)) then LineCells(line, |grid|) else {})
  }

  /** Only winning lines contribute: when none of the first `n` lines wins,
      they pay nothing and no cell is highlighted. */
  lemma {:induction false} NoWinningLineNoWin(lines: seq<Payline>, grid: seq<seq<SymbolType>>, betPerLine: int, n: nat)
    requires LinesFit(lines, grid) && n <= |lines|
    requires forall k :: 0 <= k < n ==> !Pays(LineKinds(grid, lines[k]))
    ensures LinesWin(lines, grid, betPerLine, n) == 0
    ensures WinningCells(lines, grid, n) == {}
  {
    if n > 0 {
      NoWinningLineNoWin(lines, grid, betPerLine, n - 1);
    }
  }

  // ---------------------------------------------------------------------
  // The grid of symbol objects the evaluator walks, indexed [reel, row]

  /** Every cell of the grid holds a symbol. */
  predicate NoNulls(grid: array2<Symbol?>)
    reads grid
  {
    forall r, p :: 0 <= r < grid.Length0 && 0 <= p < grid.Length1 ==> grid[r, p] != null
  }

  /** The symbols the grid holds. */
  function Cells(grid: array2<Symbol?>): set<Symbol>
    reads grid
  {
    ReelCells(grid, grid.Length0)
  }

  /** The symbols on the first `n` reels of the grid. */
  function ReelCells(grid: array2<Symbol?>, n: nat): set<Symbol>
    requires n <= grid.Length0
    reads grid
  {
    if n == 0 then {} else ReelCells(grid, n - 1) + RowCells(grid, n - 1, grid.Length1)
  }

  /** The symbols on the first `n` rows of reel `r`. */
  function RowCells(grid: array2<Symbol?>, r: nat, n: nat): set<Symbol>
    requires r < grid.Length0 && n <= grid.Length1
    reads grid
  {
    if n == 0 then {}
    else RowCells(grid, r, n - 1) + (var s := grid[r, n - 1]; if s == null then {} else {s})
  }

  lemma {:induction false} InRowCells(grid: array2<Symbol?>, r: nat, n: nat, p: nat)
    requires r < grid.Length0 && p < n <= grid.Length1 && grid[r, p] != null
    ensures grid[r, p] in RowCells(grid, r, n)
  {
    if p < n - 1 {
      InRowCells(grid, r, n - 1, p);
    }
  }

  lemma {:induction false} InReelCells(grid: array2<Symbol?>, n: nat, r: nat, p: nat)
    requires r < n <= grid.Length0 && p < grid.Length1 && grid[r, p] != null
    ensures grid[r, p] in ReelCells(grid, n)
  {
    if r < n - 1 {
      InReelCells(grid, n - 1, r, p);
    } else {
      InRowCells(grid, r, grid.Length1, p);
    }
  }

  lemma {:induction false} RowCellsAllocated(grid: array2<Symbol?>, r: nat, n: nat)
    requires r < grid.Length0 && n <= grid.Length1
    ensures forall c :: c in RowCells(grid, r, n) ==> allocated(c)
  {
    if n > 0 {
      RowCellsAllocated(grid, r, n - 1);
    }
  }

  lemma {:induction false} ReelCellsAllocated(grid: array2<Symbol?>, n: nat)
    requires n <= grid.Length0
    ensures forall c :: c in ReelCells(grid, n) ==> allocated(c)
  {
    if n > 0 {
      ReelCellsAllocated(grid, n - 1);
      RowCellsAllocated(grid, n - 1, grid.Length1);
    }
  }

  /** The cells of an allocated grid are allocated, so a frame that keeps
      every allocated object keeps them. */
  lemma CellsAllocated(grid: array2<Symbol?>)
    ensures forall c :: c in Cells(grid) ==> allocated(c)
  {
    ReelCellsAllocated(grid, grid.Length0);
  }

  /** Every symbol in the grid is one of its cells. */
  lemma InCells(grid: array2<Symbol?>, r: int, p: int)
    requires 0 <= r < grid.Length0 && 0 <= p < grid.Length1 && grid[r, p] != null
    ensures grid[r, p] in Cells(grid)
  {
    InReelCells(grid, grid.Length0, r, p);
  }

  lemma {:induction false} RowCellsWithin(grid: array2<Symbol?>, r: nat, n: nat, s: set<Symbol>)
    requires r < grid.Length0 && n <= grid.Length1
    requires forall p :: 0 <= p < n ==> grid[r, p] == null || grid[r, p] in s
    ensures RowCells(grid, r, n) <= s
  {
    if n > 0 {
      RowCellsWithin(grid, r, n - 1, s);
    }
  }

  lemma {:induction false} ReelCellsWithin(grid: array2<Symbol?>, n: nat, s: set<Symbol>)
    requires n <= grid.Length0
    requires forall r, p :: 0 <= r < n && 0 <= p < grid.Length1 ==> grid[r, p] == null || grid[r, p] in s
    ensures ReelCells(grid, n) <= s
  {
    if n > 0 {
      ReelCellsWithin(grid, n - 1, s);
      RowCellsWithin(grid, n - 1, grid.Length1, s);
    }
  }

  /** A grid whose every symbol belongs to `s` has its cells within `s`. */
  lemma CellsWithin(grid: array2<Symbol?>, s: set<Symbol>)
    requires forall r, p :: 0 <= r < grid.Length0 && 0 <= p < grid.Length1 ==> grid[r, p] == null || grid[r, p] in s
    ensures Cells(grid) <= s
  {
    ReelCellsWithin(grid, grid.Length0, s);
  }

  /** The symbols at the given (reel, row) positions of the grid. */
  function Highlighted(grid: array2<Symbol?>, positions: set<(int, int)>): set<Symbol>
    reads grid
  {
    set x | x in positions && 0 <= x.0 < grid.Length0 && 0 <= x.1 < grid.Length1 && grid[x.0, x.1] != null
      :: grid[x.0, x.1]
  }

  /** Every cell holds a symbol and the grid shows `kinds`, indexed [reel][row].
      Only the kinds of the symbols are read, so changing their animation
      state keeps what the grid shows. */
  predicate Shows(grid: array2<Symbol?>, kinds: seq<seq<SymbolType>>)
    reads grid, Cells(grid)`symbolType
  {
    && NoNulls(grid)
    && |kinds| == grid.Length0
    && (forall r :: 0 <= r < grid.Length0 ==> |kinds[r]| == grid.Length1)
    && ShowsReels(grid, kinds, grid.Length0)
  }

  /** The first `n` reels of the grid show the first `n` columns of `kinds`. */
  predicate ShowsReels(grid: array2<Symbol?>, kinds: seq<seq<SymbolType>>, n: nat)
    requires NoNulls(grid) && |kinds| == grid.Length0 && n <= grid.Length0
    requires forall r :: 0 <= r < grid.Length0 ==> |kinds[r]| == grid.Length1
    reads grid, Cells(grid)`symbolType
  {
    n == 0 || (ShowsRows(grid, kinds, n - 1, grid.Length1) && ShowsReels(grid, kinds, n - 1))
  }

  /** The first `n` rows of reel `r` show the first `n` kinds of `kinds[r]`. */
  predicate ShowsRows(grid: array2<Symbol?>, kinds: seq<seq<SymbolType>>, r: nat, n: nat)
    requires NoNulls(grid) && r < grid.Length0 && r < |kinds| && n <= grid.Length1 && n <= |kinds[r]|
    reads grid, Cells(grid)`symbolType
  {
    n == 0 ||
    (InCells(grid, r, n - 1);
     grid[r, n - 1].symbolType == kinds[r][n - 1] && ShowsRows(grid, kinds, r, n - 1))
  }

  lemma {:induction false} ShowsRowsAt(grid: array2<Symbol?>, kinds: seq<seq<SymbolType>>, r: nat, n: nat, p: nat)
    requires NoNulls(grid) && r < grid.Length0 && r < |kinds| && n <= grid.Length1 && n <= |kinds[r]|
    requires ShowsRows(grid, kinds, r, n) && p < n
    ensures grid[r, p].symbolType == kinds[r][p]
  {
    if p < n - 1 {
      ShowsRowsAt(grid, kinds, r, n - 1, p);
    }
  }

  lemma {:induction false} ShowsReelsAt(grid: array2<Symbol?>, kinds: seq<seq<SymbolType>>, n: nat, r: nat, p: nat)
    requires NoNulls(grid) && |kinds| == grid.Length0 && n <= grid.Length0
    requires forall r :: 0 <= r < grid.Length0 ==> |kinds[r]| == grid.Length1
    requires ShowsReels(grid, kinds, n) && r < n && p < grid.Length1
    ensures grid[r, p].symbolType == kinds[r][p]
  {
    if r < n - 1 {
      ShowsReelsAt(grid, kinds, n - 1, r, p);
    } else {
      ShowsRowsAt(grid, kinds, r, grid.Length1, p);
    }
  }

  /** A grid that shows `kinds` holds `kinds[r][p]` at reel `r`, row `p`. */
  lemma ShowsAt(grid: array2<Symbol?>, kinds: seq<seq<SymbolType>>, r: int, p: int)
    requires Shows(grid, kinds) && 0 <= r < grid.Length0 && 0 <= p < grid.Length1
    ensures grid[r, p] != null && grid[r, p].symbolType == kinds[r][p]
  {
    ShowsReelsAt(grid, kinds, grid.Length0, r, p);
  }

  lemma {:induction false} ShowsRowsFrom(grid: array2<Symbol?>, kinds: seq<seq<SymbolType>>, r: nat, n: nat)
    requires NoNulls(grid) && r < grid.Length0 && r < |kinds| && n <= grid.Length1 && n <= |kinds[r]|
    requires forall p :: 0 <= p < n ==> grid[r, p].symbolType == kinds[r][p]
    ensures ShowsRows(grid, kinds, r, n)
  {
    if n > 0 {
      ShowsRowsFrom(grid, kinds, r, n - 1);
    }
  }

  lemma {:induction false} ShowsReelsFrom(grid: array2<Symbol?>, kinds: seq<seq<SymbolType>>, n: nat)
    requires NoNulls(grid) && |kinds| == grid.Length0 && n <= grid.Length0
    requires forall r :: 0 <= r < grid.Length0 ==> |kinds[r]| == grid.Length1
    requires forall r, p :: 0 <= r < n && 0 <= p < grid.Length1 ==> grid[r, p].symbolType == kinds[r][p]
    ensures ShowsReels(grid, kinds, n)
  {
    if n > 0 {
      ShowsReelsFrom(grid, kinds, n - 1);
      ShowsRowsFrom(grid, kinds, n - 1, grid.Length1);
    }
  }

  /** The converse of `ShowsAt`: a full grid whose every cell holds the kind
      `kinds` gives it shows `kinds`. */
  lemma ShowsFrom(grid: array2<Symbol?>, kinds: seq<seq<SymbolType>>)
    requires NoNulls(grid) && |kinds| == grid.Length0
    requires forall r :: 0 <= r < grid.Length0 ==> |kinds[r]| == grid.Length1
    requires forall r, p :: 0 <= r < grid.Length0 && 0 <= p < grid.Length1 ==> grid[r, p].symbolType == kinds[r][p]
    ensures Shows(grid, kinds)
  {
    ShowsReelsFrom(grid, kinds, grid.Length0);
  }

  /** The grid has at least one reel and every payline fits it. */
  predicate GridFits(lines: seq<Payline>, grid: array2<Symbol?>)
    reads grid
  {
    grid.Length0 >= 1 && forall k :: 0 <= k < |lines| ==> FitsGrid(lines[k], grid.Length0, grid.Length1)
  }

  lemma GridFitsKinds(lines: seq<Payline>, grid: array2<Symbol?>, kinds: seq<seq<SymbolType>>)
    requires Shows(grid, kinds) && GridFits(lines, grid)
    ensures LinesFit(lines, kinds)
  {
  }

  lemma HighlightedUnion(grid: array2<Symbol?>, a: set<(int, int)>, b: set<(int, int)>)
    ensures Highlighted(grid, a + b) == Highlighted(grid, a) + Highlighted(grid, b)
  {
  }

  /** Scans one payline from reel 0, as the evaluator does, and returns the
      anchor kind, the run length and whether the line stayed qualified. */
  method ScanLine(grid: array2<Symbol?>, line: Payline, ghost kinds: seq<seq<SymbolType>>)
    returns (firstSymbol: SymbolType, consecutiveCount: int, isWinningLine: bool)
    requires Shows(grid, kinds) && grid.Length0 >= 1 && FitsGrid(line, grid.Length0, grid.Length1)
    ensures LineScan(firstSymbol, consecutiveCount, isWinningLine) == Scan(LineKinds(kinds, line))
  {
    ghost var onLine := LineKinds(kinds, line);
    firstSymbol := grid[0, line.pattern[0]].symbolType;
    ShowsAt(grid, kinds, 0, line.pattern[0]);
    isWinningLine := true;
    consecutiveCount := 1;
    assert onLine[..1] == [firstSymbol];
    CellsAllocated(grid);
    var reel := 1;
    while reel < grid.Length0
      invariant 1 <= reel <= grid.Length0
      invariant isWinningLine
      invariant LineScan(firstSymbol, consecutiveCount, true) == Scan(onLine[..reel])
    {
      var currentSymbol := grid[reel, line.pattern[reel]].symbolType;
      ShowsAt(grid, kinds, reel, line.pattern[reel]);
      ScanPrefixStep(onLine, reel);
      if currentSymbol == firstSymbol || currentSymbol == Wild {
        consecutiveCount := consecutiveCount + 1;
      } else if firstSymbol == Wild {
        firstSymbol := currentSymbol;
        consecutiveCount := 1;
      } else {
        isWinningLine := false;
        ScanStaysDisqualified(onLine, reel + 1);
        break;
      }
      reel := reel + 1;
    }
    assert onLine[..|onLine|] == onLine;
  }

  /** The symbols a payline passes through on the first `n` reels of the grid. */
  ghost function LineSymbols(grid: array2<Symbol?>, line: Payline, n: nat): set<Symbol>
    requires NoNulls(grid) && FitsGrid(line, grid.Length0, grid.Length1) && n <= grid.Length0
    reads grid
  {
    if n == 0 then {}
    else
      var s: Symbol := grid[n - 1, line.pattern[n - 1]];
      LineSymbols(grid, line, n - 1) + {s}
  }

  /** The symbols on the winning lines among the first `n` paylines, for a
      grid showing `kinds`. */
  ghost function WinningSymbols(lines: seq<Payline>, grid: array2<Symbol?>, kinds: seq<seq<SymbolType>>, n: nat): set<Symbol>
    requires NoNulls(grid) && GridFits(lines, grid) && LinesFit(lines, kinds) && |kinds| == grid.Length0
    requires n <= |lines|
    reads grid
  {
    if n == 0 then {}
    else
      var line := lines[n - 1];
      WinningSymbols(lines, grid, kinds, n - 1) +
      (if Pays(LineKinds(kinds, line)) then LineSymbols(grid, line, grid.Length0) else {})
  }

  /** The symbols of a line are those at its cells. */
  lemma {:induction false} LineSymbolsAtCells(grid: array2<Symbol?>, line: Payline, n: nat)
    requires NoNulls(grid) && FitsGrid(line, grid.Length0, grid.Length1) && n <= grid.Length0
    ensures LineSymbols(grid, line, n) == Highlighted(grid, LineCells(line, n))
  {
    if n > 0 {
      LineSymbolsAtCells(grid, line, n - 1);
      var cell := (n - 1, line.pattern[n - 1]);
      HighlightedOne(grid, cell);
      HighlightedStep(grid, LineCells(line, n - 1), {cell}, LineSymbols(grid, line, n - 1), {grid[cell.0, cell.1]});
    }
  }

  /** The symbols of one cell holding a symbol. */
  lemma HighlightedOne(grid: array2<Symbol?>, cell: (int, int))
    requires 0 <= cell.0 < grid.Length0 && 0 <= cell.1 < grid.Length1 && grid[cell.0, cell.1] != null
    ensures Highlighted(grid, {cell}) == {grid[cell.0, cell.1]}
  {
  }

  /** Adding the symbols of some cells to those of others gives the symbols
      of both sets of cells. */
  lemma HighlightedStep(grid: array2<Symbol?>, prev: set<(int, int)>, cells: set<(int, int)>,
                        prevSymbols: set<Symbol>, symbols: set<Symbol>)
    requires prevSymbols == Highlighted(grid, prev) && symbols == Highlighted(grid, cells)
    ensures prevSymbols + symbols == Highlighted(grid, prev + cells)
  {
    HighlightedUnion(grid, prev, cells);
  }

  /** The symbols that win are exactly those at the winning cells. */
  lemma {:induction false} WinningSymbolsAtCells(lines: seq<Payline>, grid: array2<Symbol?>, kinds: seq<seq<SymbolType>>, n: nat)
    requires NoNulls(grid) && GridFits(lines, grid) && LinesFit(lines, kinds) && |kinds| == grid.Length0
    requires n <= |lines|
    ensures WinningSymbols(lines, grid, kinds, n) == Highlighted(grid, WinningCells(lines, kinds, n))
  {
    if n > 0 {
      WinningSymbolsAtCells(lines, grid, kinds, n - 1);
      var line := lines[n - 1];
      if Pays(LineKinds(kinds, line)) {
        LineSymbolsAtCells(grid, line, grid.Length0);
        HighlightedStep(grid, WinningCells(lines, kinds, n - 1), LineCells(line, |kinds|),
                        WinningSymbols(lines, grid, kinds, n - 1), LineSymbols(grid, line, grid.Length0));
      }
    }
  }

  /** Adding the payout of line `i` to the payout of the lines before it
      gives the payout of the lines up to and including it. */
  lemma LinesWinStep(lines: seq<Payline>, grid: seq<seq<SymbolType>>, betPerLine: int, i: nat, total: int, win: int)
    requires LinesFit(lines, grid) && i < |lines|
    requires total == LinesWin(lines, grid, betPerLine, i)
    requires win == LinePayout(LineKinds(grid, lines[i]), betPerLine)
    ensures total + win == LinesWin(lines, grid, betPerLine, i + 1)
  {
  }

  /** The winning symbols up to and including line `i` add those of line `i`
      when it wins. */
  lemma WinningSymbolsStep(lines: seq<Payline>, grid: array2<Symbol?>, kinds: seq<seq<SymbolType>>, i: nat)
    requires NoNulls(grid) && GridFits(lines, grid) && LinesFit(lines, kinds) && |kinds| == grid.Length0
    requires i < |lines|
    ensures WinningSymbols(lines, grid, kinds, i + 1) ==
            WinningSymbols(lines, grid, kinds, i) +
            (if Pays(LineKinds(kinds, lines[i])) then LineSymbols(grid, lines[i], grid.Length0) else {})
  {
  }

  /** Evaluates grids against its paylines. */
  class PaylineManager {
    var paylines: seq<Payline>

    constructor ()
      ensures paylines == BuiltInPaylines
    {
      paylines := BuiltInPaylines;
    }

    /** Starts the win animation of every symbol on the line. */
    static method AnimateLine(grid: array2<Symbol?>, line: Payline)
      requires NoNulls(grid) && FitsGrid(line, grid.Length0, grid.Length1)
      modifies Cells(grid)`isAnimating, Cells(grid)`timer
      ensures forall c :: c in Cells(grid) && old(allocated(c)) ==>
                (c.isAnimating <==> old(c.isAnimating) || c in LineSymbols(grid, line, grid.Length0))
      ensures forall c :: c in Cells(grid) && old(allocated(c)) ==>
                c.timer == if !old(c.isAnimating) && c in LineSymbols(grid, line, grid.Length0)
                           then 0.0 else old(c.timer)
    {
      var reel := 0;
      while reel < grid.Length0
        invariant 0 <= reel <= grid.Length0
        invariant forall c :: c in Cells(grid) && old(allocated(c)) ==>
                    (c.isAnimating <==> old(c.isAnimating) || c in LineSymbols(grid, line, reel))
        invariant forall c :: c in Cells(grid) && old(allocated(c)) ==>
                    c.timer == if !old(c.isAnimating) && c in LineSymbols(grid, line, reel)
                               then 0.0 else old(c.timer)
      {
        var s := grid[reel, line.pattern[reel]];
        InCells(grid, reel, line.pattern[reel]);
        s.PlayWinAnimation();
        reel := reel + 1;
      }
    }

    /** Evaluates one payline of a grid showing `kinds`: its payout for the
        bet, playing the win animation of its symbols when it wins. */
    static method EvaluateLine(grid: array2<Symbol?>, line: Payline, betPerLine: int, ghost kinds: seq<seq<SymbolType>>)
      returns (winAmount: int)
      requires Shows(grid, kinds) && grid.Length0 >= 1 && FitsGrid(line, grid.Length0, grid.Length1)
      modifies Cells(grid)`isAnimating, Cells(grid)`timer
      ensures Shows(grid, kinds)
      ensures winAmount == LinePayout(LineKinds(kinds, line), betPerLine)
      ensures forall c :: c in Cells(grid) && old(allocated(c)) ==>
                (c.isAnimating <==> old(c.isAnimating) || (Pays(LineKinds(kinds, line)) && c in LineSymbols(grid, line, grid.Length0)))
      ensures forall c :: c in Cells(grid) && old(allocated(c)) ==>
                c.timer == if !old(c.isAnimating) && Pays(LineKinds(kinds, line)) && c in LineSymbols(grid, line, grid.Length0)
                           then 0.0 else old(c.timer)
    {
      CellsAllocated(grid);
      var firstSymbol, consecutiveCount, isWinningLine := ScanLine(grid, line, kinds);
      winAmount := 0;
      if isWinningLine && consecutiveCount >= 3 {
        winAmount := CalculatePayout(firstSymbol, consecutiveCount, betPerLine);
        AnimateLine(grid, line);
      }
    }

    /** The total payout of the grid for the bet, playing the win animation of
        every symbol on a winning line and of no other symbol. */
    method CalculateWin(grid: array2<Symbol?>, betPerLine: int, ghost kinds: seq<seq<SymbolType>>) returns (totalWin: int)
      requires Shows(grid, kinds) && GridFits(paylines, grid)
      modifies Cells(grid)`isAnimating, Cells(grid)`timer
      ensures LinesFit(paylines, kinds)
      ensures totalWin == TotalWin(paylines, kinds, betPerLine)
      ensures forall c :: c in Cells(grid) && old(allocated(c)) ==>
                (c.isAnimating <==> old(c.isAnimating) || c in WinningSymbols(paylines, grid, kinds, |paylines|))
      ensures forall c :: c in Cells(grid) && old(allocated(c)) ==>
                c.timer == if !old(c.isAnimating) && c in WinningSymbols(paylines, grid, kinds, |paylines|)
                           then 0.0 else old(c.timer)
    {
      GridFitsKinds(paylines, grid, kinds);
      var lines := paylines;
      CellsAllocated(grid);
      ghost var animating := map c | c in Cells(grid) :: c.isAnimating;
      ghost var timers := map c | c in Cells(grid) :: c.timer;
      totalWin := 0;
      var i := 0;
      while i < |lines|
        invariant 0 <= i <= |lines|
        invariant Shows(grid, kinds)
        invariant totalWin == LinesWin(lines, kinds, betPerLine, i)
        invariant forall c :: c in Cells(grid) ==>
                    (c.isAnimating <==> animating[c] || c in WinningSymbols(lines, grid, kinds, i))
        invariant forall c :: c in Cells(grid) ==>
                    c.timer == if !animating[c] && c in WinningSymbols(lines, grid, kinds, i)
                               then 0.0 else timers[c]
      {
        var line := lines[i];
        var winAmount := EvaluateLine(grid, line, betPerLine, kinds);
        LinesWinStep(lines, kinds, betPerLine, i, totalWin, winAmount);
        WinningSymbolsStep(lines, grid, kinds, i);
        totalWin := totalWin + winAmount;
        i := i + 1;
      }
    }
  }
}

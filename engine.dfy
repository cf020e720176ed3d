/** The decision logic of the slot machine engine as functions: the weighted
    symbol draw, the reel grid built from a stream of draws, and the payline
    evaluation with its payouts (src/SlotMachine.js). The class in module Game
    runs the same logic step by step and is proved against these definitions. */
module Engine {
  import opened Config

  datatype Option<T> = None | Some(value: T)

  /** Payout tables are written against this bet; a line pays
      `payout * (bet / BET_UNIT)`. */
  const BET_UNIT: real := 10.0

  /** A winning line as recorded for the celebration effects. */
  datatype WinLine = WinLine(lineIndex: nat, matchCount: nat, symbolId: nat, win: real, payline: seq<nat>)

  /** Reel-major grid of symbol ids: REEL_COUNT reels of ROW_COUNT ids each. */
  ghost predicate ValidGrid(g: seq<seq<nat>>)
  {
    |g| == REEL_COUNT &&
    forall reel :: 0 <= reel < REEL_COUNT ==>
      |g[reel]| == ROW_COUNT &&
      forall row :: 0 <= row < ROW_COUNT ==> g[reel][row] < |SYMBOLS|
  }

  // ---------------------------------------------------------------------------
  // Weighted draw

  /** The symbol picked for draw value `r` when the walk has reached index `i`:
      the first index from `i` on whose prefix weight reaches `r`, and the last
      index when none does. */
  function DrawFrom(syms: seq<Symbol>, r: real, i: nat): (id: nat)
    requires i < |syms|
    ensures i <= id < |syms|
    decreases |syms| - i
  {
    if r <= WeightPrefix(syms, i + 1) as real || i == |syms| - 1 then i
    else DrawFrom(syms, r, i + 1)
  }

  /** The symbol picked for draw value `r`. */
  function Draw(syms: seq<Symbol>, r: real): (id: nat)
    requires |syms| > 0
    ensures id < |syms|
  {
    DrawFrom(syms, r, 0)
  }

  lemma {:induction false} PrefixStrictlyIncreasing(syms: seq<Symbol>, m: nat, n: nat)
    requires IdsAndWeights(syms)
    requires m < n <= |syms|
    ensures WeightPrefix(syms, m) < WeightPrefix(syms, n)
  {
    if m < n - 1 {
      PrefixStrictlyIncreasing(syms, m, n - 1);
    }
  }

  lemma {:induction false} DrawFromFirstCovering(syms: seq<Symbol>, r: real, i: nat)
    requires i < |syms|
    ensures forall j :: i < j <= DrawFrom(syms, r, i) ==> (WeightPrefix(syms, j) as real) < r
    ensures r < SumWeights(syms) as real ==> r <= WeightPrefix(syms, DrawFrom(syms, r, i) + 1) as real
    decreases |syms| - i
  {
    if !(r <= WeightPrefix(syms, i + 1) as real || i == |syms| - 1) {
      DrawFromFirstCovering(syms, r, i + 1);
    }
  }

  /** For a draw in [0, total weight) the draw returns the least index whose
      prefix weight is at least `r`; the last-symbol fallback is never taken. */
  lemma DrawIsFirstCovering(syms: seq<Symbol>, r: real)
    requires |syms| > 0
    requires 0.0 <= r < SumWeights(syms) as real
    ensures r <= WeightPrefix(syms, Draw(syms, r) + 1) as real
    ensures forall j :: 0 < j <= Draw(syms, r) ==> (WeightPrefix(syms, j) as real) < r
  {
    DrawFromFirstCovering(syms, r, 0);
  }

  /** The draws that yield symbol `i` form the interval
      (prefix(i), prefix(i) + weight(i)], closed at 0 for the first symbol:
      each symbol owns a stretch of [0, total weight) as long as its weight. */
  lemma DrawPreimage(syms: seq<Symbol>, r: real, i: nat)
    requires IdsAndWeights(syms)
    requires 0.0 <= r < SumWeights(syms) as real
    requires i < |syms|
    ensures Draw(syms, r) == i <==>
              (i == 0 || (WeightPrefix(syms, i) as real) < r) && r <= WeightPrefix(syms, i + 1) as real
  {
    var d := Draw(syms, r);
    DrawIsFirstCovering(syms, r);
    if d < i {
      PrefixStrictlyIncreasing(syms, d + 1, i + 1);
      if d + 1 < i {
        PrefixStrictlyIncreasing(syms, d + 1, i);
      }
    } else if d > i {
      assert (WeightPrefix(syms, i + 1) as real) < r;
    }
  }

  // ---------------------------------------------------------------------------
  // Grid generation

  /** The grid drawn from a stream of draws, consumed reel by reel and, within
      a reel, row by row. */
  function Grid(draws: seq<real>): (g: seq<seq<nat>>)
    requires |draws| == REEL_COUNT * ROW_COUNT
    ensures ValidGrid(g)
  {
    seq(REEL_COUNT, reel requires 0 <= reel < REEL_COUNT => ReelDraws(draws, reel))
  }

  /** The symbols of one reel, drawn from its ROW_COUNT consecutive draws. */
  function ReelDraws(draws: seq<real>, reel: nat): (column: seq<nat>)
    requires |draws| == REEL_COUNT * ROW_COUNT && reel < REEL_COUNT
    ensures |column| == ROW_COUNT
    ensures forall row :: 0 <= row < ROW_COUNT ==> column[row] < |SYMBOLS|
  {
    seq(ROW_COUNT, row requires 0 <= row < ROW_COUNT => Draw(SYMBOLS, draws[DrawPosition(reel, row)]))
  }

  /** Position in the draw stream of the draw for a cell. */
  function DrawPosition(reel: nat, row: nat): (pos: nat)
    requires reel < REEL_COUNT && row < ROW_COUNT
    ensures pos < REEL_COUNT * ROW_COUNT
  {
    reel * ROW_COUNT + row
  }

  // ---------------------------------------------------------------------------
  // Payline evaluation

  /** The symbols a payline reads, one per reel. */
  function LineSymbols(g: seq<seq<nat>>, payline: Payline): (line: seq<nat>)
    requires ValidGrid(g)
    ensures |line| == REEL_COUNT
    ensures forall reel :: 0 <= reel < REEL_COUNT ==> line[reel] < |SYMBOLS|
  {
    seq(REEL_COUNT, reel requires 0 <= reel < REEL_COUNT => g[reel][payline[reel]])
  }

  /** Length of the run of symbols equal to `line[0]` that starts at index 0,
      given that it reaches at least index `i`. */
  function RunFrom(line: seq<nat>, i: nat): (n: nat)
    requires 1 <= i <= |line|
    ensures i <= n <= |line|
    decreases |line| - i
  {
    if i < |line| && line[i] == line[0] then RunFrom(line, i + 1) else i
  }

  /** The number of consecutive symbols equal to the first one, counted from
      the leftmost reel. */
  function MatchCount(line: seq<nat>): (n: nat)
    requires |line| > 0
    ensures 1 <= n <= |line|
  {
    RunFrom(line, 1)
  }

  lemma {:induction false} RunFromIsRun(line: seq<nat>, i: nat)
    requires 1 <= i <= |line|
    requires forall k :: 0 <= k < i ==> line[k] == line[0]
    ensures forall k :: 0 <= k < RunFrom(line, i) ==> line[k] == line[0]
    ensures RunFrom(line, i) < |line| ==> line[RunFrom(line, i)] != line[0]
    decreases |line| - i
  {
    if i < |line| && line[i] == line[0] {
      RunFromIsRun(line, i + 1);
    }
  }

  /** Leftmost-run semantics: `n` is the match count exactly when the first
      `n` symbols equal the first one and the symbol after them, if any,
      differs; a run that resumes after a break is not counted. */
  lemma MatchCountIsLeftmostRun(line: seq<nat>, n: nat)
    requires |line| > 0
    ensures MatchCount(line) == n <==>
              1 <= n <= |line| &&
              (forall k :: 0 <= k < n ==> line[k] == line[0]) &&
              (n < |line| ==> line[n] != line[0])
  {
    RunFromIsRun(line, 1);
    var m := MatchCount(line);
    if 1 <= n <= |line| && (forall k :: 0 <= k < n ==> line[k] == line[0]) && (n < |line| ==> line[n] != line[0]) {
    }
  }

  /** The payout multiplier of a symbol for a match count; a count that the
      table does not list pays 0. */
  function PayoutFor(s: Symbol, count: nat): (p: nat)
    ensures count !in s.payout ==> p == 0
    ensures p > 0 ==> count in s.payout && s.payout[count] == p
  {
    if count in s.payout then s.payout[count] else 0
  }

  /** The payout multiplier earned by payline `k`: the first symbol's payout
      for the length of the leftmost run. Only a run of two or more pays. */
  function LinePayout(g: seq<seq<nat>>, k: nat): (payout: nat)
    requires ValidGrid(g) && k < |PAYLINES|
    ensures payout > 0 ==> 2 <= MatchCount(LineSymbols(g, PAYLINES[k]))
  {
    var line := LineSymbols(g, PAYLINES[k]);
    PayingCounts(line[0], MatchCount(line));
    PayoutFor(SYMBOLS[line[0]], MatchCount(line))
  }

  /** The amount a payout multiplier pays at a given bet. */
  function LineWin(payout: nat, bet: nat): (win: real)
    ensures win >= 0.0
    ensures win > 0.0 <==> payout > 0 && bet > 0
  {
    payout as real * (bet as real / BET_UNIT)
  }

  /** The record of payline `k`, present when that line pays. */
  function EvaluateLine(g: seq<seq<nat>>, bet: nat, k: nat): (record: Option<WinLine>)
    requires ValidGrid(g) && k < |PAYLINES|
    ensures record.Some? <==> LinePayout(g, k) > 0
    ensures record.Some? ==> record.value.lineIndex == k && record.value.symbolId < |SYMBOLS|
  {
    var line := LineSymbols(g, PAYLINES[k]);
    var payout := LinePayout(g, k);
    if payout > 0 then Some(WinLine(k, MatchCount(line), line[0], LineWin(payout, bet), PAYLINES[k]))
    else None
  }

  /** The evaluation of every payline, paying or not, in payline order. */
  function LineRecords(g: seq<seq<nat>>, bet: nat): (records: seq<Option<WinLine>>)
    requires ValidGrid(g)
    ensures |records| == |PAYLINES|
  {
    seq(|PAYLINES|, k requires 0 <= k < |PAYLINES| => EvaluateLine(g, bet, k))
  }

  /** The records present among the first `n` evaluations, in order. */
  function Collect(records: seq<Option<WinLine>>, n: nat): (ws: seq<WinLine>)
    requires n <= |records|
    ensures |ws| <= n
  {
    if n == 0 then []
    else Collect(records, n - 1) + if records[n - 1].Some? then [records[n - 1].value] else []
  }

  /** The winning lines of a round at a given bet, in payline order; at
      most one per payline. */
  function WinningLines(g: seq<seq<nat>>, bet: nat): (ws: seq<WinLine>)
    requires ValidGrid(g)
    ensures |ws| <= |PAYLINES|
  {
    Collect(LineRecords(g, bet), |PAYLINES|)
  }

  /** The sum of the wins of a list of lines; never negative when no line
      win is. */
  function TotalWin(lines: seq<WinLine>): (total: real)
    ensures (forall i :: 0 <= i < |lines| ==> lines[i].win >= 0.0) ==> total >= 0.0
  {
    if lines == [] then 0.0 else lines[0].win + TotalWin(lines[1..])
  }

  /** Appending a line adds its win to the total, so a running sum over the
      recorded lines equals their total. */
  lemma {:induction false} TotalWinAppend(lines: seq<WinLine>, w: WinLine)
    ensures TotalWin(lines + [w]) == TotalWin(lines) + w.win
  {
    if lines != [] {
      assert (lines + [w])[1..] == lines[1..] + [w];
      TotalWinAppend(lines[1..], w);
    }
  }

  /** A recorded line has a listed payout, hence a run of at least two, and
      pays its multiplier scaled by the bet; it pays a positive amount
      whenever the bet is positive. */
  lemma EvaluateLineRecordsPayingRun(g: seq<seq<nat>>, bet: nat, k: nat)
    requires ValidGrid(g) && k < |PAYLINES|
    ensures EvaluateLine(g, bet, k).Some? <==> LinePayout(g, k) > 0
    ensures EvaluateLine(g, bet, k).Some? ==>
              var w := EvaluateLine(g, bet, k).value;
              w.lineIndex == k &&
              2 <= w.matchCount <= REEL_COUNT &&
              w.symbolId < |SYMBOLS| &&
              w.win == LinePayout(g, k) as real * (bet as real / BET_UNIT) &&
              w.win >= 0.0 &&
              (bet > 0 ==> w.win > 0.0)
  {
    var line := LineSymbols(g, PAYLINES[k]);
    var c := MatchCount(line);
    PayingCounts(line[0], c);
  }

  /** Each present record sits at the index of its payline. */
  ghost predicate Indexed(records: seq<Option<WinLine>>)
  {
    forall k :: 0 <= k < |records| && records[k].Some? ==> records[k].value.lineIndex == k
  }

  /** Payline indices strictly increase along `ws`. */
  ghost predicate InPaylineOrder(ws: seq<WinLine>)
  {
    forall i, j :: 0 <= i < j < |ws| ==> ws[i].lineIndex < ws[j].lineIndex
  }

  lemma {:induction false} CollectSound(records: seq<Option<WinLine>>, n: nat)
    requires n <= |records| && Indexed(records)
    ensures forall i :: 0 <= i < |Collect(records, n)| ==>
              Collect(records, n)[i].lineIndex < n &&
              records[Collect(records, n)[i].lineIndex] == Some(Collect(records, n)[i])
  {
    if n > 0 {
      CollectSound(records, n - 1);
    }
  }

  lemma {:induction false} CollectOrdered(records: seq<Option<WinLine>>, n: nat)
    requires n <= |records| && Indexed(records)
    ensures InPaylineOrder(Collect(records, n))
  {
    if n > 0 {
      CollectOrdered(records, n - 1);
      CollectSound(records, n - 1);
    }
  }

  /** Some line of `ws` records payline `k`. */
  ghost predicate Recorded(ws: seq<WinLine>, k: nat)
  {
    exists i :: 0 <= i < |ws| && ws[i].lineIndex == k
  }

  lemma {:induction false} CollectComplete(records: seq<Option<WinLine>>, n: nat)
    requires n <= |records| && Indexed(records)
    ensures forall k :: 0 <= k < n && records[k].Some? ==> Recorded(Collect(records, n), k)
  {
    if n > 0 {
      CollectComplete(records, n - 1);
      var prev := Collect(records, n - 1);
      var ws := Collect(records, n);
      forall k | 0 <= k < n && records[k].Some?
        ensures Recorded(ws, k)
      {
        if k < n - 1 {
          var i :| 0 <= i < |prev| && prev[i].lineIndex == k;
          assert ws[i] == prev[i];
        } else {
          assert ws[|prev|].lineIndex == k;
        }
      }
    }
  }

  lemma LineRecordsIndexed(g: seq<seq<nat>>, bet: nat)
    requires ValidGrid(g)
    ensures Indexed(LineRecords(g, bet))
  {
    forall k | 0 <= k < |PAYLINES| && LineRecords(g, bet)[k].Some?
      ensures LineRecords(g, bet)[k].value.lineIndex == k
    {
      EvaluateLineRecordsPayingRun(g, bet, k);
    }
  }

  /** Every recorded line is the record of a paying payline. */
  lemma WinningLinesSound(g: seq<seq<nat>>, bet: nat)
    requires ValidGrid(g)
    ensures forall i :: 0 <= i < |WinningLines(g, bet)| ==>
              WinningLines(g, bet)[i].lineIndex < |PAYLINES| &&
              EvaluateLine(g, bet, WinningLines(g, bet)[i].lineIndex) == Some(WinningLines(g, bet)[i])
  {
    LineRecordsIndexed(g, bet);
    CollectSound(LineRecords(g, bet), |PAYLINES|);
  }

  /** Recorded lines appear in strictly increasing payline order, so no
      payline is recorded twice. */
  lemma WinningLinesOrdered(g: seq<seq<nat>>, bet: nat)
    requires ValidGrid(g)
    ensures InPaylineOrder(WinningLines(g, bet))
  {
    LineRecordsIndexed(g, bet);
    CollectOrdered(LineRecords(g, bet), |PAYLINES|);
  }

  /** A payline is recorded exactly when it pays. */
  lemma WinningLinesComplete(g: seq<seq<nat>>, bet: nat)
    requires ValidGrid(g)
    ensures forall k :: 0 <= k < |PAYLINES| ==> (LinePayout(g, k) > 0 <==> Recorded(WinningLines(g, bet), k))
  {
    var records := LineRecords(g, bet);
    var ws := WinningLines(g, bet);
    LineRecordsIndexed(g, bet);
    CollectSound(records, |PAYLINES|);
    CollectComplete(records, |PAYLINES|);
    forall k | 0 <= k < |PAYLINES|
      ensures LinePayout(g, k) > 0 <==> Recorded(ws, k)
    {
      EvaluateLineRecordsPayingRun(g, bet, k);
      assert records[k] == EvaluateLine(g, bet, k);
      if Recorded(ws, k) {
        var i :| 0 <= i < |ws| && ws[i].lineIndex == k;
        assert records[ws[i].lineIndex] == Some(ws[i]);
      }
    }
  }

  /** A round never pays a negative amount. */
  lemma RoundWinNonNegative(g: seq<seq<nat>>, bet: nat)
    requires ValidGrid(g)
    ensures TotalWin(WinningLines(g, bet)) >= 0.0
  {
    var ws := WinningLines(g, bet);
    WinningLinesSound(g, bet);
    forall i | 0 <= i < |ws| ensures ws[i].win >= 0.0 {
      EvaluateLineRecordsPayingRun(g, bet, ws[i].lineIndex);
    }
  }

  /** A round records no line exactly when no payline pays, and then it wins
      nothing. */
  lemma NoPayingLineNoWin(g: seq<seq<nat>>, bet: nat)
    requires ValidGrid(g)
    ensures WinningLines(g, bet) == [] <==> forall k :: 0 <= k < |PAYLINES| ==> LinePayout(g, k) == 0
    ensures WinningLines(g, bet) == [] ==> TotalWin(WinningLines(g, bet)) == 0.0
  {
    var ws := WinningLines(g, bet);
    WinningLinesComplete(g, bet);
    if ws != [] {
      WinningLinesSound(g, bet);
      EvaluateLineRecordsPayingRun(g, bet, ws[0].lineIndex);
    }
  }

  /** A run shorter than three pays nothing unless it is a run of two of the
      seven, the diamond or the cherry. */
  lemma ShortRunPaysOnlyForPremium(g: seq<seq<nat>>, k: nat)
    requires ValidGrid(g) && k < |PAYLINES|
    ensures var line := LineSymbols(g, PAYLINES[k]);
              MatchCount(line) < 3 && LinePayout(g, k) > 0 ==>
                MatchCount(line) == 2 && line[0] in {0, 1, 3}
  {
    var line := LineSymbols(g, PAYLINES[k]);
    PayingCounts(line[0], MatchCount(line));
    TwoOfAKindPayers();
  }

  /** Five sevens on the middle row at the reference bet pay 500 on line 0. */
  lemma FiveSevensOnMiddleRow(g: seq<seq<nat>>)
    requires ValidGrid(g)
    requires forall reel :: 0 <= reel < REEL_COUNT ==> g[reel][1] == 0
    ensures EvaluateLine(g, 10, 0) == Some(WinLine(0, 5, 0, 500.0, [1, 1, 1, 1, 1]))
  {
    var line := LineSymbols(g, PAYLINES[0]);
    assert line == [0, 0, 0, 0, 0];
    MatchCountIsLeftmostRun(line, 5);
  }

  // ---------------------------------------------------------------------------
  // Worked example

  /** A draw stream, reel by reel, whose grid shows three watermelons on the
      middle row. */
  const SAMPLE_DRAWS: seq<real> := [
    40.0, 90.0, 50.0,
    50.0, 90.0, 70.0,
    70.0, 90.0, 40.0,
    25.0, 8.0, 25.0,
    8.0, 25.0, 8.0
  ]

  const SAMPLE_GRID: seq<seq<nat>> := [[5, 8, 6], [6, 8, 7], [7, 8, 5], [4, 2, 4], [2, 4, 2]]

  /** Each sample draw falls inside the stretch of the symbol it selects. */
  lemma SampleDraws()
    ensures Draw(SYMBOLS, 8.0) == 2 && Draw(SYMBOLS, 25.0) == 4 && Draw(SYMBOLS, 40.0) == 5
    ensures Draw(SYMBOLS, 50.0) == 6 && Draw(SYMBOLS, 70.0) == 7 && Draw(SYMBOLS, 90.0) == 8
  {
    CatalogWellFormed();
    CumulativeWeights();
    DrawPreimage(SYMBOLS, 8.0, 2);
    DrawPreimage(SYMBOLS, 25.0, 4);
    DrawPreimage(SYMBOLS, 40.0, 5);
    DrawPreimage(SYMBOLS, 50.0, 6);
    DrawPreimage(SYMBOLS, 70.0, 7);
    DrawPreimage(SYMBOLS, 90.0, 8);
  }

  /** The sample stream is consumed reel by reel into the sample grid. */
  lemma SampleGrid()
    ensures Grid(SAMPLE_DRAWS) == SAMPLE_GRID
  {
    SampleDraws();
    ReelFromDraws(SAMPLE_DRAWS, 0, [5, 8, 6]);
    ReelFromDraws(SAMPLE_DRAWS, 1, [6, 8, 7]);
    ReelFromDraws(SAMPLE_DRAWS, 2, [7, 8, 5]);
    ReelFromDraws(SAMPLE_DRAWS, 3, [4, 2, 4]);
    ReelFromDraws(SAMPLE_DRAWS, 4, [2, 4, 2]);
    var g := Grid(SAMPLE_DRAWS);
    assert g == [g[0], g[1], g[2], g[3], g[4]];
  }

  /** A reel shows, row by row, the symbols its own draws pick. */
  lemma ReelFromDraws(draws: seq<real>, reel: nat, column: seq<nat>)
    requires |draws| == REEL_COUNT * ROW_COUNT && reel < REEL_COUNT && |column| == ROW_COUNT
    requires Draw(SYMBOLS, draws[DrawPosition(reel, 0)]) == column[0]
    requires Draw(SYMBOLS, draws[DrawPosition(reel, 1)]) == column[1]
    requires Draw(SYMBOLS, draws[DrawPosition(reel, 2)]) == column[2]
    ensures ReelDraws(draws, reel) == column
  {
    var drawn := ReelDraws(draws, reel);
    assert drawn[0] == column[0] && drawn[1] == column[1] && drawn[2] == column[2];
  }

  /** When only the first payline has a record, it is the only line collected. */
  lemma {:induction false} CollectOnlyFirst(records: seq<Option<WinLine>>, n: nat, w: WinLine)
    requires 1 <= n <= |records|
    requires records[0] == Some(w)
    requires forall k :: 1 <= k < |records| ==> records[k] == None
    ensures Collect(records, n) == [w]
  {
    if n > 1 {
      CollectOnlyFirst(records, n - 1, w);
    }
  }

  /** On the sample grid the middle row reads three watermelons, worth 2 at
      a bet of 10. */
  lemma SampleMiddleRowPays()
    ensures ValidGrid(SAMPLE_GRID)
    ensures EvaluateLine(SAMPLE_GRID, 10, 0) == Some(WinLine(0, 3, 8, 2.0, [1, 1, 1, 1, 1]))
  {
    SampleGrid();
    var line := LineSymbols(SAMPLE_GRID, PAYLINES[0]);
    assert line == [8, 8, 8, 2, 4];
    MatchCountIsLeftmostRun(line, 3);
  }

  /** On the sample grid every payline but the middle row starts with a run
      of one, which pays nothing. */
  lemma SampleOtherLinesPayNothing(k: nat)
    requires 1 <= k < |PAYLINES|
    ensures ValidGrid(SAMPLE_GRID)
    ensures EvaluateLine(SAMPLE_GRID, 10, k) == None
  {
    SampleGrid();
    var line := LineSymbols(SAMPLE_GRID, PAYLINES[k]);
    assert line[1] != line[0];
    MatchCountIsLeftmostRun(line, 1);
    PayingCounts(line[0], 1);
  }

  /** At a bet of 10 the sample grid pays only the middle row, a run of three
      watermelons worth 2. */
  lemma SampleRoundPaysMiddleRow()
    ensures ValidGrid(SAMPLE_GRID)
    ensures WinningLines(SAMPLE_GRID, 10) == [WinLine(0, 3, 8, 2.0, [1, 1, 1, 1, 1])]
    ensures TotalWin(WinningLines(SAMPLE_GRID, 10)) == 2.0
  {
    SampleMiddleRowPays();
    var records := LineRecords(SAMPLE_GRID, 10);
    forall k | 1 <= k < |PAYLINES|
      ensures records[k] == None
    {
      SampleOtherLinesPayNothing(k);
    }
    CollectOnlyFirst(records, |PAYLINES|, WinLine(0, 3, 8, 2.0, [1, 1, 1, 1, 1]));
  }
}

/** The round controller of the slot machine (class SlotMachine in
    src/SlotMachine.js) with rendering stripped: bet selection, the spin guards,
    the bet deduction, grid generation, payline evaluation and the credit of
    the win. The asynchronous `spin` is split at its single suspension point
    into StartSpin and Settle. */
module Game {
  import opened Config
  import opened Engine

  /** How a spin request ends before the reels animate. */
  datatype SpinStart = Started(results: seq<seq<nat>>) | AlreadySpinning | InsufficientBalance

  class SlotMachine {
    var currentSymbols: seq<seq<nat>>
    var isSpinning: bool
    var balance: real
    var bet: nat
    var currentBetIndex: nat
    var lastWin: real
    var winningLines: seq<WinLine>

    /** The bet is the configured level at the current index, money amounts
        are never negative, and the visible grid is empty or well formed. */
    ghost predicate Valid()
      reads this
    {
      currentBetIndex < |BET_LEVELS| &&
      bet == BET_LEVELS[currentBetIndex] &&
      balance >= 0.0 &&
      lastWin >= 0.0 &&
      (currentSymbols == [] || ValidGrid(currentSymbols))
    }

    constructor ()
      ensures Valid()
      ensures currentSymbols == [] && !isSpinning
      ensures balance == INITIAL_BALANCE as real && lastWin == 0.0
      ensures currentBetIndex == DEFAULT_BET_INDEX && bet == BET_LEVELS[DEFAULT_BET_INDEX]
      ensures winningLines == []
    {
      currentSymbols := [];
      isSpinning := false;
      balance := INITIAL_BALANCE as real;
      bet := BET_LEVELS[DEFAULT_BET_INDEX];
      currentBetIndex := DEFAULT_BET_INDEX;
      lastWin := 0.0;
      winningLines := [];
    }

    /** Moves the bet index by `direction`, clamped to the bet levels; ignored
        while a spin is in progress. */
    method ChangeBet(direction: int)
      requires Valid()
      modifies this`currentBetIndex, this`bet
      ensures Valid()
      ensures isSpinning ==> currentBetIndex == old(currentBetIndex) && bet == old(bet)
      ensures !isSpinning ==>
                var target := old(currentBetIndex) + direction;
                (0 <= target < |BET_LEVELS| ==> currentBetIndex == target) &&
                (target < 0 ==> currentBetIndex == 0) &&
                (target >= |BET_LEVELS| ==> currentBetIndex == |BET_LEVELS| - 1)
    {
      if isSpinning {
        return;
      }
      var target := currentBetIndex + direction;
      var upper := if |BET_LEVELS| - 1 < target then |BET_LEVELS| - 1 else target;
      currentBetIndex := if upper < 0 then 0 else upper;
      bet := BET_LEVELS[currentBetIndex];
    }

    /** Selects the highest bet level the balance covers; ignored while a spin
        is in progress, and keeps the current bet when no level is affordable. */
    method SetMaxBet()
      requires Valid()
      modifies this`currentBetIndex, this`bet
      ensures Valid()
      ensures isSpinning ==> currentBetIndex == old(currentBetIndex) && bet == old(bet)
      ensures !isSpinning && (exists i :: 0 <= i < |BET_LEVELS| && BET_LEVELS[i] as real <= balance) ==>
                BET_LEVELS[currentBetIndex] as real <= balance &&
                forall j :: currentBetIndex < j < |BET_LEVELS| ==> BET_LEVELS[j] as real > balance
      ensures !isSpinning && (forall i :: 0 <= i < |BET_LEVELS| ==> BET_LEVELS[i] as real > balance) ==>
                currentBetIndex == old(currentBetIndex) && bet == old(bet)
    {
      if isSpinning {
        return;
      }
      var i: int := |BET_LEVELS| - 1;
      while i >= 0
        invariant -1 <= i < |BET_LEVELS|
        invariant forall j :: i < j < |BET_LEVELS| ==> BET_LEVELS[j] as real > balance
        invariant currentBetIndex == old(currentBetIndex) && bet == old(bet)
      {
        if BET_LEVELS[i] as real <= balance {
          currentBetIndex := i;
          bet := BET_LEVELS[i];
          break;
        }
        i := i - 1;
      }
    }

    /** First half of a spin, up to the wait for the reel animation: the
        spinning guard, the balance guard, the bet deduction and the draw of
        the grid. */
    method StartSpin(draws: seq<real>) returns (outcome: SpinStart)
      requires Valid()
      requires |draws| == REEL_COUNT * ROW_COUNT
      modifies this`isSpinning, this`balance
      ensures Valid()
      ensures old(isSpinning) ==>
                outcome == AlreadySpinning && isSpinning && balance == old(balance)
      ensures !old(isSpinning) && old(balance) < bet as real ==>
                outcome == InsufficientBalance && !isSpinning && balance == old(balance)
      ensures !old(isSpinning) && old(balance) >= bet as real ==>
                outcome == Started(Grid(draws)) && isSpinning && balance == old(balance) - bet as real
    {
      if isSpinning {
        return AlreadySpinning;
      }
      if balance < bet as real {
        return InsufficientBalance;
      }
      isSpinning := true;
      balance := balance - bet as real;
      var results := GenerateResults(draws);
      outcome := Started(results);
    }

    /** Second half of a spin, once the reels have stopped: evaluate the grid
        at the current bet, credit a positive win, show the grid and end the
        spin. */
    method Settle(results: seq<seq<nat>>)
      requires Valid() && isSpinning && ValidGrid(results)
      modifies this`balance, this`lastWin, this`currentSymbols, this`isSpinning, this`winningLines
      ensures Valid()
      ensures winningLines == WinningLines(results, bet)
      ensures balance == old(balance) + TotalWin(winningLines)
      ensures lastWin == if TotalWin(winningLines) > 0.0 then TotalWin(winningLines) else old(lastWin)
      ensures currentSymbols == results && !isSpinning
    {
      var winAmount := CheckWins(results);
      RoundWinNonNegative(results, bet);
      if winAmount > 0.0 {
        balance := balance + winAmount;
        lastWin := winAmount;
      }
      currentSymbols := results;
      isSpinning := false;
    }

    /** A whole spin whose reels settle on the drawn grid. */
    method Spin(draws: seq<real>) returns (outcome: SpinStart)
      requires Valid()
      requires |draws| == REEL_COUNT * ROW_COUNT
      modifies this`balance, this`lastWin, this`currentSymbols, this`isSpinning, this`winningLines
      ensures Valid()
      ensures old(isSpinning) ==> outcome == AlreadySpinning && unchanged(this)
      ensures !old(isSpinning) && old(balance) < bet as real ==> outcome == InsufficientBalance && unchanged(this)
      ensures !old(isSpinning) && old(balance) >= bet as real ==>
                outcome == Started(Grid(draws)) &&
                winningLines == WinningLines(Grid(draws), bet) &&
                balance == old(balance) - bet as real + TotalWin(winningLines) &&
                lastWin == (if TotalWin(winningLines) > 0.0 then TotalWin(winningLines) else old(lastWin)) &&
                currentSymbols == Grid(draws) &&
                !isSpinning
    {
      outcome := StartSpin(draws);
      if outcome.Started? {
        Settle(outcome.results);
      }
    }

    /** Fills REEL_COUNT reels of ROW_COUNT symbols, consuming the draws in
        order. */
    method GenerateResults(draws: seq<real>) returns (results: seq<seq<nat>>)
      requires |draws| == REEL_COUNT * ROW_COUNT
      ensures ValidGrid(results)
      ensures results == Grid(draws)
    {
      results := [];
      var i := 0;
      while i < REEL_COUNT
        invariant 0 <= i <= REEL_COUNT
        invariant |results| == i
        invariant forall k :: 0 <= k < i ==> results[k] == ReelDraws(draws, k)
      {
        var reelResults: seq<nat> := [];
        var j := 0;
        while j < ROW_COUNT
          invariant 0 <= j <= ROW_COUNT
          invariant |reelResults| == j
          invariant forall m :: 0 <= m < j ==> reelResults[m] == Draw(SYMBOLS, draws[DrawPosition(i, m)])
        {
          var symbol := GetWeightedRandomSymbol(draws[DrawPosition(i, j)]);
          reelResults := reelResults + [symbol];
          j := j + 1;
        }
        results := results + [reelResults];
        i := i + 1;
      }
    }

    /** The weighted draw for the value `r`, which stands for
        `Math.random() * TOTAL_WEIGHT`: walk the catalog subtracting weights
        and stop once the remainder is no longer positive; fall back to the
        last symbol. */
    method GetWeightedRandomSymbol(r: real) returns (id: nat)
      ensures id < |SYMBOLS|
      ensures id == Draw(SYMBOLS, r)
    {
      var random := r;
      var i := 0;
      while i < |SYMBOLS|
        invariant 0 <= i <= |SYMBOLS|
        invariant random == r - WeightPrefix(SYMBOLS, i) as real
        invariant i < |SYMBOLS| ==> DrawFrom(SYMBOLS, r, i) == Draw(SYMBOLS, r)
        invariant i == |SYMBOLS| ==> Draw(SYMBOLS, r) == |SYMBOLS| - 1
      {
        random := random - SYMBOLS[i].weight as real;
        if random <= 0.0 {
          return i;
        }
        i := i + 1;
      }
      return |SYMBOLS| - 1;
    }

    /** Evaluates every payline of `results` at the current bet, records the
        winning lines and returns the total win. */
    method CheckWins(results: seq<seq<nat>>) returns (totalWin: real)
      requires ValidGrid(results)
      modifies this`winningLines
      ensures winningLines == WinningLines(results, bet)
      ensures totalWin == TotalWin(winningLines)
    {
      totalWin := 0.0;
      var lines: seq<WinLine> := [];
      var lineIndex := 0;
      while lineIndex < |PAYLINES|
        invariant 0 <= lineIndex <= |PAYLINES|
        invariant lines == Collect(LineRecords(results, bet), lineIndex)
        invariant totalWin == TotalWin(lines)
      {
        var record := EvaluatePayline(results, lineIndex);
        if record.Some? {
          TotalWinAppend(lines, record.value);
          totalWin := totalWin + record.value.win;
          lines := lines + [record.value];
        }
        lineIndex := lineIndex + 1;
      }
      winningLines := lines;
    }

    /** The record of one payline at the current bet, present when it pays. */
    method EvaluatePayline(results: seq<seq<nat>>, lineIndex: nat) returns (record: Option<WinLine>)
      requires ValidGrid(results) && lineIndex < |PAYLINES|
      ensures record == EvaluateLine(results, bet, lineIndex)
    {
      var payline := PAYLINES[lineIndex];
      var lineSymbols := LineSymbols(results, payline);
      var firstSymbol := lineSymbols[0];
      var matchCount := CountMatches(lineSymbols);
      var payout := PayoutFor(SYMBOLS[firstSymbol], matchCount);
      if payout > 0 {
        record := Some(WinLine(lineIndex, matchCount, firstSymbol, LineWin(payout, bet), payline));
      } else {
        record := None;
      }
    }

    /** Counts the symbols equal to the first one from the left, stopping at
        the first mismatch. */
    method CountMatches(lineSymbols: seq<nat>) returns (matchCount: nat)
      requires |lineSymbols| > 0
      ensures matchCount == MatchCount(lineSymbols)
    {
      var firstSymbol := lineSymbols[0];
      matchCount := 1;
      var i := 1;
      while i < |lineSymbols|
        invariant 1 <= i <= |lineSymbols|
        invariant matchCount == i
        invariant forall k :: 0 <= k < i ==> lineSymbols[k] == firstSymbol
      {
        if lineSymbols[i] == firstSymbol {
          matchCount := matchCount + 1;
        } else {
          break;
        }
        i := i + 1;
      }
      MatchCountIsLeftmostRun(lineSymbols, matchCount);
    }
  }

  /** A fresh machine spinning the sample stream at the default bet of 10
      pays the middle-row run of three watermelons: 1000 - 10 + 2. */
  method SampleSpin() returns (outcome: SpinStart, balance: real, lastWin: real, lines: seq<WinLine>)
    ensures outcome == Started(SAMPLE_GRID)
    ensures balance == 992.0 && lastWin == 2.0
    ensures lines == [WinLine(0, 3, 8, 2.0, [1, 1, 1, 1, 1])]
  {
    var m := new SlotMachine();
    SampleGrid();
    SampleRoundPaysMiddleRow();
    outcome := m.Spin(SAMPLE_DRAWS);
    balance, lastWin, lines := m.balance, m.lastWin, m.winningLines;
  }

  /** A balance below the bet refuses the spin and leaves the balance and
      the spinning flag as they were; a second request while a spin is in
      flight is refused and deducts nothing more. */
  method RefusedSpins() returns (low: SpinStart, lowBalance: real, lowSpinning: bool, again: SpinStart, againBalance: real)
    ensures low == InsufficientBalance && lowBalance == 5.0 && !lowSpinning
    ensures again == AlreadySpinning && againBalance == 990.0
  {
    var poor := new SlotMachine();
    poor.balance := 5.0;
    low := poor.StartSpin(SAMPLE_DRAWS);
    lowBalance, lowSpinning := poor.balance, poor.isSpinning;
    var busy := new SlotMachine();
    var first := busy.StartSpin(SAMPLE_DRAWS);
    again := busy.StartSpin(SAMPLE_DRAWS);
    againBalance := busy.balance;
  }

  /** With 40 credits the highest affordable level is 25. */
  method MaxBetWithFortyCredits() returns (bet: nat)
    ensures bet == 25
  {
    var m := new SlotMachine();
    m.balance := 40.0;
    assert BET_LEVELS[0] as real <= m.balance;
    m.SetMaxBet();
    assert BET_LEVELS[3] as real <= m.balance < BET_LEVELS[4] as real;
    bet := m.bet;
  }

  /** Bet changes clamp at the lowest and the highest level. */
  method BetClamps() returns (lowest: nat, highest: nat)
    ensures lowest == 1 && highest == 100
  {
    var m := new SlotMachine();
    m.ChangeBet(-10);
    lowest := m.bet;
    m.ChangeBet(10);
    highest := m.bet;
  }
}

/** Static game configuration: reel geometry, bet levels, the symbol catalog
    with weights and payout tables, and the payline table (src/config.js). */
module Config {

  /** One catalog entry. `payout` maps a match count to a payout multiplier;
      a match count that is not a key pays nothing. The display name, colour
      and emoji of a symbol are left out; the name is given as a comment. */
  datatype Symbol = Symbol(id: nat, weight: nat, payout: map<nat, nat>)

  const REEL_COUNT: nat := 5
  const ROW_COUNT: nat := 3

  const INITIAL_BALANCE: nat := 1000
  const BET_LEVELS: seq<nat> := [1, 5, 10, 25, 50, 100]
  const DEFAULT_BET_INDEX: nat := 2

  const SYMBOLS: seq<Symbol> := [
    Symbol(0, 2, map[2 := 5, 3 := 25, 4 := 100, 5 := 500]),  // seven
    Symbol(1, 3, map[2 := 3, 3 := 15, 4 := 50, 5 := 250]),  // diamond
    Symbol(2, 6, map[3 := 10, 4 := 25, 5 := 100]),  // bell
    Symbol(3, 8, map[2 := 2, 3 := 8, 4 := 20, 5 := 75]),  // cherry
    Symbol(4, 10, map[3 := 6, 4 := 15, 5 := 50]),  // star
    Symbol(5, 15, map[3 := 4, 4 := 10, 5 := 30]),  // orange
    Symbol(6, 18, map[3 := 3, 4 := 8, 5 := 25]),  // lemon
    Symbol(7, 18, map[3 := 2, 4 := 6, 5 := 20]),  // grapes
    Symbol(8, 20, map[3 := 2, 4 := 5, 5 := 15])  // watermelon
  ]

  /** Sum of the weights of the first `n` symbols, accumulated left to right. */
  function WeightPrefix(syms: seq<Symbol>, n: nat): (sum: nat)
    requires n <= |syms|
    ensures forall i :: 0 <= i < n ==> syms[i].weight <= sum
  {
    if n == 0 then 0 else WeightPrefix(syms, n - 1) + syms[n - 1].weight
  }

  /** The sum of all weights of a catalog; no single weight exceeds it. */
  function SumWeights(syms: seq<Symbol>): (total: nat)
    ensures forall i :: 0 <= i < |syms| ==> syms[i].weight <= total
  {
    WeightPrefix(syms, |syms|)
  }

  const TOTAL_WEIGHT: nat := SumWeights(SYMBOLS)

  /** A pattern with one row index per reel, each naming an existing row. */
  type Payline = p: seq<nat> | ValidPayline(p) witness [0, 0, 0, 0, 0]

  /** Row index per reel, one pattern per payline, in evaluation order. */
  const PAYLINES: seq<Payline> := [
    [1, 1, 1, 1, 1],
    [0, 0, 0, 0, 0],
    [2, 2, 2, 2, 2],
    [0, 1, 2, 1, 0],
    [2, 1, 0, 1, 2],
    [0, 0, 1, 2, 2],
    [2, 2, 1, 0, 0],
    [1, 0, 0, 0, 1],
    [1, 2, 2, 2, 1]
  ]

  /** Every symbol sits at the index equal to its id and has a positive weight. */
  ghost predicate IdsAndWeights(syms: seq<Symbol>)
  {
    |syms| > 0 &&
    forall i :: 0 <= i < |syms| ==> syms[i].id == i && syms[i].weight > 0
  }

  /** A symbol's payout keys are match counts 2..REEL_COUNT, every listed
      payout is positive, and a longer run pays strictly more. */
  ghost predicate PayoutTableWellFormed(s: Symbol)
  {
    (forall k :: k in s.payout ==> 2 <= k <= REEL_COUNT && s.payout[k] > 0) &&
    (forall a, b :: a in s.payout && b in s.payout && a < b ==> s.payout[a] < s.payout[b])
  }

  ghost predicate PayoutsWellFormed(syms: seq<Symbol>)
  {
    forall i :: 0 <= i < |syms| ==> PayoutTableWellFormed(syms[i])
  }

  /** A pattern has one row per reel and each row exists. */
  ghost predicate ValidPayline(p: seq<nat>)
  {
    |p| == REEL_COUNT && forall reel :: 0 <= reel < REEL_COUNT ==> p[reel] < ROW_COUNT
  }

  /** Bet levels are non-empty and strictly ascending, the default index is
      valid and the initial balance covers the default bet. */
  ghost predicate BetLevelsWellFormed(levels: seq<nat>, defaultIndex: nat, initial: nat)
  {
    |levels| > 0 &&
    (forall i, j :: 0 <= i < j < |levels| ==> levels[i] < levels[j]) &&
    defaultIndex < |levels| &&
    levels[defaultIndex] <= initial
  }

  /** The cumulative weights of the catalog, symbol by symbol. */
  lemma CumulativeWeights()
    ensures WeightPrefix(SYMBOLS, 0) == 0
    ensures WeightPrefix(SYMBOLS, 1) == 2
    ensures WeightPrefix(SYMBOLS, 2) == 5
    ensures WeightPrefix(SYMBOLS, 3) == 11
    ensures WeightPrefix(SYMBOLS, 4) == 19
    ensures WeightPrefix(SYMBOLS, 5) == 29
    ensures WeightPrefix(SYMBOLS, 6) == 44
    ensures WeightPrefix(SYMBOLS, 7) == 62
    ensures WeightPrefix(SYMBOLS, 8) == 80
    ensures WeightPrefix(SYMBOLS, 9) == 100
  {
    assert WeightPrefix(SYMBOLS, 1) == 2;
    assert WeightPrefix(SYMBOLS, 2) == 5;
    assert WeightPrefix(SYMBOLS, 3) == 11;
    assert WeightPrefix(SYMBOLS, 4) == 19;
    assert WeightPrefix(SYMBOLS, 5) == 29;
    assert WeightPrefix(SYMBOLS, 6) == 44;
    assert WeightPrefix(SYMBOLS, 7) == 62;
    assert WeightPrefix(SYMBOLS, 8) == 80;
  }

  lemma TotalWeightIs100()
    ensures TOTAL_WEIGHT == SumWeights(SYMBOLS) == 100
  {
    CumulativeWeights();
  }

  /** Any payout table on exactly the keys 2..5, or 3..5, whose values rise
      is well formed. */
  lemma RisingTable(s: Symbol, p2: nat, p3: nat, p4: nat, p5: nat, withTwo: bool)
    requires 0 < p3 < p4 < p5
    requires withTwo ==> 0 < p2 < p3 && s.payout == map[2 := p2, 3 := p3, 4 := p4, 5 := p5]
    requires !withTwo ==> s.payout == map[3 := p3, 4 := p4, 5 := p5]
    ensures PayoutTableWellFormed(s)
  {
  }

  lemma CatalogWellFormed()
    ensures IdsAndWeights(SYMBOLS)
    ensures PayoutsWellFormed(SYMBOLS)
  {
    RisingTable(SYMBOLS[0], 5, 25, 100, 500, true);
    RisingTable(SYMBOLS[1], 3, 15, 50, 250, true);
    RisingTable(SYMBOLS[2], 0, 10, 25, 100, false);
    RisingTable(SYMBOLS[3], 2, 8, 20, 75, true);
    RisingTable(SYMBOLS[4], 0, 6, 15, 50, false);
    RisingTable(SYMBOLS[5], 0, 4, 10, 30, false);
    RisingTable(SYMBOLS[6], 0, 3, 8, 25, false);
    RisingTable(SYMBOLS[7], 0, 2, 6, 20, false);
    RisingTable(SYMBOLS[8], 0, 2, 5, 15, false);
  }

  /** A match count a symbol lists lies in 2..REEL_COUNT and pays a
      positive multiplier. */
  lemma PayingCounts(id: nat, count: nat)
    requires id < |SYMBOLS|
    ensures count in SYMBOLS[id].payout ==> 2 <= count <= REEL_COUNT && SYMBOLS[id].payout[count] > 0
  {
    CatalogWellFormed();
    assert PayoutTableWellFormed(SYMBOLS[id]);
  }

  /** Only the seven, the diamond and the cherry pay on a run of two. */
  lemma TwoOfAKindPayers()
    ensures forall i :: 0 <= i < |SYMBOLS| ==> (2 in SYMBOLS[i].payout <==> i in {0, 1, 3})
  {
  }

  lemma PaylineTableWellFormed()
    ensures |PAYLINES| == 9
    ensures forall k :: 0 <= k < |PAYLINES| ==> ValidPayline(PAYLINES[k])
  {
  }

  lemma BetConfigWellFormed()
    ensures BetLevelsWellFormed(BET_LEVELS, DEFAULT_BET_INDEX, INITIAL_BALANCE)
  {
  }
}

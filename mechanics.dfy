/** The shared game mechanics of core/gameMechanics.js: starting a reel's spin
    animation, reading the visible window of every reel, and the bonus-tile
    scoring of found words (DL/TL letter bonuses, DW/TW word multipliers).
    checkWin receives the word finder and the payline conversion as
    parameters, as the source does; its amounts are JavaScript numbers, NaN
    once an undefined bet enters the product. */
module Mechanics {
  import opened Wrappers
  import opened Tiles
  import opened Reels
  import Config
  import opened WordFinder
  import Text

  // ---------------------------------------------------------------- reels

  /** setupReelAnimation: marks the reel spinning towards `targetPosition`,
      shifts its start time and duration by the stagger, remembers where it
      starts and sets the distance of `3 + floor(stagger / 200)` turns plus
      the difference; returns the same reel. */
  method SetupReelAnimation(reel: Reel, targetPosition: int, startTime: int, duration: int, staggerTime: int)
    returns (r: Reel)
    modifies reel
    ensures r == reel
    ensures reel.spinning && reel.targetPosition == targetPosition
    ensures reel.startTime == startTime + staggerTime && reel.duration == duration + staggerTime
    ensures reel.startPosition == old(reel.position)
    ensures reel.distance == Distance(old(reel.position), targetPosition, |reel.symbols|, duration + staggerTime, 3 + staggerTime / 200)
    ensures reel.position == old(reel.position) && reel.symbols == old(reel.symbols)
  {
    reel.spinning := true;
    reel.targetPosition := targetPosition;
    reel.startTime := startTime + staggerTime;
    reel.duration := duration + staggerTime;
    reel.startPosition := reel.position;
    var reelLength := |reel.symbols|;
    var difference: Number := NaN;
    if reelLength > 0 {
      var currentPositionMod := JsRem(reel.startPosition, reelLength).v;
      var d := JsRem(reel.targetPosition - currentPositionMod + reelLength, reelLength).v;
      if d < 1 && reel.duration > 0 {
        d := d + reelLength;
      }
      difference := Num(d);
    }
    var rotations := 3 + staggerTime / 200;
    reel.distance := Num(rotations * reelLength).Plus(difference);
    return reel;
  }

  /** The spin setupReelAnimation prepares lands on the target, after at least
      three full turns and at most `4 + floor(stagger / 200)` turns, for a
      target that is not negative, a stagger that is not negative and a
      positive duration. */
  lemma SetupReelAnimationLands(position: int, targetPosition: int, len: nat, duration: int, staggerTime: int)
    requires len > 0 && targetPosition >= 0 && staggerTime >= 0 && duration + staggerTime > 0
    ensures Distance(position, targetPosition, len, duration + staggerTime, 3 + staggerTime / 200).Num?
    ensures (position + Distance(position, targetPosition, len, duration + staggerTime, 3 + staggerTime / 200).v) % len == targetPosition % len
    ensures 3 * len < Distance(position, targetPosition, len, duration + staggerTime, 3 + staggerTime / 200).v
    ensures Distance(position, targetPosition, len, duration + staggerTime, 3 + staggerTime / 200).v <= (4 + staggerTime / 200) * len
  {
    var rotations := 3 + staggerTime / 200;
    DistanceLands(position, targetPosition, len, duration + staggerTime, rotations);
    DistanceBounds(position, targetPosition, len, duration + staggerTime, rotations);
    assert rotations * len >= 3 * len;
  }

  /** The window of `rows` symbols that a reel stopped at `target` shows. */
  function Window(symbols: seq<nat>, target: int, rows: nat): (col: seq<Option<nat>>)
    ensures |col| == rows
    ensures forall j :: 0 <= j < rows ==> col[j] == WindowSymbol(symbols, target, j)
  {
    seq(rows, j requires 0 <= j < rows => WindowSymbol(symbols, target, j))
  }

  /** readVisibleSymbols: one column per reel, each the window of
      `visibleRows` symbols below the reel's target. */
  method ReadVisibleSymbols(reels: seq<Reel>, visibleRows: nat) returns (results: seq<seq<Option<nat>>>)
    ensures |results| == |reels|
    ensures forall i :: 0 <= i < |reels| ==> results[i] == Window(reels[i].symbols, reels[i].targetPosition, visibleRows)
  {
    results := [];
    for i := 0 to |reels|
      invariant |results| == i
      invariant forall k :: 0 <= k < i ==> results[k] == Window(reels[k].symbols, reels[k].targetPosition, visibleRows)
    {
      var reel := reels[i];
      var reelLength := |reel.symbols|;
      var resultColumn := [];
      var finalTopIndex := JsRem(reel.targetPosition, reelLength);
      for j := 0 to visibleRows
        invariant |resultColumn| == j
        invariant forall k :: 0 <= k < j ==> resultColumn[k] == WindowSymbol(reel.symbols, reel.targetPosition, k)
      {
        var symbolIndex := if finalTopIndex.Num? then JsRem(finalTopIndex.v + j, reelLength) else NaN;
        resultColumn := resultColumn + [SymbolAt(reel.symbols, symbolIndex)];
      }
      results := results + [resultColumn];
    }
  }

  /** On reels with non-empty strips and targets that are not negative every
      cell of the window is defined and wraps around the strip. */
  lemma WindowOfStoppedReel(symbols: seq<nat>, target: int, rows: nat, j: nat)
    requires |symbols| > 0 && target >= 0 && j < rows
    ensures Window(symbols, target, rows)[j] == Some(symbols[(target + j) % |symbols|])
  {
    WindowWraps(symbols, target, j);
  }

  /** createSpecialTiles: the mapping itself; every special tile is already in it. */
  function CreateSpecialTiles(symbolNumberMultipliers: SymbolMapping): (r: SymbolMapping)
    ensures r == symbolNumberMultipliers
  {
    symbolNumberMultipliers
  }

  // ---------------------------------------------------------------- scoring a line

  /** `PAYOUT_RULES[len] || 1`: an absent or zero rule counts as 1. */
  function LengthMultiplier(rules: PayoutRules, len: int): int
  {
    if len in rules && rules[len] != 0 then rules[len] else 1
  }

  /** With the shipped rules every word length has multiplier 1. */
  lemma ConfigLengthMultiplier(len: int)
    ensures LengthMultiplier(Config.PayoutRulesTable, len) == 1
  {
  }

  /** What the DL/TL pass adds for one position: the letter value once on a
      DL tile, twice on a TL tile, nothing elsewhere or where the mapping has
      no entry. */
  function LetterBonus(grid: Grid, mapping: SymbolMapping, p: Position): int
  {
    match EntryAt(grid, mapping, p)
    case None => 0
    case Some(e) => if e.kind == DoubleLetter then e.value else if e.kind == TripleLetter then 2 * e.value else 0
  }

  /** The factor the DW/TW pass applies for one position: 2 on DW, 3 on TW, else 1. */
  function WordFactor(grid: Grid, mapping: SymbolMapping, p: Position): int
  {
    match EntryAt(grid, mapping, p)
    case None => 1
    case Some(e) => if e.kind == DoubleWord then 2 else if e.kind == TripleWord then 3 else 1
  }

  function LetterBonuses(grid: Grid, mapping: SymbolMapping, ps: seq<Position>): int
  {
    if |ps| == 0 then 0
    else LetterBonuses(grid, mapping, ps[..|ps| - 1]) + LetterBonus(grid, mapping, ps[|ps| - 1])
  }

  function WordFactors(grid: Grid, mapping: SymbolMapping, ps: seq<Position>): int
  {
    if |ps| == 0 then 1
    else WordFactors(grid, mapping, ps[..|ps| - 1]) * WordFactor(grid, mapping, ps[|ps| - 1])
  }

  /** A mapping without DL, TL, DW or TW entries. */
  predicate NoBonusTiles(mapping: SymbolMapping)
  {
    forall n :: n in mapping ==> mapping[n].kind == Plain
  }

  /** Without bonus tiles a word gets no letter bonus and no word factor. */
  lemma {:induction false} NoBonusTilesNeutral(grid: Grid, mapping: SymbolMapping, ps: seq<Position>)
    requires NoBonusTiles(mapping)
    ensures LetterBonuses(grid, mapping, ps) == 0
    ensures WordFactors(grid, mapping, ps) == 1
  {
    if |ps| > 0 {
      NoBonusTilesNeutral(grid, mapping, ps[..|ps| - 1]);
    }
  }

  /** The word factors compound: each DW doubles and each TW triples the
      amount, so the product is 2^(DW count) * 3^(TW count). */
  function Pow(b: int, e: nat): int
  {
    if e == 0 then 1 else b * Pow(b, e - 1)
  }

  /** One more factor b raises its power by one, next to a power of c. */
  lemma PowStep(b: int, e: nat, c: int, d: nat)
    ensures Pow(b, e + 1) * Pow(c, d) == (Pow(b, e) * Pow(c, d)) * b
    ensures Pow(c, d) * Pow(b, e + 1) == (Pow(c, d) * Pow(b, e)) * b
  {
    var x, y := Pow(b, e), Pow(c, d);
    assert Pow(b, e + 1) == b * x;
    assert (b * x) * y == (x * y) * b;
    assert y * (b * x) == (y * x) * b;
  }

  function CountKind(grid: Grid, mapping: SymbolMapping, ps: seq<Position>, kind: TileKind): nat
  {
    if |ps| == 0 then 0
    else
      var e := EntryAt(grid, mapping, ps[|ps| - 1]);
      CountKind(grid, mapping, ps[..|ps| - 1], kind) + (if e.Some? && e.value.kind == kind then 1 else 0)
  }

  lemma {:induction false} WordFactorsCompound(grid: Grid, mapping: SymbolMapping, ps: seq<Position>)
    ensures WordFactors(grid, mapping, ps) ==
      Pow(2, CountKind(grid, mapping, ps, DoubleWord)) * Pow(3, CountKind(grid, mapping, ps, TripleWord))
  {
    if |ps| > 0 {
      var init := ps[..|ps| - 1];
      WordFactorsCompound(grid, mapping, init);
      var a, b := CountKind(grid, mapping, init, DoubleWord), CountKind(grid, mapping, init, TripleWord);
      var x, y := Pow(2, a), Pow(3, b);
      var e := EntryAt(grid, mapping, ps[|ps| - 1]);
      var f := WordFactor(grid, mapping, ps[|ps| - 1]);
      assert WordFactors(grid, mapping, ps) == (x * y) * f;
      if e.Some? && e.value.kind == DoubleWord {
        PowStep(2, a, 3, b);
        assert f == 2;
      } else if e.Some? && e.value.kind == TripleWord {
        PowStep(3, b, 2, a);
        assert f == 3;
      } else {
        assert f == 1;
      }
    }
  }

  /** The letter bonuses are the DL values once and the TL values twice. */
  function KindValues(grid: Grid, mapping: SymbolMapping, ps: seq<Position>, kind: TileKind): int
  {
    if |ps| == 0 then 0
    else
      var e := EntryAt(grid, mapping, ps[|ps| - 1]);
      KindValues(grid, mapping, ps[..|ps| - 1], kind) + (if e.Some? && e.value.kind == kind then e.value.value else 0)
  }

  lemma {:induction false} LetterBonusesSplit(grid: Grid, mapping: SymbolMapping, ps: seq<Position>)
    ensures LetterBonuses(grid, mapping, ps) ==
      KindValues(grid, mapping, ps, DoubleLetter) + 2 * KindValues(grid, mapping, ps, TripleLetter)
  {
    if |ps| > 0 {
      LetterBonusesSplit(grid, mapping, ps[..|ps| - 1]);
    }
  }

  /** The bet a payline carries: its `betAmount`, NaN when it is undefined. */
  function BetOf(line: Payline): (b: Number)
    ensures b.NaN? <==> line.betAmount.None?
  {
    match line.betAmount
    case None => NaN
    case Some(bet) => Num(bet)
  }

  /** A line with a position on a reel the grid does not have: reading
      `reelResults[pos.reel][pos.row]` throws there. */
  predicate MissingReel(grid: Grid, ps: seq<Position>)
  {
    exists j :: 0 <= j < |ps| && ps[j].reel >= |grid|
  }

  /** Lines shorter than MIN_WIN_LENGTH are skipped. */
  predicate Included(line: Payline)
  {
    line.count >= Config.MinWinLength
  }

  /** A line checkWin scores: the letter bonuses added to its base value, the
      length multiplier applied (the stored multiplier), then the bet and the
      word factors (the amount). */
  function ScoreLine(grid: Grid, mapping: SymbolMapping, rules: PayoutRules, line: Payline): (scored: Payline)
    ensures scored.paylineId == line.paylineId && scored.symbolName == line.symbolName
    ensures scored.positions == line.positions && scored.count == line.count && scored.betAmount == line.betAmount
  {
    var adjusted := line.multiplier + LetterBonuses(grid, mapping, line.positions);
    var lengthMultiplier := LengthMultiplier(rules, line.count);
    line.(multiplier := adjusted * lengthMultiplier,
          amount := Num(adjusted * lengthMultiplier).Times(BetOf(line)).Times(Num(WordFactors(grid, mapping, line.positions))))
  }

  /** With a bet, the amount is the base value plus the letter bonuses, times
      the length multiplier, the bet and the word factors; the stored
      multiplier leaves out the bet and the word factors. Without a bet the
      amount is NaN. */
  lemma ScoreLineAmount(grid: Grid, mapping: SymbolMapping, rules: PayoutRules, line: Payline)
    ensures line.betAmount.None? ==> ScoreLine(grid, mapping, rules, line).amount == NaN
    ensures line.betAmount.Some? ==>
      ScoreLine(grid, mapping, rules, line).amount ==
      Num((line.multiplier + KindValues(grid, mapping, line.positions, DoubleLetter) + 2 * KindValues(grid, mapping, line.positions, TripleLetter))
          * LengthMultiplier(rules, line.count) * line.betAmount.value
          * (Pow(2, CountKind(grid, mapping, line.positions, DoubleWord)) * Pow(3, CountKind(grid, mapping, line.positions, TripleWord))))
    ensures ScoreLine(grid, mapping, rules, line).multiplier ==
      (line.multiplier + KindValues(grid, mapping, line.positions, DoubleLetter) + 2 * KindValues(grid, mapping, line.positions, TripleLetter))
      * LengthMultiplier(rules, line.count)
  {
    LetterBonusesSplit(grid, mapping, line.positions);
    WordFactorsCompound(grid, mapping, line.positions);
  }

  // ---------------------------------------------------------------- tallying the lines

  /** The `bestMatch` record: the fields of a line checkWin reports as best. */
  datatype BestMatch = BestMatch(paylineId: nat, symbolName: string, multiplier: int, count: nat, amount: Number)

  /** What checkWin returns when there is a win. */
  datatype WinInfo = WinInfo(totalAmount: int, bestMatch: Option<BestMatch>, allLines: seq<Payline>)

  function MatchOf(line: Payline): BestMatch
  {
    BestMatch(line.paylineId, line.symbolName, line.multiplier, line.count, line.amount)
  }

  /** The lines checkWin keeps, scored, in input order. */
  function ScoredLines(grid: Grid, mapping: SymbolMapping, rules: PayoutRules, ls: seq<Payline>): (scored: seq<Payline>)
    ensures |scored| <= |ls|
  {
    if |ls| == 0 then []
    else
      ScoredLines(grid, mapping, rules, ls[..|ls| - 1]) +
      (if Included(ls[|ls| - 1]) then [ScoreLine(grid, mapping, rules, ls[|ls| - 1])] else [])
  }

  /** The running total of the amounts. */
  function SumAmounts(ls: seq<Payline>): Number
  {
    if |ls| == 0 then Num(0) else SumAmounts(ls[..|ls| - 1]).Plus(ls[|ls| - 1].amount)
  }

  /** One update of the best match: taken when there is none yet or when the
      new amount is strictly greater. */
  function UpdateBest(best: Option<BestMatch>, line: Payline): Option<BestMatch>
  {
    if best.None? || line.amount.Greater(best.value.amount) then Some(MatchOf(line)) else best
  }

  /** The best match after every line. */
  function BestOf(ls: seq<Payline>): Option<BestMatch>
  {
    if |ls| == 0 then None else UpdateBest(BestOf(ls[..|ls| - 1]), ls[|ls| - 1])
  }

  /** Some included line has a position on a missing reel. */
  predicate Throws(grid: Grid, ls: seq<Payline>)
  {
    exists i :: 0 <= i < |ls| && Included(ls[i]) && MissingReel(grid, ls[i].positions)
  }

  /** One more line throws exactly when it is included and on a missing reel. */
  lemma ThrowsStep(grid: Grid, ls: seq<Payline>, k: nat)
    requires k < |ls|
    ensures Throws(grid, ls[..k + 1]) <==> Throws(grid, ls[..k]) || (Included(ls[k]) && MissingReel(grid, ls[k].positions))
  {
    assert forall i :: 0 <= i < k ==> ls[..k + 1][i] == ls[..k][i];
    assert ls[..k + 1][k] == ls[k];
  }

  /** One more line adds its scored form exactly when it is included. */
  lemma ScoredLinesStep(grid: Grid, mapping: SymbolMapping, rules: PayoutRules, ls: seq<Payline>, k: nat)
    requires k < |ls|
    ensures ScoredLines(grid, mapping, rules, ls[..k + 1]) ==
      ScoredLines(grid, mapping, rules, ls[..k]) + (if Included(ls[k]) then [ScoreLine(grid, mapping, rules, ls[k])] else [])
  {
    assert ls[..k + 1][..k] == ls[..k];
  }

  /** One more scored line adds its amount to the total and updates the best match. */
  lemma TallyStep(ls: seq<Payline>, line: Payline)
    ensures SumAmounts(ls + [line]) == SumAmounts(ls).Plus(line.amount)
    ensures BestOf(ls + [line]) == UpdateBest(BestOf(ls), line)
  {
    assert (ls + [line])[..|ls|] == ls;
  }

  /** What checkWin returns: null for an empty grid, when no word is found,
      when a line throws, or when the total is not positive; otherwise the
      total, the best match and the scored lines. */
  function CheckWinResult(grid: Grid, mapping: SymbolMapping, findWords: (Grid, SymbolMapping) -> seq<FoundWord>,
                          wordsToPaylines: seq<FoundWord> -> seq<Payline>, rules: PayoutRules): Option<WinInfo>
  {
    if |grid| == 0 then None
    else
      var found := findWords(grid, mapping);
      if |found| == 0 then None
      else
        var ls := wordsToPaylines(found);
        if Throws(grid, ls) then None
        else
          var scored := ScoredLines(grid, mapping, rules, ls);
          var total := SumAmounts(scored);
          if total.Greater(Num(0)) then Some(WinInfo(total.v, BestOf(scored), scored)) else None
  }

  /** When no included line throws, checkWin wins exactly when some word is
      found and the scored lines total more than 0. */
  lemma CheckWinWithoutThrow(grid: Grid, mapping: SymbolMapping, findWords: (Grid, SymbolMapping) -> seq<FoundWord>,
                             wordsToPaylines: seq<FoundWord> -> seq<Payline>, rules: PayoutRules)
    requires |grid| > 0 && !Throws(grid, wordsToPaylines(findWords(grid, mapping)))
    ensures var scored := ScoredLines(grid, mapping, rules, wordsToPaylines(findWords(grid, mapping)));
            var total := SumAmounts(scored);
            CheckWinResult(grid, mapping, findWords, wordsToPaylines, rules) ==
              if |findWords(grid, mapping)| == 0 || !total.Greater(Num(0)) then None
              else Some(WinInfo(total.v, BestOf(scored), scored))
  {
  }

  // ---------------------------------------------------------------- properties of the tally

  /** The total is NaN exactly when some amount is NaN. */
  lemma {:induction false} SumAmountsNaN(ls: seq<Payline>)
    ensures SumAmounts(ls).NaN? <==> exists i :: 0 <= i < |ls| && ls[i].amount.NaN?
  {
    if |ls| > 0 {
      var init := ls[..|ls| - 1];
      SumAmountsNaN(init);
      assert forall i :: 0 <= i < |init| ==> init[i] == ls[i];
    }
  }

  /** With amounts that are numbers and not negative, the total is a number
      and at least every amount. */
  lemma {:induction false} SumAmountsDominates(ls: seq<Payline>)
    requires forall i :: 0 <= i < |ls| ==> ls[i].amount.Num? && ls[i].amount.v >= 0
    ensures SumAmounts(ls).Num? && SumAmounts(ls).v >= 0
    ensures forall i :: 0 <= i < |ls| ==> ls[i].amount.v <= SumAmounts(ls).v
  {
    if |ls| > 0 {
      var init := ls[..|ls| - 1];
      assert forall i :: 0 <= i < |init| ==> init[i] == ls[i];
      SumAmountsDominates(init);
    }
  }

  /** Amounts that are all 0 total 0. */
  lemma {:induction false} SumAmountsZero(ls: seq<Payline>)
    requires forall i :: 0 <= i < |ls| ==> ls[i].amount == Num(0)
    ensures SumAmounts(ls) == Num(0)
  {
    if |ls| > 0 {
      var init := ls[..|ls| - 1];
      assert forall i :: 0 <= i < |init| ==> init[i] == ls[i];
      SumAmountsZero(init);
    }
  }

  /** With amounts that are numbers and not negative, the total is positive
      exactly when some line pays. */
  lemma SumAmountsPositive(ls: seq<Payline>)
    requires forall i :: 0 <= i < |ls| ==> ls[i].amount.Num? && ls[i].amount.v >= 0
    ensures SumAmounts(ls).Num?
    ensures SumAmounts(ls).v > 0 <==> exists i :: 0 <= i < |ls| && ls[i].amount.v > 0
  {
    SumAmountsDominates(ls);
    if forall i :: 0 <= i < |ls| ==> ls[i].amount.v <= 0 {
      SumAmountsZero(ls);
    }
  }

  /** With amounts that are numbers, the best match is the first line with
      the greatest amount: no line pays more, every earlier line pays less. */
  lemma {:induction false} BestOfIsFirstMaximum(ls: seq<Payline>) returns (i: nat)
    requires |ls| > 0
    requires forall k :: 0 <= k < |ls| ==> ls[k].amount.Num?
    ensures i < |ls| && BestOf(ls) == Some(MatchOf(ls[i]))
    ensures forall k :: 0 <= k < |ls| ==> ls[k].amount.v <= ls[i].amount.v
    ensures forall k :: 0 <= k < i ==> ls[k].amount.v < ls[i].amount.v
  {
    var last := |ls| - 1;
    if last == 0 {
      return 0;
    }
    var init := ls[..last];
    assert forall k :: 0 <= k < |init| ==> init[k] == ls[k];
    i := BestOfIsFirstMaximum(init);
    if ls[last].amount.v > ls[i].amount.v {
      i := last;
    }
  }

  /** Only included lines are scored, each keeps its identity and order. */
  lemma {:induction false} ScoredLinesIncluded(grid: Grid, mapping: SymbolMapping, rules: PayoutRules, ls: seq<Payline>)
    ensures forall k :: 0 <= k < |ScoredLines(grid, mapping, rules, ls)| ==> Included(ScoredLines(grid, mapping, rules, ls)[k])
    ensures (forall k :: 0 <= k < |ls| ==> Included(ls[k])) ==>
      |ScoredLines(grid, mapping, rules, ls)| == |ls| &&
      forall k :: 0 <= k < |ls| ==> ScoredLines(grid, mapping, rules, ls)[k] == ScoreLine(grid, mapping, rules, ls[k])
  {
    if |ls| > 0 {
      var init := ls[..|ls| - 1];
      assert forall k :: 0 <= k < |init| ==> init[k] == ls[k];
      ScoredLinesIncluded(grid, mapping, rules, init);
    }
  }

  /** Lines without a bet get NaN amounts. */
  lemma {:induction false} ScoredWithoutBet(grid: Grid, mapping: SymbolMapping, rules: PayoutRules, ls: seq<Payline>)
    requires forall k :: 0 <= k < |ls| ==> ls[k].betAmount.None?
    ensures forall k :: 0 <= k < |ScoredLines(grid, mapping, rules, ls)| ==> ScoredLines(grid, mapping, rules, ls)[k].amount == NaN
  {
    if |ls| > 0 {
      var init := ls[..|ls| - 1];
      assert forall k :: 0 <= k < |init| ==> init[k] == ls[k];
      ScoredWithoutBet(grid, mapping, rules, init);
    }
  }

  // ---------------------------------------------------------------- the finding

  /** checkWin composed with wordsToPaylines of the word finder, which never
      sets `betAmount`: every amount is NaN, so the total is never positive
      and there is never a win, whatever the grid and the words found. */
  lemma CheckWinNeverPaysAsShipped(grid: Grid, mapping: SymbolMapping, findWords: (Grid, SymbolMapping) -> seq<FoundWord>, rules: PayoutRules)
    ensures CheckWinResult(grid, mapping, findWords, WordsToPaylines, rules) == None
  {
    if |grid| > 0 && |findWords(grid, mapping)| > 0 {
      var ls := WordsToPaylines(findWords(grid, mapping));
      var scored := ScoredLines(grid, mapping, rules, ls);
      ScoredWithoutBet(grid, mapping, rules, ls);
      SumAmountsNaN(scored);
      if |scored| > 0 {
        assert scored[0].amount.NaN?;
      }
    }
  }

  /** A concrete grid with the word CAT in its first row: the words are found,
      and still there is no win. */
  lemma CheckWinNeverPaysExample()
    ensures var grid := [[2, 0, 0], [0, 0, 0], [19, 0, 0]];
            var found := FindWordsSpec(grid, Config.SymbolNumberMultipliers, DictionaryTest({"cat"}), Config.PayoutRulesTable);
            |found| > 0 &&
            CheckWinResult(grid, Config.SymbolNumberMultipliers,
                           (g, m) => FindWordsSpec(g, m, DictionaryTest({"cat"}), Config.PayoutRulesTable),
                           WordsToPaylines, Config.PayoutRulesTable) == None
  {
    var grid := [[2, 0, 0], [0, 0, 0], [19, 0, 0]];
    var test := DictionaryTest({"cat"});
    ExampleFindsCat();
    CheckWinNeverPaysAsShipped(grid, Config.SymbolNumberMultipliers, (g, m) => FindWordsSpec(g, m, test, Config.PayoutRulesTable),
                               Config.PayoutRulesTable);
  }

  /** The example grid's first row spells CAT, so findWords finds a word. */
  lemma ExampleFindsCat()
    ensures |FindWordsSpec([[2, 0, 0], [0, 0, 0], [19, 0, 0]], Config.SymbolNumberMultipliers, DictionaryTest({"cat"}), Config.PayoutRulesTable)| > 0
  {
    var grid := [[2, 0, 0], [0, 0, 0], [19, 0, 0]];
    var mapping := Config.SymbolNumberMultipliers;
    var test := DictionaryTest({"cat"});
    var rules := Config.PayoutRulesTable;
    ExampleRowPicks();
    var lines := GridLines(grid);
    GridLineAt(grid, 0);
    WordsOfLinesStep(grid, mapping, test, rules, lines, 0);
    assert lines[..1][..0] == [];
    WordsOfLinesConcat(grid, mapping, test, rules, lines[..1], lines[1..]);
    assert lines[..1] + lines[1..] == lines;
  }

  /** The first row of the example grid reads CAT, a hit of the dictionary. */
  lemma ExampleRowPicks()
    ensures LinePick(DictionaryTest({"cat"}), Config.PayoutRulesTable,
                     LettersOf([[2, 0, 0], [0, 0, 0], [19, 0, 0]], Config.SymbolNumberMultipliers, RowPositions([[2, 0, 0], [0, 0, 0], [19, 0, 0]], 0))).Pick?
  {
    var grid := [[2, 0, 0], [0, 0, 0], [19, 0, 0]];
    var mapping := Config.SymbolNumberMultipliers;
    var test := DictionaryTest({"cat"});
    var rules := Config.PayoutRulesTable;
    Config.LetterTableKeys();
    var w := LettersOf(grid, mapping, RowPositions(grid, 0));
    assert w == "CAT";
    assert w[0..3] == "CAT";
    assert Text.Lower("CAT") == "cat";
    assert IsHit(test, rules, w, 0, 3);
    LinePickNone(test, rules, w);
  }

  /** The evidently intended conversion: wordsToPaylines with the bet set on every line. */
  function WordsToBetPaylines(words: seq<FoundWord>, bet: int): (r: seq<Payline>)
    ensures |r| == |words|
    ensures forall i :: 0 <= i < |r| ==> r[i] == WordsToPaylines(words)[i].(betAmount := Some(bet))
  {
    seq(|words|, i requires 0 <= i < |words| => WordsToPaylines(words)[i].(betAmount := Some(bet)))
  }

  /** With the bet set, every scored amount is a number, and checkWin wins
      exactly when the words found pay a positive total; with a positive bet,
      letter values that are not negative and positive length multipliers
      that is exactly when some scored line pays. */
  lemma CheckWinWithBetPays(grid: Grid, mapping: SymbolMapping, findWords: (Grid, SymbolMapping) -> seq<FoundWord>,
                            rules: PayoutRules, bet: int)
    requires |grid| > 0 && |findWords(grid, mapping)| > 0
    requires !Throws(grid, WordsToBetPaylines(findWords(grid, mapping), bet))
    ensures var scored := ScoredLines(grid, mapping, rules, WordsToBetPaylines(findWords(grid, mapping), bet));
            (forall k :: 0 <= k < |scored| ==> scored[k].amount.Num?) && SumAmounts(scored).Num? &&
            (CheckWinResult(grid, mapping, findWords, ls => WordsToBetPaylines(ls, bet), rules).Some? <==>
               SumAmounts(scored).v > 0)
  {
    var ls := WordsToBetPaylines(findWords(grid, mapping), bet);
    ScoredWithBet(grid, mapping, rules, ls);
    var scored := ScoredLines(grid, mapping, rules, ls);
    SumAmountsNaN(scored);
  }

  /** Lines with a bet get amounts that are numbers. */
  lemma {:induction false} ScoredWithBet(grid: Grid, mapping: SymbolMapping, rules: PayoutRules, ls: seq<Payline>)
    requires forall k :: 0 <= k < |ls| ==> ls[k].betAmount.Some?
    ensures forall k :: 0 <= k < |ScoredLines(grid, mapping, rules, ls)| ==> ScoredLines(grid, mapping, rules, ls)[k].amount.Num?
  {
    if |ls| > 0 {
      var init := ls[..|ls| - 1];
      assert forall k :: 0 <= k < |init| ==> init[k] == ls[k];
      ScoredWithBet(grid, mapping, rules, init);
    }
  }

  // ---------------------------------------------------------------- the method

  /** checkWin of core/gameMechanics.js. */
  method CheckWin(reelResults: Grid, symbolNumberMultipliers: SymbolMapping, findWords: (Grid, SymbolMapping) -> seq<FoundWord>,
                  wordsToPaylines: seq<FoundWord> -> seq<Payline>, rules: PayoutRules)
    returns (result: Option<WinInfo>)
    ensures result == CheckWinResult(reelResults, symbolNumberMultipliers, findWords, wordsToPaylines, rules)
  {
    if |reelResults| == 0 {
      return None;
    }
    var winningLines: seq<Payline> := [];
    var totalWinAmount := Num(0);
    var bestMatchDetails: Option<BestMatch> := None;
    var foundWords := findWords(reelResults, symbolNumberMultipliers);
    if |foundWords| == 0 {
      return None;
    }
    var wordPaylines := wordsToPaylines(foundWords);
    for k := 0 to |wordPaylines|
      invariant !Throws(reelResults, wordPaylines[..k])
      invariant winningLines == ScoredLines(reelResults, symbolNumberMultipliers, rules, wordPaylines[..k])
      invariant totalWinAmount == SumAmounts(winningLines)
      invariant bestMatchDetails == BestOf(winningLines)
    {
      var thrown;
      winningLines, totalWinAmount, bestMatchDetails, thrown :=
        TallyLine(reelResults, symbolNumberMultipliers, rules, wordPaylines, k, winningLines, totalWinAmount, bestMatchDetails);
      if thrown {
        return None;
      }
    }
    assert wordPaylines[..|wordPaylines|] == wordPaylines;
    if totalWinAmount.Greater(Num(0)) {
      return Some(WinInfo(totalWinAmount.v, bestMatchDetails, winningLines));
    }
    return None;
  }

  /** One turn of checkWin's loop over line k: a line shorter than
      MIN_WIN_LENGTH is skipped; otherwise it is scored, added to the total
      and taken as the best match when it pays strictly more. */
  method TallyLine(reelResults: Grid, mapping: SymbolMapping, rules: PayoutRules, wordPaylines: seq<Payline>, k: nat,
                   winningLines: seq<Payline>, totalWinAmount: Number, bestMatchDetails: Option<BestMatch>)
    returns (winningLines': seq<Payline>, totalWinAmount': Number, bestMatchDetails': Option<BestMatch>, thrown: bool)
    requires k < |wordPaylines| && !Throws(reelResults, wordPaylines[..k])
    requires winningLines == ScoredLines(reelResults, mapping, rules, wordPaylines[..k])
    requires totalWinAmount == SumAmounts(winningLines) && bestMatchDetails == BestOf(winningLines)
    ensures thrown ==> Throws(reelResults, wordPaylines)
    ensures !thrown ==> !Throws(reelResults, wordPaylines[..k + 1])
    ensures !thrown ==> winningLines' == ScoredLines(reelResults, mapping, rules, wordPaylines[..k + 1])
    ensures !thrown ==> totalWinAmount' == SumAmounts(winningLines') && bestMatchDetails' == BestOf(winningLines')
  {
    var wordLine := wordPaylines[k];
    ThrowsStep(reelResults, wordPaylines, k);
    ScoredLinesStep(reelResults, mapping, rules, wordPaylines, k);
    winningLines', totalWinAmount', bestMatchDetails', thrown := winningLines, totalWinAmount, bestMatchDetails, false;
    if wordLine.count < Config.MinWinLength {
      return;
    }
    var scored;
    scored, thrown := ScoreWordLine(reelResults, mapping, rules, wordLine);
    if thrown {
      assert Throws(reelResults, wordPaylines) by {
        assert wordPaylines[k] == wordLine;
      }
      return;
    }
    var winAmount := scored.amount;
    totalWinAmount' := totalWinAmount.Plus(winAmount);
    winningLines' := winningLines + [scored];
    TallyStep(winningLines, scored);
    if bestMatchDetails.None? || winAmount.Greater(bestMatchDetails.value.amount) {
      bestMatchDetails' := Some(BestMatch(scored.paylineId, scored.symbolName, scored.multiplier, scored.count, winAmount));
    }
  }

  /** The body of checkWin's loop for one included line: the letter
      bonuses, the length multiplier, the bet and the word factors, or
      `thrown` when a position is on a missing reel. */
  method ScoreWordLine(reelResults: Grid, mapping: SymbolMapping, rules: PayoutRules, wordLine: Payline)
    returns (scored: Payline, thrown: bool)
    ensures thrown <==> MissingReel(reelResults, wordLine.positions)
    ensures !thrown ==> scored == ScoreLine(reelResults, mapping, rules, wordLine)
  {
    var lengthMultiplier := LengthMultiplier(rules, wordLine.count);
    var adjustedBaseValue;
    adjustedBaseValue, thrown := AddLetterBonuses(reelResults, mapping, wordLine.positions, wordLine.multiplier);
    if thrown {
      return wordLine, true;
    }
    var winAmount := Num(adjustedBaseValue * lengthMultiplier).Times(BetOf(wordLine));
    winAmount := ApplyWordFactors(reelResults, mapping, wordLine.positions, winAmount);
    scored := wordLine.(multiplier := adjustedBaseValue * lengthMultiplier, amount := winAmount);
  }

  /** The DL/TL pass over one line: the base value plus the letter bonuses,
      or `thrown` at the first position on a missing reel. */
  method AddLetterBonuses(reelResults: Grid, mapping: SymbolMapping, positions: seq<Position>, baseValue: int)
    returns (adjustedBaseValue: int, thrown: bool)
    ensures thrown <==> MissingReel(reelResults, positions)
    ensures !thrown ==> adjustedBaseValue == baseValue + LetterBonuses(reelResults, mapping, positions)
  {
    adjustedBaseValue := baseValue;
    for i := 0 to |positions|
      invariant !MissingReel(reelResults, positions[..i])
      invariant adjustedBaseValue == baseValue + LetterBonuses(reelResults, mapping, positions[..i])
    {
      var pos := positions[i];
      assert positions[..i + 1][..i] == positions[..i];
      if pos.reel >= |reelResults| {
        return adjustedBaseValue, true;
      }
      var symbol := EntryAt(reelResults, mapping, pos);
      if symbol.Some? && symbol.value.kind == DoubleLetter {
        adjustedBaseValue := adjustedBaseValue + symbol.value.value;
      } else if symbol.Some? && symbol.value.kind == TripleLetter {
        adjustedBaseValue := adjustedBaseValue + symbol.value.value * 2;
      }
    }
    assert positions[..|positions|] == positions;
    thrown := false;
  }

  /** The DW/TW pass over one line: the amount doubled per DW and tripled per TW. */
  method ApplyWordFactors(reelResults: Grid, mapping: SymbolMapping, positions: seq<Position>, amount: Number)
    returns (winAmount: Number)
    ensures winAmount == amount.Times(Num(WordFactors(reelResults, mapping, positions)))
  {
    winAmount := amount;
    for i := 0 to |positions|
      invariant winAmount == amount.Times(Num(WordFactors(reelResults, mapping, positions[..i])))
    {
      var pos := positions[i];
      assert positions[..i + 1][..i] == positions[..i];
      var symbol := EntryAt(reelResults, mapping, pos);
      if symbol.Some? && symbol.value.kind == DoubleWord {
        winAmount := winAmount.Times(Num(2));
      } else if symbol.Some? && symbol.value.kind == TripleWord {
        winAmount := winAmount.Times(Num(3));
      }
    }
    assert positions[..|positions|] == positions;
  }
}

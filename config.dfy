/** The static configuration of the slot (themes/config.js): reel strips,
    the letter table, the length multipliers, the paylines and the minimum
    word length, with lemmas that state their shape. */
module Config {
  import opened Wrappers
  import opened Tiles

  /** Five reel strips of symbol ids 0..25. */
  const ReelStrips: seq<seq<nat>> := [
    [0, 4, 8, 14, 17, 0, 19, 14, 0, 11, 8, 19, 7, 4, 17, 0, 4, 12, 13, 14, 15, 18, 19, 0, 4, 8, 14, 20, 4, 5],
    [1, 0, 4, 8, 14, 17, 19, 4, 13, 14, 15, 18, 19, 1, 3, 4, 5, 7, 9, 11, 13, 15, 17, 19, 21, 23, 0, 8, 14, 20],
    [2, 0, 4, 8, 14, 17, 19, 0, 2, 4, 6, 8, 10, 12, 14, 16, 18, 20, 22, 24, 0, 5, 9, 14, 21, 25, 0, 5, 15, 20],
    [3, 0, 4, 8, 14, 17, 19, 4, 13, 14, 15, 18, 19, 1, 3, 5, 7, 9, 11, 13, 15, 17, 19, 21, 23, 0, 8, 14, 20, 3],
    [0, 2, 4, 6, 8, 10, 12, 14, 16, 18, 20, 22, 24, 0, 4, 8, 14, 17, 19, 0, 2, 4, 6, 8, 10, 12, 14, 16, 18, 20]
  ]

  /** symbolNumberMultipliers: ids 0..25 to letter and Scrabble value, with no `type`. */
  const SymbolNumberMultipliers: SymbolMapping :=
    map n: nat | n < 26 :: SymbolInfo((65 + n) as char, LetterValues[n], Plain, None)

  /** The Scrabble value of each letter A..Z, as listed in symbolNumberMultipliers. */
  const LetterValues: seq<int> := [1, 3, 3, 2, 1, 4, 2, 4, 1, 8, 5, 1, 3, 1, 1, 3, 10, 1, 1, 1, 1, 4, 4, 8, 4, 10]

  /** PAYOUT_RULES: every shipped length multiplier is 1. */
  const PayoutRulesTable: PayoutRules := map[3 := 1, 4 := 1, 5 := 1]

  /** MIN_WIN_LENGTH. */
  const MinWinLength: nat := 3

  /** PAYLINES: the five rows, then the five reels, of the 5x5 grid. */
  const Paylines: seq<seq<Position>> := [
    [Position(0, 0), Position(1, 0), Position(2, 0), Position(3, 0), Position(4, 0)],
    [Position(0, 1), Position(1, 1), Position(2, 1), Position(3, 1), Position(4, 1)],
    [Position(0, 2), Position(1, 2), Position(2, 2), Position(3, 2), Position(4, 2)],
    [Position(0, 3), Position(1, 3), Position(2, 3), Position(3, 3), Position(4, 3)],
    [Position(0, 4), Position(1, 4), Position(2, 4), Position(3, 4), Position(4, 4)],
    [Position(0, 0), Position(0, 1), Position(0, 2), Position(0, 3), Position(0, 4)],
    [Position(1, 0), Position(1, 1), Position(1, 2), Position(1, 3), Position(1, 4)],
    [Position(2, 0), Position(2, 1), Position(2, 2), Position(2, 3), Position(2, 4)],
    [Position(3, 0), Position(3, 1), Position(3, 2), Position(3, 3), Position(3, 4)],
    [Position(4, 0), Position(4, 1), Position(4, 2), Position(4, 3), Position(4, 4)]
  ]

  lemma ReelStripsShape()
    ensures |ReelStrips| == 5
    ensures forall i :: 0 <= i < |ReelStrips| ==> |ReelStrips[i]| == 30
  {
  }

  /** Every strip entry is a letter id, hence a key of the letter table. */
  lemma ReelStripsUseLetters()
    ensures forall i, j :: 0 <= i < |ReelStrips| && 0 <= j < |ReelStrips[i]| ==>
      ReelStrips[i][j] < 26 && ReelStrips[i][j] in SymbolNumberMultipliers
  {
    LetterTableKeys();
    StripBelow(ReelStrips[0]);
    StripBelow(ReelStrips[1]);
    StripBelow(ReelStrips[2]);
    StripBelow(ReelStrips[3]);
    StripBelow(ReelStrips[4]);
  }

  lemma StripBelow(strip: seq<nat>)
    requires strip in ReelStrips
    ensures forall j :: 0 <= j < |strip| ==> strip[j] < 26
  {
  }

  /** The letter table defines exactly ids 0..25, id n being letter 'A' + n, all plain. */
  lemma LetterTableKeys()
    ensures forall n: nat :: n in SymbolNumberMultipliers <==> n < 26
    ensures forall n :: n in SymbolNumberMultipliers ==>
      SymbolNumberMultipliers[n].letter as int == 'A' as int + n && SymbolNumberMultipliers[n].kind == Plain
  {
  }

  /** Lengths 3, 4 and 5, each with multiplier 1. */
  lemma PayoutRulesShape()
    ensures forall len :: len in PayoutRulesTable <==> 3 <= len <= 5
    ensures forall len :: len in PayoutRulesTable ==> PayoutRulesTable[len] == 1
  {
  }

  /** Ten lines of five cells: line r < 5 is row r across reels 0..4, line 5 + c is reel c over rows 0..4. */
  lemma PaylinesShape()
    ensures |Paylines| == 10
    ensures forall k :: 0 <= k < 10 ==> |Paylines[k]| == 5
    ensures forall r, c :: 0 <= r < 5 && 0 <= c < 5 ==> Paylines[r][c] == Position(c, r)
    ensures forall c, r :: 0 <= c < 5 && 0 <= r < 5 ==> Paylines[5 + c][r] == Position(c, r)
  {
  }
}

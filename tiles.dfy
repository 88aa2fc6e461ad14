/** Types shared by every part of the engine: symbol ids, the letter/value/type
    record a mapping gives for an id, the reel-by-row grid and its positions,
    and the number type of payout amounts. */
module Tiles {
  import opened Wrappers

  /** The `type` field of a symbol: absent (a plain letter) or "dl", "tl", "dw", "tw". */
  datatype TileKind = Plain | DoubleLetter | TripleLetter | DoubleWord | TripleWord

  /** One entry of a symbol mapping. `pointValue` is present only on the plain
      band of the generated catalogue. */
  datatype SymbolInfo = SymbolInfo(letter: char, value: int, kind: TileKind, pointValue: Option<int>)

  /** A symbol mapping: symbol id to entry; ids without an entry are undefined in the source. */
  type SymbolMapping = map<nat, SymbolInfo>

  /** A grid of symbol ids indexed `grid[reel][row]`. */
  type Grid = seq<seq<nat>>

  /** A cell of the grid, `{reel, row}`. */
  datatype Position = Position(reel: nat, row: nat)

  /** PAYOUT_RULES: word length to length multiplier; absent lengths are undefined. */
  type PayoutRules = map<int, int>

  /** `grid[reel][row]`, or None where the source reads `undefined`. */
  function CellAt(grid: Grid, p: Position): (c: Option<nat>)
    ensures c.Some? <==> p.reel < |grid| && p.row < |grid[p.reel]|
  {
    if p.reel < |grid| && p.row < |grid[p.reel]| then Some(grid[p.reel][p.row]) else None
  }

  /** `mapping[grid[reel][row]]`, or None where the source reads `undefined`. */
  function EntryAt(grid: Grid, mapping: SymbolMapping, p: Position): (e: Option<SymbolInfo>)
    ensures e.Some? <==> CellAt(grid, p).Some? && CellAt(grid, p).value in mapping
  {
    match CellAt(grid, p)
    case Some(n) => if n in mapping then Some(mapping[n]) else None
    case None => None
  }

  /** A JavaScript number as the payout code uses it: an integer, or NaN
      (what arithmetic with `undefined` yields). */
  datatype Number = Num(v: int) | NaN {

    function Plus(other: Number): Number {
      if Num? && other.Num? then Num(v + other.v) else NaN
    }

    function Times(other: Number): Number {
      if Num? && other.Num? then Num(v * other.v) else NaN
    }

    /** `this > other`; every comparison with NaN is false. */
    predicate Greater(other: Number) {
      Num? && other.Num? && v > other.v
    }
  }
}

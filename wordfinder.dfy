/** The dictionary and the one-word-per-line word finder (wordFinder.js).
    Each row, then each column, of the grid is read as a string of letters; the
    scan picks at most one word per line: starts left to right, lengths longest
    first, lengths whose payout rule is exactly 0 skipped, a later start
    replacing the pick only with a strictly longer word, and the scan jumping
    past every word it records. The scan takes its validity test as a
    parameter `isValid` (DictionaryTest of the loaded set for isValidWord; the
    simulator passes its mock test), and PAYOUT_RULES as `rules`. */
module WordFinder {
  import opened Wrappers
  import opened Tiles
  import opened Text
  import Config
  import Symbols

  // ---------------------------------------------------------------- dictionary

  /** The set loadValidWords builds from the text of the word file: the text
      trimmed, split on line breaks, each line lower-cased and trimmed. */
  function BuildWordSet(text: string): set<string>
  {
    set line | line in SplitLines(Trim(text)) :: Trim(Lower(line))
  }

  /** isValidWord: false for words shorter than 3, otherwise membership of the lower-cased word. */
  predicate IsValidWord(dict: set<string>, word: string)
  {
    |word| >= 3 && Lower(word) in dict
  }

  /** isValidWord over a loaded word set, as a test the scan applies. */
  function DictionaryTest(dict: set<string>): (t: WordTest)
    ensures forall w :: t(w) <==> IsValidWord(dict, w)
  {
    w => IsValidWord(dict, w)
  }

  /** The validity test ignores ASCII case in both directions. */
  lemma IsValidWordIgnoresCase(dict: set<string>, word: string)
    ensures IsValidWord(dict, word) <==> IsValidWord(dict, Lower(word))
    ensures IsValidWord(dict, word) <==> IsValidWord(dict, Upper(word))
  {
    LowerIdempotent(word);
    LowerUpper(word);
  }

  /** A line of the word file, in any case and with surrounding blanks, gives a
      valid word in lower or upper case once it has at least 3 characters. */
  lemma LoadedLineIsValid(text: string, line: string)
    requires line in SplitLines(Trim(text))
    requires |Trim(Lower(line))| >= 3
    ensures IsValidWord(BuildWordSet(text), Trim(Lower(line)))
    ensures IsValidWord(BuildWordSet(text), Upper(Trim(Lower(line))))
  {
    var w := Trim(Lower(line));
    assert w in BuildWordSet(text);
    TrimOfLower(line);
    IsValidWordIgnoresCase(BuildWordSet(text), w);
  }

  /** A trimmed lower-cased line has no upper-case letter left. */
  lemma TrimOfLower(line: string)
    ensures Lower(Trim(Lower(line))) == Trim(Lower(line))
  {
    TrimKeepsNoUpper(Lower(line));
    LowerOfNoUpper(Trim(Lower(line)));
  }

  /** Dictionary state of the module: the set is replaced on every successful load. */
  class WordList {
    var validWordSet: set<string>

    constructor ()
      ensures validWordSet == {}
    {
      validWordSet := {};
    }

    /** loadValidWords given the fetched text, or None when the fetch failed or
        the response was not ok: on failure the set is kept and 0 returned. */
    method LoadValidWords(response: Option<string>) returns (size: nat)
      modifies this
      ensures response.None? ==> validWordSet == old(validWordSet) && size == 0
      ensures response.Some? ==> validWordSet == BuildWordSet(response.value) && size == |validWordSet|
    {
      if response.None? {
        return 0;
      }
      validWordSet := BuildWordSet(response.value);
      size := |validWordSet|;
    }
  }

  // ---------------------------------------------------------------- letters

  /** symbolNumberToLetter: the mapping's letter, else the letter of the id mod 26. */
  function SymbolNumberToLetter(n: nat, mapping: SymbolMapping): (c: char)
    ensures n in mapping ==> c == mapping[n].letter
    ensures n !in mapping ==> 'A' <= c <= 'Z' && c as int == 'A' as int + n % 26
  {
    if n in mapping then mapping[n].letter
    else if n >= 26 then (65 + n % 26) as char
    else (65 + n) as char
  }

  /** For ids outside a mapping, or ids of the generated catalogue, the letter is
      letter n mod 26 of the alphabet: the fallback agrees with the catalogue. */
  lemma SymbolLetterIsBaseLetter(n: nat, mapping: SymbolMapping)
    requires forall m: nat :: m in mapping <==> m < 130
    requires forall m :: m in mapping ==> mapping[m].letter == Symbols.LetterProperties[m % 26].letter
    ensures SymbolNumberToLetter(n, mapping) as int == 'A' as int + n % 26
    ensures SymbolNumberToLetter(n, mapping) == SymbolNumberToLetter(n, map[])
  {
    Symbols.LetterPropertiesOrder();
  }

  /** The letter of a grid cell; a missing cell reads as "\0", what
      `String.fromCharCode(65 + undefined)` gives. */
  function CellLetter(grid: Grid, mapping: SymbolMapping, p: Position): (c: char)
    ensures CellAt(grid, p).None? ==> c == '\0'
    ensures CellAt(grid, p).Some? ==> c == SymbolNumberToLetter(CellAt(grid, p).value, mapping)
  {
    match CellAt(grid, p)
    case None => '\0'
    case Some(n) => SymbolNumberToLetter(n, mapping)
  }

  /** The letter value a cell adds to a word: the mapping's value, 0 without an entry. */
  function CellValue(grid: Grid, mapping: SymbolMapping, p: Position): int
  {
    match EntryAt(grid, mapping, p)
    case None => 0
    case Some(e) => e.value
  }

  /** The letters read along a sequence of positions. */
  function LettersOf(grid: Grid, mapping: SymbolMapping, ps: seq<Position>): (w: string)
    ensures |w| == |ps|
    ensures forall i :: 0 <= i < |ps| ==> w[i] == CellLetter(grid, mapping, ps[i])
  {
    seq(|ps|, i requires 0 <= i < |ps| => CellLetter(grid, mapping, ps[i]))
  }

  /** The sum of the cell values along a sequence of positions. */
  function SumValues(grid: Grid, mapping: SymbolMapping, ps: seq<Position>): int
  {
    if |ps| == 0 then 0
    else SumValues(grid, mapping, ps[..|ps| - 1]) + CellValue(grid, mapping, ps[|ps| - 1])
  }

  /** Word values are never negative when no letter value is negative. */
  lemma {:induction false} SumValuesNonNegative(grid: Grid, mapping: SymbolMapping, ps: seq<Position>)
    requires forall n :: n in mapping ==> mapping[n].value >= 0
    ensures SumValues(grid, mapping, ps) >= 0
  {
    if |ps| > 0 {
      SumValuesNonNegative(grid, mapping, ps[..|ps| - 1]);
    }
  }

  // ---------------------------------------------------------------- lines

  /** Row `row` read left to right: one position per reel. */
  function RowPositions(grid: Grid, row: nat): (ps: seq<Position>)
    ensures |ps| == |grid|
    ensures forall c :: 0 <= c < |ps| ==> ps[c] == Position(c, row)
  {
    seq(|grid|, c requires 0 <= c < |grid| => Position(c, row))
  }

  /** Reel `col` read top to bottom over the row count of reel 0. */
  function ColumnPositions(grid: Grid, col: nat): (ps: seq<Position>)
    requires |grid| > 0
    ensures |ps| == |grid[0]|
    ensures forall r :: 0 <= r < |ps| ==> ps[r] == Position(col, r)
  {
    seq(|grid[0]|, r requires 0 <= r < |grid[0]| => Position(col, r))
  }

  /** The lines findWords examines: every row, then every column; none for an empty grid. */
  function GridLines(grid: Grid): (lines: seq<seq<Position>>)
    ensures |grid| == 0 ==> lines == []
    ensures |grid| > 0 ==> |lines| == |grid[0]| + |grid|
  {
    if |grid| == 0 then [] else RowLines(grid) + ColumnLines(grid)
  }

  /** The rows of a non-empty grid, top to bottom. */
  function RowLines(grid: Grid): (lines: seq<seq<Position>>)
    requires |grid| > 0
    ensures |lines| == |grid[0]|
  {
    seq(|grid[0]|, r requires 0 <= r < |grid[0]| => RowPositions(grid, r))
  }

  /** The columns of a non-empty grid, left to right. */
  function ColumnLines(grid: Grid): (lines: seq<seq<Position>>)
    requires |grid| > 0
    ensures |lines| == |grid|
  {
    seq(|grid|, c requires 0 <= c < |grid| => ColumnPositions(grid, c))
  }

  /** Line k is row k for the first rowCount lines, then column k - rowCount. */
  lemma GridLineAt(grid: Grid, k: nat)
    requires |grid| > 0 && k < |grid[0]| + |grid|
    ensures k < |grid[0]| ==> GridLines(grid)[k] == RowPositions(grid, k)
    ensures k >= |grid[0]| ==> GridLines(grid)[k] == ColumnPositions(grid, k - |grid[0]|)
  {
  }

  /** On the 5x5 grid the lines findWords reads are exactly the configured PAYLINES. */
  lemma GridLinesArePaylines(grid: Grid)
    requires |grid| == 5 && |grid[0]| == 5
    ensures GridLines(grid) == Config.Paylines
  {
    Config.PaylinesShape();
    var lines := GridLines(grid);
    forall k | 0 <= k < 10
      ensures lines[k] == Config.Paylines[k]
    {
      GridLineAt(grid, k);
    }
  }

  // ---------------------------------------------------------------- the scan

  /** A length is skipped when its payout rule is exactly 0 (`PAYOUT_RULES[len] === 0`). */
  predicate Payable(rules: PayoutRules, len: int)
  {
    !(len in rules && rules[len] == 0)
  }

  /** The substring of length l at s is payable and a valid word. */
  predicate IsHit(isValid: WordTest, rules: PayoutRules, w: string, s: nat, l: nat)
    requires s + l <= |w|
  {
    3 <= l && Payable(rules, l) && isValid(w[s..s + l])
  }

  /** A validity test for words: isValidWord over the loaded set in the
      game (DictionaryTest), mockIsValidWord in the simulator. */
  type WordTest = string -> bool

  /** The test the scan applies to the substring of length l at s; for a line
      it is LineHits: payable and a valid word. */
  type HitTest = (nat, nat) -> bool

  /** The test of findValidSubwords on line `w`. */
  function LineHits(isValid: WordTest, rules: PayoutRules, w: string): HitTest
  {
    (s: nat, l: nat) => s + l <= |w| && IsHit(isValid, rules, w, s, l)
  }

  /** The inner loop at `start`: lengths from `len` down to 3, the first one
      passing the test and longer than `floor`, or 0 when there is none. */
  function FirstHit(hit: HitTest, n: nat, start: nat, len: nat, floor: nat): (h: nat)
    requires start + len <= n
    decreases len
  {
    if len < 3 then 0
    else if hit(start, len) && len > floor then len
    else FirstHit(hit, n, start, len - 1, floor)
  }

  /** The length the inner loop stops at is 0, or at least 3, above `floor` and within `len`. */
  lemma {:induction false} FirstHitRange(hit: HitTest, n: nat, start: nat, len: nat, floor: nat)
    requires start + len <= n
    ensures var h := FirstHit(hit, n, start, len, floor); h == 0 || (3 <= h <= len && h > floor)
    decreases len
  {
    if len >= 3 && !(hit(start, len) && len > floor) {
      FirstHitRange(hit, n, start, len - 1, floor);
    }
  }

  /** The length the inner loop stops at passes the test. */
  lemma {:induction false} FirstHitPasses(hit: HitTest, n: nat, start: nat, len: nat, floor: nat)
    requires start + len <= n
    ensures FirstHit(hit, n, start, len, floor) == 0 || hit(start, FirstHit(hit, n, start, len, floor))
    decreases len
  {
    if len >= 3 && !(hit(start, len) && len > floor) {
      FirstHitPasses(hit, n, start, len - 1, floor);
    }
  }

  /** No length above the one the inner loop stops at, and above `floor`, passes the test. */
  lemma {:induction false} FirstHitMaximal(hit: HitTest, n: nat, start: nat, len: nat, floor: nat)
    requires start + len <= n
    ensures forall l :: 3 <= l && FirstHit(hit, n, start, len, floor) < l <= len && l > floor ==> !hit(start, l)
    decreases len
  {
    if len >= 3 && !(hit(start, len) && len > floor) {
      FirstHitMaximal(hit, n, start, len - 1, floor);
    }
  }

  /** The word recorded so far: none yet, or its start and length. */
  datatype Pick = NoPick | Pick(start: nat, len: nat) {
    /** `longestWordLength`. */
    function Floor(): nat {
      if NoPick? then 0 else len
    }
  }

  /** The state of the outer loop: the next start to examine and the pick so far. */
  datatype Cursor = Cursor(start: nat, best: Pick)

  /** A pick names a substring of the line that passes the test. */
  ghost predicate PickOk(hit: HitTest, n: nat, p: Pick)
  {
    p.NoPick? || (p.start + p.len <= n && p.len >= 3 && hit(p.start, p.len))
  }

  /** One round of the outer loop: the inner loop at `start`, then either the
      next start or, after recording a word of length h, the jump to start + h. */
  function Advance(hit: HitTest, n: nat, c: Cursor): (d: Cursor)
    requires c.start + 3 <= n
    ensures d.start > c.start
  {
    var h := FirstHit(hit, n, c.start, n - c.start, c.best.Floor());
    if h == 0 then Cursor(c.start + 1, c.best) else Cursor(c.start + h, Pick(c.start, h))
  }

  /** One round keeps the pick, or records the hit at the old start, longer than the old pick. */
  lemma AdvanceStep(hit: HitTest, n: nat, c: Cursor)
    requires c.start + 3 <= n
    ensures var d := Advance(hit, n, c);
      d.best == c.best ||
      (d.best == Pick(c.start, d.start - c.start) && 3 <= d.best.len && d.start <= n && d.best.len > c.best.Floor())
  {
    FirstHitRange(hit, n, c.start, n - c.start, c.best.Floor());
  }

  /** The outer loop from a cursor to its end: the pick it leaves. */
  function ScanFrom(hit: HitTest, n: nat, c: Cursor): (r: Pick)
    decreases n - c.start
  {
    if c.start + 3 > n then c.best else ScanFrom(hit, n, Advance(hit, n, c))
  }

  /** The scan keeps the pick it starts with or ends with a longer one. */
  lemma {:induction false} ScanBound(hit: HitTest, n: nat, c: Cursor)
    ensures var r := ScanFrom(hit, n, c); r == c.best || (r.Pick? && r.Floor() > c.best.Floor())
    decreases n - c.start
  {
    if c.start + 3 <= n {
      AdvanceStep(hit, n, c);
      ScanBound(hit, n, Advance(hit, n, c));
    }
  }

  /** The starts the outer loop examines from a cursor on. */
  ghost function Visited(hit: HitTest, n: nat, c: Cursor): set<nat>
    decreases n - c.start
  {
    if c.start + 3 > n then {} else {c.start} + Visited(hit, n, Advance(hit, n, c))
  }

  /** Every pick the scan records passes the test and fits in the line. */
  lemma {:induction false} ScanPickOk(hit: HitTest, n: nat, c: Cursor)
    requires PickOk(hit, n, c.best)
    ensures PickOk(hit, n, ScanFrom(hit, n, c))
    decreases n - c.start
  {
    if c.start + 3 <= n {
      AdvanceStep(hit, n, c);
      FirstHitPasses(hit, n, c.start, n - c.start, c.best.Floor());
      ScanPickOk(hit, n, Advance(hit, n, c));
    }
  }

  /** The starts examined lie between the cursor start and the last start with 3 letters left. */
  lemma {:induction false} VisitedRange(hit: HitTest, n: nat, c: Cursor)
    ensures forall s :: s in Visited(hit, n, c) ==> c.start <= s && s + 3 <= n
    decreases n - c.start
  {
    if c.start + 3 <= n {
      VisitedRange(hit, n, Advance(hit, n, c));
    }
  }

  /** No examined start has a hit longer than the final pick. */
  lemma {:induction false} ScanDominates(hit: HitTest, n: nat, c: Cursor)
    ensures forall s: nat, l: nat :: s in Visited(hit, n, c) && 3 <= l && s + l <= n && hit(s, l) ==>
      l <= ScanFrom(hit, n, c).Floor()
    decreases n - c.start
  {
    if c.start + 3 <= n {
      AdvanceStep(hit, n, c);
      ScanBound(hit, n, Advance(hit, n, c));
      FirstHitMaximal(hit, n, c.start, n - c.start, c.best.Floor());
      ScanDominates(hit, n, Advance(hit, n, c));
    }
  }

  /** A pick recorded after the cursor sits at an examined start and fits in the line. */
  lemma {:induction false} ScanPickVisited(hit: HitTest, n: nat, c: Cursor)
    ensures var r := ScanFrom(hit, n, c);
      r != c.best ==> r.Pick? && r.start in Visited(hit, n, c) && r.start + r.len <= n
    decreases n - c.start
  {
    if c.start + 3 <= n {
      AdvanceStep(hit, n, c);
      ScanPickVisited(hit, n, Advance(hit, n, c));
    }
  }

  /** A pick recorded after the cursor has no longer hit at its start. */
  lemma {:induction false} ScanPickMaximal(hit: HitTest, n: nat, c: Cursor)
    ensures var r := ScanFrom(hit, n, c);
      r != c.best ==> r.Pick? && forall l: nat :: 3 <= l && r.len < l && r.start + l <= n ==> !hit(r.start, l)
    decreases n - c.start
  {
    if c.start + 3 <= n {
      AdvanceStep(hit, n, c);
      FirstHitMaximal(hit, n, c.start, n - c.start, c.best.Floor());
      ScanPickMaximal(hit, n, Advance(hit, n, c));
    }
  }

  /** Every examined start before the final pick has only strictly shorter hits:
      an equally long word at an earlier start keeps its place. */
  lemma {:induction false} ScanEarlierShorter(hit: HitTest, n: nat, c: Cursor)
    ensures var r := ScanFrom(hit, n, c);
      r != c.best ==>
        r.Pick? &&
        forall s: nat, l: nat ::
          s in Visited(hit, n, c) && s < r.start && 3 <= l && s + l <= n && hit(s, l) ==>
          l < r.len
    decreases n - c.start
  {
    if c.start + 3 <= n {
      AdvanceStep(hit, n, c);
      ScanBound(hit, n, Advance(hit, n, c));
      FirstHitMaximal(hit, n, c.start, n - c.start, c.best.Floor());
      var d := Advance(hit, n, c);
      ScanEarlierShorter(hit, n, d);
      VisitedRange(hit, n, d);
    }
  }

  /** No examined start lies strictly inside the final pick. */
  lemma {:induction false} ScanSkipsPick(hit: HitTest, n: nat, c: Cursor)
    ensures var r := ScanFrom(hit, n, c);
      r != c.best ==> r.Pick? && forall s :: s in Visited(hit, n, c) ==> s <= r.start || r.start + r.len <= s
    decreases n - c.start
  {
    if c.start + 3 <= n {
      var d := Advance(hit, n, c);
      ScanSkipsPick(hit, n, d);
      VisitedRange(hit, n, d);
      ScanPickVisited(hit, n, d);
    }
  }

  /** After the final pick the scan goes on at start + len, when 3 letters remain there. */
  lemma {:induction false} ScanResumesAfterPick(hit: HitTest, n: nat, c: Cursor)
    ensures var r := ScanFrom(hit, n, c);
      r != c.best ==> r.Pick? && (r.start + r.len + 3 <= n ==> r.start + r.len in Visited(hit, n, c))
    decreases n - c.start
  {
    if c.start + 3 <= n {
      var d := Advance(hit, n, c);
      ScanResumesAfterPick(hit, n, d);
      if d.start + 3 <= n {
        assert d.start in Visited(hit, n, d);
      }
    }
  }

  /** While nothing is recorded, every start is examined. */
  lemma {:induction false} NoPickAllVisited(hit: HitTest, n: nat, c: Cursor)
    requires c.best == NoPick && ScanFrom(hit, n, c) == NoPick
    ensures forall s :: c.start <= s && s + 3 <= n ==> s in Visited(hit, n, c)
    decreases n - c.start
  {
    if c.start + 3 <= n {
      AdvanceStep(hit, n, c);
      ScanBound(hit, n, Advance(hit, n, c));
      NoPickAllVisited(hit, n, Advance(hit, n, c));
    }
  }

  /** A scan that starts with nothing recorded ends with nothing exactly when no substring passes the test. */
  lemma ScanNone(hit: HitTest, n: nat)
    ensures ScanFrom(hit, n, Cursor(0, NoPick)) == NoPick <==> forall s: nat, l: nat :: 3 <= l && s + l <= n ==> !hit(s, l)
  {
    var c := Cursor(0, NoPick);
    var r := ScanFrom(hit, n, c);
    if r == NoPick {
      NoPickAllVisited(hit, n, c);
      ScanDominates(hit, n, c);
      forall s: nat, l: nat | 3 <= l && s + l <= n
        ensures !hit(s, l)
      {
        assert s in Visited(hit, n, c);
      }
    } else {
      ScanPickOk(hit, n, c);
    }
  }

  /** The word findValidSubwords picks in a line. */
  function LinePick(isValid: WordTest, rules: PayoutRules, w: string): (r: Pick)
    ensures r.Pick? ==> r.start + r.len <= |w|
  {
    ScanPickOk(LineHits(isValid, rules, w), |w|, Cursor(0, NoPick));
    ScanFrom(LineHits(isValid, rules, w), |w|, Cursor(0, NoPick))
  }

  /** The line's pick is a hit of at least 3 letters. */
  lemma LinePickOk(isValid: WordTest, rules: PayoutRules, w: string)
    ensures var r := LinePick(isValid, rules, w);
      r.Pick? ==> 3 <= r.len && r.start + r.len <= |w| && IsHit(isValid, rules, w, r.start, r.len)
  {
    ScanPickOk(LineHits(isValid, rules, w), |w|, Cursor(0, NoPick));
  }

  /** The starts findValidSubwords examines in line `w`. */
  ghost function LineVisited(isValid: WordTest, rules: PayoutRules, w: string): set<nat>
  {
    Visited(LineHits(isValid, rules, w), |w|, Cursor(0, NoPick))
  }

  /** A substring passes LineHits exactly when it is a hit, and no hit is shorter than 3. */
  lemma HitsAreLineHits(isValid: WordTest, rules: PayoutRules, w: string)
    ensures forall s: nat, l: nat :: s + l <= |w| ==> (LineHits(isValid, rules, w)(s, l) <==> IsHit(isValid, rules, w, s, l))
    ensures forall s: nat, l: nat :: s + l <= |w| && IsHit(isValid, rules, w, s, l) ==> 3 <= l
  {
  }

  /** No start the scan examines has a longer hit than the line's pick. */
  lemma LinePickDominates(isValid: WordTest, rules: PayoutRules, w: string)
    ensures forall s: nat, l: nat :: s in LineVisited(isValid, rules, w) && s + l <= |w| && IsHit(isValid, rules, w, s, l) ==>
      l <= LinePick(isValid, rules, w).Floor()
  {
    ScanDominates(LineHits(isValid, rules, w), |w|, Cursor(0, NoPick));
    HitsAreLineHits(isValid, rules, w);
  }

  /** The line's pick is examined, and no longer substring at its start is a hit. */
  lemma LinePickMaximal(isValid: WordTest, rules: PayoutRules, w: string)
    ensures var r := LinePick(isValid, rules, w);
      r.Pick? ==>
        r.start in LineVisited(isValid, rules, w) &&
        forall l: nat :: r.len < l && r.start + l <= |w| ==> !IsHit(isValid, rules, w, r.start, l)
  {
    ScanPickVisited(LineHits(isValid, rules, w), |w|, Cursor(0, NoPick));
    ScanPickMaximal(LineHits(isValid, rules, w), |w|, Cursor(0, NoPick));
    HitsAreLineHits(isValid, rules, w);
  }

  /** Examined starts before the pick have only strictly shorter hits: of equally
      long words the earliest is kept. */
  lemma LinePickEarliest(isValid: WordTest, rules: PayoutRules, w: string)
    ensures var r := LinePick(isValid, rules, w);
      r.Pick? ==>
        forall s: nat, l: nat ::
          s in LineVisited(isValid, rules, w) && s < r.start && s + l <= |w| && IsHit(isValid, rules, w, s, l) ==>
          l < r.len
  {
    ScanEarlierShorter(LineHits(isValid, rules, w), |w|, Cursor(0, NoPick));
    HitsAreLineHits(isValid, rules, w);
  }

  /** The scan jumps past the pick: no examined start lies inside it, and start + len
      is examined next when 3 letters remain there. */
  lemma LinePickSkips(isValid: WordTest, rules: PayoutRules, w: string)
    ensures var r := LinePick(isValid, rules, w);
      r.Pick? ==>
        (forall s :: s in LineVisited(isValid, rules, w) ==> s <= r.start || r.start + r.len <= s) &&
        (r.start + r.len + 3 <= |w| ==> r.start + r.len in LineVisited(isValid, rules, w))
  {
    ScanSkipsPick(LineHits(isValid, rules, w), |w|, Cursor(0, NoPick));
    ScanResumesAfterPick(LineHits(isValid, rules, w), |w|, Cursor(0, NoPick));
  }

  /** A line yields no word exactly when it has no payable valid substring at all. */
  lemma LinePickNone(isValid: WordTest, rules: PayoutRules, w: string)
    ensures LinePick(isValid, rules, w) == NoPick <==>
      forall s: nat, l: nat :: s + l <= |w| ==> !IsHit(isValid, rules, w, s, l)
  {
    ScanNone(LineHits(isValid, rules, w), |w|);
    HitsAreLineHits(isValid, rules, w);
  }

  // ---------------------------------------------------------------- found words

  /** An entry of the `words` array findWords returns. */
  datatype FoundWord = FoundWord(word: string, positions: seq<Position>, value: int, length: nat)

  /** The entry pushed for a pick (none for NoPick). */
  function WordsForPick(grid: Grid, mapping: SymbolMapping, w: string, ps: seq<Position>, p: Pick): seq<FoundWord>
    requires |ps| == |w|
    requires p.Pick? ==> p.start + p.len <= |w|
  {
    match p
    case NoPick => []
    case Pick(s, l) => [FoundWord(w[s..s + l], ps[s..s + l], SumValues(grid, mapping, ps[s..s + l]), l)]
  }

  /** The words of one line of positions. */
  function LineWords(grid: Grid, mapping: SymbolMapping, isValid: WordTest, rules: PayoutRules, ps: seq<Position>): (ws: seq<FoundWord>)
    ensures |ws| <= 1
  {
    var w := LettersOf(grid, mapping, ps);
    WordsForPick(grid, mapping, w, ps, LinePick(isValid, rules, w))
  }

  /** The words of a sequence of lines, in line order. */
  function WordsOfLines(grid: Grid, mapping: SymbolMapping, isValid: WordTest, rules: PayoutRules, lines: seq<seq<Position>>): seq<FoundWord>
  {
    if |lines| == 0 then []
    else WordsOfLines(grid, mapping, isValid, rules, lines[..|lines| - 1]) + LineWords(grid, mapping, isValid, rules, lines[|lines| - 1])
  }

  /** One more line adds its words at the end. */
  lemma WordsOfLinesStep(grid: Grid, mapping: SymbolMapping, isValid: WordTest, rules: PayoutRules, lines: seq<seq<Position>>, k: nat)
    requires k < |lines|
    ensures WordsOfLines(grid, mapping, isValid, rules, lines[..k + 1]) ==
      WordsOfLines(grid, mapping, isValid, rules, lines[..k]) + LineWords(grid, mapping, isValid, rules, lines[k])
  {
    assert lines[..k + 1][..k] == lines[..k];
  }

  /** The words of two runs of lines, one after the other. */
  lemma {:induction false} WordsOfLinesConcat(grid: Grid, mapping: SymbolMapping, isValid: WordTest, rules: PayoutRules, a: seq<seq<Position>>, b: seq<seq<Position>>)
    ensures WordsOfLines(grid, mapping, isValid, rules, a + b) ==
      WordsOfLines(grid, mapping, isValid, rules, a) + WordsOfLines(grid, mapping, isValid, rules, b)
    decreases |b|
  {
    if |b| > 0 {
      assert (a + b)[..|a + b| - 1] == a + b[..|b| - 1];
      WordsOfLinesConcat(grid, mapping, isValid, rules, a, b[..|b| - 1]);
    } else {
      assert a + b == a;
    }
  }

  /** What findWords returns. */
  function FindWordsSpec(grid: Grid, mapping: SymbolMapping, isValid: WordTest, rules: PayoutRules): seq<FoundWord>
  {
    WordsOfLines(grid, mapping, isValid, rules, GridLines(grid))
  }

  /** At most one word per line. */
  lemma {:induction false} WordsOfLinesCount(grid: Grid, mapping: SymbolMapping, isValid: WordTest, rules: PayoutRules, lines: seq<seq<Position>>)
    ensures |WordsOfLines(grid, mapping, isValid, rules, lines)| <= |lines|
  {
    if |lines| > 0 {
      WordsOfLinesCount(grid, mapping, isValid, rules, lines[..|lines| - 1]);
    }
  }

  /** findWords returns nothing for an empty grid and at most rowCount + colCount words. */
  lemma FindWordsCount(grid: Grid, mapping: SymbolMapping, isValid: WordTest, rules: PayoutRules)
    ensures |grid| == 0 ==> FindWordsSpec(grid, mapping, isValid, rules) == []
    ensures |grid| > 0 ==> |FindWordsSpec(grid, mapping, isValid, rules)| <= |grid[0]| + |grid|
  {
    WordsOfLinesCount(grid, mapping, isValid, rules, GridLines(grid));
  }

  /** The positions of a word lie in one row on consecutive reels, or in one reel on consecutive rows. */
  ghost predicate Straight(ps: seq<Position>)
  {
    |ps| > 0 &&
    ((forall i :: 0 <= i < |ps| ==> ps[i] == Position(ps[0].reel + i, ps[0].row)) ||
     (forall i :: 0 <= i < |ps| ==> ps[i] == Position(ps[0].reel, ps[0].row + i)))
  }

  /** What every found word satisfies: a payable valid word of at least 3 letters,
      read from straight consecutive positions, worth the plain sum of its letter values. */
  ghost predicate GoodWord(grid: Grid, mapping: SymbolMapping, isValid: WordTest, rules: PayoutRules, fw: FoundWord)
  {
    fw.length >= 3 && |fw.positions| == fw.length && |fw.word| == fw.length &&
    isValid(fw.word) && Payable(rules, fw.length) &&
    fw.word == LettersOf(grid, mapping, fw.positions) &&
    fw.value == SumValues(grid, mapping, fw.positions) &&
    Straight(fw.positions)
  }

  /** The word picked in a straight line is a good word, maximal at its start. */
  lemma LineWordsGood(grid: Grid, mapping: SymbolMapping, isValid: WordTest, rules: PayoutRules, ps: seq<Position>)
    requires |ps| > 0 ==> Straight(ps)
    ensures forall fw :: fw in LineWords(grid, mapping, isValid, rules, ps) ==> GoodWord(grid, mapping, isValid, rules, fw)
  {
    var w := LettersOf(grid, mapping, ps);
    var p := LinePick(isValid, rules, w);
    LinePickOk(isValid, rules, w);
    if p.Pick? {
      var sub := ps[p.start..p.start + p.len];
      assert LettersOf(grid, mapping, sub) == w[p.start..p.start + p.len];
      assert sub[0] == ps[p.start];
    }
  }

  /** Every word findWords returns is a good word. */
  lemma {:induction false} WordsOfLinesGood(grid: Grid, mapping: SymbolMapping, isValid: WordTest, rules: PayoutRules, lines: seq<seq<Position>>)
    requires forall k :: 0 <= k < |lines| && |lines[k]| > 0 ==> Straight(lines[k])
    ensures forall fw :: fw in WordsOfLines(grid, mapping, isValid, rules, lines) ==> GoodWord(grid, mapping, isValid, rules, fw)
  {
    if |lines| > 0 {
      WordsOfLinesGood(grid, mapping, isValid, rules, lines[..|lines| - 1]);
      LineWordsGood(grid, mapping, isValid, rules, lines[|lines| - 1]);
    }
  }

  lemma FindWordsGood(grid: Grid, mapping: SymbolMapping, isValid: WordTest, rules: PayoutRules)
    ensures forall fw :: fw in FindWordsSpec(grid, mapping, isValid, rules) ==> GoodWord(grid, mapping, isValid, rules, fw)
  {
    var lines := GridLines(grid);
    forall k | 0 <= k < |lines| && |lines[k]| > 0
      ensures Straight(lines[k])
    {
      GridLineAt(grid, k);
    }
    WordsOfLinesGood(grid, mapping, isValid, rules, lines);
  }

  /** Every position lies on a reel of the grid. */
  ghost predicate OnGrid(grid: Grid, ps: seq<Position>)
  {
    forall i :: 0 <= i < |ps| ==> ps[i].reel < |grid|
  }

  lemma {:induction false} WordsOfLinesOnGrid(grid: Grid, mapping: SymbolMapping, isValid: WordTest, rules: PayoutRules, lines: seq<seq<Position>>)
    requires forall k :: 0 <= k < |lines| ==> OnGrid(grid, lines[k])
    ensures forall fw :: fw in WordsOfLines(grid, mapping, isValid, rules, lines) ==> OnGrid(grid, fw.positions)
  {
    if |lines| > 0 {
      var init := lines[..|lines| - 1];
      assert forall k :: 0 <= k < |init| ==> init[k] == lines[k];
      WordsOfLinesOnGrid(grid, mapping, isValid, rules, init);
      LineWordsOnGrid(grid, mapping, isValid, rules, lines[|lines| - 1]);
    }
  }

  /** The word picked in a line on the grid lies on the grid. */
  lemma LineWordsOnGrid(grid: Grid, mapping: SymbolMapping, isValid: WordTest, rules: PayoutRules, ps: seq<Position>)
    requires OnGrid(grid, ps)
    ensures forall fw :: fw in LineWords(grid, mapping, isValid, rules, ps) ==> OnGrid(grid, fw.positions)
  {
    var w := LettersOf(grid, mapping, ps);
    var p := LinePick(isValid, rules, w);
    LinePickOk(isValid, rules, w);
    if p.Pick? {
      var sub := ps[p.start..p.start + p.len];
      forall i | 0 <= i < |sub| ensures sub[i].reel < |grid| {
        assert sub[i] == ps[p.start + i];
      }
    }
  }

  /** Every word findWords returns lies on reels the grid has. */
  lemma FindWordsOnGrid(grid: Grid, mapping: SymbolMapping, isValid: WordTest, rules: PayoutRules)
    ensures forall fw :: fw in FindWordsSpec(grid, mapping, isValid, rules) ==> OnGrid(grid, fw.positions)
  {
    var lines := GridLines(grid);
    forall k | 0 <= k < |lines|
      ensures OnGrid(grid, lines[k])
    {
      GridLineAt(grid, k);
    }
    WordsOfLinesOnGrid(grid, mapping, isValid, rules, lines);
  }

  // ---------------------------------------------------------------- the methods

  /** findValidSubwords: scans `word`, then pushes the picked word (if any) onto `results`. */
  method FindValidSubwords(word: string, positions: seq<Position>, results: seq<FoundWord>,
                           mapping: SymbolMapping, grid: Grid, isValid: WordTest, rules: PayoutRules)
    returns (out: seq<FoundWord>)
    requires |positions| == |word|
    ensures out == results + WordsForPick(grid, mapping, word, positions, LinePick(isValid, rules, word))
  {
    var longestValidWord, longestWordStart, longestWordLength := ScanLine(word, isValid, rules);
    assert longestWordStart >= 0 ==> longestWordStart + longestWordLength <= |positions|;
    out := results;
    if longestValidWord.Some? {
      var wordValue, wordPositions := WordValueAt(grid, mapping, positions, longestWordStart, longestWordLength);
      out := out + [FoundWord(longestValidWord.value, wordPositions, wordValue, longestWordLength)];
    }
  }

  /** The outer loop of findValidSubwords: the longest word so far, where it
      starts (-1 for none) and its length, as the scan leaves them. */
  method ScanLine(word: string, isValid: WordTest, rules: PayoutRules)
    returns (longestValidWord: Option<string>, longestWordStart: int, longestWordLength: nat)
    ensures Current(longestWordStart, longestWordLength) == LinePick(isValid, rules, word)
    ensures Recorded(word, longestValidWord, longestWordStart, longestWordLength, |word|)
  {
    longestValidWord := None;
    longestWordLength := 0;
    longestWordStart := -1;
    var start: nat := 0;
    while start + 3 <= |word|
      invariant start <= |word|
      invariant Recorded(word, longestValidWord, longestWordStart, longestWordLength, start)
      invariant ScanFrom(LineHits(isValid, rules, word), |word|, Cursor(start, Current(longestWordStart, longestWordLength))) == LinePick(isValid, rules, word)
      decreases |word| - start
    {
      ghost var cursor := Cursor(start, Current(longestWordStart, longestWordLength));
      start, longestValidWord, longestWordStart, longestWordLength :=
        ScanStep(word, isValid, rules, start, longestValidWord, longestWordStart, longestWordLength);
      assert ScanFrom(LineHits(isValid, rules, word), |word|, cursor) ==
        ScanFrom(LineHits(isValid, rules, word), |word|, Advance(LineHits(isValid, rules, word), |word|, cursor));
    }
  }

  /** The state of findValidSubwords before `start`: no word (start -1, length 0),
      or the word recorded at longestWordStart, ending at or before `start`. */
  predicate Recorded(word: string, longestValidWord: Option<string>, longestWordStart: int, longestWordLength: nat, start: nat)
  {
    longestWordStart < start &&
    (longestWordStart < 0 ==> longestValidWord == None && longestWordLength == 0) &&
    (longestWordStart >= 0 ==>
      longestWordStart + longestWordLength <= start <= |word| &&
      longestValidWord == Some(word[longestWordStart..longestWordStart + longestWordLength]))
  }

  /** One round of the outer loop of findValidSubwords: the inner loop at
      `start`, a new record when it finds a word, and the jump past it. */
  method ScanStep(word: string, isValid: WordTest, rules: PayoutRules, start: nat,
                  longestValidWord: Option<string>, longestWordStart: int, longestWordLength: nat)
    returns (start': nat, longestValidWord': Option<string>, longestWordStart': int, longestWordLength': nat)
    requires start + 3 <= |word|
    requires Recorded(word, longestValidWord, longestWordStart, longestWordLength, start)
    ensures start' <= |word|
    ensures Recorded(word, longestValidWord', longestWordStart', longestWordLength', start')
    ensures Cursor(start', Current(longestWordStart', longestWordLength')) ==
      Advance(LineHits(isValid, rules, word), |word|, Cursor(start, Current(longestWordStart, longestWordLength)))
  {
    var len := LongestWordAt(word, start, longestWordLength, isValid, rules);
    FirstHitRange(LineHits(isValid, rules, word), |word|, start, |word| - start, longestWordLength);
    start', longestValidWord', longestWordStart', longestWordLength' := start, longestValidWord, longestWordStart, longestWordLength;
    if len > 0 {
      longestValidWord' := Some(word[start..start + len]);
      longestWordLength' := len;
      longestWordStart' := start;
    }
    if longestWordStart' == start && longestWordLength' > 0 {
      start' := start' + longestWordLength' - 1;
    }
    start' := start' + 1;
  }

  /** The value loop of findValidSubwords: the positions of the word at
      `start` of length `len`, and the sum of their tile values. */
  method WordValueAt(grid: Grid, mapping: SymbolMapping, positions: seq<Position>, start: nat, len: nat)
    returns (wordValue: int, wordPositions: seq<Position>)
    requires start + len <= |positions|
    ensures wordPositions == positions[start..start + len]
    ensures wordValue == SumValues(grid, mapping, wordPositions)
  {
    wordValue := 0;
    wordPositions := [];
    for i := 0 to len
      invariant wordPositions == positions[start..start + i]
      invariant wordValue == SumValues(grid, mapping, wordPositions)
    {
      var position := positions[start + i];
      wordPositions := wordPositions + [position];
      assert wordPositions[..|wordPositions| - 1] == positions[start..start + i];
      wordValue := wordValue + CellValue(grid, mapping, position);
    }
  }

  /** The inner loop of findValidSubwords at `start`: lengths from the longest
      down to 3, skipping unpaid lengths, up to the first valid word longer than
      `floor` (the length recorded so far); 0 when the loop runs out. */
  method LongestWordAt(word: string, start: nat, floor: nat, isValid: WordTest, rules: PayoutRules) returns (found: nat)
    requires start + 3 <= |word|
    ensures found == FirstHit(LineHits(isValid, rules, word), |word|, start, |word| - start, floor)
  {
    var len: nat := |word| - start;
    while len >= 3
      invariant 2 <= len <= |word| - start
      invariant FirstHit(LineHits(isValid, rules, word), |word|, start, len, floor) == FirstHit(LineHits(isValid, rules, word), |word|, start, |word| - start, floor)
    {
      var subword := word[start..start + len];
      if len in rules && rules[len] == 0 {
        len := len - 1;
        continue;
      }
      if isValid(subword) && len > floor {
        return len;
      }
      len := len - 1;
    }
    return 0;
  }

  /** The pick the three loop variables describe. */
  function Current(longestWordStart: int, longestWordLength: nat): Pick
  {
    if longestWordStart < 0 then NoPick else Pick(longestWordStart, longestWordLength)
  }

  /** findWords: every row, then every column, each scanned for at most one word. */
  method FindWords(reelResults: Grid, mapping: SymbolMapping, isValid: WordTest, rules: PayoutRules)
    returns (words: seq<FoundWord>)
    ensures words == FindWordsSpec(reelResults, mapping, isValid, rules)
  {
    words := [];
    if |reelResults| == 0 {
      return;
    }
    words := FindRowWords(reelResults, mapping, isValid, rules);
    words := FindColumnWords(reelResults, mapping, isValid, rules, words);
    WordsOfLinesConcat(reelResults, mapping, isValid, rules, RowLines(reelResults), ColumnLines(reelResults));
  }

  /** The first loop of findWords: the words of every row, in row order. */
  method FindRowWords(reelResults: Grid, mapping: SymbolMapping, isValid: WordTest, rules: PayoutRules)
    returns (words: seq<FoundWord>)
    requires |reelResults| > 0
    ensures words == WordsOfLines(reelResults, mapping, isValid, rules, RowLines(reelResults))
  {
    words := [];
    ghost var lines := RowLines(reelResults);
    for row := 0 to |reelResults[0]|
      invariant words == WordsOfLines(reelResults, mapping, isValid, rules, lines[..row])
    {
      var horizontalWord, horizontalPositions := ReadRow(reelResults, mapping, row);
      words := FindValidSubwords(horizontalWord, horizontalPositions, words, mapping, reelResults, isValid, rules);
      WordsOfLinesStep(reelResults, mapping, isValid, rules, lines, row);
    }
    assert lines[..|reelResults[0]|] == lines;
  }

  /** The second loop of findWords: the words of every column, appended to `words0`. */
  method FindColumnWords(reelResults: Grid, mapping: SymbolMapping, isValid: WordTest, rules: PayoutRules, words0: seq<FoundWord>)
    returns (words: seq<FoundWord>)
    requires |reelResults| > 0
    ensures words == words0 + WordsOfLines(reelResults, mapping, isValid, rules, ColumnLines(reelResults))
  {
    words := words0;
    ghost var lines := ColumnLines(reelResults);
    for col := 0 to |reelResults|
      invariant words == words0 + WordsOfLines(reelResults, mapping, isValid, rules, lines[..col])
    {
      ghost var before := WordsOfLines(reelResults, mapping, isValid, rules, lines[..col]);
      ghost var found := LineWords(reelResults, mapping, isValid, rules, lines[col]);
      words := FindColumnWord(reelResults, mapping, isValid, rules, words, col);
      WordsOfLinesStep(reelResults, mapping, isValid, rules, lines, col);
      assert words == words0 + (before + found);
    }
    assert lines[..|reelResults|] == lines;
  }

  /** One turn of the column loop: the word of column `col`, appended to `results`. */
  method FindColumnWord(reelResults: Grid, mapping: SymbolMapping, isValid: WordTest, rules: PayoutRules,
                        results: seq<FoundWord>, col: nat)
    returns (words: seq<FoundWord>)
    requires col < |reelResults|
    ensures words == results + LineWords(reelResults, mapping, isValid, rules, ColumnLines(reelResults)[col])
  {
    var verticalWord, verticalPositions := ReadColumn(reelResults, mapping, col);
    words := FindValidSubwords(verticalWord, verticalPositions, results, mapping, reelResults, isValid, rules);
  }

  /** The letters and positions of one row, reel by reel (the first inner loop of findWords). */
  method ReadRow(reelResults: Grid, mapping: SymbolMapping, row: nat) returns (word: string, positions: seq<Position>)
    ensures positions == RowPositions(reelResults, row)
    ensures word == LettersOf(reelResults, mapping, positions)
  {
    word := "";
    positions := [];
    for col := 0 to |reelResults|
      invariant positions == RowPositions(reelResults, row)[..col]
      invariant word == LettersOf(reelResults, mapping, positions)
    {
      var letter := CellLetter(reelResults, mapping, Position(col, row));
      word := word + [letter];
      positions := positions + [Position(col, row)];
    }
  }

  /** The letters and positions of one reel, row by row over the row count of reel 0
      (the second inner loop of findWords). */
  method ReadColumn(reelResults: Grid, mapping: SymbolMapping, col: nat) returns (word: string, positions: seq<Position>)
    requires |reelResults| > 0
    ensures positions == ColumnPositions(reelResults, col)
    ensures word == LettersOf(reelResults, mapping, positions)
  {
    word := "";
    positions := [];
    for row := 0 to |reelResults[0]|
      invariant positions == ColumnPositions(reelResults, col)[..row]
      invariant word == LettersOf(reelResults, mapping, positions)
    {
      var letter := CellLetter(reelResults, mapping, Position(col, row));
      word := word + [letter];
      positions := positions + [Position(col, row)];
    }
  }

  // ---------------------------------------------------------------- ordering and paylines

  /** Inserts a word after every word worth at least as much. */
  function Insert(x: FoundWord, s: seq<FoundWord>): (r: seq<FoundWord>)
    ensures multiset(r) == multiset(s) + multiset{x}
    ensures |r| == |s| + 1
  {
    if |s| == 0 then [x]
    else if s[0].value >= x.value then assert s == [s[0]] + s[1..]; [s[0]] + Insert(x, s[1..])
    else [x] + s
  }

  predicate SortedByValue(s: seq<FoundWord>)
  {
    forall i, j :: 0 <= i < j < |s| ==> s[i].value >= s[j].value
  }

  /** The words worth exactly v, in order. */
  function WithValue(s: seq<FoundWord>, v: int): seq<FoundWord>
  {
    if |s| == 0 then []
    else WithValue(s[..|s| - 1], v) + (if s[|s| - 1].value == v then [s[|s| - 1]] else [])
  }

  /** getHighestScoringWords: a sorted copy by non-increasing value, equal values kept in input order. */
  function GetHighestScoringWords(words: seq<FoundWord>): (r: seq<FoundWord>)
    ensures SortedByValue(r)
    ensures multiset(r) == multiset(words)
  {
    if |words| == 0 then []
    else
      var sorted := GetHighestScoringWords(words[..|words| - 1]);
      InsertSorted(words[|words| - 1], sorted);
      assert words == words[..|words| - 1] + [words[|words| - 1]];
      Insert(words[|words| - 1], sorted)
  }

  lemma {:induction false} InsertSorted(x: FoundWord, s: seq<FoundWord>)
    requires SortedByValue(s)
    ensures SortedByValue(Insert(x, s))
    decreases |s|
  {
    if |s| > 0 && s[0].value >= x.value {
      InsertSorted(x, s[1..]);
      InsertBelow(x, s[1..], s[0].value);
    }
  }

  /** Inserting below a bound keeps every value below it. */
  lemma {:induction false} InsertBelow(x: FoundWord, s: seq<FoundWord>, bound: int)
    requires x.value <= bound
    requires forall i :: 0 <= i < |s| ==> s[i].value <= bound
    ensures forall i :: 0 <= i < |Insert(x, s)| ==> Insert(x, s)[i].value <= bound
    decreases |s|
  {
    if |s| > 0 && s[0].value >= x.value {
      InsertBelow(x, s[1..], bound);
    }
  }

  lemma {:induction false} WithValueConcat(a: seq<FoundWord>, b: seq<FoundWord>, v: int)
    ensures WithValue(a + b, v) == WithValue(a, v) + WithValue(b, v)
    decreases |b|
  {
    if |b| > 0 {
      assert (a + b)[..|a + b| - 1] == a + b[..|b| - 1];
      WithValueConcat(a, b[..|b| - 1], v);
    } else {
      assert a + b == a;
    }
  }

  lemma {:induction false} WithValueInsert(x: FoundWord, s: seq<FoundWord>, v: int)
    requires SortedByValue(s)
    ensures WithValue(Insert(x, s), v) == WithValue(s, v) + (if x.value == v then [x] else [])
    decreases |s|
  {
    if |s| == 0 {
      assert WithValue([x], v) == WithValue([], v) + (if x.value == v then [x] else []);
    } else if s[0].value >= x.value {
      assert SortedByValue(s[1..]) by {
        forall i, j | 0 <= i < j < |s| - 1 ensures s[1..][i].value >= s[1..][j].value {
          assert s[1..][i] == s[i + 1] && s[1..][j] == s[j + 1];
        }
      }
      WithValueInsert(x, s[1..], v);
      WithValueInsertAfter(x, s, v);
    } else {
      WithValueInsertFront(x, s, v);
    }
  }

  /** The step of WithValueInsert where x goes after the head of s. */
  lemma WithValueInsertAfter(x: FoundWord, s: seq<FoundWord>, v: int)
    requires |s| > 0 && s[0].value >= x.value
    requires WithValue(Insert(x, s[1..]), v) == WithValue(s[1..], v) + (if x.value == v then [x] else [])
    ensures WithValue(Insert(x, s), v) == WithValue(s, v) + (if x.value == v then [x] else [])
  {
    assert Insert(x, s) == [s[0]] + Insert(x, s[1..]);
    WithValueConcat([s[0]], Insert(x, s[1..]), v);
    WithValueConcat([s[0]], s[1..], v);
    assert [s[0]] + s[1..] == s;
  }

  /** The step of WithValueInsert where x goes in front of s, above every value of s. */
  lemma WithValueInsertFront(x: FoundWord, s: seq<FoundWord>, v: int)
    requires |s| > 0 && s[0].value < x.value && SortedByValue(s)
    ensures WithValue(Insert(x, s), v) == WithValue(s, v) + (if x.value == v then [x] else [])
  {
    assert Insert(x, s) == [x] + s;
    WithValueConcat([x], s, v);
    assert WithValue([x], v) == WithValue([], v) + (if x.value == v then [x] else []);
    if x.value == v {
      NoneWithValue(s, v);
    }
  }

  lemma {:induction false} NoneWithValue(s: seq<FoundWord>, v: int)
    requires forall i :: 0 <= i < |s| ==> s[i].value < v
    ensures WithValue(s, v) == []
  {
    if |s| > 0 {
      NoneWithValue(s[..|s| - 1], v);
    }
  }

  /** The sort is stable: for every value, the words of that value keep their input order. */
  lemma {:induction false} GetHighestScoringWordsStable(words: seq<FoundWord>, v: int)
    ensures WithValue(GetHighestScoringWords(words), v) == WithValue(words, v)
  {
    if |words| > 0 {
      var init := words[..|words| - 1];
      GetHighestScoringWordsStable(init, v);
      WithValueInsert(words[|words| - 1], GetHighestScoringWords(init), v);
    }
  }

  /** An entry of the payline list wordsToPaylines builds; `betAmount` is never
      set there (None), `amount` is a number that checkWin later overwrites. */
  datatype Payline = Payline(paylineId: nat, symbolName: string, symbolIndex: int, positions: seq<Position>,
                             count: nat, multiplier: int, amount: Number, betAmount: Option<int>)

  /** wordsToPaylines: one payline per word, in order. */
  function WordsToPaylines(words: seq<FoundWord>): (r: seq<Payline>)
    ensures |r| == |words|
    ensures forall i :: 0 <= i < |r| ==> r[i].paylineId == i && r[i].symbolIndex == -1 && r[i].betAmount == None
    ensures forall i :: 0 <= i < |r| ==> r[i].symbolName == words[i].word && r[i].positions == words[i].positions
    ensures forall i :: 0 <= i < |r| ==> r[i].count == words[i].length && r[i].multiplier == words[i].value
    ensures forall i :: 0 <= i < |r| ==> r[i].amount == Num(words[i].value)
  {
    seq(|words|, i requires 0 <= i < |words| =>
      Payline(i, words[i].word, -1, words[i].positions, words[i].length, words[i].value, Num(words[i].value), None))
  }

  /** Reading the word back from a payline. */
  function PaylineWord(line: Payline): FoundWord
  {
    FoundWord(line.symbolName, line.positions, line.multiplier, line.count)
  }

  /** wordsToPaylines loses nothing: every word can be read back from its payline. */
  lemma WordsToPaylinesRoundTrip(words: seq<FoundWord>)
    ensures forall i :: 0 <= i < |words| ==> PaylineWord(WordsToPaylines(words)[i]) == words[i]
  {
  }
}

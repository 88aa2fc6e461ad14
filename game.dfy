/** The session state of game.js: balance, bet, the five reels, the result
    grid, the winning lines, the spin history and the word definitions. A
    spin debits the bet and sets every reel towards a stop index; when it
    completes the reels snap to their stops, three visible rows of each are
    read, checkWin pays value x length multiplier x bet per word (no bonus
    tiles), and a positive total is credited. The random stop indexes and
    start positions, the clock and the loaded word set are parameters. */
module Game {
  import opened Wrappers
  import opened Tiles
  import opened Text
  import opened Reels
  import Config
  import opened WordFinder
  import opened Mechanics

  const ReelCount: nat := 5
  const VisibleRows: nat := 5
  const DefaultBalance: int := 1000
  const DefaultBet: int := 10
  const SpinDuration: int := 4000
  const ReelStaggerStart: int := 80
  const ReelStaggerStop: int := 150
  const CreditAmount: int := 1000
  const MaxHistoryEntries: nat := 50
  const BetOptions: seq<int> := [5, 10, 20, 50, 100, 200]
  const NoDefinition: string := "(no definition available)"

  // ---------------------------------------------------------------- configuration

  /** What validateConfiguration accepts: five strips, none empty, every entry
      a key of the mapping, 26 mapping entries, and truthy payout rules for
      lengths 3, 4 and 5. */
  predicate ConfigurationOk(strips: seq<seq<nat>>, mapping: SymbolMapping, rules: PayoutRules)
  {
    |strips| == ReelCount &&
    (forall i :: 0 <= i < |strips| ==> |strips[i]| > 0 && forall k :: 0 <= k < |strips[i]| ==> strips[i][k] in mapping) &&
    |mapping.Keys| == 26 &&
    3 in rules && rules[3] != 0 && 4 in rules && rules[4] != 0 && 5 in rules && rules[5] != 0
  }

  /** validateConfiguration: clears the flag for each failed check. */
  method ValidateConfiguration(strips: seq<seq<nat>>, mapping: SymbolMapping, rules: PayoutRules) returns (isValid: bool)
    ensures isValid == ConfigurationOk(strips, mapping, rules)
  {
    isValid := true;
    if |strips| != ReelCount {
      isValid := false;
    } else {
      for i := 0 to |strips|
        invariant isValid == forall j :: 0 <= j < i ==> |strips[j]| > 0 && forall k :: 0 <= k < |strips[j]| ==> strips[j][k] in mapping
      {
        var strip := strips[i];
        if |strip| == 0 {
          isValid := false;
        } else if exists k :: 0 <= k < |strip| && strip[k] !in mapping {
          isValid := false;
        }
      }
    }
    if |mapping.Keys| != 26 {
      isValid := false;
    }
    if !(3 in rules && rules[3] != 0) || !(4 in rules && rules[4] != 0) || !(5 in rules && rules[5] != 0) {
      isValid := false;
    }
  }

  /** The naturals below n. */
  function Below(n: nat): (r: set<nat>)
    ensures |r| == n
    ensures forall k: nat :: k in r <==> k < n
  {
    if n == 0 then {}
    else
      var smaller := Below(n - 1);
      assert n - 1 !in smaller;
      smaller + {n - 1}
  }

  /** The shipped configuration passes validation. */
  lemma ShippedConfigurationValid()
    ensures ConfigurationOk(Config.ReelStrips, Config.SymbolNumberMultipliers, Config.PayoutRulesTable)
  {
    Config.ReelStripsShape();
    Config.ReelStripsUseLetters();
    LetterTableSize();
  }

  /** The letter table has the 26 entries validation asks for. */
  lemma LetterTableSize()
    ensures |Config.SymbolNumberMultipliers.Keys| == 26
  {
    Config.LetterTableKeys();
    assert Config.SymbolNumberMultipliers.Keys == Below(26);
  }

  /** A configuration with an empty strip is refused. */
  lemma EmptyStripRefused(strips: seq<seq<nat>>, mapping: SymbolMapping, rules: PayoutRules, i: nat)
    requires i < |strips| && strips[i] == []
    ensures !ConfigurationOk(strips, mapping, rules)
  {
  }

  // ---------------------------------------------------------------- checkWin of game.js

  /** A line as game.js scores it: value x length multiplier, times the bet. */
  function GameScoreLine(line: Payline, rules: PayoutRules, bet: int): (scored: Payline)
    ensures scored.amount.Num?
  {
    var lengthMultiplier := LengthMultiplier(rules, line.count);
    line.(multiplier := line.multiplier * lengthMultiplier, amount := Num(line.multiplier * lengthMultiplier * bet))
  }

  function GameScoredLines(ls: seq<Payline>, rules: PayoutRules, bet: int): (scored: seq<Payline>)
    ensures |scored| == |ls|
  {
    seq(|ls|, i requires 0 <= i < |ls| => GameScoreLine(ls[i], rules, bet))
  }

  /** The words game.js finds in a grid. */
  function GameWords(grid: Grid, mapping: SymbolMapping, isValid: WordTest, rules: PayoutRules): seq<FoundWord>
  {
    FindWordsSpec(grid, mapping, isValid, rules)
  }

  /** The winning lines checkWin of game.js leaves in `winningLines` for a grid of five reels. */
  function GameLines(grid: Grid, mapping: SymbolMapping, isValid: WordTest, rules: PayoutRules, bet: int): seq<Payline>
  {
    GameScoredLines(WordsToPaylines(GameWords(grid, mapping, isValid, rules)), rules, bet)
  }

  /** checkWin of game.js: null for a grid that is not five reels, when no
      word is found or when the total is not positive. */
  function GameCheckWinResult(grid: Grid, mapping: SymbolMapping, isValid: WordTest, rules: PayoutRules, bet: int): Option<WinInfo>
  {
    if |grid| != ReelCount then None
    else
      var scored := GameLines(grid, mapping, isValid, rules, bet);
      var total := SumAmounts(scored);
      if |GameWords(grid, mapping, isValid, rules)| > 0 && total.Greater(Num(0)) then Some(WinInfo(total.v, BestOf(scored), scored))
      else None
  }

  /** Each winning line of game.js pays its word's value times the length
      multiplier times the bet, and the total is the sum of the lines. */
  lemma GameLinesPay(grid: Grid, mapping: SymbolMapping, isValid: WordTest, rules: PayoutRules, bet: int)
    ensures var words := GameWords(grid, mapping, isValid, rules);
            var lines := GameLines(grid, mapping, isValid, rules, bet);
            |lines| == |words| &&
            forall i :: 0 <= i < |lines| ==>
              lines[i].symbolName == words[i].word && lines[i].positions == words[i].positions &&
              lines[i].multiplier == words[i].value * LengthMultiplier(rules, words[i].length) &&
              lines[i].amount == Num(words[i].value * LengthMultiplier(rules, words[i].length) * bet)
  {
  }

  /** With a positive bet and letter values and payout rules that are not
      negative, game.js pays exactly when some found word has a positive value;
      the best match is then the first line with the greatest amount. */
  lemma GameCheckWinPays(grid: Grid, mapping: SymbolMapping, isValid: WordTest, rules: PayoutRules, bet: int)
    requires |grid| == ReelCount && bet > 0
    requires forall n :: n in mapping ==> mapping[n].value >= 0
    requires forall len :: len in rules ==> rules[len] >= 0
    ensures var words := GameWords(grid, mapping, isValid, rules);
            GameCheckWinResult(grid, mapping, isValid, rules, bet).Some? <==>
            exists i :: 0 <= i < |words| && words[i].value > 0
  {
    var words := GameWords(grid, mapping, isValid, rules);
    var lines := GameLines(grid, mapping, isValid, rules, bet);
    FindWordsGood(grid, mapping, isValid, rules);
    forall i | 0 <= i < |lines|
      ensures lines[i].amount.v >= 0
      ensures lines[i].amount.v > 0 <==> words[i].value > 0
    {
      assert words[i] in words;
      SumValuesNonNegative(grid, mapping, words[i].positions);
      var m := LengthMultiplier(rules, words[i].length);
      assert m >= 1;
      PositiveProduct(words[i].value, m, bet);
    }
    SumAmountsPositive(lines);
  }

  /** v * m * b for v >= 0, m >= 1, b >= 1 is not negative, and positive exactly when v is. */
  lemma PositiveProduct(v: int, m: int, b: int)
    requires v >= 0 && m >= 1 && b >= 1
    ensures v * m * b >= 0
    ensures v * m * b > 0 <==> v > 0
  {
    if v > 0 {
      MulAtLeast(m, v);
      MulAtLeast(b, v * m);
    }
  }

  /** The best match of game.js is the first line with the greatest amount. */
  lemma GameBestMatch(grid: Grid, mapping: SymbolMapping, isValid: WordTest, rules: PayoutRules, bet: int) returns (i: nat)
    requires GameCheckWinResult(grid, mapping, isValid, rules, bet).Some?
    ensures var r := GameCheckWinResult(grid, mapping, isValid, rules, bet).value;
            i < |r.allLines| && r.bestMatch == Some(MatchOf(r.allLines[i])) &&
            (forall k :: 0 <= k < |r.allLines| ==> r.allLines[k].amount.v <= r.allLines[i].amount.v) &&
            (forall k :: 0 <= k < i ==> r.allLines[k].amount.v < r.allLines[i].amount.v)
  {
    var lines := GameLines(grid, mapping, isValid, rules, bet);
    assert |lines| > 0;
    i := BestOfIsFirstMaximum(lines);
  }

  /** Two runs of lines that agree on everything the tally reads have the same total and best match. */
  lemma {:induction false} TallyAgrees(a: seq<Payline>, b: seq<Payline>)
    requires |a| == |b| && forall i :: 0 <= i < |a| ==> MatchOf(a[i]) == MatchOf(b[i])
    ensures SumAmounts(a) == SumAmounts(b) && BestOf(a) == BestOf(b)
  {
    if |a| > 0 {
      var n := |a| - 1;
      assert forall i :: 0 <= i < n ==> a[..n][i] == a[i] && b[..n][i] == b[i];
      TallyAgrees(a[..n], b[..n]);
    }
  }

  /** Cross-check of the two checkWin implementations: on a five-reel grid and
      without bonus tiles, the bonus-tile scoring of gameMechanics.js with the
      bet set on every line pays what game.js pays, line for line; the lines
      differ only in the `betAmount` field game.js never sets. */
  lemma MechanicsAgreesWithGame(grid: Grid, mapping: SymbolMapping, isValid: WordTest, rules: PayoutRules, bet: int)
    requires |grid| == ReelCount && NoBonusTiles(mapping)
    ensures var m := CheckWinResult(grid, mapping, (g, mp) => FindWordsSpec(g, mp, isValid, rules), ws => WordsToBetPaylines(ws, bet), rules);
            var g := GameCheckWinResult(grid, mapping, isValid, rules, bet);
            (m.Some? <==> g.Some?) &&
            (m.Some? ==>
              m.value.totalAmount == g.value.totalAmount && m.value.bestMatch == g.value.bestMatch &&
              |m.value.allLines| == |g.value.allLines| &&
              forall i :: 0 <= i < |m.value.allLines| ==> m.value.allLines[i].(betAmount := None) == g.value.allLines[i])
  {
    var words := FindWordsSpec(grid, mapping, isValid, rules);
    var ls := WordsToBetPaylines(words, bet);
    BetLinesIncluded(grid, mapping, isValid, rules, bet);
    ScoredAgree(grid, mapping, isValid, rules, bet);
    CheckWinWithoutThrow(grid, mapping, (g, mp) => FindWordsSpec(g, mp, isValid, rules), ws => WordsToBetPaylines(ws, bet), rules);
  }

  /** Line for line, the lines gameMechanics.js scores with the bet agree with game.js's. */
  lemma ScoredAgree(grid: Grid, mapping: SymbolMapping, isValid: WordTest, rules: PayoutRules, bet: int)
    requires NoBonusTiles(mapping)
    ensures var words := FindWordsSpec(grid, mapping, isValid, rules);
            var scored := ScoredLines(grid, mapping, rules, WordsToBetPaylines(words, bet));
            var gameLines := GameLines(grid, mapping, isValid, rules, bet);
            |scored| == |gameLines| &&
            (forall k :: 0 <= k < |scored| ==> scored[k].(betAmount := None) == gameLines[k]) &&
            SumAmounts(scored) == SumAmounts(gameLines) && BestOf(scored) == BestOf(gameLines)
  {
    var words := FindWordsSpec(grid, mapping, isValid, rules);
    var ls := WordsToBetPaylines(words, bet);
    BetLinesIncluded(grid, mapping, isValid, rules, bet);
    ScoredLinesIncluded(grid, mapping, rules, ls);
    var scored := ScoredLines(grid, mapping, rules, ls);
    var gameLines := GameLines(grid, mapping, isValid, rules, bet);
    forall k | 0 <= k < |ls|
      ensures MatchOf(scored[k]) == MatchOf(gameLines[k])
      ensures scored[k].(betAmount := None) == gameLines[k]
    {
      BetLineScoresLikeGame(grid, mapping, rules, words, bet, k);
    }
    TallyAgrees(scored, gameLines);
  }

  /** The words game.js finds are long enough to be scored and lie on the grid. */
  lemma BetLinesIncluded(grid: Grid, mapping: SymbolMapping, isValid: WordTest, rules: PayoutRules, bet: int)
    ensures var ls := WordsToBetPaylines(FindWordsSpec(grid, mapping, isValid, rules), bet);
            (forall k :: 0 <= k < |ls| ==> Included(ls[k])) && !Throws(grid, ls)
  {
    var words := FindWordsSpec(grid, mapping, isValid, rules);
    var ls := WordsToBetPaylines(words, bet);
    FindWordsGood(grid, mapping, isValid, rules);
    FindWordsOnGrid(grid, mapping, isValid, rules);
    forall k | 0 <= k < |ls|
      ensures Included(ls[k]) && !MissingReel(grid, ls[k].positions)
    {
      assert words[k] in words;
    }
  }

  /** Without bonus tiles one line scored by gameMechanics.js with the bet is
      the line game.js scores, but for the bet it carries. */
  lemma BetLineScoresLikeGame(grid: Grid, mapping: SymbolMapping, rules: PayoutRules, words: seq<FoundWord>, bet: int, k: nat)
    requires NoBonusTiles(mapping) && k < |words|
    ensures var m := ScoreLine(grid, mapping, rules, WordsToBetPaylines(words, bet)[k]);
            var g := GameScoreLine(WordsToPaylines(words)[k], rules, bet);
            m.(betAmount := None) == g && MatchOf(m) == MatchOf(g)
  {
    NoBonusTilesNeutral(grid, mapping, words[k].positions);
  }

  // ---------------------------------------------------------------- history

  /** An entry of the spin history (the time stamp left out). */
  datatype HistoryEntry = HistoryEntry(totalBet: int, winAmount: int, symbols: Grid, winningLines: nat)

  /** The record checkWinAndFinalize passes to the history. */
  datatype SpinResult = SpinResult(reels: Grid, totalWin: int, winningLines: seq<Payline>)

  /** The first n elements, or all of them when there are fewer. */
  function Take<T>(s: seq<T>, n: nat): (r: seq<T>)
    ensures |r| == if |s| <= n then |s| else n
    ensures forall i :: 0 <= i < |r| ==> r[i] == s[i]
  {
    if |s| <= n then s else s[..n]
  }

  function Reverse<T>(s: seq<T>): (r: seq<T>)
    ensures |r| == |s|
    ensures forall i :: 0 <= i < |s| ==> r[i] == s[|s| - 1 - i]
  {
    if |s| == 0 then [] else [s[|s| - 1]] + Reverse(s[..|s| - 1])
  }

  /** addSpinToHistory on the history: the entry goes to the front and the
      oldest entry is dropped beyond MAX_HISTORY_ENTRIES. */
  function PushHistory(history: seq<HistoryEntry>, entry: HistoryEntry): (r: seq<HistoryEntry>)
  {
    var h := [entry] + history;
    if |h| > MaxHistoryEntries then h[..|h| - 1] else h
  }

  /** One push keeps at most 50 entries, newest first, followed by the older ones in order. */
  lemma PushHistoryShape(history: seq<HistoryEntry>, entry: HistoryEntry)
    requires |history| <= MaxHistoryEntries
    ensures var r := PushHistory(history, entry);
            |r| <= MaxHistoryEntries && r[0] == entry && r[1..] == Take(history, MaxHistoryEntries - 1)
  {
  }

  /** The history after a series of spins. */
  function PushAll(history: seq<HistoryEntry>, entries: seq<HistoryEntry>): seq<HistoryEntry>
  {
    if |entries| == 0 then history
    else PushHistory(PushAll(history, entries[..|entries| - 1]), entries[|entries| - 1])
  }

  /** After any series of spins the history holds the newest 50 entries,
      newest first, ahead of what it held before. */
  lemma {:induction false} PushAllKeepsNewest(history: seq<HistoryEntry>, entries: seq<HistoryEntry>)
    requires |history| <= MaxHistoryEntries
    ensures PushAll(history, entries) == Take(Reverse(entries) + history, MaxHistoryEntries)
  {
    if |entries| > 0 {
      var init := entries[..|entries| - 1];
      var e := entries[|entries| - 1];
      PushAllKeepsNewest(history, init);
      var y := Reverse(init) + history;
      assert Reverse(entries) + history == [e] + y;
      assert PushAll(history, entries) == Take([e] + Take(y, MaxHistoryEntries), MaxHistoryEntries);
      TakeCons(e, y, MaxHistoryEntries);
    }
  }

  lemma TakeCons<T>(e: T, y: seq<T>, n: nat)
    requires n > 0
    ensures Take([e] + Take(y, n), n) == Take([e] + y, n)
  {
    if |y| > n {
      assert ([e] + y)[..n] == [e] + y[..n - 1];
      assert ([e] + y[..n])[..n] == [e] + y[..n - 1];
    }
  }

  // ---------------------------------------------------------------- bet ladder

  /** `options.indexOf(x)`: the first index of x, or -1. */
  function IndexIn(options: seq<int>, x: int): (i: int)
    ensures -1 <= i < |options|
    ensures i == -1 <==> x !in options
    ensures i >= 0 ==> options[i] == x && forall j :: 0 <= j < i ==> options[j] != x
  {
    if |options| == 0 then -1
    else if options[|options| - 1] != x then IndexIn(options[..|options| - 1], x)
    else
      var k := IndexIn(options[..|options| - 1], x);
      if k >= 0 then k else |options| - 1
  }

  /** The bet after decreaseBet: the next lower level, unchanged at the lowest
      level or off the ladder. */
  function DecreasedBet(bet: int): int
  {
    var i := IndexIn(BetOptions, bet);
    if i > 0 then BetOptions[i - 1] else bet
  }

  /** The bet after increaseBet: the next higher level when the balance covers
      it; off the ladder (indexOf -1) the next level is the lowest, 5. */
  function IncreasedBet(bet: int, balance: int): int
  {
    var i := IndexIn(BetOptions, bet);
    if i < |BetOptions| - 1 then
      var nextBet := BetOptions[i + 1];
      if balance >= nextBet then nextBet else bet
    else bet
  }

  /** The levels of the ladder are strictly increasing. */
  lemma BetOptionsAscending()
    ensures forall i, j :: 0 <= i < j < |BetOptions| ==> BetOptions[i] < BetOptions[j]
  {
  }

  /** Each level is found at its own index. */
  lemma LadderIndex(i: nat)
    requires i < |BetOptions|
    ensures IndexIn(BetOptions, BetOptions[i]) == i
  {
    BetOptionsAscending();
  }

  /** decreaseBet goes exactly one level down, except at the lowest level. */
  lemma BetLadderDown(i: nat)
    requires i < |BetOptions|
    ensures DecreasedBet(BetOptions[i]) == if i > 0 then BetOptions[i - 1] else BetOptions[i]
  {
    LadderIndex(i);
  }

  /** increaseBet goes exactly one level up when the balance covers the next
      level, and otherwise, or at the top level, leaves the bet. */
  lemma BetLadderUp(i: nat, balance: int)
    requires i < |BetOptions|
    ensures IncreasedBet(BetOptions[i], balance) ==
      if i + 1 < |BetOptions| && balance >= BetOptions[i + 1] then BetOptions[i + 1] else BetOptions[i]
  {
    LadderIndex(i);
  }

  /** A decrease is undone by an increase while the balance covers the old
      bet, and an increase that moved is undone by a decrease. */
  lemma BetLadderRoundTrip(i: nat, balance: int)
    requires i < |BetOptions|
    ensures i > 0 && balance >= BetOptions[i] ==> IncreasedBet(DecreasedBet(BetOptions[i]), balance) == BetOptions[i]
    ensures IncreasedBet(BetOptions[i], balance) != BetOptions[i] ==> DecreasedBet(IncreasedBet(BetOptions[i], balance)) == BetOptions[i]
  {
    BetLadderDown(i);
    BetLadderUp(i, balance);
    if i > 0 {
      BetLadderUp(i - 1, balance);
    }
    if i + 1 < |BetOptions| {
      BetLadderDown(i + 1);
    }
  }

  /** A bet off the ladder cannot be decreased, and an increase jumps to the lowest level 5. */
  lemma BetOffLadder(bet: int, balance: int)
    requires bet !in BetOptions
    ensures DecreasedBet(bet) == bet
    ensures IncreasedBet(bet, balance) == if balance >= 5 then 5 else bet
  {
  }

  // ---------------------------------------------------------------- word definitions

  /** An entry of `winningWordsWithDefs`. */
  datatype WordDefinition = WordDefinition(word: string, definition: string)

  /** The `word: definition` pair a line of the definitions file gives: none
      for a blank line or one whose colon is missing or first; otherwise the
      trimmed, lower-cased text before the colon and the trimmed text after it. */
  function DefinitionLine(line: string): Option<(string, string)>
  {
    if Trim(line) == "" then None
    else
      var colonIndex := IndexOf(line, ':');
      if colonIndex > 0 then Some((Lower(Trim(line[..colonIndex])), Trim(line[colonIndex + 1..]))) else None
  }

  /** The definitions after loading `lines` on top of `defs`, later lines overwriting earlier ones. */
  function ParseDefinitions(defs: map<string, string>, lines: seq<string>): map<string, string>
  {
    if |lines| == 0 then defs
    else Define(ParseDefinitions(defs, lines[..|lines| - 1]), DefinitionLine(lines[|lines| - 1]))
  }

  /** The definitions with one parsed line entered. */
  function Define(defs: map<string, string>, entry: Option<(string, string)>): (r: map<string, string>)
    ensures entry.None? ==> r == defs
    ensures entry.Some? ==> r.Keys == defs.Keys + {entry.value.0} && r[entry.value.0] == entry.value.1
    ensures entry.Some? ==> forall w :: w in defs && w != entry.value.0 ==> r[w] == defs[w]
  {
    match entry
    case None => defs
    case Some(pair) => defs[pair.0 := pair.1]
  }

  /** A line written as `word:definition`, for a lower-case trimmed word
      without a colon and a trimmed definition, is read back as that pair. */
  lemma DefinitionLineRoundTrip(word: string, definition: string)
    requires |word| > 0 && ':' !in word && Trimmed(word) && NoAsciiUpper(word)
    requires Trimmed(definition)
    ensures DefinitionLine(word + ":" + definition) == Some((word, definition))
  {
    var line := word + ":" + definition;
    assert line[..|word|] == word;
    assert line[|word| + 1..] == definition;
    assert IndexOf(line, ':') == |word| by {
      assert line[..|word|] == word;
      assert line[|word|] == ':';
      IndexOfFirst(line, |word|);
    }
    TrimOfNonBlank(word, line);
    LowerOfNoUpper(word);
    TrimOfTrimmed(word);
    TrimOfTrimmed(definition);
  }

  /** The first index of a character that does not occur before it. */
  lemma IndexOfFirst(s: string, k: nat)
    requires k < |s| && s[k] == ':' && ':' !in s[..k]
    ensures IndexOf(s, ':') == k
  {
  }

  /** A line that starts with a word of non-blank characters is not blank. */
  lemma TrimOfNonBlank(word: string, line: string)
    requires |word| > 0 && Trimmed(word) && |line| >= |word| && line[..|word|] == word
    ensures Trim(line) != ""
  {
    assert line[0] == word[0];
  }

  /** The last line that defines a word decides its definition. */
  lemma {:induction false} LastDefinitionWins(defs: map<string, string>, lines: seq<string>, k: nat, word: string, definition: string)
    requires k < |lines| && DefinitionLine(lines[k]) == Some((word, definition))
    requires forall j :: k < j < |lines| ==> DefinitionLine(lines[j]).None? || DefinitionLine(lines[j]).value.0 != word
    ensures word in ParseDefinitions(defs, lines) && ParseDefinitions(defs, lines)[word] == definition
  {
    var init := lines[..|lines| - 1];
    var last := DefinitionLine(lines[|lines| - 1]);
    if k < |lines| - 1 {
      assert init[k] == lines[k];
      forall j | k < j < |init|
        ensures DefinitionLine(init[j]).None? || DefinitionLine(init[j]).value.0 != word
      {
        assert init[j] == lines[j];
      }
      LastDefinitionWins(defs, init, k, word, definition);
      assert last.None? || last.value.0 != word;
    }
  }

  /** Lines that define nothing leave the definitions as they were. */
  lemma {:induction false} SkippedLinesChangeNothing(defs: map<string, string>, lines: seq<string>)
    requires forall j :: 0 <= j < |lines| ==> DefinitionLine(lines[j]).None?
    ensures ParseDefinitions(defs, lines) == defs
  {
    if |lines| > 0 {
      SkippedLinesChangeNothing(defs, lines[..|lines| - 1]);
    }
  }

  /** The definition shown for a winning word: the definition of the
      lower-cased word when there is a non-empty one, else the placeholder. */
  function DefinitionOf(defs: map<string, string>, word: string): (d: string)
    ensures d == NoDefinition || (Lower(word) in defs && d == defs[Lower(word)])
  {
    var wordLower := Lower(word);
    if wordLower in defs && defs[wordLower] != "" then defs[wordLower] else NoDefinition
  }

  /** What updateWinningWordDefinitions leaves in `winningWordsWithDefs`. */
  function DefinitionsFor(words: seq<string>, defs: map<string, string>): (r: seq<WordDefinition>)
    ensures |r| == |words|
    ensures forall i :: 0 <= i < |r| ==> r[i].word == words[i]
  {
    seq(|words|, i requires 0 <= i < |words| => WordDefinition(words[i], DefinitionOf(defs, words[i])))
  }

  /** The lookup ignores case: a word shown in capitals gets the definition
      loaded for it in any case. */
  lemma DefinitionIgnoresCase(defs: map<string, string>, word: string)
    ensures DefinitionOf(defs, Upper(word)) == DefinitionOf(defs, word)
    ensures DefinitionOf(defs, Lower(word)) == DefinitionOf(defs, word)
  {
    LowerUpper(word);
    LowerIdempotent(word);
  }

  /** The names of the winning lines, in order. */
  function LineNames(lines: seq<Payline>): (names: seq<string>)
    ensures |names| == |lines|
    ensures forall i :: 0 <= i < |lines| ==> names[i] == lines[i].symbolName
  {
    seq(|lines|, i requires 0 <= i < |lines| => lines[i].symbolName)
  }

  /** The total a checkWin result pays (0 for null). */
  function TotalOf(r: Option<WinInfo>): int
  {
    if r.Some? then r.value.totalAmount else 0
  }

  /** The number of winning lines a checkWin result records in the history. */
  function HistoryLineCount(r: Option<WinInfo>): nat
  {
    if r.Some? then |r.value.allLines| else 0
  }

  /** A completed spin never takes credits: the total of a win is positive. */
  lemma WinNeverNegative(grid: Grid, mapping: SymbolMapping, isValid: WordTest, rules: PayoutRules, bet: int)
    ensures var r := GameCheckWinResult(grid, mapping, isValid, rules, bet);
            TotalOf(r) >= 0 && (r.Some? ==> TotalOf(r) > 0)
  {
  }

  /** The loop of spinReels over the five reels. */
  method StartReels(reels: seq<Reel>, stopIndexes: seq<nat>, spinStartTime: int)
    requires |reels| == ReelCount == |stopIndexes|
    requires forall i, j :: 0 <= i < j < |reels| ==> reels[i] != reels[j]
    modifies reels
    ensures forall i :: 0 <= i < ReelCount ==>
      var reel := reels[i];
      reel.spinning && reel.targetPosition == stopIndexes[i] &&
      reel.startTime == spinStartTime + i * ReelStaggerStart && reel.duration == SpinDuration + i * ReelStaggerStop &&
      reel.startPosition == old(reel.position) && reel.position == old(reel.position) && reel.symbols == old(reel.symbols) &&
      reel.distance == Distance(old(reel.position), stopIndexes[i], |reel.symbols|, reel.duration, 3 + i / 2)
  {
    for i := 0 to ReelCount
      invariant forall k :: 0 <= k < i ==>
        var reel := reels[k];
        reel.spinning && reel.targetPosition == stopIndexes[k] &&
        reel.startTime == spinStartTime + k * ReelStaggerStart && reel.duration == SpinDuration + k * ReelStaggerStop &&
        reel.startPosition == old(reel.position) && reel.position == old(reel.position) && reel.symbols == old(reel.symbols) &&
        reel.distance == Distance(old(reel.position), stopIndexes[k], |reel.symbols|, reel.duration, 3 + k / 2)
      invariant forall k :: i <= k < ReelCount ==> unchanged(reels[k])
    {
      StartReel(reels[i], i, stopIndexes[i], spinStartTime);
    }
  }

  /** The first loop of spinCompleted: every reel at its target, stopped. */
  method SnapReels(reels: seq<Reel>)
    requires forall i, j :: 0 <= i < j < |reels| ==> reels[i] != reels[j]
    modifies reels
    ensures forall k :: 0 <= k < |reels| ==>
      reels[k].position == old(reels[k].targetPosition) && !reels[k].spinning &&
      reels[k].targetPosition == old(reels[k].targetPosition) && reels[k].symbols == old(reels[k].symbols)
    ensures forall k :: 0 <= k < |reels| ==>
      reels[k].startTime == old(reels[k].startTime) && reels[k].duration == old(reels[k].duration) &&
      reels[k].startPosition == old(reels[k].startPosition) && reels[k].distance == old(reels[k].distance)
  {
    for i := 0 to |reels|
      invariant forall k :: 0 <= k < i ==>
        reels[k].position == old(reels[k].targetPosition) && !reels[k].spinning &&
        reels[k].targetPosition == old(reels[k].targetPosition) && reels[k].symbols == old(reels[k].symbols)
      invariant forall k :: 0 <= k < i ==>
        reels[k].startTime == old(reels[k].startTime) && reels[k].duration == old(reels[k].duration) &&
        reels[k].startPosition == old(reels[k].startPosition) && reels[k].distance == old(reels[k].distance)
      invariant forall k :: i <= k < |reels| ==> unchanged(reels[k])
    {
      var reel := reels[i];
      reel.position := reel.targetPosition;
      reel.spinning := false;
    }
  }

  /** The second loop of spinCompleted: three rows per reel from the target down. */
  method ReadStops(reels: seq<Reel>) returns (results: Grid)
    requires |reels| == ReelCount
    requires forall i :: 0 <= i < |reels| ==> |reels[i].symbols| > 0 && 0 <= reels[i].targetPosition < |reels[i].symbols|
    ensures |results| == ReelCount
    ensures forall k :: 0 <= k < ReelCount ==> results[k] == StopColumn(reels[k].symbols, reels[k].targetPosition)
  {
    results := [];
    for i := 0 to ReelCount
      invariant |results| == i
      invariant forall k :: 0 <= k < i ==> results[k] == StopColumn(reels[k].symbols, reels[k].targetPosition)
    {
      var reel := reels[i];
      var reelLength := |reel.symbols|;
      var finalTopIndex := reel.targetPosition % reelLength;
      ModUnique(reel.targetPosition, 0, reel.targetPosition, reelLength);
      var finalMiddleIndex := (finalTopIndex + 1) % reelLength;
      var finalBottomIndex := (finalTopIndex + 2) % reelLength;
      results := results + [[reel.symbols[finalTopIndex], reel.symbols[finalMiddleIndex], reel.symbols[finalBottomIndex]]];
    }
  }

  /** spinReels for reel i, given its stop index. */
  method StartReel(reel: Reel, i: nat, stopIndex: nat, spinStartTime: int)
    modifies reel
    ensures reel.spinning && reel.targetPosition == stopIndex
    ensures reel.startTime == spinStartTime + i * ReelStaggerStart && reel.duration == SpinDuration + i * ReelStaggerStop
    ensures reel.startPosition == old(reel.position) && reel.position == old(reel.position) && reel.symbols == old(reel.symbols)
    ensures reel.distance == Distance(old(reel.position), stopIndex, |reel.symbols|, reel.duration, 3 + i / 2)
  {
    reel.spinning := true;
    var reelLength := |reel.symbols|;
    reel.targetPosition := stopIndex;
    reel.startTime := spinStartTime + i * ReelStaggerStart;
    reel.duration := SpinDuration + i * ReelStaggerStop;
    reel.startPosition := reel.position;
    var difference := match JsRem(reel.startPosition, reelLength)
      case NaN => NaN
      case Num(currentPositionMod) =>
        var d := JsRem(reel.targetPosition - currentPositionMod + reelLength, reelLength).v;
        if d < 1 && reel.duration > 0 then Num(d + reelLength) else Num(d);
    var rotations := 3 + i / 2;
    reel.distance := Num(rotations * reelLength).Plus(difference);
  }

  /** The stop column spinCompleted reads: rows T, T+1 and T+2 of the strip, wrapped. */
  function StopColumn(symbols: seq<nat>, target: int): (col: seq<nat>)
    requires |symbols| > 0 && 0 <= target < |symbols|
    ensures |col| == 3
  {
    var n := |symbols|;
    [symbols[target], symbols[(target + 1) % n], symbols[(target + 2) % n]]
  }

  /** spinCompleted reads what readVisibleSymbols reads with three rows. */
  lemma StopColumnIsWindow(symbols: seq<nat>, target: int)
    requires |symbols| > 0 && 0 <= target < |symbols|
    ensures forall j :: 0 <= j < 3 ==> Window(symbols, target, 3)[j] == Some(StopColumn(symbols, target)[j])
  {
    var n := |symbols|;
    assert target % n == target;
    WindowWraps(symbols, target, 0);
    WindowWraps(symbols, target, 1);
    WindowWraps(symbols, target, 2);
  }

  /** The rounds one reel of spinReels turns: reel i lands on its stop after
      3 + floor(i / 2) turns and between one step and one turn more. */
  lemma SpinReelLands(i: nat, position: int, stop: nat, len: nat)
    requires 0 < len && stop < len
    ensures var rotations := 3 + i / 2;
            var d := Distance(position, stop, len, SpinDuration + i * ReelStaggerStop, rotations);
            d.Num? && (position + d.v) % len == stop &&
            rotations * len + 1 <= d.v <= (rotations + 1) * len
  {
    var rotations := 3 + i / 2;
    var duration := SpinDuration + i * ReelStaggerStop;
    DistanceLands(position, stop, len, duration, rotations);
    DistanceBounds(position, stop, len, duration, rotations);
    ModUnique(stop, 0, stop, len);
  }

  // ---------------------------------------------------------------- the session

  class Session {
    /** The letter table and payout rules imported from the theme configuration. */
    const symbolMapping: SymbolMapping
    const payoutRules: PayoutRules
    var balance: int
    var betAmount: int
    var spinning: bool
    var reels: seq<Reel>
    var currentReelResults: Grid
    var winningLines: seq<Payline>
    var winningWordsWithDefs: seq<WordDefinition>
    var gameHistory: seq<HistoryEntry>
    var wordDefinitions: map<string, string>
    var winAmount: int

    /** The reel objects are distinct. */
    ghost predicate Distinct()
      reads this
    {
      forall i, j :: 0 <= i < j < |reels| ==> reels[i] != reels[j]
    }

    /** Five distinct reels on non-empty strips, each target on its strip:
        what initReels and every spin leave. */
    ghost predicate ReelsReady()
      reads this, reels
    {
      Distinct() && |reels| == ReelCount &&
      forall i :: 0 <= i < |reels| ==> |reels[i].symbols| > 0 && 0 <= reels[i].targetPosition < |reels[i].symbols|
    }

    /** The game at start: default balance and bet, initReels with the given
        random start positions, an empty history and no definitions. The
        source leaves winAmount undefined until the first checkWinAndFinalize;
        it only feeds the display, and here it starts at 0. */
    constructor (startPositions: seq<nat>)
      requires |startPositions| == ReelCount
      requires forall i :: 0 <= i < ReelCount ==> startPositions[i] < |Config.ReelStrips[i]|
      ensures symbolMapping == Config.SymbolNumberMultipliers && payoutRules == Config.PayoutRulesTable
      ensures balance == DefaultBalance && betAmount == DefaultBet && !spinning
      ensures fresh(reels) && ReelsReady()
      ensures forall i :: 0 <= i < ReelCount ==>
        reels[i].position == startPositions[i] && reels[i].symbols == Config.ReelStrips[i] &&
        !reels[i].spinning && reels[i].targetPosition == 0 &&
        reels[i].startTime == 0 && reels[i].duration == 0 && reels[i].startPosition == 0 && reels[i].distance == Num(0)
      ensures currentReelResults == seq(ReelCount, _ => seq(VisibleRows, _ => 0))
      ensures winningLines == [] && winningWordsWithDefs == [] && gameHistory == [] && wordDefinitions == map[] && winAmount == 0
    {
      symbolMapping := Config.SymbolNumberMultipliers;
      payoutRules := Config.PayoutRulesTable;
      balance := DefaultBalance;
      betAmount := DefaultBet;
      spinning := false;
      winningLines := [];
      winningWordsWithDefs := [];
      gameHistory := [];
      wordDefinitions := map[];
      winAmount := 0;
      currentReelResults := seq(ReelCount, _ => seq(VisibleRows, _ => 0));
      Config.ReelStripsShape();
      var rs: seq<Reel> := [];
      for i := 0 to ReelCount
        invariant |rs| == i && fresh(rs)
        invariant forall a, b :: 0 <= a < b < i ==> rs[a] != rs[b]
        invariant forall k :: 0 <= k < i ==>
          rs[k].position == startPositions[k] && rs[k].symbols == Config.ReelStrips[k] &&
          !rs[k].spinning && rs[k].targetPosition == 0 &&
          rs[k].startTime == 0 && rs[k].duration == 0 && rs[k].startPosition == 0 && rs[k].distance == Num(0)
      {
        var reel := new Reel(startPositions[i], Config.ReelStrips[i]);
        rs := rs + [reel];
      }
      reels := rs;
    }

    /** The guards of spinReels: no spin running, the balance covers the
        bet, five reels, none on an empty strip. */
    predicate CanSpin()
      reads this, reels
    {
      !spinning && balance >= betAmount && |reels| == ReelCount &&
      forall i :: 0 <= i < |reels| ==> |reels[i].symbols| > 0
    }

    /** spinReels with the random stop index of each reel given: when a
        guard fails nothing changes; otherwise the bet is debited, the
        definitions and winning lines are cleared, and reel i is set spinning
        towards its stop, starting 80 ms x i late and lasting 4000 + 150 x i
        ms over 3 + floor(i / 2) turns and the difference to the stop. */
    method SpinReels(stopIndexes: seq<nat>, spinStartTime: int)
      requires Distinct() && |stopIndexes| == ReelCount
      requires forall i :: 0 <= i < ReelCount && i < |reels| ==>
        stopIndexes[i] < |reels[i].symbols| || (reels[i].symbols == [] && stopIndexes[i] == 0)
      modifies this, reels
      ensures reels == old(reels)
      ensures !old(CanSpin()) ==>
        balance == old(balance) && spinning == old(spinning) && winningLines == old(winningLines) &&
        winningWordsWithDefs == old(winningWordsWithDefs) &&
        forall i :: 0 <= i < |reels| ==> unchanged(reels[i])
      ensures old(CanSpin()) ==>
        balance == old(balance) - betAmount && spinning && winningLines == [] && winningWordsWithDefs == [] &&
        forall i :: 0 <= i < ReelCount ==>
          var reel := reels[i];
          reel.spinning && reel.targetPosition == stopIndexes[i] &&
          reel.startTime == spinStartTime + i * ReelStaggerStart && reel.duration == SpinDuration + i * ReelStaggerStop &&
          reel.startPosition == old(reel.position) && reel.position == old(reel.position) && reel.symbols == old(reel.symbols) &&
          reel.distance == Distance(old(reel.position), stopIndexes[i], |reel.symbols|, reel.duration, 3 + i / 2)
      ensures betAmount == old(betAmount) && currentReelResults == old(currentReelResults) && gameHistory == old(gameHistory)
      ensures wordDefinitions == old(wordDefinitions) && winAmount == old(winAmount)
    {
      if spinning {
        return;
      }
      if balance < betAmount {
        return;
      }
      if |reels| != ReelCount || exists i :: 0 <= i < |reels| && |reels[i].symbols| == 0 {
        return;
      }
      balance := balance - betAmount;
      winningWordsWithDefs := [];
      spinning := true;
      winningLines := [];
      StartReels(reels, stopIndexes, spinStartTime);
    }

    /** spinCompleted: every reel snaps to its target and stops, the grid is
        read as three rows per reel from the target down, wrapping around the
        strip, and then checkWinAndFinalize runs. */
    method SpinCompleted(dict: set<string>)
      requires ReelsReady()
      modifies this, reels
      ensures reels == old(reels) && !spinning
      ensures forall i :: 0 <= i < ReelCount ==>
        reels[i].position == reels[i].targetPosition && !reels[i].spinning &&
        reels[i].targetPosition == old(reels[i].targetPosition) && reels[i].symbols == old(reels[i].symbols)
      ensures forall i :: 0 <= i < ReelCount ==>
        reels[i].startTime == old(reels[i].startTime) && reels[i].duration == old(reels[i].duration) &&
        reels[i].startPosition == old(reels[i].startPosition) && reels[i].distance == old(reels[i].distance)
      ensures |currentReelResults| == ReelCount
      ensures forall i :: 0 <= i < ReelCount ==> currentReelResults[i] == StopColumn(reels[i].symbols, reels[i].targetPosition)
      ensures var win := TotalOf(GameCheckWinResult(currentReelResults, symbolMapping, DictionaryTest(dict), payoutRules, betAmount));
              balance == old(balance) + win && winAmount == win &&
              gameHistory == PushHistory(old(gameHistory), HistoryEntry(betAmount, win, currentReelResults, HistoryLineCount(
                GameCheckWinResult(currentReelResults, symbolMapping, DictionaryTest(dict), payoutRules, betAmount))))
      ensures winningLines == GameLines(currentReelResults, symbolMapping, DictionaryTest(dict), payoutRules, betAmount)
      ensures var r := GameCheckWinResult(currentReelResults, symbolMapping, DictionaryTest(dict), payoutRules, betAmount);
              (r.Some? ==> winningWordsWithDefs == DefinitionsFor(LineNames(r.value.allLines), wordDefinitions)) &&
              (r.None? ==> winningWordsWithDefs == if |winningLines| == 0 then old(winningWordsWithDefs) else [])
      ensures betAmount == old(betAmount) && wordDefinitions == old(wordDefinitions)
    {
      SnapReels(reels);
      spinning := false;
      currentReelResults := ReadStops(reels);
      CheckWinAndFinalize(dict);
    }

    /** checkWinAndFinalize: the win is scored, recorded in the history with
        the bet, the grid and the number of winning lines, and a positive
        total is credited to the balance. */
    method CheckWinAndFinalize(dict: set<string>)
      modifies this
      ensures var r := GameCheckWinResult(currentReelResults, symbolMapping, DictionaryTest(dict), payoutRules, betAmount);
              balance == old(balance) + TotalOf(r) && winAmount == TotalOf(r) &&
              gameHistory == PushHistory(old(gameHistory), HistoryEntry(betAmount, TotalOf(r), currentReelResults, HistoryLineCount(r)))
      ensures |currentReelResults| != ReelCount ==> winningLines == old(winningLines) && winningWordsWithDefs == old(winningWordsWithDefs)
      ensures |currentReelResults| == ReelCount ==>
        winningLines == GameLines(currentReelResults, symbolMapping, DictionaryTest(dict), payoutRules, betAmount)
      ensures var r := GameCheckWinResult(currentReelResults, symbolMapping, DictionaryTest(dict), payoutRules, betAmount);
              (r.Some? ==> winningWordsWithDefs == DefinitionsFor(LineNames(r.value.allLines), wordDefinitions)) &&
              (|currentReelResults| == ReelCount && r.None? ==>
                 winningWordsWithDefs == if |winningLines| == 0 then old(winningWordsWithDefs) else [])
      ensures !spinning && betAmount == old(betAmount) && reels == old(reels) && currentReelResults == old(currentReelResults)
      ensures wordDefinitions == old(wordDefinitions)
    {
      spinning := false;
      var winInfo := CheckWin(dict);
      winAmount := if winInfo.Some? then winInfo.value.totalAmount else 0;
      var spinResult := SpinResult(currentReelResults, winAmount, if winInfo.Some? then winInfo.value.allLines else []);
      AddSpinToHistory(spinResult);
      if winInfo.Some? && winInfo.value.totalAmount > 0 {
        balance := balance + winInfo.value.totalAmount;
      }
    }

    /** addCredit: 1000 more credits, unless a spin is running. */
    method AddCredit()
      modifies this
      ensures balance == if old(spinning) then old(balance) else old(balance) + CreditAmount
      ensures betAmount == old(betAmount) && spinning == old(spinning) && reels == old(reels)
      ensures currentReelResults == old(currentReelResults) && gameHistory == old(gameHistory)
      ensures winningLines == old(winningLines) && winningWordsWithDefs == old(winningWordsWithDefs)
      ensures wordDefinitions == old(wordDefinitions) && winAmount == old(winAmount)
    {
      if spinning {
        return;
      }
      balance := balance + CreditAmount;
    }

    /** decreaseBet: one level down the ladder, unless a spin is running. */
    method DecreaseBet()
      modifies this
      ensures betAmount == if old(spinning) then old(betAmount) else DecreasedBet(old(betAmount))
      ensures balance == old(balance) && spinning == old(spinning) && reels == old(reels)
      ensures currentReelResults == old(currentReelResults) && gameHistory == old(gameHistory)
      ensures winningLines == old(winningLines) && winningWordsWithDefs == old(winningWordsWithDefs)
      ensures wordDefinitions == old(wordDefinitions) && winAmount == old(winAmount)
    {
      if spinning {
        return;
      }
      var currentIndex := IndexIn(BetOptions, betAmount);
      if currentIndex > 0 {
        betAmount := BetOptions[currentIndex - 1];
      }
    }

    /** increaseBet: one level up the ladder when the balance covers it, unless a spin is running. */
    method IncreaseBet()
      modifies this
      ensures betAmount == if old(spinning) then old(betAmount) else IncreasedBet(old(betAmount), old(balance))
      ensures balance == old(balance) && spinning == old(spinning) && reels == old(reels)
      ensures currentReelResults == old(currentReelResults) && gameHistory == old(gameHistory)
      ensures winningLines == old(winningLines) && winningWordsWithDefs == old(winningWordsWithDefs)
      ensures wordDefinitions == old(wordDefinitions) && winAmount == old(winAmount)
    {
      if spinning {
        return;
      }
      var currentIndex := IndexIn(BetOptions, betAmount);
      if currentIndex < |BetOptions| - 1 {
        var nextBet := BetOptions[currentIndex + 1];
        if balance >= nextBet {
          betAmount := nextBet;
        }
      }
    }

    /** addSpinToHistory: the entry for `result` at the front, at most 50 kept. */
    method AddSpinToHistory(result: SpinResult)
      modifies this
      ensures gameHistory == PushHistory(old(gameHistory), HistoryEntry(old(betAmount), result.totalWin, result.reels, |result.winningLines|))
      ensures balance == old(balance) && betAmount == old(betAmount) && spinning == old(spinning) && reels == old(reels)
      ensures currentReelResults == old(currentReelResults) && winningLines == old(winningLines)
      ensures winningWordsWithDefs == old(winningWordsWithDefs) && wordDefinitions == old(wordDefinitions) && winAmount == old(winAmount)
    {
      var historyEntry := HistoryEntry(betAmount, result.totalWin, result.reels, |result.winningLines|);
      gameHistory := [historyEntry] + gameHistory;
      if |gameHistory| > MaxHistoryEntries {
        gameHistory := gameHistory[..|gameHistory| - 1];
      }
    }

    /** The parse loop of loadWordDefinitions for a response text, or nothing
        when the request failed (None). */
    method LoadWordDefinitions(response: Option<string>)
      modifies this
      ensures response.None? ==> wordDefinitions == old(wordDefinitions)
      ensures response.Some? ==> wordDefinitions == ParseDefinitions(old(wordDefinitions), Split(response.value, '\n'))
      ensures balance == old(balance) && betAmount == old(betAmount) && spinning == old(spinning) && reels == old(reels)
      ensures currentReelResults == old(currentReelResults) && gameHistory == old(gameHistory)
      ensures winningLines == old(winningLines) && winningWordsWithDefs == old(winningWordsWithDefs) && winAmount == old(winAmount)
    {
      if response.None? {
        return;
      }
      wordDefinitions := ParseLines(wordDefinitions, Split(response.value, '\n'));
    }

    /** updateWinningWordDefinitions: one entry per word, in order. */
    method UpdateWinningWordDefinitions(words: seq<string>)
      modifies this
      ensures winningWordsWithDefs == DefinitionsFor(words, wordDefinitions)
      ensures balance == old(balance) && betAmount == old(betAmount) && spinning == old(spinning) && reels == old(reels)
      ensures currentReelResults == old(currentReelResults) && gameHistory == old(gameHistory)
      ensures winningLines == old(winningLines) && wordDefinitions == old(wordDefinitions) && winAmount == old(winAmount)
    {
      winningWordsWithDefs := LookupDefinitions(words, wordDefinitions);
    }

    /** checkWin of game.js on the current grid, with the loaded word set
        `dict`, the shipped mapping and rules and the current bet. It leaves
        the scored lines in `winningLines` (unless the grid is not five reels)
        and the definitions of the winning words (cleared when there is no win
        although words were found). */
    method CheckWin(dict: set<string>) returns (result: Option<WinInfo>)
      modifies this
      ensures result == GameCheckWinResult(currentReelResults, symbolMapping, DictionaryTest(dict), payoutRules, betAmount)
      ensures |currentReelResults| != ReelCount ==> winningLines == old(winningLines) && winningWordsWithDefs == old(winningWordsWithDefs)
      ensures |currentReelResults| == ReelCount ==>
        winningLines == GameLines(currentReelResults, symbolMapping, DictionaryTest(dict), payoutRules, betAmount)
      ensures result.Some? ==> winningWordsWithDefs == DefinitionsFor(LineNames(result.value.allLines), wordDefinitions)
      ensures |currentReelResults| == ReelCount && result.None? ==>
        winningWordsWithDefs == (if |winningLines| == 0 then old(winningWordsWithDefs) else [])
      ensures balance == old(balance) && betAmount == old(betAmount) && spinning == old(spinning) && reels == old(reels)
      ensures currentReelResults == old(currentReelResults) && gameHistory == old(gameHistory)
      ensures wordDefinitions == old(wordDefinitions) && winAmount == old(winAmount)
    {
      var grid := currentReelResults;
      var mapping := symbolMapping;
      var rules := payoutRules;
      var isValid := DictionaryTest(dict);
      if |grid| != ReelCount {
        return None;
      }
      winningLines := [];
      var foundWords := FindWords(grid, mapping, isValid, rules);
      if |foundWords| == 0 {
        return None;
      }
      var totalWinAmount, bestMatchDetails;
      winningLines, totalWinAmount, bestMatchDetails := ScoreGameLines(WordsToPaylines(foundWords), rules, betAmount);
      if totalWinAmount.Greater(Num(0)) {
        winningWordsWithDefs := LookupDefinitions(LineNames(winningLines), wordDefinitions);
        return Some(WinInfo(totalWinAmount.v, bestMatchDetails, winningLines));
      }
      winningWordsWithDefs := [];
      return None;
    }
  }

  /** The loop of loadWordDefinitions over the lines of the response. */
  method ParseLines(defs: map<string, string>, lines: seq<string>) returns (r: map<string, string>)
    ensures r == ParseDefinitions(defs, lines)
  {
    r := defs;
    for k := 0 to |lines|
      invariant r == ParseDefinitions(defs, lines[..k])
    {
      var line := lines[k];
      ParseStep(defs, lines, k);
      if Trim(line) == "" {
        continue;
      }
      var colonIndex := IndexOf(line, ':');
      if colonIndex > 0 {
        var word := Lower(Trim(line[..colonIndex]));
        var definition := Trim(line[colonIndex + 1..]);
        r := r[word := definition];
      }
    }
    assert lines[..|lines|] == lines;
  }

  lemma ParseStep(defs: map<string, string>, lines: seq<string>, k: nat)
    requires k < |lines|
    ensures ParseDefinitions(defs, lines[..k + 1]) == Define(ParseDefinitions(defs, lines[..k]), DefinitionLine(lines[k]))
  {
    assert lines[..k + 1][..k] == lines[..k];
  }

  /** The loop of updateWinningWordDefinitions. */
  method LookupDefinitions(words: seq<string>, defs: map<string, string>) returns (r: seq<WordDefinition>)
    ensures r == DefinitionsFor(words, defs)
  {
    r := [];
    for i := 0 to |words|
      invariant r == DefinitionsFor(words[..i], defs)
    {
      var word := words[i];
      var wordLower := Lower(word);
      if wordLower in defs && defs[wordLower] != "" {
        r := r + [WordDefinition(word, defs[wordLower])];
      } else {
        r := r + [WordDefinition(word, NoDefinition)];
      }
    }
    assert words[..|words|] == words;
  }

  /** The scoring loop of checkWin in game.js: each line's value times the
      length multiplier and the bet, the running total and the first line
      with the greatest amount. */
  method ScoreGameLines(wordPaylines: seq<Payline>, rules: PayoutRules, bet: int)
    returns (lines: seq<Payline>, totalWinAmount: Number, bestMatchDetails: Option<BestMatch>)
    ensures lines == GameScoredLines(wordPaylines, rules, bet)
    ensures totalWinAmount == SumAmounts(lines) && bestMatchDetails == BestOf(lines)
  {
    lines := [];
    totalWinAmount := Num(0);
    bestMatchDetails := None;
    ghost var scored := GameScoredLines(wordPaylines, rules, bet);
    for k := 0 to |wordPaylines|
      invariant lines == scored[..k]
      invariant totalWinAmount == SumAmounts(lines)
      invariant bestMatchDetails == BestOf(lines)
    {
      var wordLine := wordPaylines[k];
      var baseValue := wordLine.multiplier;
      var lengthMultiplier := LengthMultiplier(rules, wordLine.count);
      var winAmount := baseValue * lengthMultiplier * bet;
      var line := wordLine.(multiplier := baseValue * lengthMultiplier, amount := Num(winAmount));
      totalWinAmount := totalWinAmount.Plus(Num(winAmount));
      assert scored[..k + 1] == scored[..k] + [line];
      lines := lines + [line];
      if bestMatchDetails.None? || Num(winAmount).Greater(bestMatchDetails.value.amount) {
        bestMatchDetails := Some(BestMatch(line.paylineId, line.symbolName, line.multiplier, line.count, Num(winAmount)));
      }
    }
    assert scored[..|wordPaylines|] == scored;
  }
}

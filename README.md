# Scrabble Slots: a verified model of the word-finding and payout engine

Scrabble Slots is a browser slot machine whose reels carry letter tiles. When
the reels stop, every row and every column of the visible grid is read as a
string of letters. Each line pays for at most one dictionary word: the longest
valid word at the earliest start, with the scan jumping past every word it
records. A word pays its letter values, times the length multiplier in
`PAYOUT_RULES`, times the bet. The project models, in Dafny:

- the theme tables (`themes/config.js`) and the generated symbol and tile
  tables (`themes/symbols.js`);
- the dictionary and the line scanner (`wordFinder.js`);
- the generic reel mechanics and the bonus-tile scorer (`core/gameMechanics.js`);
- the game session (`game.js`): configuration check, spin, stop, read, win
  check, crediting, the bet ladder, the spin history and the word definitions;
- the return-to-player simulator (`rtp-simulator.js`) with its own
  all-substrings word search and its accounting loop;
- the word-list preprocessor (`words/process_words.php`) with PCRE's matching
  rules for its three regular expressions.

Every operation is modelled in the form the source uses:

- The session and the reels are classes. Their methods state the whole new
  state.
- Loops are `while`/`for` loops. Each is proved against a specification
  function, and the properties the source promises are proved about that
  function as lemmas.
- JavaScript numbers that can become `NaN` are a `Number` datatype (`Num(v)`
  or `NaN`).
- JavaScript's `%` is `Reels.JsRem`, whose remainder takes the sign of the
  dividend.
- A missing grid cell (`undefined`) is `None`.

Files and modules: `wrappers.dfy` (Option), `tiles.dfy` (shared types),
`text.dfy` (JavaScript string helpers), `config.dfy`, `symbols.dfy`,
`reels.dfy`, `wordfinder.dfy`, `mechanics.dfy`, `game.dfy`, `simulator.dfy`,
`processwords.dfy`.

Where the code and its description differ, the model follows the code:

- **Length multipliers.** Every shipped `PAYOUT_RULES` multiplier is 1,
  whatever the comments beside them say.
- **Letter table and bonus tiles.** The shipped letter table has only the 26
  plain letters. The bonus tiles of `core/gameMechanics.js` therefore never
  score with the shipped configuration (`Mechanics.NoBonusTilesNeutral`).
- **Grid size.** `game.js` reads 3 rows from each of its 5 reels, although
  `VISIBLE_ROWS` is 5. The game therefore checks 3 rows and 5 columns, not the
  10 lines of `PAYLINES`. `WordFinder.GridLinesArePaylines` shows that the two
  agree only on a 5 x 5 grid.

## Model

| member | source | states |
|---|---|---|
| Config.ReelStripsShape | themes/config.js:3-14 | there are 5 reel strips of exactly 30 entries each |
| Config.ReelStripsUseLetters | themes/config.js:3-14 | every strip entry is below 26 and is a key of the letter table |
| Config.StripBelow | themes/config.js:3-14 | each single strip holds only letter ids 0..25 |
| Config.LetterTableKeys | themes/config.js:18-45 | the letter table has exactly the keys 0..25; key n is letter 'A'+n and a plain tile |
| Config.PayoutRulesShape | themes/config.js:49-53 | PAYOUT_RULES defines exactly lengths 3, 4 and 5, each with multiplier 1 |
| Config.PaylinesShape | themes/config.js:57-81 | PAYLINES has 10 lines of 5 cells; line r < 5 is row r across reels 0..4, line 5+c is reel c over rows 0..4 |
| Symbols.KindType | themes/symbols.js:42-75 | a tile kind has a type string exactly when it is not a plain letter |
| Symbols.LetterPropertiesOrder | themes/symbols.js:8-35 | LETTER_PROPERTIES lists the 26 letters in A..Z order |
| Symbols.ConfigAgreesWithLetterProperties | themes/symbols.js:8-35 | the configured letter table has LETTER_PROPERTIES' letter and value for every id 0..25 |
| Symbols.GenerateSymbolNumberMultipliers | themes/symbols.js:38-79 | defines exactly ids 0..129; id n carries the letter and value of the (n mod 26)-th letter; the band n/26 fixes the kind (none, dl, tl, dw, tw); only band 0 carries pointValue = value |
| Symbols.GenerateMultipliersFrom | themes/symbols.js:41-76 | the same table for any 26-entry letter list, filled by the forEach loop |
| Symbols.BandSplit | themes/symbols.js:41-76 | each letter index i has exactly five ids below 130, i, i+26, i+52, i+78 and i+104 |
| Symbols.SpecialCode | themes/symbols.js:104-169 | a bonus tile's specialText is the uppercase form of its type |
| Symbols.GenerateThemeSymbols | themes/symbols.js:82-173 | 130 symbols with symbols[k].symbolIndex == k, each the theme entry of its band and letter; specialSymbols is [] |
| Symbols.GenerateThemeSymbolsFrom | themes/symbols.js:86-172 | the five band loops give symbol k the letter k mod 26, name, kind, special text and colours of band k/26 |
| Symbols.ThemeAgreesWithMapping | themes/symbols.js:38-173 | each theme symbol has the same letter, value and kind as the id of the generated table at its index |
| Text.TrimStart | wordFinder.js:16 | removes exactly a leading run of white space: the result is a suffix, what was removed is all white space, and the result does not start with white space |
| Text.TrimEnd | wordFinder.js:16 | removes exactly a trailing run of white space, leaving a prefix that does not end with white space |
| Text.Trim | wordFinder.js:16-19 | the result is no longer than the input, starts and ends with non-space, and is empty exactly when the input is all white space |
| Text.TrimBlank | game.js:3773 | a line trims to "" exactly when it is all white space |
| Text.TrimOfTrimmed | game.js:3778-3779 | trimming a string that is already trimmed changes nothing |
| Text.TrimIdempotent | wordFinder.js:19 | trimming twice gives what trimming once gives |
| Text.Lower | wordFinder.js:19 | same length, no uppercase ASCII letter left, other characters kept, 'A'..'Z' moved to 'a'..'z' |
| Text.Upper | rtp-simulator.js:389 | same length, no lowercase ASCII letter left, other characters kept, 'a'..'z' moved to 'A'..'Z' |
| Text.LowerIdempotent | wordFinder.js:32 | lowercasing twice gives what lowercasing once gives |
| Text.TrimKeepsNoUpper | wordFinder.js:19 | trimming a string without uppercase letters leaves none |
| Text.LowerOfNoUpper | wordFinder.js:32 | lowercasing a string without uppercase letters changes nothing |
| Text.LowerUpper | wordFinder.js:32 | lowercasing the uppercase form gives the lowercase form |
| Text.Split | game.js:3771 | at least one piece, and no piece contains the separator |
| Text.JoinSplit | game.js:3771 | joining the pieces of a split with the separator gives back the text |
| Text.SplitLines | wordFinder.js:16 | splitting on \r?\n gives as many lines as splitting on \n, and no line contains a line feed |
| Text.IndexOf | game.js:3776 | -1 exactly when the character is absent, otherwise the index of its first occurrence |
| Tiles.CellAt | wordFinder.js:71 | a cell is defined exactly when the reel and row are inside the grid |
| Tiles.EntryAt | wordFinder.js:155-157 | a mapping entry is found exactly when the cell is defined and its id is a key |
| Reels.Reel.constructor | game.js:663-686 | a reel at the given position on the given strip, idle, with target, start time, duration, start position and distance all 0 |
| Reels.JsRem | core/gameMechanics.js:19-20 | JavaScript's %: NaN for a zero divisor, otherwise a remainder with the sign of the dividend and smaller than the divisor |
| Reels.JsRemCongruent | core/gameMechanics.js:19-20 | JavaScript's remainder is congruent to the dividend modulo the divisor |
| Reels.DistanceEmptyStrip | core/gameMechanics.js:18-29 | on an empty strip the distance is NaN |
| Reels.DifferenceRange | core/gameMechanics.js:20-25 | for a non-negative target the difference lies in [1, len] when the duration is positive, and in [0, len) otherwise |
| Reels.DistanceLands | core/gameMechanics.js:18-29 | start position + distance is congruent to the target modulo the strip length |
| Reels.DistanceBounds | core/gameMechanics.js:20-29 | for a positive duration, rotations x len + 1 <= distance <= (rotations + 1) x len |
| Reels.SymbolAt | core/gameMechanics.js:82 | reading a strip gives a symbol exactly when the index is a number inside the strip |
| Reels.WindowWraps | core/gameMechanics.js:77-82 | for a non-negative target, visible row j of a reel is symbols[(target + j) mod len] |
| Reels.WindowEmptyStrip | core/gameMechanics.js:77-82 | an empty strip shows nothing (undefined) in every row |
| WordFinder.DictionaryTest | wordFinder.js:30-33 | the test accepts exactly the words IsValidWord accepts: at least 3 letters and lowercase form in the loaded set |
| WordFinder.IsValidWordIgnoresCase | wordFinder.js:30-33 | a word is valid exactly when its lowercase form is, and exactly when its uppercase form is |
| WordFinder.LoadedLineIsValid | wordFinder.js:15-33 | a line of the loaded text whose trimmed lowercase form has 3 letters or more is then valid, in lower and upper case |
| WordFinder.TrimOfLower | wordFinder.js:19 | lowercasing a trimmed lowercase line changes nothing, so every entry of the loaded set is lowercase |
| WordFinder.WordList.constructor | wordFinder.js:5 | the word set starts empty |
| WordFinder.WordList.LoadValidWords | wordFinder.js:8-27 | a failed fetch keeps the set and returns 0; otherwise the set becomes the trimmed lowercase lines of the trimmed text, and its size is returned |
| WordFinder.SymbolNumberToLetter | wordFinder.js:37-51 | the mapping's letter when the id is a key, otherwise the letter 'A' + (id mod 26) |
| WordFinder.SymbolLetterIsBaseLetter | wordFinder.js:37-51 | with the generated 130-id table the letter is 'A' + (n mod 26), the same as with no table at all |
| WordFinder.CellLetter | wordFinder.js:71-72 | a missing cell reads as '\0'; a present cell reads as its symbol's letter |
| WordFinder.LettersOf | wordFinder.js:70-75 | the line string has one letter per position, the letter of that cell |
| WordFinder.SumValuesNonNegative | wordFinder.js:139-158 | with non-negative letter values a word's value is non-negative |
| WordFinder.RowPositions | wordFinder.js:68-75 | row r is the positions (c, r) for c over the reels |
| WordFinder.ColumnPositions | wordFinder.js:84-91 | column c is the positions (c, r) for r over the rows of reel 0 |
| WordFinder.GridLines | wordFinder.js:57-95 | an empty grid has no lines; otherwise rows of reel 0 plus reels many lines |
| WordFinder.RowLines | wordFinder.js:66-79 | one line per row of reel 0 |
| WordFinder.ColumnLines | wordFinder.js:82-95 | one line per reel |
| WordFinder.GridLineAt | wordFinder.js:66-95 | line k is row k for k below the row count, and column k - rows after it |
| WordFinder.GridLinesArePaylines | wordFinder.js:66-95 | on a 5 x 5 grid the lines scanned are exactly PAYLINES, in order |
| WordFinder.FirstHitRange | wordFinder.js:111-127 | the inner loop finds 0 or a length between 3 and the remaining length that beats the current best |
| WordFinder.FirstHitPasses | wordFinder.js:111-126 | a length the inner loop reports is a hit |
| WordFinder.FirstHitMaximal | wordFinder.js:111-126 | no longer length at that start beats the current best and is a hit |
| WordFinder.Advance | wordFinder.js:110-133 | one pass of the outer loop always moves the start forward |
| WordFinder.AdvanceStep | wordFinder.js:120-133 | a pass keeps the pick, or records a word at the current start, strictly longer than the best, and resumes just past it |
| WordFinder.ScanBound | wordFinder.js:110-134 | the scan keeps its initial pick or ends with a strictly longer one |
| WordFinder.ScanPickOk | wordFinder.js:110-134 | every pick the scan makes is a valid payable word inside the line |
| WordFinder.VisitedRange | wordFinder.js:110 | the scan only visits starts with at least 3 letters left |
| WordFinder.ScanDominates | wordFinder.js:110-134 | no hit at a visited start is longer than the final pick |
| WordFinder.ScanPickVisited | wordFinder.js:110-134 | a new pick starts at a visited start and fits the line |
| WordFinder.ScanPickMaximal | wordFinder.js:111-126 | no longer hit exists at the pick's start |
| WordFinder.ScanEarlierShorter | wordFinder.js:120 | every hit at an earlier visited start is strictly shorter, so ties keep the earliest start |
| WordFinder.ScanSkipsPick | wordFinder.js:130-133 | no start inside a recorded word is visited |
| WordFinder.ScanResumesAfterPick | wordFinder.js:130-133 | after a word at s of length L, start s + L is visited when 3 letters remain |
| WordFinder.NoPickAllVisited | wordFinder.js:110-134 | a scan that never picks visits every start |
| WordFinder.ScanNone | wordFinder.js:110-137 | the scan picks nothing exactly when the line has no hit at all |
| WordFinder.LinePick | wordFinder.js:104-134 | the word picked on a line fits the line |
| WordFinder.LinePickOk | wordFinder.js:111-126 | the picked word has at least 3 letters, is valid and has a payout rule that is not 0 |
| WordFinder.HitsAreLineHits | wordFinder.js:115-120 | a hit is exactly a valid substring whose length's payout rule is not 0; hits have at least 3 letters |
| WordFinder.LinePickDominates | wordFinder.js:110-134 | no hit at a visited start is longer than the pick |
| WordFinder.LinePickMaximal | wordFinder.js:111-126 | at the pick's start no longer substring is a hit |
| WordFinder.LinePickEarliest | wordFinder.js:120 | hits at earlier visited starts are strictly shorter |
| WordFinder.LinePickSkips | wordFinder.js:130-133 | starts inside the picked word are not visited, and the start just after it is |
| WordFinder.LinePickNone | wordFinder.js:110-137 | a line yields nothing exactly when no substring is a hit |
| WordFinder.LineWords | wordFinder.js:104-167 | each line contributes at most one word |
| WordFinder.WordsOfLinesConcat | wordFinder.js:66-95 | the words of two groups of lines are the words of the first followed by those of the second |
| WordFinder.WordsOfLinesCount | wordFinder.js:104-166 | at most one word per line |
| WordFinder.FindWordsCount | wordFinder.js:57-97 | an empty grid gives []; otherwise at most rows + columns words |
| WordFinder.LineWordsGood | wordFinder.js:137-165 | a word found on a straight line is valid, payable, at least 3 letters long, spans consecutive positions whose letters it spells, and has value = sum of the mapped values |
| WordFinder.WordsOfLinesGood | wordFinder.js:137-165 | every word found on straight lines has those properties |
| WordFinder.FindWordsGood | wordFinder.js:54-165 | every word findWords returns is valid, payable, consecutive, spells its cells, and is valued by the plain letter sum |
| WordFinder.WordsOfLinesOnGrid | wordFinder.js:142-145 | words found on lines inside the grid have positions inside the grid |
| WordFinder.LineWordsOnGrid | wordFinder.js:142-145 | the word of a line inside the grid has positions inside the grid |
| WordFinder.FindWordsOnGrid | wordFinder.js:54-97 | every position of every found word is a cell of the grid |
| WordFinder.FindValidSubwords | wordFinder.js:104-167 | appends to results exactly the word picked on the line, with its positions and value |
| WordFinder.ScanLine | wordFinder.js:105-134 | the two nested loops end with the pick of the line scan and its recorded word |
| WordFinder.ScanStep | wordFinder.js:110-133 | one pass of the outer loop, including the skip past a recorded word, is one step of the scan |
| WordFinder.WordValueAt | wordFinder.js:139-158 | the word's positions are the consecutive line positions and its value the sum of their mapped values |
| WordFinder.LongestWordAt | wordFinder.js:111-127 | the inner loop returns the longest hit at this start that beats the best so far, or 0 |
| WordFinder.FindWords | wordFinder.js:54-98 | returns the words of every row, then of every column |
| WordFinder.FindRowWords | wordFinder.js:66-79 | the row loop collects the words of the rows in order |
| WordFinder.FindColumnWords | wordFinder.js:82-95 | the column loop appends the words of the columns in order |
| WordFinder.FindColumnWord | wordFinder.js:83-94 | one column appends the word of that column |
| WordFinder.ReadRow | wordFinder.js:67-75 | reads row positions and their letters |
| WordFinder.ReadColumn | wordFinder.js:83-91 | reads column positions and their letters |
| WordFinder.Insert | wordFinder.js:174 | inserting adds exactly one element to the multiset |
| WordFinder.GetHighestScoringWords | wordFinder.js:170-175 | a sorted copy by non-increasing value with the same multiset of words |
| WordFinder.InsertSorted | wordFinder.js:174 | inserting into a sorted list keeps it sorted |
| WordFinder.InsertBelow | wordFinder.js:174 | inserting keeps every value below a common bound |
| WordFinder.WithValueConcat | wordFinder.js:174 | the words of one value in a concatenation are those of each part, in order |
| WordFinder.WithValueInsert | wordFinder.js:174 | insertion places a word after every word of equal value |
| WordFinder.NoneWithValue | wordFinder.js:174 | a list whose values are all below v has no word of value v |
| WordFinder.GetHighestScoringWordsStable | wordFinder.js:174 | words of equal value keep their input order (the sort is stable) |
| WordFinder.WordsToPaylines | wordFinder.js:178-190 | one payline per word in order: paylineId = index, symbolIndex = -1, symbolName = word, positions, count = length, multiplier = amount = value, and no bet |
| WordFinder.WordsToPaylinesRoundTrip | wordFinder.js:178-190 | each word is recovered from its payline |
| Mechanics.SetupReelAnimation | core/gameMechanics.js:10-32 | the same reel, set spinning towards the target, start time and duration shifted by the stagger, start position = position, distance of 3 + floor(stagger/200) turns plus the difference |
| Mechanics.SetupReelAnimationLands | core/gameMechanics.js:18-29 | for a positive duration the distance is a number, the reel lands on the target modulo the strip, and 3 x len < distance <= (4 + floor(stagger/200)) x len |
| Mechanics.Window | core/gameMechanics.js:77-84 | one entry per visible row, row j being the symbol j places below the top of the window, wrapping with JavaScript's % |
| Mechanics.ReadVisibleSymbols | core/gameMechanics.js:68-90 | one column per reel, each the visible window of that reel |
| Mechanics.WindowOfStoppedReel | core/gameMechanics.js:77-84 | with a non-negative target, row j shows symbols[(target + j) mod len] |
| Mechanics.CreateSpecialTiles | core/gameMechanics.js:188-193 | returns its argument unchanged |
| Mechanics.ConfigLengthMultiplier | core/gameMechanics.js:122 | with the shipped PAYOUT_RULES every length multiplier is 1 |
| Mechanics.NoBonusTilesNeutral | core/gameMechanics.js:125-146 | with no bonus tile in the table the letter bonuses add 0 and the word factors multiply by 1 |
| Mechanics.WordFactorsCompound | core/gameMechanics.js:139-146 | the word factor is 2^(DW tiles) x 3^(TW tiles): the bonuses compound |
| Mechanics.LetterBonusesSplit | core/gameMechanics.js:125-133 | the letter bonus is the DL tile values once plus the TL tile values twice |
| Mechanics.BetOf | core/gameMechanics.js:136 | the bet is NaN exactly when the payline carries no betAmount |
| Mechanics.ScoreLine | core/gameMechanics.js:114-150 | scoring keeps the payline's id, word, positions, count and bet |
| Mechanics.ScoreLineAmount | core/gameMechanics.js:115-150 | amount = (value + DL values + 2 x TL values) x (PAYOUT_RULES[len] or 1) x bet x 2^DW x 3^TW, NaN without a bet; the stored multiplier leaves out the word factors |
| Mechanics.ScoredLines | core/gameMechanics.js:114-119 | no more winning lines than paylines |
| Mechanics.CheckWinWithoutThrow | core/gameMechanics.js:94-183 | with no error, checkWin is None when no word is found or the total is not above 0, and otherwise the total, the best match and the scored lines |
| Mechanics.SumAmountsNaN | core/gameMechanics.js:153 | the total is NaN exactly when some line's amount is NaN |
| Mechanics.SumAmountsDominates | core/gameMechanics.js:153 | with non-negative amounts the total is non-negative and at least each amount |
| Mechanics.SumAmountsZero | core/gameMechanics.js:153 | lines that all pay 0 total 0 |
| Mechanics.SumAmountsPositive | core/gameMechanics.js:153-175 | with non-negative amounts the total is positive exactly when some line pays |
| Mechanics.BestOfIsFirstMaximum | core/gameMechanics.js:159-167 | the best match is the first line with the greatest amount |
| Mechanics.ScoredLinesIncluded | core/gameMechanics.js:119-156 | every winning line has at least MIN_WIN_LENGTH letters; when every payline does, each is scored and kept, in order |
| Mechanics.ScoredWithoutBet | core/gameMechanics.js:136 | lines without a bet score NaN |
| Mechanics.CheckWinNeverPaysAsShipped | core/gameMechanics.js:111-175 | with wordFinder's wordsToPaylines, which sets no bet, checkWin gives None on every grid |
| Mechanics.CheckWinNeverPaysExample | core/gameMechanics.js:104-183 | a grid spelling CAT is found by findWords, and checkWin still returns None |
| Mechanics.ExampleFindsCat | wordFinder.js:54-97 | findWords finds a word in the example grid |
| Mechanics.ExampleRowPicks | wordFinder.js:104-134 | row 0 of the example grid yields a pick |
| Mechanics.WordsToBetPaylines | core/gameMechanics.js:136 | each payline of wordsToPaylines with the bet attached |
| Mechanics.CheckWinWithBetPays | core/gameMechanics.js:136-183 | with the bet attached every amount is a number, and checkWin pays exactly when the total is positive |
| Mechanics.ScoredWithBet | core/gameMechanics.js:136-150 | lines with a bet score a number |
| Mechanics.CheckWin | core/gameMechanics.js:93-184 | the method returns the result checkWin specifies, including None for an empty grid, no words, an error and a total not above 0 |
| Mechanics.TallyLine | core/gameMechanics.js:114-168 | one forEach step: an error is thrown only where checkWin errs; otherwise the lines, total and best match are those of the first k+1 paylines |
| Mechanics.ScoreWordLine | core/gameMechanics.js:115-150 | scoring a line throws exactly when a position's reel is missing, and otherwise gives the scored line |
| Mechanics.AddLetterBonuses | core/gameMechanics.js:125-133 | the adjusted base is the base plus the letter bonuses; it throws exactly when a reel is missing |
| Mechanics.ApplyWordFactors | core/gameMechanics.js:139-146 | the amount is multiplied by the word factors |
| Game.ValidateConfiguration | game.js:250-285 | true exactly when there are 5 strips, none empty, every entry a key of the letter table, the table has 26 keys, and PAYOUT_RULES[3], [4] and [5] are non-zero |
| Game.ShippedConfigurationValid | game.js:250-285 | the shipped configuration passes the check |
| Game.LetterTableSize | game.js:272-276 | the shipped letter table has 26 keys |
| Game.EmptyStripRefused | game.js:258-260 | a configuration with an empty strip is refused |
| Game.GameScoreLine | game.js:1650-1661 | a line scored by game.js always has a numeric amount |
| Game.GameScoredLines | game.js:1648-1681 | every payline is scored and kept |
| Game.GameLinesPay | game.js:1645-1669 | one winning line per found word, in order, with multiplier = value x length multiplier and amount = that x bet |
| Game.GameCheckWinPays | game.js:1612-1713 | on a 5-reel grid with a positive bet and non-negative values and rules, checkWin pays exactly when some found word has positive value |
| Game.GameBestMatch | game.js:1672-1680 | the best match is the first winning line with the greatest amount |
| Game.TallyAgrees | game.js:1666-1680 | lines with the same ids, amounts and multipliers have the same total and best match |
| Game.MechanicsAgreesWithGame | game.js:1610-1714 | with no bonus tiles, the generic checkWin with the bet attached and game.js's checkWin agree on paying, total, best match and lines |
| Game.ScoredAgree | game.js:1648-1681 | with no bonus tiles, the generic scorer and game.js's scorer give the same lines, total and best match |
| Game.BetLinesIncluded | game.js:1645 | paylines with the bet attached are all long enough and never throw |
| Game.BetLineScoresLikeGame | game.js:1650-1661 | with no bonus tiles one line scores the same in both scorers |
| Game.Take | game.js:2933-2935 | keeps the first n entries |
| Game.Reverse | game.js:2930 | reversal keeps the length and puts element i at position length - 1 - i |
| Game.PushHistoryShape | game.js:2919-2937 | a new entry goes to the front and the history keeps at most 50 entries, dropping the oldest |
| Game.PushAllKeepsNewest | game.js:2919-2937 | after many spins the history is the 50 newest entries, newest first |
| Game.IndexIn | game.js:2507 | indexOf: -1 exactly when the bet is off the ladder, otherwise its first index |
| Game.BetOptionsAscending | game.js:2506 | the bet ladder is strictly increasing |
| Game.LadderIndex | game.js:2507-2518 | each ladder bet is found at its own index |
| Game.BetLadderDown | game.js:2503-2513 | decreasing steps one level down, except at the lowest level |
| Game.BetLadderUp | game.js:2515-2536 | increasing steps one level up only when the balance covers the next bet |
| Game.BetLadderRoundTrip | game.js:2503-2536 | down then up comes back when the balance allows it, and a successful up followed by down comes back |
| Game.BetOffLadder | game.js:2503-2536 | a bet off the ladder is never decreased, and an increase moves it to 5 when the balance covers 5 |
| Game.Define | game.js:3780-3783 | a parsed line sets its word to its definition and leaves every other word; a skipped line changes nothing |
| Game.DefinitionLineRoundTrip | game.js:3772-3784 | a line written as word:definition, with a trimmed lowercase word without colons, parses back to that pair |
| Game.LastDefinitionWins | game.js:3772-3784 | a word's definition is the one on the last line that defines it |
| Game.SkippedLinesChangeNothing | game.js:3773-3777 | blank lines and lines whose colon index is <= 0 leave the definitions unchanged |
| Game.DefinitionOf | game.js:3808-3820 | the definition stored for the lowercase word, or "(no definition available)" |
| Game.DefinitionsFor | game.js:3802-3822 | one entry per word, in order, keeping the word as given |
| Game.DefinitionIgnoresCase | game.js:3808-3809 | the lookup ignores letter case |
| Game.LineNames | game.js:1700 | the winning words are the lines' words, in order |
| Game.WinNeverNegative | game.js:1566-1579 | the amount credited is never negative, and positive whenever checkWin pays |
| Game.StartReels | game.js:1381-1406 | reel i spins towards its stop, starts 80 x i ms late, lasts 4000 + 150 x i ms, over 3 + floor(i/2) turns plus the difference |
| Game.SnapReels | game.js:1470-1479 | every reel snaps to its target and stops; its strip, target, start time, duration, start position and distance are unchanged |
| Game.ReadStops | game.js:1484-1504 | one column per reel, each the three symbols at the stop |
| Game.StartReel | game.js:1382-1406 | one reel set spinning towards its stop with its stagger and distance |
| Game.StopColumn | game.js:1491-1503 | three symbols per reel |
| Game.StopColumnIsWindow | game.js:1491-1503 | the three symbols read are the visible window of that stop |
| Game.SpinReelLands | game.js:1399-1406 | the distance is a number, the reel lands on its stop, and (3 + floor(i/2)) x len + 1 <= distance <= (4 + floor(i/2)) x len |
| Game.Session.constructor | game.js:663-686 | default balance 1000 and bet 10, five idle reels on copies of the configured strips at the given start positions with target, start time, duration, start position and distance 0, a zero grid, and empty lines, history and definitions |
| Game.Session.SpinReels | game.js:1338-1424 | while spinning, short of balance or with a bad reel, nothing changes; otherwise the bet is debited exactly, lines and definitions are cleared, and every reel is set towards its stop |
| Game.Session.SpinCompleted | game.js:1467-1506 | reels snap and stop with strips, targets and timing fields unchanged; the 5 x 3 grid of stop symbols is read; the total won is credited and left in winAmount; one history entry is pushed; the scored lines are left in winningLines and their definitions in winningWordsWithDefs (the old ones kept when no line scored, cleared when lines scored but none paid) |
| Game.Session.CheckWinAndFinalize | game.js:1561-1606 | balance grows by exactly the total when checkWin pays and is unchanged otherwise, and winAmount is that total; one history entry is pushed; spinning ends; winningLines and winningWordsWithDefs are left as checkWin leaves them (unchanged when the grid is not five reels) |
| Game.Session.AddCredit | game.js:2538-2548 | adds 1000 unless spinning; every other field is unchanged |
| Game.Session.DecreaseBet | game.js:2503-2513 | steps the bet down the ladder unless spinning; every other field is unchanged |
| Game.Session.IncreaseBet | game.js:2515-2536 | steps the bet up the ladder when affordable, unless spinning; every other field is unchanged |
| Game.Session.AddSpinToHistory | game.js:2919-2937 | pushes an entry with the current bet, the win, the grid and the number of lines, keeping at most 50 |
| Game.Session.LoadWordDefinitions | game.js:3761-3800 | a failed load keeps the definitions; otherwise every line of the text is parsed into them in order; every other field is unchanged |
| Game.Session.UpdateWinningWordDefinitions | game.js:3802-3828 | the winning words are paired with their definitions |
| Game.Session.CheckWin | game.js:1610-1714 | returns the checkWin result; on a 5-reel grid the winning lines are reset and rebuilt; a win pairs the winning words with their definitions, no win with lines clears them |
| Game.ParseLines | game.js:3772-3784 | the forEach over lines gives the specified definitions |
| Game.ParseStep | game.js:3772-3784 | parsing one more line applies that line to the result so far |
| Game.LookupDefinitions | game.js:3807-3821 | the forEach over words gives the specified pairs |
| Game.ScoreGameLines | game.js:1648-1681 | the forEach gives the scored lines, their total and the best match |
| Simulator.MockIsValidWordCases | rtp-simulator.js:378-394 | false below 3 letters, true for a common 3-letter word in any case, otherwise the random branch decides |
| Simulator.MockAcceptsCommonInLowerCase | rtp-simulator.js:388-391 | "cat" is accepted whatever the random branch says |
| Simulator.MergeSettingsFields | rtp-simulator.js:16-26 | each setting is the override when given and the default otherwise; no override gives the defaults |
| Simulator.PairsAt | rtp-simulator.js:318-327 | the lengths tried at one start lie in [3, upto) |
| Simulator.PairsBefore | rtp-simulator.js:317-327 | every pair found before start fits the word and has at least 3 letters |
| Simulator.SubwordPairs | rtp-simulator.js:317-358 | every pair found fits the word and has at least 3 letters |
| Simulator.PairsAtSound | rtp-simulator.js:318-327 | every pair at a start is a hit |
| Simulator.PairsAtComplete | rtp-simulator.js:318-327 | every hit at a start is found |
| Simulator.PairsBeforeSound | rtp-simulator.js:317-327 | every pair before start is a hit |
| Simulator.PairsBeforeComplete | rtp-simulator.js:317-327 | every hit before start is found |
| Simulator.PairsAtStartComplete | rtp-simulator.js:317-327 | every hit at start s is found once s has been scanned |
| Simulator.SubwordPairsExact | rtp-simulator.js:315-359 | a (start, len) is found exactly when it is a hit: overlapping words are all credited |
| Simulator.AscendingAppend | rtp-simulator.js:317-318 | joining ascending runs where the first precedes the second stays ascending |
| Simulator.PairsAtOrdered | rtp-simulator.js:318 | pairs at one start come in increasing length |
| Simulator.PairsBeforeOrdered | rtp-simulator.js:317-318 | pairs come by start ascending, then length ascending |
| Simulator.SubwordPairsOrdered | rtp-simulator.js:317-318 | all pairs come by start ascending, then length ascending |
| Simulator.SubwordEntry | rtp-simulator.js:329-355 | an entry is the substring, its positions and its length |
| Simulator.EntriesAtFollow | rtp-simulator.js:318-356 | the entries at one start match its pairs one for one |
| Simulator.FollowAppend | rtp-simulator.js:350 | matching entries and pairs stay matched when joined |
| Simulator.EntriesBeforeFollow | rtp-simulator.js:317-356 | the entries before a start match its pairs one for one |
| Simulator.SimSubwordsFollowPairs | rtp-simulator.js:315-359 | the entries found are exactly the hits, in order, each with its substring, positions and value |
| Simulator.SubwordsAt | rtp-simulator.js:318-357 | the inner loop appends the entries of that start |
| Simulator.SimFindValidSubwords | rtp-simulator.js:315-359 | appends every hit of the line |
| Simulator.GameWordCredited | rtp-simulator.js:315-359 | the word the game credits on a line is among those the simulator credits |
| Simulator.SimWordsOfLinesConcat | rtp-simulator.js:280-309 | the words of two groups of lines are those of the first followed by those of the second |
| Simulator.FindWordsInGrid | rtp-simulator.js:268-312 | returns every hit of every row, then of every column |
| Simulator.SimRowWords | rtp-simulator.js:280-293 | the row loop collects the rows' hits in order |
| Simulator.RowSubwords | rtp-simulator.js:281-292 | one row appends its hits |
| Simulator.SimColumnWords | rtp-simulator.js:296-309 | the column loop collects the columns' hits in order |
| Simulator.ColumnSubwords | rtp-simulator.js:297-308 | one column appends its hits |
| Simulator.LinesCredited | rtp-simulator.js:280-309 | on any lines, the game's words are among the simulator's |
| Simulator.GameWordsCredited | rtp-simulator.js:268-312 | every word the game finds on a grid, the simulator also finds |
| Simulator.SimWordsToPaylines | rtp-simulator.js:362-373 | one payline per word |
| Simulator.SimPaylinesAgree | rtp-simulator.js:362-373 | the simulator's paylines are wordFinder's without the amount |
| Simulator.KeptLines | rtp-simulator.js:237-261 | only lines that win more than 0 are kept |
| Simulator.KeptLinesExact | rtp-simulator.js:237-261 | a line is kept exactly when some payline scores to it with a positive win |
| Simulator.SumWinsOfPaying | rtp-simulator.js:249-259 | paying lines total at least their number, and positively exactly when there is one |
| Simulator.CalculateWinsSpec | rtp-simulator.js:223-265 | the spin's total is the sum of its winning lines' wins and is never negative |
| Simulator.CalculateWinsTotal | rtp-simulator.js:223-265 | a spin pays exactly when it keeps a line |
| Simulator.TallyWins | rtp-simulator.js:237-261 | the forEach keeps the positive lines and sums their wins |
| Simulator.CalculateWins | rtp-simulator.js:223-265 | returns the specified result |
| Simulator.SimColumn | rtp-simulator.js:79-86 | three symbols per reel |
| Simulator.SimGrid | rtp-simulator.js:77-88 | one column of three symbols per strip |
| Simulator.SimGridIsGameGrid | rtp-simulator.js:77-88 | a simulated column is the column the game reads at the same stop, and the visible window of the reel |
| Simulator.VisibleSymbols | rtp-simulator.js:77-88 | the reel loop builds the specified grid |
| Simulator.ReadStrip | rtp-simulator.js:79-86 | the row loop reads strip[(pos + row) mod len] |
| Simulator.FirstThreshold | rtp-simulator.js:106-115 | the first threshold at or above the win multiplier |
| Simulator.Bucket | rtp-simulator.js:106-115 | one of the 9 buckets, bucket 0x exactly when the multiplier is 0 |
| Simulator.BucketBounds | rtp-simulator.js:106-115 | for a positive bet and win, the bucket's bounds contain win / bet |
| Simulator.ZeroBetBucket | rtp-simulator.js:106-115 | with a zero bet, 0/0 is NaN, and a losing spin falls into the 100x+ bucket |
| Simulator.TallyWord | rtp-simulator.js:118-126 | the word counts' keys gain exactly the line's word ("unknown" when it has none) |
| Simulator.TallyLength | rtp-simulator.js:129-133 | the lengths tracked never change |
| Simulator.TallyLines | rtp-simulator.js:116-148 | the lengths tracked never change |
| Simulator.TallyLinesCounts | rtp-simulator.js:116-133 | each word's count grows by its number of winning lines, and each tracked length's count by the lines of that length |
| Simulator.RecordLines | rtp-simulator.js:116-148 | the forEach gives the specified tallies |
| Simulator.RecordLine | rtp-simulator.js:117-133 | one line updates the word count and the length count |
| Simulator.InitialLengthStats | rtp-simulator.js:57-62 | lengths 3..10 are tracked |
| Simulator.SpinOutcomes | rtp-simulator.js:66-92 | one outcome per spin, each with a total that is the sum of its lines and never negative |
| Simulator.RecordSpin | rtp-simulator.js:66-149 | all 9 buckets are kept |
| Simulator.Accumulate | rtp-simulator.js:66-156 | all 9 buckets are kept |
| Simulator.Totals | rtp-simulator.js:92 | one total per spin |
| Simulator.AccumulateTotals | rtp-simulator.js:66-95 | totalBet = spins x bet and totalWin = the sum of the spin wins, never negative |
| Simulator.AccumulateLengthKeys | rtp-simulator.js:57-133 | the tracked lengths stay 3..10 |
| Simulator.AccumulateSpinResults | rtp-simulator.js:98-103 | one record per spin, numbered from 1, with that spin's win |
| Simulator.AccumulateBucketsSum | rtp-simulator.js:106-115 | the buckets sum to the number of spins |
| Simulator.AccumulateUndetailed | rtp-simulator.js:98 | without detailed results no record, bucket or word count changes |
| Simulator.AccumulateBuckets | rtp-simulator.js:106-115 | each bucket counts the spins in that range |
| Simulator.PlaySpin | rtp-simulator.js:71-92 | one spin reads its grid and calculates its wins |
| Simulator.CountSpin | rtp-simulator.js:68-149 | one spin adds the bet and win to the totals and, with detailed results, its record, its bucket and its word and length tallies |
| Simulator.SimulateRTP | rtp-simulator.js:24-156 | the loop accumulates the outcomes of every spin |
| Simulator.SimulationTotals | rtp-simulator.js:66-95 | totalBet = spins x bet, totalWin = the sum of the spin wins, and totalWin >= 0 |
| Simulator.ShippedStripsReadable | themes/config.js:3-14 | every shipped strip is non-empty, so the simulator can read it |
| ProcessWords.Run | words/process_words.php:52 | the greedy run of \w or \s characters from i: all in the class, and the next one not |
| ProcessWords.TrimStart | words/process_words.php:53 | removes exactly the leading PHP trim characters |
| ProcessWords.TrimEnd | words/process_words.php:53 | removes exactly the trailing PHP trim characters |
| ProcessWords.Trim | words/process_words.php:53-55 | the result starts and ends with a non-trim character |
| ProcessWords.TrimOfTrimmed | words/process_words.php:54 | a trimmed string is kept |
| ProcessWords.WordsAreTrimmed | words/process_words.php:53 | a word of \w characters is unchanged by trim |
| ProcessWords.LineLength | words/process_words.php:48 | fgets reads up to and including the first line feed |
| ProcessWords.FgetsLinesJoin | words/process_words.php:48 | the lines fgets reads join back to the file |
| ProcessWords.FgetsLinesShape | words/process_words.php:48 | every line read is non-empty, and all but the last end with their only line feed |
| ProcessWords.FgetsLineAt | words/process_words.php:48 | line i read by fgets has that shape |
| ProcessWords.Body | words/process_words.php:52 | $ matches at the end of the line or before its final line feed |
| ProcessWords.TagAt | words/process_words.php:52 | the captured type is a non-empty run of \w |
| ProcessWords.EntrySplit | words/process_words.php:52 | a split found has a non-empty definition without a line feed and a non-empty type |
| ProcessWords.EntryFrom | words/process_words.php:52 | a match keeps the captured word and a non-empty definition |
| ProcessWords.MatchEntry | words/process_words.php:52 | a match starts with its \w+ word followed by white space |
| ProcessWords.LooseFrom | words/process_words.php:101 | the fallback match keeps the word and a non-empty definition without a line feed |
| ProcessWords.MatchLoose | words/process_words.php:101 | the fallback match starts with its word followed by white space |
| ProcessWords.MatchLeadingWord | words/process_words.php:198 | matches exactly when the line starts with \w+ followed by white space, capturing that word |
| ProcessWords.LastClose | words/process_words.php:107 | the greedy .*\] stops at the last ']' before a line feed |
| ProcessWords.TagMatchAt | words/process_words.php:107 | a tag match at p is '[', a \w run, and the last ']' after it |
| ProcessWords.FindTagFrom | words/process_words.php:107 | the first tag match at or after p, or none anywhere after it |
| ProcessWords.FindTag | words/process_words.php:107 | the leftmost tag match, with no match before it |
| ProcessWords.FirstTag | words/process_words.php:107 | no tag matches before the first one found |
| ProcessWords.RemoveTags | words/process_words.php:110 | removal never makes the text longer |
| ProcessWords.RemoveOneTag | words/process_words.php:110 | removal cuts exactly the first tag and what it spans |
| ProcessWords.NoTagAfterLast | words/process_words.php:110 | no tag matches after the last ']' |
| ProcessWords.LastCloseIsLast | words/process_words.php:107 | no ']' follows the one the greedy match stops at |
| ProcessWords.RemovedTagIsGone | words/process_words.php:107-110 | after the replacement no tag is left |
| ProcessWords.CutFirstTag | words/process_words.php:110 | cutting the first tag leaves no tag |
| ProcessWords.TagMatchFound | words/process_words.php:107 | a '[' followed by \w and a later ']' is a tag match |
| ProcessWords.ExpandTypeTable | words/process_words.php:58-84 | n, v, adj, adv, interj, prep, conj and pron expand to their full names, other types are kept, and expanding twice changes nothing more |
| ProcessWords.EntryLine | words/process_words.php:94-121 | the output line starts with "word: (" and ends with a line feed |
| ProcessWords.KeepEntry | words/process_words.php:86-125 | a word is written exactly when its length is kept, as a "word: (type) definition" line |
| ProcessWords.LooseTypeFromTag | words/process_words.php:106-111 | without a tag the type is "unknown" and the definition is kept; with one, the type is the tag's word and no tag is left in the definition |
| ProcessWords.EntryOutcome | words/process_words.php:53-98 | the entry is kept exactly when the word's length is kept |
| ProcessWords.LooseOutcome | words/process_words.php:102-125 | the fallback entry is kept exactly when the word's length is kept |
| ProcessWords.ProcessLine | words/process_words.php:52-128 | a kept word has a kept length, is its line's leading \w word, and is written as an entry line |
| ProcessWords.ProcessLineKeeps | words/process_words.php:52-128 | a line is kept exactly when the entry pattern matches with a kept length, or only the fallback does with a kept length |
| ProcessWords.ExtractLine | words/process_words.php:198-214 | a kept word is the line's leading word with a kept length, written alone on its line; a line is skipped exactly when it has no leading word or its length is not kept |
| ProcessWords.ProcessedAreExtracted | words/process_words.php:52-214 | every word processWords keeps, extractWordsOnly keeps too |
| ProcessWords.LeadingWordExtracted | words/process_words.php:198-208 | a line starting with a kept word and white space gives that word |
| ProcessWords.MatchEntryOfLine | words/process_words.php:52 | "word definition [tag...]" is matched with those three captures |
| ProcessWords.ProcessEntryLine | words/process_words.php:52-95 | a "WORD definition [tag]" line writes "WORD: (expanded tag) definition" |
| ProcessWords.BareWordLine | words/process_words.php:52-198 | a bare word line is extracted but not processed, and without a line feed it is skipped |
| ProcessWords.EntryReadByGame | words/process_words.php:94 | every entry line written is read back by the game's definitions parser under the lowercase word |
| ProcessWords.WordColonReadBack | game.js:3775-3782 | a word followed by a colon is parsed under its lowercase form |
| ProcessWords.ZeroCounters | words/process_words.php:30-32 | a counter at 0 for every kept length |
| ProcessWords.Count | words/process_words.php:49-128 | every line increments total and exactly one of processed and skipped |
| ProcessWords.CountAllBalances | words/process_words.php:48-129 | total = lines read, processed + skipped = total, processed = lines kept |
| ProcessWords.CountAllByLength | words/process_words.php:30-92 | byLength has exactly the kept lengths, each counting the lines kept with it |
| ProcessWords.SumOfLengthCounts | words/process_words.php:89-92 | the byLength counts sum to the lines kept |
| ProcessWords.ByLengthAddsUp | words/process_words.php:30-92 | the byLength values sum to processed |
| ProcessWords.Outcomes | words/process_words.php:48 | one outcome per line read |
| ProcessWords.StepsKeepLengths | words/process_words.php:89-208 | every word written has a kept length |
| ProcessWords.RunOver | words/process_words.php:19-155 | fails exactly when the file is missing or cannot be opened, with the missing-file message in the first case |
| ProcessWords.RunCounts | words/process_words.php:19-240 | a run over a file finishes with total = lines, processed + skipped = total, and byLength summing to processed |
| ProcessWords.KeepLengthsDistinct | words/process_words.php:9 | the kept lengths are 3, 4 and 5 |
| ProcessWords.MissingSource | words/process_words.php:35-183 | a missing source file gives the error result |
| ProcessWords.KeptOf | words/process_words.php:95-208 | the kept outcomes, as many as were counted processed |
| ProcessWords.Texts | words/process_words.php:95-208 | one text per outcome |
| ProcessWords.WrittenLines | words/process_words.php:95-208 | the output file is the kept lines' texts, in order |
| ProcessWords.InitialCounters | words/process_words.php:30-32 | the counter loop gives every kept length 0 |
| ProcessWords.RunLines | words/process_words.php:34-139 | the while loop over fgets gives the specified counts and output |
| ProcessWords.ProcessWordsRun | words/process_words.php:19-155 | processWords as specified |
| ProcessWords.ExtractWordsRun | words/process_words.php:165-240 | extractWordsOnly as specified |

## Left out

- **I/O.** The `fetch` in loadValidWords, the XHR in loadWordDefinitions and PHP's `fopen`/`fwrite`/`fclose` are not modelled. The text read (or `None` for a failure) is a parameter, and the output file is a returned string. `file_exists` is the `Option` of the source text, and the open result is a boolean parameter.
- **process_status.json.** The progress files written every 1000 lines and at the end, `timeElapsed`, `microtime`, `time()` and the AJAX router are not modelled.
- **Randomness and time.** `Math.random` is not modelled: reel stops, start positions and the probability branch of mockIsValidWord are parameters. `Date.now()` is a parameter too.
- **updateReelPosition.** Its easing and velocity use floating-point `Math.pow` and are not modelled. Only its end state is: the snap to the target in SnapReels and SpinCompleted. Positions are integers throughout, so `Math.round` is the identity.
- **rtp-simulator.js.** The floating-point per-letter split of `symbolWinCounts` is not modelled. Nor are the RTP percentages, the `multiplier` field of each spin record, progress logging, the top-words sort and the highest-win report, which are all output.
- **Unicode.** JavaScript's `toLowerCase`/`toUpperCase` are modelled for ASCII letters only, and PCRE's `\w`/`\s` for ASCII without a locale.
- **Fractional PAYOUT_RULES values.** They are not modelled: the rules are a map from integers to integers, as every shipped value is.
- **game.js presentation.** The `addToHistory` call, which returns at once in the source, is not modelled. Nor are sounds, drawing, the win animations, the definition fade timing and the DOM flash of increaseBet.
- **Null words.** A `null` or `undefined` word passed to isValidWord is not modelled, because a Dafny string is never null. The empty word and words shorter than 3 letters are modelled.
- **Async ordering.** `setTimeout` and async ordering are not modelled. spinReels and spinCompleted are separate method calls.
- Simulator.MockTest: the probability branch is one draw `luck(spin, w)` per spin and word, so equal substrings found twice in one spin share one draw. rtp-simulator.js:393 calls `Math.random()` afresh on every call, so the same word can be accepted at one position and refused at another in the same spin. The word finder takes a word test from strings to booleans, which cannot tell two calls on one word apart.
- Game.Session.SpinReels: its ensures does not restate that the reels stay ready (`ReelsReady`). The caller re-establishes it from the new state stated for every reel.
- Game.Session.SpinReels: requires each stop index to lie on its strip (0 on an empty strip), which is what `Math.floor(Math.random() * len)` yields.
- Game.Session.SpinCompleted: its ensures does not restate `ReelsReady` either. It follows from the stated targets and strips.
- Game.Session.constructor: sets winAmount to 0, where game.js:118 leaves it undefined until the first checkWinAndFinalize; only the display reads it before then.
- Game.Session.constructor: requires each start position to lie on its strip, which is what `Math.floor(Math.random() * len)` yields in initReels.

## Findings

| source | as written | input that shows it | evidently intended | confidence | as-written member | corrected member |
|---|---|---|---|---|---|---|
| core/gameMechanics.js:136 | the win is `adjustedBaseValue * lengthMultiplier * wordLine.betAmount`, but the paylines from wordFinder.js:178-190 have no `betAmount`, so every amount is NaN, the total is NaN, `NaN > 0` fails and checkWin returns null | grid [[2,0,0],[0,0,0],[19,0,0]] (row 0 spells CAT), dictionary {"cat"}, shipped tables | multiply by the bet of the spin, as game.js:1657 does | not executed; the NaN follows from the two cited files alone | Mechanics.CheckWinNeverPaysAsShipped, Mechanics.CheckWinNeverPaysExample | Mechanics.WordsToBetPaylines, Mechanics.CheckWinWithBetPays |

/** The return-to-player simulator (rtp-simulator.js): its own word search,
    which credits every overlapping substring of a row or column, the payout
    of one spin, the three-row grid read from random stops, and the
    accounting loop over many spins. The random stops and the random branch
    of the mock dictionary are parameters. */
module Simulator {
  import opened Wrappers
  import opened Tiles
  import opened Text
  import opened Reels
  import opened WordFinder
  import opened Mechanics
  import Game
  import Config

  // ---------------------------------------------------------------- mock dictionary

  /** The 3-letter words the mock dictionary always accepts. */
  const CommonThreeLetterWords: set<string> := {
    "THE", "AND", "FOR", "BUT", "NOT", "YOU", "ALL", "ANY", "CAN", "HAD", "HAS", "HER", "HIM", "HIS",
    "HOW", "MAN", "NEW", "NOW", "OLD", "OUR", "OUT", "SEE", "TWO", "WAY", "WHO", "BOY", "DAY", "EYE",
    "FAR", "GOT", "GET", "LET", "OFF", "PUT", "SAY", "TOO", "USE", "YES", "YET", "CAT", "DOG", "RUN",
    "SIT", "TOP", "END"}

  /** mockIsValidWord, with `lucky` standing for the random draw below the
      length-dependent probability. */
  function MockIsValidWord(word: string, lucky: bool): bool
  {
    if |word| < 3 then false
    else if |word| == 3 && Upper(word) in CommonThreeLetterWords then true
    else lucky
  }

  /** Words shorter than 3 letters are refused whatever the draw; a common
      3-letter word in any case is accepted whatever the draw; every other
      word is accepted exactly on a lucky draw. */
  lemma MockIsValidWordCases(word: string, lucky: bool)
    ensures |word| < 3 ==> !MockIsValidWord(word, lucky)
    ensures |word| == 3 && Upper(word) in CommonThreeLetterWords ==> MockIsValidWord(word, lucky)
    ensures |word| >= 3 && !(|word| == 3 && Upper(word) in CommonThreeLetterWords) ==> MockIsValidWord(word, lucky) == lucky
  {
  }

  /** The mock accepts "cat" on an unlucky draw, since "CAT" is common. */
  lemma MockAcceptsCommonInLowerCase()
    ensures MockIsValidWord("cat", false)
  {
    assert Upper("cat") == "CAT";
  }

  /** The word test of spin `spin`: the mock with the draws `luck(spin, w)`. */
  function MockTest(luck: (nat, string) -> bool, spin: nat): WordTest
  {
    w => MockIsValidWord(w, luck(spin, w))
  }

  /** The word tests of all spins. */
  function MockTests(luck: (nat, string) -> bool): nat -> WordTest
  {
    spin => MockTest(luck, spin)
  }

  // ---------------------------------------------------------------- settings

  datatype SimulationSettings = SimulationSettings(spins: nat, betAmount: int, logFrequency: int, detailedResults: bool)

  /** DEFAULT_SIMULATION_SETTINGS. */
  const DefaultSettings := SimulationSettings(100000, 10, 10000, true)

  /** The settings a caller passes; an absent field keeps its default. */
  datatype SettingsOverride = SettingsOverride(spins: Option<nat>, betAmount: Option<int>, logFrequency: Option<int>, detailedResults: Option<bool>)

  function OrDefault<T>(o: Option<T>, d: T): T
  {
    if o.Some? then o.value else d
  }

  /** `{ ...DEFAULT_SIMULATION_SETTINGS, ...settings }`. */
  function MergeSettings(o: SettingsOverride): SimulationSettings
  {
    SimulationSettings(OrDefault(o.spins, DefaultSettings.spins), OrDefault(o.betAmount, DefaultSettings.betAmount),
                       OrDefault(o.logFrequency, DefaultSettings.logFrequency), OrDefault(o.detailedResults, DefaultSettings.detailedResults))
  }

  /** Each given field wins over its default and each absent field keeps it;
      with nothing given the defaults run. */
  lemma MergeSettingsFields(o: SettingsOverride)
    ensures var c := MergeSettings(o);
            (c.spins == if o.spins.Some? then o.spins.value else 100000) &&
            (c.betAmount == if o.betAmount.Some? then o.betAmount.value else 10) &&
            (c.logFrequency == if o.logFrequency.Some? then o.logFrequency.value else 10000) &&
            (c.detailedResults == if o.detailedResults.Some? then o.detailedResults.value else true)
    ensures MergeSettings(SettingsOverride(None, None, None, None)) == DefaultSettings
  {
  }

  // ---------------------------------------------------------------- every overlapping substring

  /** How many starts findValidSubwords tries: 0 ..= n - 3. */
  function Starts(n: nat): nat
  {
    if n >= 3 then n - 2 else 0
  }

  /** The hits at start s with lengths 3 ..< upto, shortest first. */
  function PairsAt(isValid: WordTest, rules: PayoutRules, w: string, s: nat, upto: nat): (ps: seq<(nat, nat)>)
    requires s + upto <= |w| + 1
    ensures forall i :: 0 <= i < |ps| ==> ps[i].0 == s && 3 <= ps[i].1 < upto
  {
    if upto <= 3 then []
    else PairsAt(isValid, rules, w, s, upto - 1) + (if IsHit(isValid, rules, w, s, upto - 1) then [(s, upto - 1)] else [])
  }

  /** The hits at the starts below `start`, start by start. */
  function PairsBefore(isValid: WordTest, rules: PayoutRules, w: string, start: nat): (ps: seq<(nat, nat)>)
    requires start <= Starts(|w|)
    ensures forall i :: 0 <= i < |ps| ==>
      ps[i].0 < start && 3 <= ps[i].1 && ps[i].0 + ps[i].1 <= |w|
  {
    if start == 0 then []
    else PairsBefore(isValid, rules, w, start - 1) + PairsAt(isValid, rules, w, start - 1, |w| - start + 2)
  }

  /** The (start, length) of every substring findValidSubwords credits in `w`. */
  function SubwordPairs(isValid: WordTest, rules: PayoutRules, w: string): (ps: seq<(nat, nat)>)
    ensures forall i :: 0 <= i < |ps| ==> 3 <= ps[i].1 && ps[i].0 + ps[i].1 <= |w|
  {
    PairsBefore(isValid, rules, w, Starts(|w|))
  }

  /** (start, length) pairs in the order of the two loops: start first, then length. */
  predicate Earlier(a: (nat, nat), b: (nat, nat))
  {
    a.0 < b.0 || (a.0 == b.0 && a.1 < b.1)
  }

  lemma {:induction false} PairsAtSound(isValid: WordTest, rules: PayoutRules, w: string, s: nat, upto: nat, p: (nat, nat))
    requires s + upto <= |w| + 1 && p in PairsAt(isValid, rules, w, s, upto)
    ensures p.0 == s && 3 <= p.1 < upto && IsHit(isValid, rules, w, s, p.1)
  {
    if upto > 3 && p != (s, upto - 1) {
      PairsAtSound(isValid, rules, w, s, upto - 1, p);
    }
  }

  lemma {:induction false} PairsAtComplete(isValid: WordTest, rules: PayoutRules, w: string, s: nat, upto: nat, l: nat)
    requires s + upto <= |w| + 1 && 3 <= l < upto && IsHit(isValid, rules, w, s, l)
    ensures (s, l) in PairsAt(isValid, rules, w, s, upto)
  {
    if l < upto - 1 {
      PairsAtComplete(isValid, rules, w, s, upto - 1, l);
    }
  }

  lemma {:induction false} PairsBeforeSound(isValid: WordTest, rules: PayoutRules, w: string, start: nat, p: (nat, nat))
    requires start <= Starts(|w|) && p in PairsBefore(isValid, rules, w, start)
    ensures p.0 < start && IsHit(isValid, rules, w, p.0, p.1)
  {
    if start > 0 {
      if p in PairsBefore(isValid, rules, w, start - 1) {
        PairsBeforeSound(isValid, rules, w, start - 1, p);
      } else {
        PairsAtSound(isValid, rules, w, start - 1, |w| - start + 2, p);
      }
    }
  }

  lemma {:induction false} PairsBeforeComplete(isValid: WordTest, rules: PayoutRules, w: string, start: nat, s: nat, l: nat)
    requires start <= Starts(|w|) && s < start && 3 <= l && s + l <= |w| && IsHit(isValid, rules, w, s, l)
    ensures (s, l) in PairsBefore(isValid, rules, w, start)
    decreases start
  {
    if s < start - 1 {
      PairsBeforeComplete(isValid, rules, w, start - 1, s, l);
      assert PairsBefore(isValid, rules, w, start) ==
        PairsBefore(isValid, rules, w, start - 1) + PairsAt(isValid, rules, w, start - 1, |w| - start + 2);
    } else {
      PairsAtStartComplete(isValid, rules, w, s, l);
    }
  }

  /** A hit at start s is among the pairs before s + 1. */
  lemma PairsAtStartComplete(isValid: WordTest, rules: PayoutRules, w: string, s: nat, l: nat)
    requires s + 1 <= Starts(|w|) && 3 <= l && s + l <= |w| && IsHit(isValid, rules, w, s, l)
    ensures (s, l) in PairsBefore(isValid, rules, w, s + 1)
  {
    var at := PairsAt(isValid, rules, w, s, |w| - s + 1);
    PairsAtComplete(isValid, rules, w, s, |w| - s + 1, l);
    assert PairsBefore(isValid, rules, w, s + 1) == PairsBefore(isValid, rules, w, s) + at;
  }

  /** Exactly the hits are credited: every substring of at least 3 letters
      whose length is paid and which passes the word test. */
  lemma SubwordPairsExact(isValid: WordTest, rules: PayoutRules, w: string, s: nat, l: nat)
    ensures (s, l) in SubwordPairs(isValid, rules, w) <==> 3 <= l && s + l <= |w| && IsHit(isValid, rules, w, s, l)
  {
    if (s, l) in SubwordPairs(isValid, rules, w) {
      PairsBeforeSound(isValid, rules, w, Starts(|w|), (s, l));
    }
    if 3 <= l && s + l <= |w| && IsHit(isValid, rules, w, s, l) {
      PairsBeforeComplete(isValid, rules, w, Starts(|w|), s, l);
    }
  }

  /** Pairs in strictly increasing loop order. */
  predicate Ascending(ps: seq<(nat, nat)>)
  {
    forall i, j :: 0 <= i < j < |ps| ==> Earlier(ps[i], ps[j])
  }

  /** Two ascending runs, the first wholly before the second, make one. */
  lemma AscendingAppend(a: seq<(nat, nat)>, b: seq<(nat, nat)>)
    requires Ascending(a) && Ascending(b)
    requires forall i, j :: 0 <= i < |a| && 0 <= j < |b| ==> Earlier(a[i], b[j])
    ensures Ascending(a + b)
  {
    var ps := a + b;
    forall i, j | 0 <= i < j < |ps|
      ensures Earlier(ps[i], ps[j])
    {
      if j < |a| {
        assert ps[i] == a[i] && ps[j] == a[j];
      } else if i < |a| {
        assert ps[i] == a[i] && ps[j] == b[j - |a|];
      } else {
        assert ps[i] == b[i - |a|] && ps[j] == b[j - |a|];
      }
    }
  }

  lemma {:induction false} PairsAtOrdered(isValid: WordTest, rules: PayoutRules, w: string, s: nat, upto: nat)
    requires s + upto <= |w| + 1
    ensures Ascending(PairsAt(isValid, rules, w, s, upto))
  {
    if upto > 3 {
      PairsAtOrdered(isValid, rules, w, s, upto - 1);
      var last: seq<(nat, nat)> := if IsHit(isValid, rules, w, s, upto - 1) then [(s, upto - 1)] else [];
      AscendingAppend(PairsAt(isValid, rules, w, s, upto - 1), last);
    }
  }

  lemma {:induction false} PairsBeforeOrdered(isValid: WordTest, rules: PayoutRules, w: string, start: nat)
    requires start <= Starts(|w|)
    ensures Ascending(PairsBefore(isValid, rules, w, start))
  {
    if start > 0 {
      var a := PairsBefore(isValid, rules, w, start - 1);
      var b := PairsAt(isValid, rules, w, start - 1, |w| - start + 2);
      PairsBeforeOrdered(isValid, rules, w, start - 1);
      PairsAtOrdered(isValid, rules, w, start - 1, |w| - start + 2);
      forall i, j | 0 <= i < |a| && 0 <= j < |b|
        ensures Earlier(a[i], b[j])
      {
        assert a[i].0 < start - 1 == b[j].0;
      }
      AscendingAppend(a, b);
    }
  }

  /** The credited substrings come in loop order: by start, then by length;
      in particular no substring is credited twice. */
  lemma SubwordPairsOrdered(isValid: WordTest, rules: PayoutRules, w: string)
    ensures Ascending(SubwordPairs(isValid, rules, w))
  {
    PairsBeforeOrdered(isValid, rules, w, Starts(|w|));
  }

  /** The entry pushed for the substring of length l at s. */
  function SubwordEntry(grid: Grid, mapping: SymbolMapping, w: string, positions: seq<Position>, s: nat, l: nat): (fw: FoundWord)
    requires |positions| == |w| && s + l <= |w|
    ensures fw.word == w[s..s + l] && fw.positions == positions[s..s + l] && fw.length == l
  {
    var wordPositions := positions[s..s + l];
    FoundWord(w[s..s + l], wordPositions, SumValues(grid, mapping, wordPositions), l)
  }

  /** The entries of the hits at start s with lengths 3 ..< upto. */
  function EntriesAt(grid: Grid, mapping: SymbolMapping, isValid: WordTest, rules: PayoutRules, w: string, positions: seq<Position>, s: nat, upto: nat): seq<FoundWord>
    requires |positions| == |w| && s + upto <= |w| + 1
  {
    if upto <= 3 then []
    else
      EntriesAt(grid, mapping, isValid, rules, w, positions, s, upto - 1) +
      (if IsHit(isValid, rules, w, s, upto - 1) then [SubwordEntry(grid, mapping, w, positions, s, upto - 1)] else [])
  }

  /** The entries of the hits at the starts below `start`. */
  function EntriesBefore(grid: Grid, mapping: SymbolMapping, isValid: WordTest, rules: PayoutRules, w: string, positions: seq<Position>, start: nat): seq<FoundWord>
    requires |positions| == |w| && start <= Starts(|w|)
  {
    if start == 0 then []
    else
      EntriesBefore(grid, mapping, isValid, rules, w, positions, start - 1) +
      EntriesAt(grid, mapping, isValid, rules, w, positions, start - 1, |w| - start + 2)
  }

  /** The entries findValidSubwords of the simulator pushes for a line. */
  function SimSubwords(grid: Grid, mapping: SymbolMapping, isValid: WordTest, rules: PayoutRules, w: string, positions: seq<Position>): seq<FoundWord>
    requires |positions| == |w|
  {
    EntriesBefore(grid, mapping, isValid, rules, w, positions, Starts(|w|))
  }

  /** Entry i is the entry of pair i. */
  predicate EntriesFollow(grid: Grid, mapping: SymbolMapping, w: string, positions: seq<Position>, es: seq<FoundWord>, ps: seq<(nat, nat)>)
    requires |positions| == |w| && forall i :: 0 <= i < |ps| ==> ps[i].0 + ps[i].1 <= |w|
  {
    |es| == |ps| && forall i :: 0 <= i < |ps| ==> es[i] == SubwordEntry(grid, mapping, w, positions, ps[i].0, ps[i].1)
  }

  lemma {:induction false} EntriesAtFollow(grid: Grid, mapping: SymbolMapping, isValid: WordTest, rules: PayoutRules, w: string, positions: seq<Position>, s: nat, upto: nat)
    requires |positions| == |w| && s + upto <= |w| + 1
    ensures EntriesFollow(grid, mapping, w, positions, EntriesAt(grid, mapping, isValid, rules, w, positions, s, upto), PairsAt(isValid, rules, w, s, upto))
  {
    if upto > 3 {
      EntriesAtFollow(grid, mapping, isValid, rules, w, positions, s, upto - 1);
    }
  }

  lemma FollowAppend(grid: Grid, mapping: SymbolMapping, w: string, positions: seq<Position>, es: seq<FoundWord>, ps: seq<(nat, nat)>, es': seq<FoundWord>, ps': seq<(nat, nat)>)
    requires |positions| == |w|
    requires forall i :: 0 <= i < |ps| ==> ps[i].0 + ps[i].1 <= |w|
    requires forall i :: 0 <= i < |ps'| ==> ps'[i].0 + ps'[i].1 <= |w|
    requires EntriesFollow(grid, mapping, w, positions, es, ps) && EntriesFollow(grid, mapping, w, positions, es', ps')
    ensures forall i :: 0 <= i < |ps + ps'| ==> (ps + ps')[i].0 + (ps + ps')[i].1 <= |w|
    ensures EntriesFollow(grid, mapping, w, positions, es + es', ps + ps')
  {
    forall i | 0 <= i < |ps + ps'|
      ensures (ps + ps')[i].0 + (ps + ps')[i].1 <= |w|
    {
      if i >= |ps| {
        assert (ps + ps')[i] == ps'[i - |ps|];
      }
    }
  }

  lemma {:induction false} EntriesBeforeFollow(grid: Grid, mapping: SymbolMapping, isValid: WordTest, rules: PayoutRules, w: string, positions: seq<Position>, start: nat)
    requires |positions| == |w| && start <= Starts(|w|)
    ensures EntriesFollow(grid, mapping, w, positions, EntriesBefore(grid, mapping, isValid, rules, w, positions, start), PairsBefore(isValid, rules, w, start))
  {
    if start > 0 {
      EntriesBeforeFollow(grid, mapping, isValid, rules, w, positions, start - 1);
      EntriesAtFollow(grid, mapping, isValid, rules, w, positions, start - 1, |w| - start + 2);
      FollowAppend(grid, mapping, w, positions,
        EntriesBefore(grid, mapping, isValid, rules, w, positions, start - 1), PairsBefore(isValid, rules, w, start - 1),
        EntriesAt(grid, mapping, isValid, rules, w, positions, start - 1, |w| - start + 2), PairsAt(isValid, rules, w, start - 1, |w| - start + 2));
    }
  }

  /** The entries pushed for a line are those of the credited substrings, in
      order: entry i holds the letters, the positions, the summed value and
      the length of substring i. */
  lemma SimSubwordsFollowPairs(grid: Grid, mapping: SymbolMapping, isValid: WordTest, rules: PayoutRules, w: string, positions: seq<Position>)
    requires |positions| == |w|
    ensures EntriesFollow(grid, mapping, w, positions, SimSubwords(grid, mapping, isValid, rules, w, positions), SubwordPairs(isValid, rules, w))
  {
    EntriesBeforeFollow(grid, mapping, isValid, rules, w, positions, Starts(|w|));
  }

  /** The inner loop of findValidSubwords at `start`: every paid length from 3 up. */
  method SubwordsAt(word: string, positions: seq<Position>, start: nat, results: seq<FoundWord>,
                    mapping: SymbolMapping, grid: Grid, isValid: WordTest, rules: PayoutRules)
    returns (out: seq<FoundWord>)
    requires |positions| == |word| && start < Starts(|word|)
    ensures out == results + EntriesAt(grid, mapping, isValid, rules, word, positions, start, |word| - start + 1)
  {
    out := results;
    for len := 3 to |word| - start + 1
      invariant out == results + EntriesAt(grid, mapping, isValid, rules, word, positions, start, len)
    {
      var subword := word[start..start + len];
      if len in rules && rules[len] == 0 {
        continue;
      }
      if isValid(subword) {
        var wordValue, wordPositions := WordValueAt(grid, mapping, positions, start, len);
        AppendAssoc(results, EntriesAt(grid, mapping, isValid, rules, word, positions, start, len), [FoundWord(subword, wordPositions, wordValue, len)]);
        out := out + [FoundWord(subword, wordPositions, wordValue, len)];
      }
    }
  }

  /** findValidSubwords of the simulator: every (start, length) in loop order. */
  method SimFindValidSubwords(word: string, positions: seq<Position>, results: seq<FoundWord>,
                              mapping: SymbolMapping, grid: Grid, isValid: WordTest, rules: PayoutRules)
    returns (out: seq<FoundWord>)
    requires |positions| == |word|
    ensures out == results + SimSubwords(grid, mapping, isValid, rules, word, positions)
  {
    out := results;
    for start := 0 to Starts(|word|)
      invariant out == results + EntriesBefore(grid, mapping, isValid, rules, word, positions, start)
    {
      ghost var before := out;
      out := SubwordsAt(word, positions, start, out, mapping, grid, isValid, rules);
      AppendAssoc(results, EntriesBefore(grid, mapping, isValid, rules, word, positions, start),
                  EntriesAt(grid, mapping, isValid, rules, word, positions, start, |word| - start + 1));
    }
  }

  /** Appending is associative. */
  lemma AppendAssoc<T>(a: seq<T>, b: seq<T>, c: seq<T>)
    ensures (a + b) + c == a + (b + c)
  {
  }

  /** What the simulator credits includes the one word findWords of the game
      takes from the same line. */
  lemma GameWordCredited(grid: Grid, mapping: SymbolMapping, isValid: WordTest, rules: PayoutRules, ps: seq<Position>)
    ensures var w := LettersOf(grid, mapping, ps);
            forall fw :: fw in LineWords(grid, mapping, isValid, rules, ps) ==> fw in SimSubwords(grid, mapping, isValid, rules, w, ps)
  {
    var w := LettersOf(grid, mapping, ps);
    var p := LinePick(isValid, rules, w);
    LinePickOk(isValid, rules, w);
    if p.Pick? {
      SubwordPairsExact(isValid, rules, w, p.start, p.len);
      SimSubwordsFollowPairs(grid, mapping, isValid, rules, w, ps);
      var pairs := SubwordPairs(isValid, rules, w);
      var i :| 0 <= i < |pairs| && pairs[i] == (p.start, p.len);
      assert SimSubwords(grid, mapping, isValid, rules, w, ps)[i] == LineWords(grid, mapping, isValid, rules, ps)[0];
    }
  }

  // ---------------------------------------------------------------- the grid search

  /** The subwords the simulator credits along one line of positions. */
  function LineSubwords(grid: Grid, mapping: SymbolMapping, isValid: WordTest, rules: PayoutRules, ps: seq<Position>): seq<FoundWord>
  {
    SimSubwords(grid, mapping, isValid, rules, LettersOf(grid, mapping, ps), ps)
  }

  /** The subwords of a sequence of lines, in line order. */
  function SimWordsOfLines(grid: Grid, mapping: SymbolMapping, isValid: WordTest, rules: PayoutRules, lines: seq<seq<Position>>): seq<FoundWord>
  {
    if |lines| == 0 then []
    else SimWordsOfLines(grid, mapping, isValid, rules, lines[..|lines| - 1]) + LineSubwords(grid, mapping, isValid, rules, lines[|lines| - 1])
  }

  /** What findWordsInGrid returns: the subwords of every row, then of every column. */
  function SimFindWordsSpec(grid: Grid, mapping: SymbolMapping, isValid: WordTest, rules: PayoutRules): seq<FoundWord>
  {
    SimWordsOfLines(grid, mapping, isValid, rules, GridLines(grid))
  }

  lemma SimWordsOfLinesStep(grid: Grid, mapping: SymbolMapping, isValid: WordTest, rules: PayoutRules, lines: seq<seq<Position>>, k: nat)
    requires k < |lines|
    ensures SimWordsOfLines(grid, mapping, isValid, rules, lines[..k + 1]) ==
      SimWordsOfLines(grid, mapping, isValid, rules, lines[..k]) + LineSubwords(grid, mapping, isValid, rules, lines[k])
  {
    assert lines[..k + 1][..k] == lines[..k];
  }

  lemma {:induction false} SimWordsOfLinesConcat(grid: Grid, mapping: SymbolMapping, isValid: WordTest, rules: PayoutRules, a: seq<seq<Position>>, b: seq<seq<Position>>)
    ensures SimWordsOfLines(grid, mapping, isValid, rules, a + b) ==
      SimWordsOfLines(grid, mapping, isValid, rules, a) + SimWordsOfLines(grid, mapping, isValid, rules, b)
    decreases |b|
  {
    if |b| > 0 {
      var init := b[..|b| - 1];
      assert (a + b)[..|a + b| - 1] == a + init;
      assert (a + b)[|a + b| - 1] == b[|b| - 1];
      SimWordsOfLinesConcat(grid, mapping, isValid, rules, a, init);
      assert SimWordsOfLines(grid, mapping, isValid, rules, b) ==
        SimWordsOfLines(grid, mapping, isValid, rules, init) + LineSubwords(grid, mapping, isValid, rules, b[|b| - 1]);
    } else {
      assert a + b == a;
    }
  }

  /** findWordsInGrid: nothing for an empty grid, else every row, then every column. */
  method FindWordsInGrid(reelResults: Grid, mapping: SymbolMapping, isValid: WordTest, rules: PayoutRules)
    returns (words: seq<FoundWord>)
    ensures words == SimFindWordsSpec(reelResults, mapping, isValid, rules)
  {
    words := [];
    if |reelResults| == 0 {
      return;
    }
    var rowWords := SimRowWords(reelResults, mapping, isValid, rules);
    var columnWords := SimColumnWords(reelResults, mapping, isValid, rules);
    words := rowWords + columnWords;
    SimWordsOfLinesConcat(reelResults, mapping, isValid, rules, RowLines(reelResults), ColumnLines(reelResults));
  }

  /** The row loop of findWordsInGrid. */
  method SimRowWords(reelResults: Grid, mapping: SymbolMapping, isValid: WordTest, rules: PayoutRules)
    returns (words: seq<FoundWord>)
    requires |reelResults| > 0
    ensures words == SimWordsOfLines(reelResults, mapping, isValid, rules, RowLines(reelResults))
  {
    words := [];
    ghost var lines := RowLines(reelResults);
    for row := 0 to |reelResults[0]|
      invariant words == SimWordsOfLines(reelResults, mapping, isValid, rules, lines[..row])
    {
      words := RowSubwords(reelResults, mapping, isValid, rules, row, words);
      SimWordsOfLinesStep(reelResults, mapping, isValid, rules, lines, row);
    }
    assert lines[..|reelResults[0]|] == lines;
  }

  /** One pass of the row loop: read row `row`, append its subwords. */
  method RowSubwords(reelResults: Grid, mapping: SymbolMapping, isValid: WordTest, rules: PayoutRules, row: nat, words: seq<FoundWord>)
    returns (out: seq<FoundWord>)
    ensures out == words + LineSubwords(reelResults, mapping, isValid, rules, RowPositions(reelResults, row))
  {
    var horizontalWord, horizontalPositions := ReadRow(reelResults, mapping, row);
    out := SimFindValidSubwords(horizontalWord, horizontalPositions, words, mapping, reelResults, isValid, rules);
  }

  /** The column loop of findWordsInGrid. */
  method SimColumnWords(reelResults: Grid, mapping: SymbolMapping, isValid: WordTest, rules: PayoutRules)
    returns (words: seq<FoundWord>)
    requires |reelResults| > 0
    ensures words == SimWordsOfLines(reelResults, mapping, isValid, rules, ColumnLines(reelResults))
  {
    words := [];
    ghost var lines := ColumnLines(reelResults);
    for col := 0 to |reelResults|
      invariant words == SimWordsOfLines(reelResults, mapping, isValid, rules, lines[..col])
    {
      words := ColumnSubwords(reelResults, mapping, isValid, rules, col, words);
      SimWordsOfLinesStep(reelResults, mapping, isValid, rules, lines, col);
    }
    assert lines[..|reelResults|] == lines;
  }

  /** One pass of the column loop: read reel `col`, append its subwords. */
  method ColumnSubwords(reelResults: Grid, mapping: SymbolMapping, isValid: WordTest, rules: PayoutRules, col: nat, words: seq<FoundWord>)
    returns (out: seq<FoundWord>)
    requires |reelResults| > 0
    ensures out == words + LineSubwords(reelResults, mapping, isValid, rules, ColumnPositions(reelResults, col))
  {
    var verticalWord, verticalPositions := ReadColumn(reelResults, mapping, col);
    out := SimFindValidSubwords(verticalWord, verticalPositions, words, mapping, reelResults, isValid, rules);
  }

  lemma {:induction false} LinesCredited(grid: Grid, mapping: SymbolMapping, isValid: WordTest, rules: PayoutRules, lines: seq<seq<Position>>)
    ensures forall fw :: fw in WordsOfLines(grid, mapping, isValid, rules, lines) ==> fw in SimWordsOfLines(grid, mapping, isValid, rules, lines)
  {
    if |lines| > 0 {
      LinesCredited(grid, mapping, isValid, rules, lines[..|lines| - 1]);
      GameWordCredited(grid, mapping, isValid, rules, lines[|lines| - 1]);
    }
  }

  /** With the same word test, every word the game finds in a grid is also
      credited by the simulator (which credits more: every overlap). */
  lemma GameWordsCredited(grid: Grid, mapping: SymbolMapping, isValid: WordTest, rules: PayoutRules)
    ensures forall fw :: fw in FindWordsSpec(grid, mapping, isValid, rules) ==> fw in SimFindWordsSpec(grid, mapping, isValid, rules)
  {
    LinesCredited(grid, mapping, isValid, rules, GridLines(grid));
  }

  // ---------------------------------------------------------------- payout of one spin

  /** An entry of wordsToPaylines in the simulator (no amount, no bet). */
  datatype SimPayline = SimPayline(paylineId: nat, symbolName: string, symbolIndex: int, positions: seq<Position>, count: nat, multiplier: int)

  /** A winning line as calculateWins records it. */
  datatype SimLine = SimLine(word: string, symbolNumber: int, positions: seq<Position>, paylineIndex: nat, count: nat, win: int)

  /** calculateWins' result. */
  datatype SpinWins = SpinWins(winningLines: seq<SimLine>, totalWin: int)

  /** wordsToPaylines of the simulator: one line per word, numbered in order. */
  function SimWordsToPaylines(words: seq<FoundWord>): (r: seq<SimPayline>)
    ensures |r| == |words|
  {
    seq(|words|, i requires 0 <= i < |words| =>
      SimPayline(i, words[i].word, -1, words[i].positions, words[i].length, words[i].value))
  }

  /** The simulator's conversion is the word finder's without amount and bet. */
  lemma SimPaylinesAgree(words: seq<FoundWord>)
    ensures var s := SimWordsToPaylines(words);
            var g := WordsToPaylines(words);
            |s| == |g| &&
            forall i :: 0 <= i < |s| ==>
              s[i] == SimPayline(g[i].paylineId, g[i].symbolName, g[i].symbolIndex, g[i].positions, g[i].count, g[i].multiplier)
  {
  }

  /** The line calculateWins builds: value x length multiplier x bet. */
  function WinningLine(line: SimPayline, rules: PayoutRules, bet: int): SimLine
  {
    SimLine(line.symbolName, line.symbolIndex, line.positions, line.paylineId,
            line.count, line.multiplier * LengthMultiplier(rules, line.count) * bet)
  }

  /** The lines calculateWins keeps: those that pay, in order. */
  function KeptLines(ls: seq<SimPayline>, rules: PayoutRules, bet: int): (kept: seq<SimLine>)
    ensures |kept| <= |ls|
    ensures forall i :: 0 <= i < |kept| ==> kept[i].win > 0
  {
    if |ls| == 0 then []
    else
      var line := WinningLine(ls[|ls| - 1], rules, bet);
      KeptLines(ls[..|ls| - 1], rules, bet) + (if line.win > 0 then [line] else [])
  }

  /** One more payline adds its winning line when that line pays. */
  lemma KeptLinesStep(ls: seq<SimPayline>, k: nat, rules: PayoutRules, bet: int)
    requires k < |ls|
    ensures KeptLines(ls[..k + 1], rules, bet) == KeptLines(ls[..k], rules, bet) +
      (if WinningLine(ls[k], rules, bet).win > 0 then [WinningLine(ls[k], rules, bet)] else [])
  {
    assert ls[..k + 1][..k] == ls[..k];
    assert ls[..k + 1][k] == ls[k];
  }

  /** A line is kept exactly when it is the winning line of some payline that pays. */
  lemma {:induction false} KeptLinesExact(ls: seq<SimPayline>, rules: PayoutRules, bet: int, line: SimLine)
    ensures line in KeptLines(ls, rules, bet) <==> exists i :: 0 <= i < |ls| && WinningLine(ls[i], rules, bet) == line && line.win > 0
  {
    if |ls| > 0 {
      var init := ls[..|ls| - 1];
      KeptLinesExact(init, rules, bet, line);
      if exists i :: 0 <= i < |ls| && WinningLine(ls[i], rules, bet) == line && line.win > 0 {
        var i :| 0 <= i < |ls| && WinningLine(ls[i], rules, bet) == line && line.win > 0;
        if i < |init| {
          assert init[i] == ls[i];
        }
      }
      if exists i :: 0 <= i < |init| && WinningLine(init[i], rules, bet) == line && line.win > 0 {
        var i :| 0 <= i < |init| && WinningLine(init[i], rules, bet) == line && line.win > 0;
        assert ls[i] == init[i];
      }
    }
  }

  function SumWins(ls: seq<SimLine>): int
  {
    if |ls| == 0 then 0 else SumWins(ls[..|ls| - 1]) + ls[|ls| - 1].win
  }

  lemma SumWinsAppend(ls: seq<SimLine>, line: SimLine)
    ensures SumWins(ls + [line]) == SumWins(ls) + line.win
  {
    assert (ls + [line])[..|ls|] == ls;
  }

  /** The total of lines that all pay is positive exactly when there is a line,
      and at least the number of lines. */
  lemma {:induction false} SumWinsOfPaying(ls: seq<SimLine>)
    requires forall i :: 0 <= i < |ls| ==> ls[i].win > 0
    ensures SumWins(ls) >= |ls|
    ensures SumWins(ls) > 0 <==> |ls| > 0
  {
    if |ls| > 0 {
      SumWinsOfPaying(ls[..|ls| - 1]);
    }
  }

  /** A spin's win is the sum of its winning lines and not negative. */
  predicate SettledSpin(w: SpinWins)
  {
    w.totalWin == SumWins(w.winningLines) && w.totalWin >= 0
  }

  /** calculateWins: the winning lines and their total, which is their sum
      and never negative. */
  function CalculateWinsSpec(grid: Grid, mapping: SymbolMapping, rules: PayoutRules, isValid: WordTest, bet: int): (r: SpinWins)
    ensures SettledSpin(r)
  {
    var kept := KeptLines(SimWordsToPaylines(SimFindWordsSpec(grid, mapping, isValid, rules)), rules, bet);
    SumWinsOfPaying(kept);
    SpinWins(kept, SumWins(kept))
  }

  /** A spin's total is the sum of its winning lines, never negative, and
      positive exactly when some line pays. */
  lemma CalculateWinsTotal(grid: Grid, mapping: SymbolMapping, rules: PayoutRules, isValid: WordTest, bet: int)
    ensures var r := CalculateWinsSpec(grid, mapping, rules, isValid, bet);
            r.totalWin > 0 <==> |r.winningLines| > 0
  {
    var r := CalculateWinsSpec(grid, mapping, rules, isValid, bet);
    SumWinsOfPaying(r.winningLines);
  }

  /** The loop of calculateWins over the word paylines. */
  method TallyWins(wordPaylines: seq<SimPayline>, rules: PayoutRules, betAmount: int) returns (result: SpinWins)
    ensures result.winningLines == KeptLines(wordPaylines, rules, betAmount)
    ensures result.totalWin == SumWins(result.winningLines)
  {
    result := SpinWins([], 0);
    for k := 0 to |wordPaylines|
      invariant result.winningLines == KeptLines(wordPaylines[..k], rules, betAmount)
      invariant result.totalWin == SumWins(result.winningLines)
    {
      KeptLinesStep(wordPaylines, k, rules, betAmount);
      var wordLine := wordPaylines[k];
      var wordLength := wordLine.count;
      var baseValue := wordLine.multiplier;
      var lengthMultiplier := LengthMultiplier(rules, wordLength);
      var winAmount := baseValue * lengthMultiplier * betAmount;
      assert winAmount == WinningLine(wordLine, rules, betAmount).win;
      if winAmount > 0 {
        var line := SimLine(wordLine.symbolName, wordLine.symbolIndex, wordLine.positions, wordLine.paylineId, wordLength, winAmount);
        assert line == WinningLine(wordLine, rules, betAmount);
        SumWinsAppend(result.winningLines, line);
        result := SpinWins(result.winningLines + [line], result.totalWin + winAmount);
      }
    }
    assert wordPaylines[..|wordPaylines|] == wordPaylines;
  }

  /** calculateWins. */
  method CalculateWins(visibleSymbols: Grid, mapping: SymbolMapping, rules: PayoutRules, isValid: WordTest, betAmount: int)
    returns (result: SpinWins)
    ensures result == CalculateWinsSpec(visibleSymbols, mapping, rules, isValid, betAmount)
  {
    result := SpinWins([], 0);
    var foundWords := FindWordsInGrid(visibleSymbols, mapping, isValid, rules);
    if |foundWords| > 0 {
      result := TallyWins(SimWordsToPaylines(foundWords), rules, betAmount);
    }
  }

  // ---------------------------------------------------------------- the simulated grid

  /** The simulator reads three rows of every reel. */
  const SimRows: nat := 3

  /** The three symbols of a strip from stop `pos` on, wrapping around. */
  function SimColumn(strip: seq<nat>, pos: nat): (col: seq<nat>)
    requires |strip| > 0
    ensures |col| == SimRows
  {
    seq(SimRows, row requires 0 <= row < SimRows => strip[(pos + row) % |strip|])
  }

  /** Strips the simulator can read: each non-empty. */
  predicate StripsReadable(strips: seq<seq<nat>>)
  {
    forall r :: 0 <= r < |strips| ==> |strips[r]| > 0
  }

  /** One column per strip, each read from that strip's stop. */
  function SimGrid(strips: seq<seq<nat>>, reelPositions: seq<nat>): (g: Grid)
    requires StripsReadable(strips) && |reelPositions| == |strips|
    ensures |g| == |strips| && forall r :: 0 <= r < |g| ==> |g[r]| == SimRows
  {
    seq(|strips|, r requires 0 <= r < |strips| => SimColumn(strips[r], reelPositions[r]))
  }

  /** For a stop on the strip, the simulator shows what spinCompleted of the
      game shows for that stop, and what the three-row window below it
      shows: row j is `strip[(pos + j) mod len]`. */
  lemma SimGridIsGameGrid(strips: seq<seq<nat>>, reelPositions: seq<nat>, r: nat)
    requires StripsReadable(strips) && |reelPositions| == |strips| && r < |strips|
    requires reelPositions[r] < |strips[r]|
    ensures SimGrid(strips, reelPositions)[r] == Game.StopColumn(strips[r], reelPositions[r])
    ensures forall j :: 0 <= j < SimRows ==> Window(strips[r], reelPositions[r], SimRows)[j] == Some(SimGrid(strips, reelPositions)[r][j])
  {
    var strip, pos := strips[r], reelPositions[r];
    ModUnique(pos, 0, pos, |strip|);
    assert SimGrid(strips, reelPositions)[r] == SimColumn(strip, pos);
    Game.StopColumnIsWindow(strip, pos);
  }

  /** The grid loop of simulateRTP: for each reel, rows 0, 1 and 2. */
  method VisibleSymbols(strips: seq<seq<nat>>, reelPositions: seq<nat>) returns (visibleSymbols: Grid)
    requires StripsReadable(strips) && |reelPositions| == |strips|
    ensures visibleSymbols == SimGrid(strips, reelPositions)
  {
    visibleSymbols := [];
    for reel := 0 to |strips|
      invariant visibleSymbols == SimGrid(strips, reelPositions)[..reel]
    {
      var reelSymbols := ReadStrip(strips[reel], reelPositions[reel]);
      visibleSymbols := visibleSymbols + [reelSymbols];
    }
    assert SimGrid(strips, reelPositions)[..|strips|] == SimGrid(strips, reelPositions);
  }

  /** The row loop for one reel. */
  method ReadStrip(strip: seq<nat>, pos: nat) returns (reelSymbols: seq<nat>)
    requires |strip| > 0
    ensures reelSymbols == SimColumn(strip, pos)
  {
    reelSymbols := [];
    for row := 0 to SimRows
      invariant reelSymbols == SimColumn(strip, pos)[..row]
    {
      var position := (pos + row) % |strip|;
      reelSymbols := reelSymbols + [strip[position]];
    }
  }

  // ---------------------------------------------------------------- win distribution

  /** The upper bounds, in bets, of the buckets after "0x". */
  const Thresholds: seq<int> := [1, 2, 5, 10, 20, 50, 100]

  /** The keys of winDistribution, in the order the spin's bucket is chosen. */
  const BucketNames: seq<string> := ["0x", "0-1x", "1-2x", "2-5x", "5-10x", "10-20x", "20-50x", "50-100x", "100x+"]

  /** `totalSpinWin / betAmount <= k` for the floating-point quotient: with a
      bet of 0 the quotient is +Infinity for a positive win, -Infinity for a
      negative one and NaN for 0, and NaN compares false. */
  predicate MultiplierAtMost(win: int, bet: int, k: int)
  {
    if bet > 0 then win <= k * bet
    else if bet < 0 then win >= k * bet
    else win < 0
  }

  /** `totalSpinWin / betAmount === 0`. */
  predicate MultiplierIsZero(win: int, bet: int)
  {
    bet != 0 && win == 0
  }

  /** The first threshold from index i on that the multiplier does not exceed,
      or |Thresholds| when there is none. */
  function FirstThreshold(win: int, bet: int, i: nat): (j: nat)
    requires i <= |Thresholds|
    ensures i <= j <= |Thresholds|
    ensures j < |Thresholds| ==> MultiplierAtMost(win, bet, Thresholds[j])
    ensures forall m :: i <= m < j ==> !MultiplierAtMost(win, bet, Thresholds[m])
    decreases |Thresholds| - i
  {
    if i == |Thresholds| then i
    else if MultiplierAtMost(win, bet, Thresholds[i]) then i
    else FirstThreshold(win, bet, i + 1)
  }

  /** The index in BucketNames of the bucket a spin falls in. */
  function Bucket(win: int, bet: int): (b: nat)
    ensures b < |BucketNames|
    ensures b == 0 <==> MultiplierIsZero(win, bet)
  {
    if MultiplierIsZero(win, bet) then 0 else FirstThreshold(win, bet, 0) + 1
  }

  /** With a positive bet a positive win lands in the bucket whose range,
      in bets, holds it: above the previous threshold and at most its own. */
  lemma BucketBounds(win: int, bet: int)
    requires bet > 0 && win > 0
    ensures var b := Bucket(win, bet);
            1 <= b &&
            (b == 1 ==> win <= bet) &&
            (2 <= b <= 7 ==> Thresholds[b - 2] * bet < win <= Thresholds[b - 1] * bet) &&
            (b == 8 ==> win > 100 * bet)
  {
  }

  /** With a bet of 0 every spin wins nothing and its quotient 0/0 is NaN,
      which passes none of the comparisons: it is counted as "100x+". */
  lemma ZeroBetBucket()
    ensures Bucket(0, 0) == 8
  {
    assert FirstThreshold(0, 0, 0) == 7;
  }

  // ---------------------------------------------------------------- word tallies

  /** A count and a summed win. */
  datatype WinTally = WinTally(count: nat, totalWin: int)

  /** `line.word || "unknown"`. */
  function WordKey(line: SimLine): string
  {
    if line.word == [] then "unknown" else line.word
  }

  /** The wordWinCounts update for one line: its key is created if needed
      and gains one occurrence and the line's win. */
  function TallyWord(m: map<string, WinTally>, line: SimLine): (r: map<string, WinTally>)
    ensures r.Keys == m.Keys + {WordKey(line)}
  {
    var key := WordKey(line);
    var before := if key in m then m[key] else WinTally(0, 0);
    m[key := WinTally(before.count + 1, before.totalWin + line.win)]
  }

  /** The wordLengthStats update for one line: only a length already
      tracked is counted. */
  function TallyLength(m: map<nat, WinTally>, line: SimLine): (r: map<nat, WinTally>)
    ensures r.Keys == m.Keys
  {
    if line.count in m then m[line.count := WinTally(m[line.count].count + 1, m[line.count].totalWin + line.win)] else m
  }

  /** Both tallies after the lines of a spin, in order. */
  function TallyLines(words: map<string, WinTally>, lengths: map<nat, WinTally>, lines: seq<SimLine>): (r: (map<string, WinTally>, map<nat, WinTally>))
    ensures r.1.Keys == lengths.Keys
  {
    if |lines| == 0 then (words, lengths)
    else
      var before := TallyLines(words, lengths, lines[..|lines| - 1]);
      (TallyWord(before.0, lines[|lines| - 1]), TallyLength(before.1, lines[|lines| - 1]))
  }

  function CountOf<K>(m: map<K, WinTally>, k: K): nat
  {
    if k in m then m[k].count else 0
  }

  /** How many lines have word key `key`. */
  function WordOccurrences(lines: seq<SimLine>, key: string): nat
  {
    if |lines| == 0 then 0
    else WordOccurrences(lines[..|lines| - 1], key) + (if WordKey(lines[|lines| - 1]) == key then 1 else 0)
  }

  /** How many lines are `len` letters long. */
  function LengthOccurrences(lines: seq<SimLine>, len: nat): nat
  {
    if |lines| == 0 then 0
    else LengthOccurrences(lines[..|lines| - 1], len) + (if lines[|lines| - 1].count == len then 1 else 0)
  }

  /** Every word key counts its lines, and every tracked length the lines of
      that length; untracked lengths are not counted. */
  lemma {:induction false} TallyLinesCounts(words: map<string, WinTally>, lengths: map<nat, WinTally>, lines: seq<SimLine>, key: string, len: nat)
    ensures var r := TallyLines(words, lengths, lines);
            CountOf(r.0, key) == CountOf(words, key) + WordOccurrences(lines, key) &&
            (len in lengths ==> CountOf(r.1, len) == CountOf(lengths, len) + LengthOccurrences(lines, len))
  {
    if |lines| > 0 {
      TallyLinesCounts(words, lengths, lines[..|lines| - 1], key, len);
    }
  }

  /** The forEach over a spin's winning lines. */
  method RecordLines(wordWinCounts0: map<string, WinTally>, wordLengthStats0: map<nat, WinTally>, winningLines: seq<SimLine>)
    returns (wordWinCounts: map<string, WinTally>, wordLengthStats: map<nat, WinTally>)
    ensures (wordWinCounts, wordLengthStats) == TallyLines(wordWinCounts0, wordLengthStats0, winningLines)
  {
    wordWinCounts, wordLengthStats := wordWinCounts0, wordLengthStats0;
    for k := 0 to |winningLines|
      invariant (wordWinCounts, wordLengthStats) == TallyLines(wordWinCounts0, wordLengthStats0, winningLines[..k])
    {
      assert winningLines[..k + 1][..k] == winningLines[..k];
      wordWinCounts, wordLengthStats := RecordLine(wordWinCounts, wordLengthStats, winningLines[k]);
    }
    assert winningLines[..|winningLines|] == winningLines;
  }

  /** The body of that forEach for one line. */
  method RecordLine(wordWinCounts0: map<string, WinTally>, wordLengthStats0: map<nat, WinTally>, line: SimLine)
    returns (wordWinCounts: map<string, WinTally>, wordLengthStats: map<nat, WinTally>)
    ensures wordWinCounts == TallyWord(wordWinCounts0, line) && wordLengthStats == TallyLength(wordLengthStats0, line)
  {
    wordWinCounts, wordLengthStats := wordWinCounts0, wordLengthStats0;
    var word := if line.word == [] then "unknown" else line.word;
    if word !in wordWinCounts {
      wordWinCounts := wordWinCounts[word := WinTally(0, 0)];
    }
    wordWinCounts := wordWinCounts[word := WinTally(wordWinCounts[word].count + 1, wordWinCounts[word].totalWin + line.win)];
    var wordLength := line.count;
    if wordLength in wordLengthStats {
      wordLengthStats := wordLengthStats[wordLength := WinTally(wordLengthStats[wordLength].count + 1, wordLengthStats[wordLength].totalWin + line.win)];
    }
  }

  // ---------------------------------------------------------------- the accounting loop

  /** One detailed spin record (the quotient `multiplier` is left out). */
  datatype SpinRecord = SpinRecord(spin: nat, win: int)

  /** The counters simulateRTP accumulates. */
  datatype SimulationResult = SimulationResult(
    totalBet: int, totalWin: int, spinResults: seq<SpinRecord>, winDistribution: seq<nat>,
    wordWinCounts: map<string, WinTally>, wordLengthStats: map<nat, WinTally>)

  /** The word lengths wordLengthStats tracks. */
  const TrackedLengths: set<nat> := {3, 4, 5, 6, 7, 8, 9, 10}

  /** wordLengthStats before the first spin: lengths 3 to 10, all zero. */
  function InitialLengthStats(): (m: map<nat, WinTally>)
    ensures forall k: nat :: k in m <==> 3 <= k <= 10
  {
    map k | k in TrackedLengths :: WinTally(0, 0)
  }

  function InitialResult(): SimulationResult
  {
    SimulationResult(0, 0, [], seq(|BucketNames|, _ => 0), map[], InitialLengthStats())
  }

  /** What simulateRTP needs: readable strips and, for every spin, one stop
      per strip on that strip (the draws of Math.random). */
  predicate StopsOk(settings: SimulationSettings, strips: seq<seq<nat>>, stops: seq<seq<nat>>)
  {
    StripsReadable(strips) && |stops| == settings.spins &&
    forall s :: 0 <= s < |stops| ==> |stops[s]| == |strips| && forall r :: 0 <= r < |strips| ==> stops[s][r] < |strips[r]|
  }

  /** The outcome of every spin, spin 1 first: the wins on the grid of its
      stops, judged with the word test of that spin. */
  function SpinOutcomes(settings: SimulationSettings, strips: seq<seq<nat>>, mapping: SymbolMapping, rules: PayoutRules,
                        stops: seq<seq<nat>>, tests: nat -> WordTest): (os: seq<SpinWins>)
    requires StopsOk(settings, strips, stops)
    ensures |os| == settings.spins && Settled(os)
  {
    seq(settings.spins, i requires 0 <= i < settings.spins =>
      CalculateWinsSpec(SimGrid(strips, stops[i]), mapping, rules, tests(i + 1), settings.betAmount))
  }

  /** Every spin is settled. */
  predicate Settled(os: seq<SpinWins>)
  {
    forall i :: 0 <= i < |os| ==> SettledSpin(os[i])
  }

  /** The counters after one more spin. */
  function RecordSpin(r: SimulationResult, spin: nat, wins: SpinWins, bet: int, detailed: bool): (r': SimulationResult)
    requires |r.winDistribution| == |BucketNames|
    ensures |r'.winDistribution| == |BucketNames|
  {
    var counted := r.(totalBet := r.totalBet + bet, totalWin := r.totalWin + wins.totalWin);
    if !detailed then counted
    else
      var b := Bucket(wins.totalWin, bet);
      var tallies := TallyLines(r.wordWinCounts, r.wordLengthStats, wins.winningLines);
      counted.(spinResults := r.spinResults + [SpinRecord(spin, wins.totalWin)],
               winDistribution := r.winDistribution[b := r.winDistribution[b] + 1],
               wordWinCounts := tallies.0, wordLengthStats := tallies.1)
  }

  /** The counters after the spins with outcomes `os`, numbered from 1. */
  function Accumulate(os: seq<SpinWins>, bet: int, detailed: bool): (r: SimulationResult)
    ensures |r.winDistribution| == |BucketNames|
  {
    if |os| == 0 then InitialResult()
    else RecordSpin(Accumulate(os[..|os| - 1], bet, detailed), |os|, os[|os| - 1], bet, detailed)
  }

  /** The wins of a run of spins, in order. */
  function Totals(os: seq<SpinWins>): (ws: seq<int>)
    ensures |ws| == |os|
  {
    seq(|os|, i requires 0 <= i < |os| => os[i].totalWin)
  }

  function Sum(xs: seq<int>): int
  {
    if |xs| == 0 then 0 else Sum(xs[..|xs| - 1]) + xs[|xs| - 1]
  }

  function SumCounts(xs: seq<nat>): nat
  {
    if |xs| == 0 then 0 else SumCounts(xs[..|xs| - 1]) + xs[|xs| - 1]
  }

  /** Adding one to an entry adds one to the sum. */
  lemma {:induction false} SumCountsBump(xs: seq<nat>, b: nat)
    requires b < |xs|
    ensures SumCounts(xs[b := xs[b] + 1]) == SumCounts(xs) + 1
  {
    var ys := xs[b := xs[b] + 1];
    if b < |xs| - 1 {
      assert ys[..|ys| - 1] == xs[..|xs| - 1][b := xs[b] + 1];
      SumCountsBump(xs[..|xs| - 1], b);
    } else {
      assert ys[..|ys| - 1] == xs[..|xs| - 1];
    }
  }

  lemma {:induction false} SumCountsZero(n: nat)
    ensures SumCounts(seq(n, _ => 0)) == 0
  {
    if n > 0 {
      assert seq(n, _ => 0)[..n - 1] == seq(n - 1, _ => 0);
      SumCountsZero(n - 1);
    }
  }

  /** After the spins the bet total is one bet per spin and the win total is
      the sum of the spins' wins, never negative when no spin's win is. */
  lemma {:induction false} AccumulateTotals(os: seq<SpinWins>, bet: int, detailed: bool)
    ensures var r := Accumulate(os, bet, detailed);
            r.totalBet == |os| * bet && r.totalWin == Sum(Totals(os)) &&
            (Settled(os) ==> r.totalWin >= 0)
  {
    if |os| > 0 {
      var init := os[..|os| - 1];
      AccumulateTotals(init, bet, detailed);
      assert Totals(os)[..|os| - 1] == Totals(init);
      assert |os| * bet == |init| * bet + bet;
      if Settled(os) {
        assert SettledSpin(os[|os| - 1]);
        assert Settled(init) by {
          forall i | 0 <= i < |init|
            ensures SettledSpin(init[i])
          {
            assert init[i] == os[i];
          }
        }
      }
    }
  }

  /** The tracked lengths stay 3 to 10 whatever the spins. */
  lemma {:induction false} AccumulateLengthKeys(os: seq<SpinWins>, bet: int, detailed: bool)
    ensures Accumulate(os, bet, detailed).wordLengthStats.Keys == TrackedLengths
  {
    if |os| > 0 {
      AccumulateLengthKeys(os[..|os| - 1], bet, detailed);
    }
  }

  /** With detailed results every spin is recorded once, in order, with its win. */
  lemma {:induction false} AccumulateSpinResults(os: seq<SpinWins>, bet: int)
    ensures var r := Accumulate(os, bet, true);
            |r.spinResults| == |os| && forall i :: 0 <= i < |os| ==> r.spinResults[i] == SpinRecord(i + 1, os[i].totalWin)
  {
    if |os| > 0 {
      AccumulateSpinResults(os[..|os| - 1], bet);
    }
  }

  /** With detailed results exactly one bucket counts each spin, so the
      buckets sum to the number of spins. */
  lemma {:induction false} AccumulateBucketsSum(os: seq<SpinWins>, bet: int)
    ensures SumCounts(Accumulate(os, bet, true).winDistribution) == |os|
  {
    if |os| == 0 {
      SumCountsZero(|BucketNames|);
    } else {
      var init := os[..|os| - 1];
      AccumulateBucketsSum(init, bet);
      SumCountsBump(Accumulate(init, bet, true).winDistribution, Bucket(os[|os| - 1].totalWin, bet));
    }
  }

  /** Without detailed results no spin is recorded and every bucket stays 0. */
  lemma {:induction false} AccumulateUndetailed(os: seq<SpinWins>, bet: int)
    ensures var r := Accumulate(os, bet, false);
            r.spinResults == [] && r.winDistribution == seq(|BucketNames|, _ => 0) &&
            r.wordWinCounts == map[] && r.wordLengthStats == InitialLengthStats()
  {
    if |os| > 0 {
      AccumulateUndetailed(os[..|os| - 1], bet);
    }
  }

  /** With detailed results bucket b counts exactly the spins whose win falls in it. */
  lemma {:induction false} AccumulateBuckets(os: seq<SpinWins>, bet: int, b: nat)
    requires b < |BucketNames|
    ensures Accumulate(os, bet, true).winDistribution[b] == BucketCount(os, bet, b)
  {
    if |os| > 0 {
      AccumulateBuckets(os[..|os| - 1], bet, b);
    }
  }

  /** How many of the spins fall in bucket b. */
  function BucketCount(os: seq<SpinWins>, bet: int, b: nat): nat
  {
    if |os| == 0 then 0
    else BucketCount(os[..|os| - 1], bet, b) + (if Bucket(os[|os| - 1].totalWin, bet) == b then 1 else 0)
  }

  /** The spin-by-spin body of simulateRTP. */
  method PlaySpin(settings: SimulationSettings, strips: seq<seq<nat>>, mapping: SymbolMapping, rules: PayoutRules,
                  stops: seq<seq<nat>>, tests: nat -> WordTest, spin: nat)
    returns (spinWins: SpinWins)
    requires StopsOk(settings, strips, stops) && 1 <= spin <= settings.spins
    ensures spinWins == SpinOutcomes(settings, strips, mapping, rules, stops, tests)[spin - 1]
  {
    var reelPositions := stops[spin - 1];
    var visibleSymbols := VisibleSymbols(strips, reelPositions);
    spinWins := CalculateWins(visibleSymbols, mapping, rules, tests(spin), settings.betAmount);
  }

  /** The bookkeeping of one spin in simulateRTP. */
  method CountSpin(totalBet0: int, totalWin0: int, spinResults0: seq<SpinRecord>, winDistribution0: seq<nat>,
                   wordWinCounts0: map<string, WinTally>, wordLengthStats0: map<nat, WinTally>,
                   spin: nat, spinWins: SpinWins, settings: SimulationSettings)
    returns (totalBet: int, totalWin: int, spinResults: seq<SpinRecord>, winDistribution: seq<nat>,
             wordWinCounts: map<string, WinTally>, wordLengthStats: map<nat, WinTally>)
    requires |winDistribution0| == |BucketNames|
    ensures SimulationResult(totalBet, totalWin, spinResults, winDistribution, wordWinCounts, wordLengthStats) ==
            RecordSpin(SimulationResult(totalBet0, totalWin0, spinResults0, winDistribution0, wordWinCounts0, wordLengthStats0),
                       spin, spinWins, settings.betAmount, settings.detailedResults)
  {
    totalBet, totalWin, spinResults, winDistribution, wordWinCounts, wordLengthStats :=
      totalBet0, totalWin0, spinResults0, winDistribution0, wordWinCounts0, wordLengthStats0;
    totalBet := totalBet + settings.betAmount;
    var totalSpinWin := spinWins.totalWin;
    totalWin := totalWin + totalSpinWin;
    if settings.detailedResults {
      spinResults := spinResults + [SpinRecord(spin, totalSpinWin)];
      var bucket := Bucket(totalSpinWin, settings.betAmount);
      winDistribution := winDistribution[bucket := winDistribution[bucket] + 1];
      wordWinCounts, wordLengthStats := RecordLines(wordWinCounts, wordLengthStats, spinWins.winningLines);
    }
  }

  /** simulateRTP: the counters after every spin, spin 1 first. */
  method SimulateRTP(settings: SimulationSettings, strips: seq<seq<nat>>, mapping: SymbolMapping, rules: PayoutRules,
                     stops: seq<seq<nat>>, luck: (nat, string) -> bool)
    returns (result: SimulationResult)
    requires StopsOk(settings, strips, stops)
    ensures result == Accumulate(SpinOutcomes(settings, strips, mapping, rules, stops, MockTests(luck)), settings.betAmount, settings.detailedResults)
  {
    ghost var os := SpinOutcomes(settings, strips, mapping, rules, stops, MockTests(luck));
    var totalBet := 0;
    var totalWin := 0;
    var spinResults: seq<SpinRecord> := [];
    var winDistribution: seq<nat> := seq(|BucketNames|, _ => 0);
    var wordLengthStats := InitialLengthStats();
    var wordWinCounts: map<string, WinTally> := map[];
    for spin := 1 to settings.spins + 1
      invariant SimulationResult(totalBet, totalWin, spinResults, winDistribution, wordWinCounts, wordLengthStats) ==
                Accumulate(os[..spin - 1], settings.betAmount, settings.detailedResults)
    {
      assert os[..spin][..spin - 1] == os[..spin - 1];
      var spinWins := PlaySpin(settings, strips, mapping, rules, stops, MockTests(luck), spin);
      totalBet, totalWin, spinResults, winDistribution, wordWinCounts, wordLengthStats :=
        CountSpin(totalBet, totalWin, spinResults, winDistribution, wordWinCounts, wordLengthStats, spin, spinWins, settings);
    }
    assert os[..settings.spins] == os;
    result := SimulationResult(totalBet, totalWin, spinResults, winDistribution, wordWinCounts, wordLengthStats);
  }

  /** The simulation's totals: one bet per spin, and the spins' wins summed,
      never negative, whatever the word tests. */
  lemma SimulationTotals(settings: SimulationSettings, strips: seq<seq<nat>>, mapping: SymbolMapping, rules: PayoutRules,
                         stops: seq<seq<nat>>, tests: nat -> WordTest)
    requires StopsOk(settings, strips, stops)
    ensures var os := SpinOutcomes(settings, strips, mapping, rules, stops, tests);
            var r := Accumulate(os, settings.betAmount, settings.detailedResults);
            r.totalBet == settings.spins * settings.betAmount && r.totalWin == Sum(Totals(os)) && r.totalWin >= 0
  {
    var os := SpinOutcomes(settings, strips, mapping, rules, stops, tests);
    AccumulateTotals(os, settings.betAmount, settings.detailedResults);
  }

  /** The shipped strips are readable by the simulator. */
  lemma ShippedStripsReadable()
    ensures StripsReadable(Config.ReelStrips)
  {
    Config.ReelStripsShape();
  }
}

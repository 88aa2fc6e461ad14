/** The word-list preprocessor (words/process_words.php): it reads the Collins
    word list line by line, recognises entries of the form
    `WORD definition [type]`, and writes either `WORD: (type) definition`
    lines (processWords) or bare `WORD` lines (extractWordsOnly) for the words
    whose length is kept, counting every line it reads. The regular
    expressions are modelled with PCRE's semantics for byte strings: `\w` is
    `[A-Za-z0-9_]`, `\s` the six ASCII white-space characters, `.` anything
    but a line feed, `$` the end of the line or the position before its final
    line feed, and the quantifiers greedy with backtracking. */
module ProcessWords {
  import opened Wrappers
  import Text
  import Game

  /** `$wordLengthsToKeep`. */
  const KeepLengths: seq<nat> := [3, 4, 5]

  // ---------------------------------------------------------------- characters

  /** PCRE's `\w` outside Unicode mode. */
  predicate IsWordChar(c: char) {
    'a' <= c <= 'z' || 'A' <= c <= 'Z' || '0' <= c <= '9' || c == '_'
  }

  /** PCRE's `\s`: space, tab, line feed, vertical tab, form feed, carriage return. */
  predicate IsRegexSpace(c: char) {
    c == ' ' || c == '\t' || c == '\n' || c == '\U{B}' || c == '\U{C}' || c == '\r'
  }

  /** The characters PHP's `trim` removes by default: space, tab, line feed,
      carriage return, NUL and vertical tab. */
  predicate IsTrimChar(c: char) {
    c == ' ' || c == '\t' || c == '\n' || c == '\r' || c == '\0' || c == '\U{B}'
  }

  predicate AllWordChars(s: string) {
    forall i :: 0 <= i < |s| ==> IsWordChar(s[i])
  }

  predicate NoNewline(s: string) {
    '\n' !in s
  }

  /** The character classes the patterns repeat. */
  datatype CharClass = Word | Space

  predicate InClass(cls: CharClass, c: char) {
    match cls
    case Word => IsWordChar(c)
    case Space => IsRegexSpace(c)
  }

  /** The end of the longest run of `cls` characters starting at i: where a
      greedy `\w+` or `\s+` stops. */
  function Run(s: string, i: nat, cls: CharClass): (e: nat)
    requires i <= |s|
    ensures i <= e <= |s|
    ensures forall k :: i <= k < e ==> InClass(cls, s[k])
    ensures e < |s| ==> !InClass(cls, s[e])
    decreases |s| - i
  {
    if i < |s| && InClass(cls, s[i]) then Run(s, i + 1, cls) else i
  }

  // ---------------------------------------------------------------- trim

  function TrimStart(s: string): (r: string)
    ensures |r| <= |s| && r == s[|s| - |r|..]
    ensures forall k :: 0 <= k < |s| - |r| ==> IsTrimChar(s[k])
    ensures |r| > 0 ==> !IsTrimChar(r[0])
    decreases |s|
  {
    if |s| > 0 && IsTrimChar(s[0]) then TrimStart(s[1..]) else s
  }

  function TrimEnd(s: string): (r: string)
    ensures |r| <= |s| && r == s[..|r|]
    ensures forall k :: |r| <= k < |s| ==> IsTrimChar(s[k])
    ensures |r| > 0 ==> !IsTrimChar(r[|r| - 1])
    decreases |s|
  {
    if |s| > 0 && IsTrimChar(s[|s| - 1]) then TrimEnd(s[..|s| - 1]) else s
  }

  /** PHP's `trim($s)`: no trim character is left at either end. */
  function Trim(s: string): (r: string)
    ensures |r| <= |s|
    ensures |r| > 0 ==> !IsTrimChar(r[0]) && !IsTrimChar(r[|r| - 1])
  {
    TrimEnd(TrimStart(s))
  }

  /** Neither end is a trim character. */
  predicate PhpTrimmed(s: string) {
    |s| > 0 ==> !IsTrimChar(s[0]) && !IsTrimChar(s[|s| - 1])
  }

  /** `trim` leaves a trimmed string as it is. */
  lemma TrimOfTrimmed(s: string)
    requires PhpTrimmed(s)
    ensures Trim(s) == s
  {
    assert TrimStart(s) == s;
    assert TrimEnd(s) == s;
  }

  /** A run of word characters is trimmed, so `trim($matches[1])` keeps the word. */
  lemma WordsAreTrimmed(w: string)
    requires AllWordChars(w)
    ensures Trim(w) == w
  {
    if |w| > 0 {
      assert IsWordChar(w[0]) && IsWordChar(w[|w| - 1]);
    }
    TrimOfTrimmed(w);
  }

  // ---------------------------------------------------------------- fgets

  /** The length of the first line of `text` as `fgets` returns it: up to and
      including the first line feed, or all of the text. */
  function LineLength(text: string): (n: nat)
    requires |text| > 0
    ensures 0 < n <= |text|
    ensures NoNewline(text[..n - 1])
    ensures n < |text| ==> text[n - 1] == '\n'
  {
    var i := Text.IndexOf(text, '\n');
    if i >= 0 then i + 1 else |text|
  }

  /** The lines successive `fgets` calls return before `false`. */
  function FgetsLines(text: string): (lines: seq<string>)
    decreases |text|
  {
    if |text| == 0 then []
    else
      var n := LineLength(text);
      [text[..n]] + FgetsLines(text[n..])
  }

  function Concat(lines: seq<string>): string
  {
    if |lines| == 0 then "" else lines[0] + Concat(lines[1..])
  }

  /** The lines put back together are the text. */
  lemma {:induction false} FgetsLinesJoin(text: string)
    ensures Concat(FgetsLines(text)) == text
    decreases |text|
  {
    if |text| > 0 {
      var n := LineLength(text);
      FgetsLinesJoin(text[n..]);
      assert FgetsLines(text)[1..] == FgetsLines(text[n..]);
      assert text == text[..n] + text[n..];
    }
  }

  /** Every line is non-empty, has no line feed before its last character, and
      every line but the last ends with one. */
  lemma FgetsLinesShape(text: string)
    ensures forall i :: 0 <= i < |FgetsLines(text)| ==> FgetsLine(FgetsLines(text), i)
  {
    forall i | 0 <= i < |FgetsLines(text)| ensures FgetsLine(FgetsLines(text), i) {
      FgetsLineAt(text, i);
    }
  }

  /** Line i of a sequence of lines is as `fgets` returns lines. */
  predicate FgetsLine(lines: seq<string>, i: nat)
    requires i < |lines|
  {
    |lines[i]| > 0 && NoNewline(lines[i][..|lines[i]| - 1])
    && (i < |lines| - 1 ==> lines[i][|lines[i]| - 1] == '\n')
  }

  lemma {:induction false} FgetsLineAt(text: string, i: nat)
    requires i < |FgetsLines(text)|
    ensures FgetsLine(FgetsLines(text), i)
    decreases |text|
  {
    var n := LineLength(text);
    var rest := FgetsLines(text[n..]);
    assert FgetsLines(text) == [text[..n]] + rest;
    if i == 0 {
      assert text[..n][..n - 1] == text[..n - 1];
      if n == |text| {
        assert rest == [];
      }
    } else {
      FgetsLineAt(text[n..], i - 1);
      assert FgetsLines(text)[i] == rest[i - 1];
    }
  }

  // ---------------------------------------------------------------- patterns

  /** The subject the anchored patterns end on: the line without one final line
      feed, since `$` may match just before it. */
  function Body(line: string): (b: string)
    ensures b == line || b + "\n" == line
  {
    if |line| > 0 && line[|line| - 1] == '\n' then line[..|line| - 1] else line
  }

  /** `\s+\[(\w+).*\]$` matches from k on: a run of white space, a bracket, a
      word character, and the subject ends with `]` with no line feed between
      the end of the word and that bracket. */
  predicate TailAt(b: string, k: nat)
  {
    k < |b| && IsRegexSpace(b[k])
    && var q := Run(b, k, Space);
    q + 2 < |b| && b[q] == '[' && IsWordChar(b[q + 1]) && b[|b| - 1] == ']'
    && NoNewline(b[Run(b, q + 1, Word)..|b| - 1])
  }

  /** The `(\w+)` of the tail at k: the word after the bracket. */
  function TagAt(b: string, k: nat): (t: string)
    requires TailAt(b, k)
    ensures |t| > 0 && AllWordChars(t)
  {
    var q := Run(b, k, Space);
    b[q + 1..Run(b, q + 1, Word)]
  }

  /** The groups of `^(\w+)\s+(.+)\s+\[(\w+).*\]$`. */
  datatype EntryGroups = EntryGroups(word: string, definition: string, tag: string)

  /** With `(.+)` starting at j, the greedy choice of where it ends: the last k
      below `upto` and after j at which the tail matches. */
  function EntrySplit(b: string, j: nat, upto: nat): (r: Option<(string, string)>)
    requires j <= upto <= |b|
    ensures r.Some? ==> |r.value.0| > 0 && NoNewline(r.value.0) && |r.value.1| > 0
    decreases upto
  {
    if upto <= j + 1 then None
    else if NoNewline(b[j..upto - 1]) && TailAt(b, upto - 1) then Some((b[j..upto - 1], TagAt(b, upto - 1)))
    else EntrySplit(b, j, upto - 1)
  }

  /** With `(\w+)` ending at a, backtracking `\s+` from its longest extent j
      down to one character, the first start of `(.+)` that lets the rest match. */
  function EntryFrom(b: string, a: nat, j: nat): (r: Option<EntryGroups>)
    requires 0 < a < j <= |b|
    ensures r.Some? ==> r.value.word == b[..a] && |r.value.definition| > 0
    decreases j
  {
    match EntrySplit(b, j, |b|)
    case Some(g) => Some(EntryGroups(b[..a], g.0, g.1))
    case None => if j - 1 > a then EntryFrom(b, a, j - 1) else None
  }

  /** `preg_match('/^(\w+)\s+(.+)\s+\[(\w+).*\]$/', $line)` and its groups.
      `(\w+)` takes the whole leading run of word characters, since a shorter
      one would be followed by a word character instead of white space. */
  function MatchEntry(line: string): (r: Option<EntryGroups>)
    ensures r.Some? ==> var a := |r.value.word|;
      a > 0 && AllWordChars(r.value.word) && a < |line| && IsRegexSpace(line[a]) && line[..a] == r.value.word
  {
    var b := Body(line);
    var a := Run(b, 0, Word);
    if a == 0 || a >= |b| || !IsRegexSpace(b[a]) then None
    else EntryFrom(b, a, Run(b, a, Space))
  }

  /** The groups of `^(\w+)\s+(.+)$`: `(.+)` runs to the end of the subject,
      from the longest extent of `\s+` backwards. */
  function LooseFrom(b: string, a: nat, j: nat): (r: Option<(string, string)>)
    requires 0 < a < j <= |b|
    ensures r.Some? ==> r.value.0 == b[..a] && |r.value.1| > 0 && NoNewline(r.value.1)
    decreases j
  {
    if j < |b| && NoNewline(b[j..]) then Some((b[..a], b[j..]))
    else if j - 1 > a then LooseFrom(b, a, j - 1)
    else None
  }

  /** `preg_match('/^(\w+)\s+(.+)$/', $line)` and its two groups. */
  function MatchLoose(line: string): (r: Option<(string, string)>)
    ensures r.Some? ==> var a := |r.value.0|;
      a > 0 && AllWordChars(r.value.0) && a < |line| && IsRegexSpace(line[a]) && line[..a] == r.value.0
      && |r.value.1| > 0 && NoNewline(r.value.1)
  {
    var b := Body(line);
    var a := Run(b, 0, Word);
    if a == 0 || a >= |b| || !IsRegexSpace(b[a]) then None
    else LooseFrom(b, a, Run(b, a, Space))
  }

  /** `preg_match('/^(\w+)\s+/', $line)` and its group: the leading word, which
      must be followed by white space, a final line feed included. */
  function MatchLeadingWord(line: string): (r: Option<string>)
    ensures r.Some? <==> 0 < Run(line, 0, Word) < |line| && IsRegexSpace(line[Run(line, 0, Word)])
    ensures r.Some? ==> r.value == line[..Run(line, 0, Word)]
  {
    var a := Run(line, 0, Word);
    if 0 < a < |line| && IsRegexSpace(line[a]) then Some(line[..a]) else None
  }

  // ---------------------------------------------------------------- bracketed tags

  /** The index of the last `]` in s[from..upto] such that no line feed lies
      between `from` and it: where the greedy `.*\]` stops. */
  function LastClose(s: string, from: nat, upto: nat): (m: Option<nat>)
    requires from <= upto <= |s|
    ensures m.Some? ==> from <= m.value < upto && s[m.value] == ']' && NoNewline(s[from..m.value])
    decreases upto
  {
    if upto <= from then None
    else if s[upto - 1] == ']' && NoNewline(s[from..upto - 1]) then Some(upto - 1)
    else LastClose(s, from, upto - 1)
  }

  /** Tries `\[(\w+).*\]` at p: the bracket, the end r of its word, and the end m of the match. */
  function TagMatchAt(s: string, p: nat): (t: Option<(nat, nat, nat)>)
    requires p <= |s|
    ensures t.Some? ==> (t.value.0 == p && p + 1 < t.value.1 <= t.value.2 < |s|
      && s[p] == '[' && s[t.value.2] == ']' && t.value.1 == Run(s, p + 1, Word)
      && LastClose(s, t.value.1, |s|) == Some(t.value.2))
  {
    if p + 1 < |s| && s[p] == '[' && IsWordChar(s[p + 1]) then
      var r := Run(s, p + 1, Word);
      match LastClose(s, r, |s|)
      case Some(m) => Some((p, r, m))
      case None => None
    else None
  }

  /** The characters a word run covers are word characters. */
  lemma WordRunSlice(s: string, i: nat)
    requires i <= |s|
    ensures AllWordChars(s[i..Run(s, i, Word)])
  {
    var e := Run(s, i, Word);
    forall k | 0 <= k < e - i ensures IsWordChar(s[i..e][k]) {
      assert s[i..e][k] == s[i + k];
      assert InClass(Word, s[i + k]);
    }
  }

  /** The leftmost match of `\[(\w+).*\]` at or after p. */
  function FindTagFrom(s: string, p: nat): (t: Option<(nat, nat, nat)>)
    requires p <= |s|
    ensures t.Some? ==> p <= t.value.0 <= |s| && TagMatchAt(s, t.value.0) == t
    ensures t.None? ==> forall i :: p <= i <= |s| ==> TagMatchAt(s, i).None?
    decreases |s| - p
  {
    if TagMatchAt(s, p).Some? then TagMatchAt(s, p)
    else if p == |s| then None
    else FindTagFrom(s, p + 1)
  }

  /** `preg_match('/\[(\w+).*\]/', $s)`: the first match, if any. */
  function FindTag(s: string): (t: Option<(nat, nat, nat)>)
    ensures t.Some? ==> t.value.0 <= |s| && TagMatchAt(s, t.value.0) == t
    ensures t.Some? ==> forall i :: 0 <= i < t.value.0 ==> TagMatchAt(s, i).None?
    ensures t.None? ==> forall i :: 0 <= i <= |s| ==> TagMatchAt(s, i).None?
  {
    var t := FindTagFrom(s, 0);
    if t.Some? then FirstTag(s, 0, t.value.0); t else t
  }

  lemma {:induction false} FirstTag(s: string, p: nat, q: nat)
    requires p <= q <= |s| && FindTagFrom(s, p).Some? && FindTagFrom(s, p).value.0 == q
    ensures forall i :: p <= i < q ==> TagMatchAt(s, i).None?
    decreases |s| - p
  {
    if TagMatchAt(s, p).None? {
      FirstTag(s, p + 1, q);
    }
  }

  /** `preg_replace('/\[(\w+).*\]/', '', $s)`: every non-overlapping match,
      leftmost first, cut out. */
  function RemoveTags(s: string): (r: string)
    ensures |r| <= |s|
    decreases |s|
  {
    match FindTag(s)
    case None => s
    case Some(t) => s[..t.0] + RemoveTags(s[t.2 + 1..])
  }

  /** On a single line the first tag runs to the last `]`, so there is one cut. */
  lemma RemoveOneTag(s: string)
    requires NoNewline(s) && FindTag(s).Some?
    ensures RemoveTags(s) == s[..FindTag(s).value.0] + s[FindTag(s).value.2 + 1..]
  {
    var t := FindTag(s).value;
    NoTagAfterLast(s, t.1, t.2);
  }

  /** Past the last `]` of a single line no tag can match. */
  lemma NoTagAfterLast(s: string, from: nat, m: nat)
    requires from <= |s| && NoNewline(s) && LastClose(s, from, |s|) == Some(m)
    ensures FindTag(s[m + 1..]).None?
  {
    var rest := s[m + 1..];
    forall i | 0 <= i <= |rest| ensures TagMatchAt(rest, i).None? {
      if TagMatchAt(rest, i).Some? {
        var c := TagMatchAt(rest, i).value.2;
        assert rest[c] == s[m + 1 + c];
        NoCloseAfterLast(s, from, m, m + 1 + c);
      }
    }
  }

  /** No `]` lies after the one LastClose picks on a line without line feeds. */
  lemma NoCloseAfterLast(s: string, from: nat, m: nat, k: nat)
    requires from <= |s| && NoNewline(s) && LastClose(s, from, |s|) == Some(m)
    requires m < k < |s|
    ensures s[k] != ']'
  {
    LastCloseIsLast(s, from, |s|, m, k);
  }

  lemma {:induction false} LastCloseIsLast(s: string, from: nat, upto: nat, m: nat, k: nat)
    requires from <= upto <= |s| && NoNewline(s) && LastClose(s, from, upto) == Some(m)
    requires m < k < upto
    ensures s[k] != ']'
    decreases upto
  {
    assert NoNewline(s[from..upto - 1]) by {
      assert forall x :: x in s[from..upto - 1] ==> x in s;
    }
    if !(s[upto - 1] == ']') {
      if k < upto - 1 {
        LastCloseIsLast(s, from, upto - 1, m, k);
      }
    }
  }

  /** After the tag is cut out of a single-line definition no tag is left. */
  lemma RemovedTagIsGone(s: string)
    requires NoNewline(s) && FindTag(s).Some?
    ensures FindTag(RemoveTags(s)).None?
  {
    var t := FindTag(s).value;
    RemoveOneTag(s);
    CutFirstTag(s, t.0, t.1, t.2);
  }

  /** Cutting the leftmost tag out of a single line leaves no tag. */
  lemma CutFirstTag(s: string, p: nat, r: nat, m: nat)
    requires NoNewline(s) && p <= |s| && TagMatchAt(s, p) == Some((p, r, m))
    requires forall i :: 0 <= i < p ==> TagMatchAt(s, i).None?
    ensures m < |s| && FindTag(s[..p] + s[m + 1..]).None?
  {
    var u := s[..p] + s[m + 1..];
    assert LastClose(s, r, |s|) == Some(m);
    forall k | m < k < |s| ensures s[k] != ']' {
      NoCloseAfterLast(s, r, m, k);
    }
    CutHasNoTag(s, u, p, m);
    NoMatchNoTag(u);
  }

  /** Where no position starts a match, FindTag finds none. */
  lemma NoMatchNoTag(u: string)
    requires forall i :: 0 <= i <= |u| ==> TagMatchAt(u, i).None?
    ensures FindTag(u).None?
  {
  }

  /** Cutting s[p..m] out of a string with no tag before p and no `]` after m leaves no tag. */
  lemma CutHasNoTag(s: string, u: string, p: nat, m: nat)
    requires p <= m < |s| && u == s[..p] + s[m + 1..]
    requires forall k :: m < k < |s| ==> s[k] != ']'
    requires forall i :: 0 <= i < p ==> TagMatchAt(s, i).None?
    ensures forall i :: 0 <= i <= |u| ==> TagMatchAt(u, i).None?
  {
    forall k | p <= k < |u| ensures u[k] != ']' {
      assert u[k] == s[k - p + m + 1];
    }
    assert s[..p] == u[..p];
    forall i | 0 <= i <= |u| ensures TagMatchAt(u, i).None? {
      if TagMatchAt(u, i).Some? {
        TagBeforeCut(s, u, p, i);
        assert false;
      }
    }
  }

  /** A tag of the cut string that closes before the cut is a tag of the
      original string at the same place: the two agree below the cut. */
  lemma TagBeforeCut(s: string, u: string, p: nat, i: nat)
    requires p <= |s| && p <= |u| && s[..p] == u[..p] && i <= |u|
    requires TagMatchAt(u, i).Some? && TagMatchAt(u, i).value.2 < p
    ensures TagMatchAt(s, i).Some?
  {
    var c := TagMatchAt(u, i).value.2;
    var r := TagMatchAt(u, i).value.1;
    assert InClass(Word, u[i + 1]);
    assert u[..p][i] == s[..p][i] && u[..p][i + 1] == s[..p][i + 1] && u[..p][c] == s[..p][c];
    SameRun(s, u, i + 1, r, p);
    SameSliceBelow(s, u, p, r, c);
    LastCloseFinds(s, r, |s|, c);
    TagMatchFound(s, i);
  }

  /** Strings that agree below p have the same slices below p. */
  lemma SameSliceBelow(s: string, u: string, p: nat, a: nat, b: nat)
    requires a <= b <= p <= |s| && p <= |u| && s[..p] == u[..p]
    ensures s[a..b] == u[a..b]
  {
    forall k | 0 <= k < b - a ensures s[a..b][k] == u[a..b][k] {
      assert s[a..b][k] == s[..p][a + k] && u[a..b][k] == u[..p][a + k];
    }
  }

  /** A bracket, a word character and a `]` LastClose finds make a match. */
  lemma TagMatchFound(s: string, i: nat)
    requires i + 1 < |s| && s[i] == '[' && IsWordChar(s[i + 1])
    requires LastClose(s, Run(s, i + 1, Word), |s|).Some?
    ensures TagMatchAt(s, i).Some?
  {
  }

  /** LastClose finds something once a `]` it could stop at lies below `upto`. */
  lemma {:induction false} LastCloseFinds(s: string, from: nat, upto: nat, c: nat)
    requires from <= c < upto <= |s| && s[c] == ']' && NoNewline(s[from..c])
    ensures LastClose(s, from, upto).Some?
    decreases upto
  {
    if !(s[upto - 1] == ']' && NoNewline(s[from..upto - 1])) {
      if c < upto - 1 {
        LastCloseFinds(s, from, upto - 1, c);
      }
    }
  }

  /** Two strings that agree below `p` have the same word run from i when it ends below p. */
  lemma {:induction false} SameRun(s: string, u: string, i: nat, r: nat, p: nat)
    requires i <= r < p <= |s| && p <= |u| && s[..p] == u[..p]
    requires Run(u, i, Word) == r
    ensures Run(s, i, Word) == r
    decreases r - i
  {
    assert u[i] == u[..p][i] == s[..p][i] == s[i];
    if i < r {
      SameRun(s, u, i + 1, r, p);
    } else {
      assert !IsWordChar(s[i]);
    }
  }

  // ---------------------------------------------------------------- word types

  /** The switch in processWords that expands abbreviated word types. */
  function ExpandType(t: string): string
  {
    if t == "n" then "noun"
    else if t == "v" then "verb"
    else if t == "adj" then "adjective"
    else if t == "adv" then "adverb"
    else if t == "interj" then "interjection"
    else if t == "prep" then "preposition"
    else if t == "conj" then "conjunction"
    else if t == "pron" then "pronoun"
    else t
  }

  /** The abbreviations and what they stand for. */
  const Abbreviations: map<string, string> := map[
    "n" := "noun", "v" := "verb", "adj" := "adjective", "adv" := "adverb",
    "interj" := "interjection", "prep" := "preposition", "conj" := "conjunction", "pron" := "pronoun"]

  /** An abbreviation expands to its full name, any other type is kept, and
      expanding twice changes nothing more. */
  lemma ExpandTypeTable(t: string)
    ensures t in Abbreviations ==> ExpandType(t) == Abbreviations[t]
    ensures t !in Abbreviations ==> ExpandType(t) == t
    ensures ExpandType(ExpandType(t)) == ExpandType(t)
  {
  }

  // ---------------------------------------------------------------- one line

  /** What one line contributes: a word of a kept length and the text written
      for it, or nothing. */
  datatype LineOutcome = Kept(word: string, text: string) | Skipped

  /** A kept line written as the word, `: (`, and a final line feed. */
  predicate EntryShaped(o: LineOutcome) {
    o.Kept? ==> (|o.text| > |o.word| + 3 && o.text[..|o.word|] == o.word
      && o.text[|o.word|..|o.word| + 3] == ": (" && o.text[|o.text| - 1] == '\n')
  }

  /** `"$word: ($type) $definition\n"`. */
  function EntryLine(word: string, wordType: string, definition: string): (line: string)
    ensures |line| > |word| + 3 && line[..|word|] == word && line[|word|..|word| + 3] == ": ("
    ensures line[|line| - 1] == '\n'
  {
    word + ": (" + wordType + ") " + definition + "\n"
  }

  /** A word with its type and definition is written when its length is kept. */
  function KeepEntry(word: string, wordType: string, definition: string, keep: seq<nat>): (o: LineOutcome)
    ensures o.Kept? <==> |word| in keep
    ensures o.Kept? ==> o.word == word && EntryShaped(o)
  {
    if |word| in keep then Kept(word, EntryLine(word, wordType, definition)) else Skipped
  }

  /** The type and definition of the fallback branch: "unknown" unless the
      definition holds a bracketed tag, which then gives the type and is cut out. */
  function LooseTypeAndDefinition(definition: string): (r: (string, string))
  {
    match FindTag(definition)
    case None => ("unknown", definition)
    case Some(t) => (definition[t.0 + 1..t.1], RemoveTags(definition))
  }

  /** In the fallback branch the type is "unknown" exactly when no tag fits
      (or the tag itself reads `unknown`); with a tag, the type is the word
      after its bracket and, on a single line, no tag is left in the definition. */
  lemma LooseTypeFromTag(definition: string)
    requires NoNewline(definition)
    ensures FindTag(definition).None? ==> LooseTypeAndDefinition(definition) == ("unknown", definition)
    ensures FindTag(definition).Some? ==>
      var t := FindTag(definition).value;
      LooseTypeAndDefinition(definition).0 == definition[t.0 + 1..t.1]
      && |LooseTypeAndDefinition(definition).0| > 0
      && AllWordChars(LooseTypeAndDefinition(definition).0)
      && FindTag(LooseTypeAndDefinition(definition).1).None?
  {
    if FindTag(definition).Some? {
      WordRunSlice(definition, FindTag(definition).value.0 + 1);
      RemovedTagIsGone(definition);
    }
  }

  /** A line the main pattern matches: the trimmed groups, the type expanded. */
  function EntryOutcome(g: EntryGroups, keep: seq<nat>): (o: LineOutcome)
    requires AllWordChars(g.word)
    ensures o.Kept? <==> |g.word| in keep
    ensures o.Kept? ==> o.word == g.word && EntryShaped(o)
  {
    WordsAreTrimmed(g.word);
    KeepEntry(Trim(g.word), ExpandType(Trim(g.tag)), Trim(g.definition), keep)
  }

  /** A line only the fallback pattern matches: the type from a tag in the definition, or "unknown". */
  function LooseOutcome(g: (string, string), keep: seq<nat>): (o: LineOutcome)
    requires AllWordChars(g.0)
    ensures o.Kept? <==> |g.0| in keep
    ensures o.Kept? ==> o.word == g.0 && EntryShaped(o)
  {
    WordsAreTrimmed(g.0);
    var td := LooseTypeAndDefinition(Trim(g.1));
    KeepEntry(Trim(g.0), td.0, td.1, keep)
  }

  /** The body of the processWords loop for one line. */
  function ProcessLine(line: string, keep: seq<nat>): (o: LineOutcome)
    ensures o.Kept? ==> |o.word| in keep && |o.word| > 0 && AllWordChars(o.word)
    ensures o.Kept? ==> |o.word| < |line| && line[..|o.word|] == o.word && IsRegexSpace(line[|o.word|])
    ensures EntryShaped(o)
  {
    match MatchEntry(line)
    case Some(g) => EntryOutcome(g, keep)
    case None =>
      match MatchLoose(line)
      case Some(g) => LooseOutcome(g, keep)
      case None => Skipped
  }

  /** processWords writes a line exactly when the main pattern matches it with
      a word of a kept length, or only the fallback pattern does; the word
      written is the pattern's first group. */
  lemma ProcessLineKeeps(line: string, keep: seq<nat>)
    ensures ProcessLine(line, keep).Kept? <==>
      (MatchEntry(line).Some? && |MatchEntry(line).value.word| in keep)
      || (MatchEntry(line).None? && MatchLoose(line).Some? && |MatchLoose(line).value.0| in keep)
    ensures MatchEntry(line).Some? && ProcessLine(line, keep).Kept? ==>
      ProcessLine(line, keep).word == MatchEntry(line).value.word
    ensures MatchEntry(line).None? && ProcessLine(line, keep).Kept? ==>
      ProcessLine(line, keep).word == MatchLoose(line).value.0
  {
  }

  /** The body of the extractWordsOnly loop for one line. */
  function ExtractLine(line: string, keep: seq<nat>): (o: LineOutcome)
    ensures o.Kept? ==> |o.word| in keep && 0 < |o.word| < |line| && AllWordChars(o.word) && line[..|o.word|] == o.word
    ensures o.Kept? ==> o.text == o.word + "\n"
    ensures o.Skipped? <==> MatchLeadingWord(line).None? || |MatchLeadingWord(line).value| !in keep
  {
    match MatchLeadingWord(line)
    case Some(w) =>
      WordRunSlice(line, 0);
      WordsAreTrimmed(w);
      if |Trim(w)| in keep then Kept(Trim(w), Trim(w) + "\n") else Skipped
    case None => Skipped
  }

  /** Every line processWords keeps is one extractWordsOnly keeps, with the same word. */
  lemma ProcessedAreExtracted(line: string, keep: seq<nat>)
    requires ProcessLine(line, keep).Kept?
    ensures ExtractLine(line, keep).Kept? && ExtractLine(line, keep).word == ProcessLine(line, keep).word
  {
    LeadingWordExtracted(line, ProcessLine(line, keep).word, keep);
  }

  /** A line that starts with a word of a kept length and white space is extracted as that word. */
  lemma LeadingWordExtracted(line: string, w: string, keep: seq<nat>)
    requires 0 < |w| < |line| && line[..|w|] == w && AllWordChars(w) && IsRegexSpace(line[|w|])
    requires |w| in keep
    ensures ExtractLine(line, keep) == Kept(w, w + "\n")
  {
    LeadingRun(line, w, 0);
    WordsAreTrimmed(w);
  }

  /** The word run from i reaches the end of a word that is a prefix followed by a non-word character. */
  lemma {:induction false} LeadingRun(line: string, w: string, i: nat)
    requires i <= |w| < |line| && line[..|w|] == w && AllWordChars(w) && !IsWordChar(line[|w|])
    ensures Run(line, i, Word) == |w|
    decreases |w| - i
  {
    if i < |w| {
      assert line[i] == w[i];
      LeadingRun(line, w, i + 1);
    }
  }

  // ---------------------------------------------------------------- the entry format

  /** An entry written `WORD definition [tag]` with a definition that starts
      with neither white space nor a trim character, ends with no trim
      character and spans one line is read as those three parts. */
  lemma MatchEntryOfLine(word: string, definition: string, tag: string, rest: string)
    requires |word| > 0 && AllWordChars(word)
    requires |definition| > 0 && !IsRegexSpace(definition[0]) && NoNewline(definition)
    requires |tag| > 0 && AllWordChars(tag) && NoNewline(rest) && '[' !in rest
    requires |rest| > 0 ==> !IsWordChar(rest[0])
    ensures MatchEntry(word + " " + definition + " [" + tag + rest + "]\n")
      == Some(EntryGroups(word, definition, tag))
  {
    var b := word + " " + definition + " [" + tag + rest + "]";
    assert Body(b + "\n") == b;
    var a := |word|;
    var k := a + 1 + |definition|;
    var e := k + 2 + |tag|;
    assert b[..a] == word;
    assert b[a] == ' ' && b[a + 1] == definition[0];
    assert b[a + 1..k] == definition;
    assert b[k] == ' ' && b[k + 1] == '[';
    assert b[k + 2..e] == tag;
    assert b[e..|b| - 1] == rest;
    assert b[e] == (rest + "]")[0];
    assert forall i :: k + 1 < i < |b| ==> b[i] != '[' by {
      forall i | k + 1 < i < |b| ensures b[i] != '[' {
        if i < e {
          assert b[i] == tag[i - k - 2];
        } else if i < |b| - 1 {
          assert b[i] == rest[i - e];
        }
      }
    }
    assert AllWordChars(b[..a]);
    assert !IsRegexSpace(b[a + 1]);
    assert NoNewline(b[a + 1..k]);
    assert AllWordChars(b[k + 2..e]);
    assert !IsWordChar(b[e]);
    assert NoNewline(b[e..|b| - 1]);
    assert b[|b| - 1] == ']';
    assert word + " " + definition + " [" + tag + rest + "]\n" == b + "\n";
    EntryAt(b, a, k, e);
  }

  /** The main pattern on a subject laid out as word, one space, a definition,
      one space, `[`, a tag word and the rest of the tag up to a final `]`. */
  lemma EntryAt(b: string, a: nat, k: nat, e: nat)
    requires 0 < a && a + 1 < k && k + 2 < e < |b|
    requires AllWordChars(b[..a]) && b[a] == ' ' && !IsRegexSpace(b[a + 1]) && NoNewline(b[a + 1..k])
    requires b[k] == ' ' && b[k + 1] == '[' && AllWordChars(b[k + 2..e]) && !IsWordChar(b[e])
    requires NoNewline(b[e..|b| - 1]) && b[|b| - 1] == ']'
    requires forall i :: k + 1 < i < |b| ==> b[i] != '['
    ensures MatchEntry(b + "\n") == Some(EntryGroups(b[..a], b[a + 1..k], b[k + 2..e]))
  {
    LeadingRun(b, b[..a], 0);
    assert Run(b, a, Space) == a + 1;
    EntryMatchesFrom(b, a);
    SplitBeforeTag(b, a, k, e);
  }

  /** With the leading word ending at a and one space after it, the pattern
      tries `(.+)` from a + 1 on. */
  lemma EntryMatchesFrom(b: string, a: nat)
    requires 0 < a && a + 1 < |b| && Run(b, 0, Word) == a && b[a] == ' ' && Run(b, a, Space) == a + 1
    ensures MatchEntry(b + "\n") == EntryFrom(b, a, a + 1)
  {
    assert Body(b + "\n") == b;
  }

  /** `(.+)` from a + 1 ends at the space before the last bracket. */
  lemma SplitBeforeTag(b: string, a: nat, k: nat, e: nat)
    requires 0 < a && a + 1 < k && k + 2 < e < |b|
    requires NoNewline(b[a + 1..k])
    requires b[k] == ' ' && b[k + 1] == '[' && AllWordChars(b[k + 2..e]) && !IsWordChar(b[e])
    requires NoNewline(b[e..|b| - 1]) && b[|b| - 1] == ']'
    requires forall i :: k + 1 < i < |b| ==> b[i] != '['
    ensures EntryFrom(b, a, a + 1) == Some(EntryGroups(b[..a], b[a + 1..k], b[k + 2..e]))
  {
    assert Run(b, k, Space) == k + 1;
    TagRun(b, b[k + 2..e], k + 2, k + 2);
    assert IsWordChar(b[k + 2]) by {
      assert b[k + 2] == b[k + 2..e][0];
    }
    TailAtBracket(b, k, e);
    NoLaterTail(b, k);
    EntrySplitSkips(b, a + 1, k, |b|);
  }

  /** The tail matches at a single space before `[`, a tag word ending at e and a final `]`. */
  lemma TailAtBracket(b: string, k: nat, e: nat)
    requires k + 2 < e < |b| && b[k] == ' ' && b[k + 1] == '[' && IsWordChar(b[k + 2])
    requires Run(b, k, Space) == k + 1 && Run(b, k + 2, Word) == e
    requires b[|b| - 1] == ']' && NoNewline(b[e..|b| - 1])
    ensures TailAt(b, k) && TagAt(b, k) == b[k + 2..e]
  {
  }

  /** With no bracket after the one at k + 1, no later split point has a tail. */
  lemma NoLaterTail(b: string, k: nat)
    requires k + 1 < |b| && b[k + 1] == '['
    requires forall i :: k + 1 < i < |b| ==> b[i] != '['
    ensures forall i :: k < i < |b| ==> !TailAt(b, i)
  {
    forall i | k < i < |b| ensures !TailAt(b, i) {
      if TailAt(b, i) {
        assert false;
      }
    }
  }

  /** The run of word characters from i inside the tag reaches its end, which is followed by a non-word character. */
  lemma {:induction false} TagRun(b: string, tag: string, start: nat, i: nat)
    requires start <= i <= start + |tag| < |b| && b[start..start + |tag|] == tag && AllWordChars(tag)
    requires !IsWordChar(b[start + |tag|])
    ensures Run(b, i, Word) == start + |tag|
    decreases start + |tag| - i
  {
    if i < start + |tag| {
      assert b[i] == tag[i - start];
      TagRun(b, tag, start, i + 1);
    }
  }

  /** No split point after the space before the closing tag is one the tail matches at. */
  lemma {:induction false} EntrySplitSkips(b: string, j: nat, k: nat, upto: nat)
    requires j < k < upto <= |b|
    requires forall i :: k < i < |b| ==> !TailAt(b, i)
    ensures EntrySplit(b, j, upto) == EntrySplit(b, j, k + 1)
    decreases upto
  {
    if upto > k + 1 {
      assert !TailAt(b, upto - 1);
      EntrySplitSkips(b, j, k, upto - 1);
    }
  }

  /** The Collins entry `WORD definition [tag]`, of a kept length, is written
      as `WORD: (type) definition` with the type abbreviation expanded. */
  lemma ProcessEntryLine(word: string, definition: string, tag: string, keep: seq<nat>)
    requires |word| > 0 && AllWordChars(word) && |word| in keep
    requires |definition| > 0 && !IsRegexSpace(definition[0]) && NoNewline(definition) && PhpTrimmed(definition)
    requires |tag| > 0 && AllWordChars(tag)
    ensures ProcessLine(word + " " + definition + " [" + tag + "]\n", keep)
      == Kept(word, word + ": (" + ExpandType(tag) + ") " + definition + "\n")
  {
    assert word + " " + definition + " [" + tag + "" + "]\n" == word + " " + definition + " [" + tag + "]\n";
    MatchEntryOfLine(word, definition, tag, "");
    WordsAreTrimmed(word);
    WordsAreTrimmed(tag);
    TrimOfTrimmed(definition);
  }

  /** A word alone on its line is extracted when a line feed follows it, but
      processWords needs a definition, and on the last line of a file without
      a final line feed extractWordsOnly skips it too. */
  lemma BareWordLine(word: string, keep: seq<nat>)
    requires |word| > 0 && AllWordChars(word) && |word| in keep
    ensures ExtractLine(word + "\n", keep) == Kept(word, word + "\n")
    ensures ProcessLine(word + "\n", keep) == Skipped
    ensures ExtractLine(word, keep) == Skipped
  {
    LeadingRun(word + "\n", word, 0);
    assert (word + "\n")[..|word|] == word;
    assert Body(word + "\n") == word;
    assert Run(word, 0, Word) == |word| by {
      AllWordRun(word, 0);
    }
    WordsAreTrimmed(word);
  }

  lemma {:induction false} AllWordRun(w: string, i: nat)
    requires i <= |w| && AllWordChars(w)
    ensures Run(w, i, Word) == |w|
    decreases |w| - i
  {
    if i < |w| {
      AllWordRun(w, i + 1);
    }
  }

  /** A written entry (every kept outcome of ProcessLine is one), read back by
      the game's definition loader as the line without its line feed, defines
      the lower-cased word. */
  lemma EntryReadByGame(o: LineOutcome)
    requires o.Kept? && EntryShaped(o) && |o.word| > 0 && AllWordChars(o.word)
    ensures Game.DefinitionLine(o.text[..|o.text| - 1]).Some?
    ensures Game.DefinitionLine(o.text[..|o.text| - 1]).value.0 == Text.Lower(o.word)
  {
    var s := o.text[..|o.text| - 1];
    assert s[..|o.word|] == o.word && s[|o.word|] == ':';
    WordColonReadBack(o.word, s);
  }

  /** A line that starts with a word and a colon is read by the game as a
      definition of the lower-cased word. */
  lemma WordColonReadBack(w: string, s: string)
    requires 0 < |w| < |s| && AllWordChars(w) && s[..|w|] == w && s[|w|] == ':'
    ensures Game.DefinitionLine(s).Some? && Game.DefinitionLine(s).value.0 == Text.Lower(w)
  {
    assert ':' !in s[..|w|] by {
      assert forall k :: 0 <= k < |w| ==> IsWordChar(s[..|w|][k]);
    }
    Game.IndexOfFirst(s, |w|);
    assert Text.Trimmed(w) by {
      assert IsWordChar(w[0]) && IsWordChar(w[|w| - 1]);
    }
    Game.TrimOfNonBlank(w, s);
    Text.TrimOfTrimmed(w);
  }

  // ---------------------------------------------------------------- counting

  /** `$stats` without `timeElapsed`. */
  datatype Stats = Stats(total: nat, processed: nat, skipped: nat, byLength: map<nat, nat>)

  /** The counters byLength starts with: 0 for every kept length. */
  function ZeroCounters(keep: seq<nat>): (m: map<nat, nat>)
    ensures m.Keys == set k | k in keep
    ensures forall k :: k in m ==> m[k] == 0
  {
    if |keep| == 0 then map[]
    else
      var m := ZeroCounters(keep[..|keep| - 1]);
      assert forall k :: k in keep <==> k in keep[..|keep| - 1] || k == keep[|keep| - 1];
      m[keep[|keep| - 1] := 0]
  }

  /** One line counted: `total` always, and `processed` with the word's
      length, or `skipped`. */
  function Count(s: Stats, o: LineOutcome): (r: Stats)
    ensures r.total == s.total + 1
    ensures r.processed + r.skipped == s.processed + s.skipped + 1
  {
    match o
    case Kept(w, _) =>
      Stats(s.total + 1, s.processed + 1, s.skipped,
            s.byLength[|w| := (if |w| in s.byLength then s.byLength[|w|] else 0) + 1])
    case Skipped => Stats(s.total + 1, s.processed, s.skipped + 1, s.byLength)
  }

  /** The counters after the lines with these outcomes. */
  function CountAll(keep: seq<nat>, os: seq<LineOutcome>): Stats
  {
    if |os| == 0 then Stats(0, 0, 0, ZeroCounters(keep))
    else Count(CountAll(keep, os[..|os| - 1]), os[|os| - 1])
  }

  /** The text written for the lines with these outcomes. */
  function Written(os: seq<LineOutcome>): string
  {
    if |os| == 0 then ""
    else Written(os[..|os| - 1]) + (if os[|os| - 1].Kept? then os[|os| - 1].text else "")
  }

  function KeptCount(os: seq<LineOutcome>): nat
  {
    if |os| == 0 then 0 else KeptCount(os[..|os| - 1]) + (if os[|os| - 1].Kept? then 1 else 0)
  }

  /** How many kept words have length k. */
  function LengthCount(os: seq<LineOutcome>, k: nat): nat
  {
    if |os| == 0 then 0
    else LengthCount(os[..|os| - 1], k) + (if os[|os| - 1].Kept? && |os[|os| - 1].word| == k then 1 else 0)
  }

  predicate LengthsKept(os: seq<LineOutcome>, keep: seq<nat>) {
    forall i :: 0 <= i < |os| && os[i].Kept? ==> |os[i].word| in keep
  }

  /** Every line increments `total` and exactly one of `processed` and
      `skipped`; `processed` counts the kept words. */
  lemma {:induction false} CountAllBalances(keep: seq<nat>, os: seq<LineOutcome>)
    ensures CountAll(keep, os).total == |os|
    ensures CountAll(keep, os).processed + CountAll(keep, os).skipped == CountAll(keep, os).total
    ensures CountAll(keep, os).processed == KeptCount(os)
  {
    if |os| > 0 {
      CountAllBalances(keep, os[..|os| - 1]);
    }
  }

  /** When every kept word has a kept length, byLength has exactly the kept
      lengths as keys and counts, for each, the words of that length. */
  lemma {:induction false} CountAllByLength(keep: seq<nat>, os: seq<LineOutcome>)
    requires LengthsKept(os, keep)
    ensures CountAll(keep, os).byLength.Keys == set k | k in keep
    ensures forall k :: k in keep ==> CountAll(keep, os).byLength[k] == LengthCount(os, k)
  {
    if |os| > 0 {
      var init := os[..|os| - 1];
      assert LengthsKept(init, keep) by {
        assert forall i :: 0 <= i < |init| ==> init[i] == os[i];
      }
      CountAllByLength(keep, init);
      assert os[|os| - 1].Kept? ==> |os[|os| - 1].word| in keep;
    }
  }

  /** The sum of the counters over a list of distinct lengths. */
  function SumOver(m: map<nat, nat>, ks: seq<nat>): nat
    requires forall k :: k in ks ==> k in m
  {
    if |ks| == 0 then 0 else SumOver(m, ks[..|ks| - 1]) + m[ks[|ks| - 1]]
  }

  predicate Distinct(ks: seq<nat>) {
    forall i, j :: 0 <= i < j < |ks| ==> ks[i] != ks[j]
  }

  /** The word counts by length over distinct lengths add up to the words
      whose length is among them. */
  lemma {:induction false} SumOfLengthCounts(os: seq<LineOutcome>, ks: seq<nat>, m: map<nat, nat>)
    requires Distinct(ks) && LengthsKept(os, ks)
    requires forall k :: k in ks ==> k in m && m[k] == LengthCount(os, k)
    ensures SumOver(m, ks) == KeptCount(os)
    decreases |os|, |ks|
  {
    if |os| == 0 {
      ZeroSum(m, ks);
    } else {
      var init := os[..|os| - 1];
      var last := os[|os| - 1];
      assert LengthsKept(init, ks) by {
        assert forall i :: 0 <= i < |init| ==> init[i] == os[i];
      }
      var m' := map k | k in m :: if k in ks then LengthCount(init, k) else m[k];
      SumOfLengthCounts(init, ks, m');
      if last.Kept? {
        BumpSum(m', m, ks, |last.word|);
      } else {
        assert forall k :: k in ks ==> m[k] == m'[k];
        SameSum(m', m, ks);
      }
    }
  }

  lemma {:induction false} ZeroSum(m: map<nat, nat>, ks: seq<nat>)
    requires forall k :: k in ks ==> k in m && m[k] == 0
    ensures SumOver(m, ks) == 0
  {
    if |ks| > 0 {
      ZeroSum(m, ks[..|ks| - 1]);
    }
  }

  lemma {:induction false} SameSum(m: map<nat, nat>, m': map<nat, nat>, ks: seq<nat>)
    requires forall k :: k in ks ==> k in m && k in m' && m[k] == m'[k]
    ensures SumOver(m, ks) == SumOver(m', ks)
  {
    if |ks| > 0 {
      SameSum(m, m', ks[..|ks| - 1]);
    }
  }

  /** Adding one at a single listed key adds one to the sum. */
  lemma {:induction false} BumpSum(m: map<nat, nat>, m': map<nat, nat>, ks: seq<nat>, key: nat)
    requires Distinct(ks) && key in ks
    requires forall k :: k in ks ==> k in m && k in m'
    requires m'[key] == m[key] + 1 && forall k :: k in ks && k != key ==> m'[k] == m[k]
    ensures SumOver(m', ks) == SumOver(m, ks) + 1
  {
    var init := ks[..|ks| - 1];
    assert Distinct(init) by {
      assert forall i :: 0 <= i < |init| ==> init[i] == ks[i];
    }
    if ks[|ks| - 1] == key {
      assert key !in init;
      SameSum(m, m', init);
    } else {
      assert key in init;
      BumpSum(m, m', init, key);
    }
  }

  /** `processed` is the sum of the byLength counters over distinct kept lengths. */
  lemma ByLengthAddsUp(keep: seq<nat>, os: seq<LineOutcome>)
    requires Distinct(keep) && LengthsKept(os, keep)
    ensures forall k :: k in keep ==> k in CountAll(keep, os).byLength
    ensures SumOver(CountAll(keep, os).byLength, keep) == CountAll(keep, os).processed
  {
    CountAllByLength(keep, os);
    CountAllBalances(keep, os);
    SumOfLengthCounts(os, keep, CountAll(keep, os).byLength);
  }

  // ---------------------------------------------------------------- the two runs

  /** The outcome of a run: the error array, or the stats and the text written
      to the output file. */
  datatype RunResult = Failed(error: string) | Finished(stats: Stats, written: string)

  /** The outcomes of the lines under a per-line step (ProcessLine or ExtractLine). */
  function Outcomes(lines: seq<string>, keep: seq<nat>, step: (string, seq<nat>) -> LineOutcome): (os: seq<LineOutcome>)
    ensures |os| == |lines|
  {
    seq(|lines|, i requires 0 <= i < |lines| => step(lines[i], keep))
  }

  /** Both steps keep only words of the kept lengths. */
  lemma StepsKeepLengths(lines: seq<string>, keep: seq<nat>)
    ensures LengthsKept(Outcomes(lines, keep, ProcessLine), keep)
    ensures LengthsKept(Outcomes(lines, keep, ExtractLine), keep)
  {
    var ps := Outcomes(lines, keep, ProcessLine);
    var es := Outcomes(lines, keep, ExtractLine);
    forall i | 0 <= i < |lines| ensures ps[i] == ProcessLine(lines[i], keep) && es[i] == ExtractLine(lines[i], keep) {
    }
  }

  /** A run over the source file, given as its text or None when it does not
      exist, and whether both files could be opened. */
  function RunOver(sourceFile: string, source: Option<string>, openOk: bool, keep: seq<nat>,
                   step: (string, seq<nat>) -> LineOutcome): (r: RunResult)
    ensures r.Failed? <==> source.None? || !openOk
    ensures source.None? ==> r == Failed("Source file " + sourceFile + " not found")
  {
    if source.None? then Failed("Source file " + sourceFile + " not found")
    else if !openOk then Failed("Failed to open files for reading/writing")
    else
      var os := Outcomes(FgetsLines(source.value), keep, step);
      Finished(CountAll(keep, os), Written(os))
  }

  /** processWords. */
  function ProcessRun(sourceFile: string, source: Option<string>, openOk: bool, keep: seq<nat>): RunResult
  {
    RunOver(sourceFile, source, openOk, keep, ProcessLine)
  }

  /** extractWordsOnly. */
  function ExtractRun(sourceFile: string, source: Option<string>, openOk: bool, keep: seq<nat>): RunResult
  {
    RunOver(sourceFile, source, openOk, keep, ExtractLine)
  }

  /** Both runs count every line of the file once, in `processed` or in
      `skipped`; byLength has exactly the kept lengths as keys and, over
      distinct lengths, adds up to `processed`. */
  lemma RunCounts(sourceFile: string, text: string, keep: seq<nat>, extract: bool)
    requires Distinct(keep)
    ensures var r := if extract then ExtractRun(sourceFile, Some(text), true, keep)
                     else ProcessRun(sourceFile, Some(text), true, keep);
      r.Finished?
      && r.stats.total == |FgetsLines(text)|
      && r.stats.processed + r.stats.skipped == r.stats.total
      && r.stats.byLength.Keys == set k | k in keep
      && (forall k :: k in keep ==> k in r.stats.byLength)
      && SumOver(r.stats.byLength, keep) == r.stats.processed
  {
    var lines := FgetsLines(text);
    var os := Outcomes(lines, keep, if extract then ExtractLine else ProcessLine);
    StepsKeepLengths(lines, keep);
    CountAllBalances(keep, os);
    CountAllByLength(keep, os);
    ByLengthAddsUp(keep, os);
  }

  /** The shipped lengths are distinct, and are 3, 4 and 5. */
  lemma KeepLengthsDistinct()
    ensures Distinct(KeepLengths) && (set k | k in KeepLengths) == {3, 4, 5}
  {
  }

  /** With a missing source file both runs return the error and count nothing. */
  lemma MissingSource(sourceFile: string, openOk: bool, keep: seq<nat>)
    ensures ProcessRun(sourceFile, None, openOk, keep) == Failed("Source file " + sourceFile + " not found")
    ensures ExtractRun(sourceFile, None, openOk, keep) == Failed("Source file " + sourceFile + " not found")
  {
  }

  /** The kept outcomes, in order. */
  function KeptOf(os: seq<LineOutcome>): (kept: seq<LineOutcome>)
    ensures |kept| == KeptCount(os)
    ensures forall i :: 0 <= i < |kept| ==> kept[i].Kept? && kept[i] in os
  {
    if |os| == 0 then []
    else
      var init := KeptOf(os[..|os| - 1]);
      assert forall o :: o in os[..|os| - 1] ==> o in os;
      if os[|os| - 1].Kept? then init + [os[|os| - 1]] else init
  }

  /** The texts of outcomes. */
  function Texts(os: seq<LineOutcome>): (ts: seq<string>)
    ensures |ts| == |os|
  {
    seq(|os|, i requires 0 <= i < |os| => if os[i].Kept? then os[i].text else "")
  }

  /** The text written is the kept lines' texts in order, one per kept word. */
  lemma {:induction false} WrittenLines(os: seq<LineOutcome>)
    ensures Written(os) == Concat(Texts(KeptOf(os)))
  {
    if |os| > 0 {
      var init := os[..|os| - 1];
      WrittenLines(init);
      var ta := Texts(KeptOf(init));
      if os[|os| - 1].Kept? {
        assert Texts(KeptOf(os)) == ta + [os[|os| - 1].text];
        ConcatAppend(ta, os[|os| - 1].text);
      } else {
        assert Texts(KeptOf(os)) == ta;
      }
    }
  }

  lemma {:induction false} ConcatAppend(ts: seq<string>, t: string)
    ensures Concat(ts + [t]) == Concat(ts) + t
  {
    if |ts| > 0 {
      assert (ts + [t])[1..] == ts[1..] + [t];
      ConcatAppend(ts[1..], t);
    }
  }

  // ---------------------------------------------------------------- methods

  /** The foreach that sets a zero counter for every kept length. */
  method InitialCounters(keep: seq<nat>) returns (m: map<nat, nat>)
    ensures m == ZeroCounters(keep)
  {
    m := map[];
    for i := 0 to |keep|
      invariant m == ZeroCounters(keep[..i])
    {
      assert keep[..i + 1][..i] == keep[..i];
      m := m[keep[i] := 0];
    }
    assert keep[..|keep|] == keep;
  }

  /** The loop both functions share: the error checks, then every `fgets`
      line counted and what the step keeps written. */
  method RunLines(sourceFile: string, source: Option<string>, openOk: bool, keep: seq<nat>,
                  step: (string, seq<nat>) -> LineOutcome)
    returns (r: RunResult)
    ensures r == RunOver(sourceFile, source, openOk, keep, step)
  {
    var byLength := InitialCounters(keep);
    if source.None? {
      return Failed("Source file " + sourceFile + " not found");
    }
    if !openOk {
      return Failed("Failed to open files for reading/writing");
    }
    var lines := FgetsLines(source.value);
    ghost var os := Outcomes(lines, keep, step);
    var stats := Stats(0, 0, 0, byLength);
    var written := "";
    for i := 0 to |lines|
      invariant stats == CountAll(keep, os[..i]) && written == Written(os[..i])
    {
      var o := step(lines[i], keep);
      assert os[..i + 1][..i] == os[..i];
      stats := Count(stats, o);
      if o.Kept? {
        written := written + o.text;
      }
    }
    assert os[..|lines|] == os;
    r := Finished(stats, written);
  }

  /** processWords: entries of kept lengths written as `WORD: (type) definition`. */
  method ProcessWordsRun(sourceFile: string, source: Option<string>, openOk: bool, keep: seq<nat>)
    returns (r: RunResult)
    ensures r == ProcessRun(sourceFile, source, openOk, keep)
  {
    r := RunLines(sourceFile, source, openOk, keep, ProcessLine);
  }

  /** extractWordsOnly: the words of kept lengths alone. */
  method ExtractWordsRun(sourceFile: string, source: Option<string>, openOk: bool, keep: seq<nat>)
    returns (r: RunResult)
    ensures r == ExtractRun(sourceFile, source, openOk, keep)
  {
    r := RunLines(sourceFile, source, openOk, keep, ExtractLine);
  }
}

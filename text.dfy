/** String helpers with the semantics of the JavaScript built-ins the game uses
    (`trim`, `toLowerCase`, `toUpperCase`, `split`, `indexOf`). Strings are
    sequences of characters; case mapping is modelled for ASCII letters only. */
module Text {

  /** WhiteSpace and LineTerminator code points, the characters `String.prototype.trim` removes. */
  predicate IsJsSpace(c: char) {
    c == ' ' || c == '\t' || c == '\n' || c == '\r' || c == '\U{B}' || c == '\U{C}'
    || c == '\U{A0}' || c == '\U{1680}' || ('\U{2000}' <= c <= '\U{200A}')
    || c == '\U{2028}' || c == '\U{2029}' || c == '\U{202F}' || c == '\U{205F}'
    || c == '\U{3000}' || c == '\U{FEFF}'
  }

  predicate AllJsSpace(s: string) {
    forall i :: 0 <= i < |s| ==> IsJsSpace(s[i])
  }

  /** Drops leading white space. */
  function TrimStart(s: string): (r: string)
    ensures |r| <= |s| && r == s[|s| - |r|..]
    ensures AllJsSpace(s[..|s| - |r|])
    ensures |r| > 0 ==> !IsJsSpace(r[0])
    decreases |s|
  {
    if |s| > 0 && IsJsSpace(s[0]) then
      var r := TrimStart(s[1..]);
      SpacePrefixStep(s, |s| - |r|);
      r
    else s
  }

  /** A white first character before a white run makes a longer white run. */
  lemma SpacePrefixStep(s: string, k: nat)
    requires 0 < k <= |s| && IsJsSpace(s[0]) && AllJsSpace(s[1..][..k - 1])
    ensures AllJsSpace(s[..k])
  {
    forall i | 0 <= i < k ensures IsJsSpace(s[..k][i]) {
      if i > 0 {
        assert s[..k][i] == s[1..][..k - 1][i - 1];
      }
    }
  }

  /** Drops trailing white space. */
  function TrimEnd(s: string): (r: string)
    ensures |r| <= |s| && r == s[..|r|]
    ensures AllJsSpace(s[|r|..])
    ensures |r| > 0 ==> !IsJsSpace(r[|r| - 1])
    decreases |s|
  {
    if |s| > 0 && IsJsSpace(s[|s| - 1]) then
      var r := TrimEnd(s[..|s| - 1]);
      SpaceSuffixStep(s, |r|);
      r
    else s
  }

  /** A white last character after a white run makes a longer white run. */
  lemma SpaceSuffixStep(s: string, k: nat)
    requires k < |s| && IsJsSpace(s[|s| - 1]) && AllJsSpace(s[..|s| - 1][k..])
    ensures AllJsSpace(s[k..])
  {
    forall i | 0 <= i < |s| - k ensures IsJsSpace(s[k..][i]) {
      if i < |s| - k - 1 {
        assert s[k..][i] == s[..|s| - 1][k..][i];
      }
    }
  }

  /** `s.trim()`: neither end is white, and the result is empty exactly when `s` is blank. */
  function Trim(s: string): (r: string)
    ensures |r| <= |s|
    ensures |r| > 0 ==> !IsJsSpace(r[0]) && !IsJsSpace(r[|r| - 1])
    ensures r == "" <==> AllJsSpace(s)
  {
    TrimBlank(s);
    TrimEnd(TrimStart(s))
  }

  lemma TrimBlank(s: string)
    ensures TrimEnd(TrimStart(s)) == "" <==> AllJsSpace(s)
  {
    var t := TrimStart(s);
    var k := |s| - |t|;
    if TrimEnd(t) == "" {
      assert AllJsSpace(t[0..]);
      assert s == s[..k] + t;
      SpaceConcat(s[..k], t);
    }
  }

  lemma SpaceConcat(a: string, b: string)
    requires AllJsSpace(a) && AllJsSpace(b)
    ensures AllJsSpace(a + b)
  {
    forall i | 0 <= i < |a + b| ensures IsJsSpace((a + b)[i]) {
      if i >= |a| { assert (a + b)[i] == b[i - |a|]; }
    }
  }

  /** Neither end is white space: what `trim` leaves. */
  predicate Trimmed(s: string) {
    |s| > 0 ==> !IsJsSpace(s[0]) && !IsJsSpace(s[|s| - 1])
  }

  /** `trim` changes nothing in a trimmed string. */
  lemma TrimOfTrimmed(s: string)
    requires Trimmed(s)
    ensures Trim(s) == s
  {
    assert TrimStart(s) == s;
    assert TrimEnd(s) == s;
  }

  lemma {:induction false} TrimIdempotent(s: string)
    ensures Trim(Trim(s)) == Trim(s)
  {
    var r := Trim(s);
    assert TrimStart(r) == r;
    assert TrimEnd(r) == r;
  }

  predicate IsAsciiUpper(c: char) { 'A' <= c <= 'Z' }
  predicate IsAsciiLower(c: char) { 'a' <= c <= 'z' }

  function LowerChar(c: char): char {
    if IsAsciiUpper(c) then (c as int + 32) as char else c
  }

  function UpperChar(c: char): char {
    if IsAsciiLower(c) then (c as int - 32) as char else c
  }

  /** `s.toLowerCase()` on ASCII: the same length, no upper-case letter left, other characters kept. */
  function Lower(s: string): (r: string)
    ensures |r| == |s|
    ensures forall i :: 0 <= i < |r| ==> !IsAsciiUpper(r[i])
    ensures forall i :: 0 <= i < |r| && !IsAsciiUpper(s[i]) ==> r[i] == s[i]
    ensures forall i :: 0 <= i < |r| && IsAsciiUpper(s[i]) ==> r[i] as int == s[i] as int + 32
  {
    seq(|s|, i requires 0 <= i < |s| => LowerChar(s[i]))
  }

  /** `s.toUpperCase()` on ASCII. */
  function Upper(s: string): (r: string)
    ensures |r| == |s|
    ensures forall i :: 0 <= i < |r| ==> !IsAsciiLower(r[i])
    ensures forall i :: 0 <= i < |r| && !IsAsciiLower(s[i]) ==> r[i] == s[i]
    ensures forall i :: 0 <= i < |r| && IsAsciiLower(s[i]) ==> r[i] as int == s[i] as int - 32
  {
    seq(|s|, i requires 0 <= i < |s| => UpperChar(s[i]))
  }

  lemma LowerIdempotent(s: string)
    ensures Lower(Lower(s)) == Lower(s)
  {
  }

  predicate NoAsciiUpper(s: string) {
    forall i :: 0 <= i < |s| ==> !IsAsciiUpper(s[i])
  }

  /** Trimming keeps a string free of upper-case letters. */
  lemma TrimKeepsNoUpper(s: string)
    requires NoAsciiUpper(s)
    ensures NoAsciiUpper(Trim(s))
  {
    var a := TrimStart(s);
    SliceNoUpper(s, |s| - |a|, |s|);
    var t := TrimEnd(a);
    SliceNoUpper(a, 0, |t|);
  }

  lemma SliceNoUpper(s: string, i: nat, j: nat)
    requires i <= j <= |s| && NoAsciiUpper(s)
    ensures NoAsciiUpper(s[i..j])
  {
    assert forall k :: 0 <= k < j - i ==> s[i..j][k] == s[i + k];
  }

  /** Lower-casing a string without upper-case letters changes nothing. */
  lemma LowerOfNoUpper(s: string)
    requires NoAsciiUpper(s)
    ensures Lower(s) == s
  {
    assert forall i :: 0 <= i < |s| ==> Lower(s)[i] == s[i];
  }

  /** Lower-casing forgets an earlier upper-casing. */
  lemma LowerUpper(s: string)
    ensures Lower(Upper(s)) == Lower(s)
  {
  }

  /** `s.split(sep)` for a one-character separator: never empty, no piece holds `sep`. */
  function Split(s: string, sep: char): (r: seq<string>)
    ensures |r| >= 1
    ensures forall i :: 0 <= i < |r| ==> sep !in r[i]
    decreases |s|
  {
    if |s| == 0 then [""]
    else
      var rest := Split(s[1..], sep);
      if s[0] == sep then [""] + rest
      else [[s[0]] + rest[0]] + rest[1..]
  }

  /** `parts.join(sep)`. */
  function Join(parts: seq<string>, sep: char): string
    decreases |parts|
  {
    if |parts| == 0 then ""
    else if |parts| == 1 then parts[0]
    else parts[0] + [sep] + Join(parts[1..], sep)
  }

  /** Splitting loses nothing: joining the pieces gives the text back. */
  lemma {:induction false} JoinSplit(s: string, sep: char)
    ensures Join(Split(s, sep), sep) == s
    decreases |s|
  {
    if |s| > 0 {
      JoinSplit(s[1..], sep);
      var rest := Split(s[1..], sep);
      if s[0] != sep && |rest| > 1 {
        assert Join(rest, sep) == rest[0] + [sep] + Join(rest[1..], sep);
        assert [[s[0]] + rest[0]] + rest[1..] == [[s[0]] + rest[0]] + rest[1..];
        var parts := [[s[0]] + rest[0]] + rest[1..];
        assert parts[1..] == rest[1..];
      }
      assert s == [s[0]] + s[1..];
    }
  }

  /** The pieces of `s.split(/\r?\n/)`: a line break is "\n" or "\r\n". */
  function SplitLines(s: string): (r: seq<string>)
    ensures |r| == |Split(s, '\n')| >= 1
    ensures forall i :: 0 <= i < |r| ==> '\n' !in r[i]
  {
    var parts := Split(s, '\n');
    seq(|parts|, i requires 0 <= i < |parts| => if i < |parts| - 1 then DropCr(parts[i]) else parts[i])
  }

  /** Removes one trailing carriage return. */
  function DropCr(p: string): string {
    if |p| > 0 && p[|p| - 1] == '\r' then p[..|p| - 1] else p
  }

  /** `s.indexOf(c)`: the first index of `c`, or -1. */
  function IndexOf(s: string, c: char): (i: int)
    ensures -1 <= i < |s|
    ensures i == -1 <==> c !in s
    ensures i >= 0 ==> s[i] == c && c !in s[..i]
    decreases |s|
  {
    if |s| == 0 then -1
    else if s[0] == c then 0
    else
      var k := IndexOf(s[1..], c);
      assert s[1..][..k + 1] == s[1..k + 2] by { }
      if k < 0 then -1 else k + 1
  }
}

/** A reel of the slot machine and the modular arithmetic of its stops: the
    remainder JavaScript's `%` computes, the distance a spin travels so that it
    lands on its target, and the window of symbols visible at a stop. */
module Reels {
  import opened Wrappers
  import opened Tiles

  /** A reel object as initReels builds it: the strip it shows and the
      parameters of its spin animation. Positions here are whole numbers. */
  class Reel {
    var position: int
    var symbols: seq<nat>
    var targetPosition: int
    var spinning: bool
    var startTime: int
    var duration: int
    var startPosition: int
    var distance: Number

    /** A reel at `position` on a copy of `strip`, idle, every other parameter 0. */
    constructor (position: int, strip: seq<nat>)
      ensures this.position == position && symbols == strip
      ensures targetPosition == 0 && !spinning && startTime == 0 && duration == 0
      ensures startPosition == 0 && distance == Num(0)
    {
      this.position := position;
      symbols := strip;
      targetPosition := 0;
      spinning := false;
      startTime := 0;
      duration := 0;
      startPosition := 0;
      distance := Num(0);
    }
  }

  // ---------------------------------------------------------------- remainders

  /** `a % n` in JavaScript: the remainder of the division truncated toward
      zero, with the sign of `a`; NaN when n is 0. */
  function JsRem(a: int, n: nat): (r: Number)
    ensures r.NaN? <==> n == 0
    ensures r.Num? && a >= 0 ==> 0 <= r.v < n
    ensures r.Num? && a < 0 ==> -(n as int) < r.v <= 0
  {
    if n == 0 then NaN
    else if a >= 0 then Num(a % n)
    else Num(-((-a) % n))
  }

  /** k whole steps of n, k >= 1, make at least n. */
  lemma MulAtLeast(k: int, n: int)
    requires n > 0 && k >= 1
    ensures k * n >= n
  {
    if k > 1 {
      MulAtLeast(k - 1, n);
      assert k * n == (k - 1) * n + n;
    }
  }

  /** The remainder is the r of any decomposition a = q*n + r with 0 <= r < n. */
  lemma ModUnique(a: int, q: int, r: int, n: int)
    requires n > 0 && 0 <= r < n && a == q * n + r
    ensures a % n == r
  {
    var k := q - a / n;
    assert k * n == a % n - r by {
      assert a == a / n * n + a % n;
      assert k * n == q * n - a / n * n;
    }
    if k >= 1 {
      MulAtLeast(k, n);
    } else if k <= -1 {
      MulAtLeast(-k, n);
    }
  }

  /** Adding a multiple of n does not change the (Euclidean) remainder. */
  lemma ModShift(a: int, k: int, n: nat)
    requires n > 0
    ensures (a + k * n) % n == a % n
  {
    var q, r := a / n, a % n;
    assert a == q * n + r;
    assert a + k * n == (q + k) * n + r;
    ModUnique(a + k * n, q + k, r, n);
  }

  /** Numbers with the same remainder differ by a multiple of n. */
  lemma SameRemainder(x: int, y: int, n: nat)
    requires n > 0 && x % n == y % n
    ensures x - y == (x / n - y / n) * n
  {
    assert x == x / n * n + x % n;
    assert y == y / n * n + y % n;
  }

  /** The truncated remainder is congruent to its operand. */
  lemma JsRemCongruent(a: int, n: nat)
    requires n > 0
    ensures JsRem(a, n).v % n == a % n
  {
    var r := JsRem(a, n).v;
    if a >= 0 {
      ModUnique(r, 0, r, n);
    } else {
      var q := (-a) / n;
      assert -a == q * n - r;
      ModShift(a, q, n);
    }
  }

  /** The bookkeeping of DistanceLands in linear terms: with
      e = t - m + n, d = e + i*n and m = s + j*n the reel covers whole turns. */
  lemma TurnsAdd(s: int, t: int, m: int, e: int, d: int, n: int, rot: int, extra: int, i: int, j: int)
    requires e == t - m + n && d == e + i * n && m == s + j * n
    ensures s + (rot * n + (d + extra * n)) == t + (rot + extra + 1 + i - j) * n
  {
    assert (rot + extra + 1 + i - j) * n == rot * n + extra * n + n + i * n - j * n;
  }

  // ---------------------------------------------------------------- stop distance

  /** `difference` in setupReelAnimation and spinReels: how far the target lies
      past the current stop, `(target - start % len + len) % len`, and one full
      turn more when that is 0 and the spin has a positive duration; NaN on an
      empty strip. */
  function Difference(startPosition: int, target: int, len: nat, duration: int): Number
  {
    match JsRem(startPosition, len)
    case NaN => NaN
    case Num(m) =>
      var d := JsRem(target - m + len, len).v;
      if d < 1 && duration > 0 then Num(d + len) else Num(d)
  }

  /** `distance`: `rotations` whole turns of the strip plus the difference. */
  function Distance(startPosition: int, target: int, len: nat, duration: int, rotations: int): Number
  {
    Num(rotations * len).Plus(Difference(startPosition, target, len, duration))
  }

  /** On an empty strip the distance is NaN. */
  lemma DistanceEmptyStrip(startPosition: int, target: int, duration: int, rotations: int)
    ensures Distance(startPosition, target, 0, duration, rotations) == NaN
  {
  }

  /** For a target that is not negative the difference is a whole number of
      steps below one turn, and at least one step (at most one turn) when the
      spin has a positive duration. */
  lemma DifferenceRange(startPosition: int, target: int, len: nat, duration: int)
    requires len > 0 && target >= 0
    ensures Difference(startPosition, target, len, duration).Num?
    ensures duration > 0 ==> 1 <= Difference(startPosition, target, len, duration).v <= len
    ensures duration <= 0 ==> 0 <= Difference(startPosition, target, len, duration).v < len
  {
    var m := JsRem(startPosition, len).v;
    assert target - m + len > 0;
  }

  /** Travelling the distance from the start lands on the target, modulo the
      strip length, whatever the integers involved. */
  lemma DistanceLands(startPosition: int, target: int, len: nat, duration: int, rotations: int)
    requires len > 0
    ensures Distance(startPosition, target, len, duration, rotations).Num?
    ensures (startPosition + Distance(startPosition, target, len, duration, rotations).v) % len == target % len
  {
    var m := JsRem(startPosition, len).v;
    var e := target - m + len;
    var d := JsRem(e, len).v;
    JsRemCongruent(startPosition, len);
    JsRemCongruent(e, len);
    SameRemainder(d, e, len);
    SameRemainder(m, startPosition, len);
    var extra := if d < 1 && duration > 0 then 1 else 0;
    assert Distance(startPosition, target, len, duration, rotations).v == rotations * len + (d + extra * len);
    TurnsAdd(startPosition, target, m, e, d, len, rotations, extra, d / len - e / len, m / len - startPosition / len);
    ModShift(target, rotations + extra + 1 + (d / len - e / len) - (m / len - startPosition / len), len);
  }

  /** For a target that is not negative and a positive duration the reel turns
      `rotations` full turns and then between one step and one turn more. */
  lemma DistanceBounds(startPosition: int, target: int, len: nat, duration: int, rotations: int)
    requires len > 0 && target >= 0 && duration > 0
    ensures Distance(startPosition, target, len, duration, rotations).Num?
    ensures rotations * len + 1 <= Distance(startPosition, target, len, duration, rotations).v <= (rotations + 1) * len
  {
    DifferenceRange(startPosition, target, len, duration);
  }

  // ---------------------------------------------------------------- visible window

  /** `symbols[index]`: undefined for NaN, negative or too large indexes. */
  function SymbolAt(symbols: seq<nat>, index: Number): (s: Option<nat>)
    ensures s.Some? <==> index.Num? && 0 <= index.v < |symbols|
    ensures s.Some? ==> s.value == symbols[index.v]
  {
    if index.Num? && 0 <= index.v < |symbols| then Some(symbols[index.v]) else None
  }

  /** The symbol in row j of the window whose top is `Math.round(target) % len`:
      `symbols[(top + j) % len]`, as readVisibleSymbols and spinCompleted read it. */
  function WindowSymbol(symbols: seq<nat>, target: int, j: nat): Option<nat>
  {
    match JsRem(target, |symbols|)
    case NaN => None
    case Num(top) => SymbolAt(symbols, JsRem(top + j, |symbols|))
  }

  /** With a target that is not negative on a non-empty strip every row of the
      window is defined and wraps around the strip: row j shows
      `symbols[(target + j) mod len]`. */
  lemma WindowWraps(symbols: seq<nat>, target: int, j: nat)
    requires |symbols| > 0 && target >= 0
    ensures WindowSymbol(symbols, target, j) == Some(symbols[(target + j) % |symbols|])
  {
    var n := |symbols|;
    var top := target % n;
    ModShift(top + j, target / n, n);
    assert target == target / n * n + top;
  }

  /** On an empty strip nothing is visible. */
  lemma WindowEmptyStrip(target: int, j: nat)
    ensures WindowSymbol([], target, j) == None
  {
  }
}

/** Shifts of unbounded numbers, and digit strings of a fixed number of bits per digit. */
module Bits {

  function Shl(v: int, k: nat): int {
    if k == 0 then v else 2 * Shl(v, k - 1)
  }

  /** Rounds down. */
  function Shr(v: int, k: nat): int {
    if k == 0 then v else Shr(v, k - 1) / 2
  }

  /** The last `k` bits. */
  function Low(v: int, k: nat): int { v - Shl(Shr(v, k), k) }

  predicate Fits(v: int, k: nat) { 0 <= v < Shl(1, k) }

  lemma {:induction false} ShlSum(a: int, b: int, k: nat)
    ensures Shl(a + b, k) == Shl(a, k) + Shl(b, k)
  {
    if k > 0 { ShlSum(a, b, k - 1); }
  }

  lemma {:induction false} ShlTwice(v: int, a: nat, b: nat)
    ensures Shl(Shl(v, a), b) == Shl(v, a + b)
  {
    if b > 0 { ShlTwice(v, a, b - 1); }
  }

  lemma {:induction false} ShrTwice(v: int, a: nat, b: nat)
    ensures Shr(Shr(v, a), b) == Shr(v, a + b)
  {
    if b > 0 { ShrTwice(v, a, b - 1); }
  }

  lemma {:induction false} ShlOrder(a: int, b: int, k: nat)
    requires a <= b
    ensures Shl(a, k) <= Shl(b, k)
  {
    if k > 0 { ShlOrder(a, b, k - 1); }
  }

  /** A number is split into its high part and its last bits in only one way. */
  lemma {:induction false} SplitOnce(q: int, r: int, k: nat)
    requires Fits(r, k)
    ensures Shr(Shl(q, k) + r, k) == q && Low(Shl(q, k) + r, k) == r
    decreases k
  {
    if k > 0 {
      ShlTwice(q, 1, k - 1);
      if r < Shl(1, k - 1) {
        SplitOnce(2 * q, r, k - 1);
      } else {
        ShlSum(2 * q, 1, k - 1);
        SplitOnce(2 * q + 1, r - Shl(1, k - 1), k - 1);
      }
      assert Shl(q, 1) == 2 * q;
    }
  }

  lemma {:induction false} LowFits(v: int, k: nat)
    ensures Fits(Low(v, k), k)
  {
    if k > 0 {
      var q := Shr(v, k - 1);
      LowFits(v, k - 1);
      ShlSum(2 * (q / 2), q % 2, k - 1);
      ShlTwice(q / 2, 1, k - 1);
      assert Shl(q / 2, 1) == 2 * (q / 2);
      assert Shl(0, k - 1) == 0 by { ShlZero(k - 1); }
    }
  }

  lemma {:induction false} ShlZero(k: nat)
    ensures Shl(0, k) == 0
  {
    if k > 0 { ShlZero(k - 1); }
  }

  /** Whole multiples of 2^k pass through the operations on the bits below and above them. */
  lemma AddHigh(x: int, m: int, k: nat)
    ensures Low(x + Shl(m, k), k) == Low(x, k) && Shr(x + Shl(m, k), k) == Shr(x, k) + m
  {
    LowFits(x, k);
    ShlSum(Shr(x, k), m, k);
    SplitOnce(Shr(x, k) + m, Low(x, k), k);
  }

  lemma HighDropped(x: int, m: int, k: nat, y: int)
    requires y == x + Shl(m, k)
    ensures Low(y, k) == Low(x, k)
  {
    AddHigh(x, m, k);
  }

  /** Shifting a number shifts its high part and its last bits. */
  lemma ShlSplit(v: int, word: nat, width: nat)
    ensures Shl(v, width) == Shl(Low(v, word), width) + Shl(Shl(Shr(v, word), width), word)
  {
    var q := Shr(v, word);
    ShlSum(Shl(q, word), Low(v, word), width);
    ShlTwice(q, word, width);
    ShlTwice(q, width, word);
    assert word + width == width + word;
  }

  // ---------- Digit strings ----------

  function Val(s: seq<int>, k: nat): int {
    if s == [] then 0 else Shl(Val(s[..|s| - 1], k), k) + s[|s| - 1]
  }

  /** The last `length` digits of a number, most significant first. */
  function Digits(v: int, length: nat, k: nat): (r: seq<int>)
    ensures |r| == length
    decreases length
  {
    if length == 0 then [] else Digits(Shr(v, k), length - 1, k) + [Low(v, k)]
  }

  predicate AllFit(s: seq<int>, k: nat) { forall d :: d in s ==> Fits(d, k) }

  lemma Append(s: seq<int>, k: nat, d: int)
    ensures Val(s + [d], k) == Shl(Val(s, k), k) + d
  {
    assert (s + [d])[..|s|] == s;
  }

  lemma {:induction false} DigitsFit(v: int, length: nat, k: nat)
    ensures AllFit(Digits(v, length, k), k)
    decreases length
  {
    if length > 0 {
      DigitsFit(Shr(v, k), length - 1, k);
      LowFits(v, k);
    }
  }

  /** A digit string is the only one of its length that stands for its number. */
  lemma {:induction false} DigitsOfVal(s: seq<int>, k: nat)
    requires AllFit(s, k)
    ensures Digits(Val(s, k), |s|, k) == s
    decreases |s|
  {
    if s != [] {
      var init, last := s[..|s| - 1], s[|s| - 1];
      assert s == init + [last];
      assert last in s && forall d :: d in init ==> d in s;
      DigitsOfVal(init, k);
      SplitOnce(Val(init, k), last, k);
    }
  }
}

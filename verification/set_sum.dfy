/** Sums over sequences and sets, for totals that must not depend on order or repetition. */
module SetSum {

  function Sum<T>(s: seq<T>, f: T -> int): int {
    if s == [] then 0 else Sum(s[..|s| - 1], f) + f(s[|s| - 1])
  }

  ghost function Over<T>(s: set<T>, f: T -> int): int {
    if s == {} then 0
    else
      var x :| x in s;
      Over(s - {x}, f) + f(x)
  }

  lemma {:induction false} OverWithout<T>(s: set<T>, f: T -> int, y: T)
    requires y in s
    ensures Over(s, f) == Over(s - {y}, f) + f(y)
    decreases |s|
  {
    var x :| x in s && Over(s, f) == Over(s - {x}, f) + f(x);
    if x != y {
      OverWithout(s - {x}, f, y);
      OverWithout(s - {y}, f, x);
      assert s - {x} - {y} == s - {y} - {x};
    }
  }

  lemma OverPlus<T>(s: set<T>, f: T -> int, y: T)
    ensures Over(s + {y}, f) == Over(s, f) + if y in s then 0 else f(y)
  {
    if y in s {
      assert s + {y} == s;
    } else {
      OverWithout(s + {y}, f, y);
      assert s + {y} - {y} == s;
    }
  }

  lemma SumPlus<T>(s: seq<T>, f: T -> int, y: T)
    ensures Sum(s + [y], f) == Sum(s, f) + f(y)
  {
    assert (s + [y])[..|s|] == s;
  }

  lemma {:induction false} SumConcat<T>(a: seq<T>, b: seq<T>, f: T -> int)
    ensures Sum(a + b, f) == Sum(a, f) + Sum(b, f)
  {
    if b == [] {
      assert a + b == a;
    } else {
      assert (a + b)[..|a + b| - 1] == a + b[..|b| - 1];
      SumConcat(a, b[..|b| - 1], f);
    }
  }

  /** A sum does not depend on the order. */
  lemma {:induction false} SumOfPermutation<T>(a: seq<T>, b: seq<T>, f: T -> int)
    requires multiset(a) == multiset(b)
    ensures Sum(a, f) == Sum(b, f)
  {
    if a == [] {
      assert |multiset(b)| == |b|;
    } else {
      var init, last := a[..|a| - 1], a[|a| - 1];
      assert a == init + [last];
      assert last in multiset(b);
      var i :| 0 <= i < |b| && b[i] == last;
      assert b == b[..i] + [last] + b[i + 1..];
      var rest := b[..i] + b[i + 1..];
      assert multiset(init) == multiset(a) - multiset{last};
      assert multiset(rest) == multiset(b) - multiset{last} by {
        assert multiset(b) == multiset(b[..i]) + multiset{last} + multiset(b[i + 1..]);
      }
      SumOfPermutation(init, rest, f);
      SumConcat(b[..i], b[i + 1..], f);
      SumConcat(b[..i] + [last], b[i + 1..], f);
      SumPlus(b[..i], f, last);
    }
  }

  /** The elements that satisfy a predicate, in order. */
  function Only<T>(s: seq<T>, p: T -> bool): seq<T> {
    if s == [] then []
    else
      var before, last := Only(s[..|s| - 1], p), s[|s| - 1];
      if p(last) then before + [last] else before
  }

  lemma OnlyPlus<T>(s: seq<T>, p: T -> bool, y: T)
    ensures Only(s + [y], p) == if p(y) then Only(s, p) + [y] else Only(s, p)
  {
    assert (s + [y])[..|s|] == s;
  }

  lemma {:induction false} OnlyConcat<T>(a: seq<T>, b: seq<T>, p: T -> bool)
    ensures Only(a + b, p) == Only(a, p) + Only(b, p)
  {
    if b == [] {
      assert a + b == a;
      assert Only(a, p) + [] == Only(a, p);
    } else {
      var init, last := b[..|b| - 1], b[|b| - 1];
      assert a + b == (a + init) + [last];
      OnlyConcat(a, init, p);
      OnlyPlus(a + init, p, last);
      assert (Only(a, p) + Only(init, p)) + [last] == Only(a, p) + (Only(init, p) + [last]);
    }
  }

  lemma {:induction false} OnlyMembers<T>(s: seq<T>, p: T -> bool, x: T)
    ensures x in Only(s, p) <==> x in s && p(x)
  {
    if s != [] {
      var init, last := s[..|s| - 1], s[|s| - 1];
      assert s == init + [last];
      OnlyMembers(init, p, x);
    }
  }

  /** A sum that counts only some elements is the sum over these elements. */
  lemma {:induction false} SumOfOnly<T>(s: seq<T>, p: T -> bool, f: T -> int, g: T -> int)
    requires forall x :: x in s ==> g(x) == if p(x) then f(x) else 0
    ensures Sum(s, g) == Sum(Only(s, p), f)
  {
    if s != [] {
      var init, last := s[..|s| - 1], s[|s| - 1];
      assert last in s && forall x :: x in init ==> x in s;
      SumOfOnly(init, p, f, g);
      if p(last) { SumPlus(Only(init, p), f, last); }
    }
  }
}

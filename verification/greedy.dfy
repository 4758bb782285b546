/** Granting a wanted amount from items in order, each up to its capacity. */
module Greedy {
  import opened Prelude

  datatype Grant<T> = Grant(item: T, amount: int)

  function Grants<T>(items: seq<T>, capacity: T -> int, want: int): seq<Grant<T>> {
    if items == [] || want <= 0 then []
    else
      var take := Min(want, Max(0, capacity(items[0])));
      (if take > 0 then [Grant(items[0], take)] else []) + Grants(items[1..], capacity, want - take)
  }

  function Total<T>(grants: seq<Grant<T>>): int {
    if grants == [] then 0 else Total(grants[..|grants| - 1]) + grants[|grants| - 1].amount
  }

  /** Everything the items can give together; a negative capacity gives nothing. */
  function Usable<T>(items: seq<T>, capacity: T -> int): (r: int)
    ensures 0 <= r
  {
    if items == [] then 0 else Max(0, capacity(items[0])) + Usable(items[1..], capacity)
  }

  function WithCapacity<T>(items: seq<T>, capacity: T -> int): seq<T> {
    if items == [] then []
    else (if capacity(items[0]) > 0 then [items[0]] else []) + WithCapacity(items[1..], capacity)
  }

  lemma {:induction false} TotalConcat<T>(a: seq<Grant<T>>, b: seq<Grant<T>>)
    ensures Total(a + b) == Total(a) + Total(b)
  {
    if b == [] {
      assert a + b == a;
    } else {
      assert (a + b)[..|a + b| - 1] == a + b[..|b| - 1];
      TotalConcat(a, b[..|b| - 1]);
    }
  }

  /** The grants add up to what was wanted, or to everything there is when that is less. */
  lemma {:induction false} GrantsTotal<T>(items: seq<T>, capacity: T -> int, want: int)
    ensures Total(Grants(items, capacity, want)) == Max(0, Min(want, Usable(items, capacity)))
  {
    if items != [] && want > 0 {
      var take := Min(want, Max(0, capacity(items[0])));
      GrantsTotal(items[1..], capacity, want - take);
      TotalConcat(if take > 0 then [Grant(items[0], take)] else [], Grants(items[1..], capacity, want - take));
      assert [Grant(items[0], take)][..0] == [];
    }
  }

  /**
   * The grants go to the first items that have any capacity, each of them in full except
   * possibly the last: no item is served twice, exceeded, or passed over.
   */
  lemma {:induction false} GrantsAreGreedy<T>(items: seq<T>, capacity: T -> int, want: int)
    ensures
      var grants := Grants(items, capacity, want);
      var usable := WithCapacity(items, capacity);
      && |grants| <= |usable|
      && (forall i :: 0 <= i < |grants| ==> grants[i].item == usable[i] && 0 < grants[i].amount <= capacity(usable[i]))
      && (forall i :: 0 <= i < |grants| - 1 ==> grants[i].amount == capacity(usable[i]))
  {
    if items != [] && want > 0 {
      var take := Min(want, Max(0, capacity(items[0])));
      GrantsAreGreedy(items[1..], capacity, want - take);
      if take > 0 && take < capacity(items[0]) {
        assert Grants(items[1..], capacity, want - take) == [];
      }
    }
  }

  lemma {:induction false} WithCapacityMembers<T>(items: seq<T>, capacity: T -> int, item: T)
    ensures item in WithCapacity(items, capacity) <==> item in items && capacity(item) > 0
  {
    if items != [] {
      WithCapacityMembers(items[1..], capacity, item);
      assert items == [items[0]] + items[1..];
    }
  }

  /** One step of the granting loop, from what was granted before it. */
  lemma GrantOne<T>(done: seq<Grant<T>>, items: seq<T>, i: nat, capacity: T -> int, want: int)
    requires i < |items| && want > 0
    ensures var take := Min(want, Max(0, capacity(items[i])));
            && done + Grants(items[i..], capacity, want)
               == (if take > 0 then done + [Grant(items[i], take)] else done) + Grants(items[i + 1..], capacity, want - take)
            && Usable(items[i..], capacity) == Max(0, capacity(items[i])) + Usable(items[i + 1..], capacity)
  {
    assert items[i..][1..] == items[i + 1..];
  }
}

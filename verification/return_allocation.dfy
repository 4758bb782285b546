/** Spreading the quantities of a KiotViet return over the lines of its Shopify order. */
module ReturnAllocation {
  import opened Prelude
  import opened Greedy
  import opened SetSum

  /** A returned line with its normalized SKU; KiotViet quantities may be fractional. */
  datatype Returned = Returned(sku: string, quantity: real)

  /** A Shopify line; `id` is its rank in the order line ids compare in, `sku` is normalized. */
  datatype Line = Line(id: nat, sku: string, refundable: int)

  datatype Error = InvalidQuantity(sku: string) | MissingLine(sku: string) | ExceedsRefundable(sku: string)

  datatype Wanted = Wanted(sku: string, quantity: nat)

  predicate Countable(r: Returned) {
    r.quantity == r.quantity.Floor as real && r.quantity > 0.0
  }

  function Units(r: Returned): nat
    requires Countable(r)
  {
    r.quantity.Floor
  }

  /** Units returned of one SKU over all lines. */
  function WantedOf(returned: seq<Returned>, sku: string): nat
    requires forall r :: r in returned ==> Countable(r)
  {
    if returned == [] then 0
    else
      var last := returned[|returned| - 1];
      WantedOf(returned[..|returned| - 1], sku) + if last.sku == sku then Units(last) else 0
  }

  function Refundable(): Line -> int { (line: Line) => line.refundable }

  // ---------- Candidates of one SKU, in id order ----------

  function Insert(line: Line, sorted: seq<Line>): seq<Line> {
    if sorted == [] || line.id < sorted[0].id then [line] + sorted else [sorted[0]] + Insert(line, sorted[1..])
  }

  /** The lines of one SKU, ordered by id; equal ids keep their order. */
  function Candidates(lines: seq<Line>, sku: string): seq<Line> {
    if lines == [] then []
    else
      var last := lines[|lines| - 1];
      var rest := Candidates(lines[..|lines| - 1], sku);
      if sku != "" && last.sku == sku then Insert(last, rest) else rest
  }

  predicate InIdOrder(lines: seq<Line>) {
    |lines| < 2 || (lines[0].id <= lines[1].id && InIdOrder(lines[1..]))
  }

  lemma {:induction false} InsertAdds(line: Line, sorted: seq<Line>)
    ensures multiset(Insert(line, sorted)) == multiset(sorted) + multiset{line}
  {
    if sorted != [] && line.id >= sorted[0].id {
      InsertAdds(line, sorted[1..]);
      assert sorted == [sorted[0]] + sorted[1..];
    }
  }

  lemma OrderedCons(first: Line, rest: seq<Line>)
    requires InIdOrder(rest) && (rest != [] ==> first.id <= rest[0].id)
    ensures InIdOrder([first] + rest)
  {
    assert ([first] + rest)[1..] == rest;
  }

  lemma {:induction false} InsertKeepsOrder(line: Line, sorted: seq<Line>)
    requires InIdOrder(sorted)
    ensures InIdOrder(Insert(line, sorted))
    ensures Insert(line, sorted)[0] == line || (sorted != [] && Insert(line, sorted)[0] == sorted[0])
  {
    if sorted != [] && line.id >= sorted[0].id {
      InsertKeepsOrder(line, sorted[1..]);
      OrderedCons(sorted[0], Insert(line, sorted[1..]));
    } else {
      OrderedCons(line, sorted);
    }
  }

  lemma {:induction false} CandidatesInOrder(lines: seq<Line>, sku: string)
    ensures InIdOrder(Candidates(lines, sku))
  {
    if lines != [] {
      CandidatesInOrder(lines[..|lines| - 1], sku);
      InsertKeepsOrder(lines[|lines| - 1], Candidates(lines[..|lines| - 1], sku));
    }
  }

  lemma {:induction false} CandidatesCounted(lines: seq<Line>, sku: string, line: Line)
    ensures multiset(Candidates(lines, sku))[line] == if sku != "" && line.sku == sku then multiset(lines)[line] else 0
  {
    if lines != [] {
      var init, last := lines[..|lines| - 1], lines[|lines| - 1];
      CandidatesCounted(init, sku, line);
      LastCounts(lines, line);
      if sku != "" && last.sku == sku {
        InsertAdds(last, Candidates(init, sku));
        assert Candidates(lines, sku) == Insert(last, Candidates(init, sku));
      } else {
        assert Candidates(lines, sku) == Candidates(init, sku);
      }
    }
  }

  lemma LastCounts(lines: seq<Line>, line: Line)
    requires lines != []
    ensures multiset(lines)[line] == multiset(lines[..|lines| - 1])[line] + if lines[|lines| - 1] == line then 1 else 0
  {
    assert lines == lines[..|lines| - 1] + [lines[|lines| - 1]];
  }

  lemma CandidatesAreTheSkusLines(lines: seq<Line>, sku: string)
    ensures InIdOrder(Candidates(lines, sku))
    ensures forall line ::
              multiset(Candidates(lines, sku))[line] == if sku != "" && line.sku == sku then multiset(lines)[line] else 0
  {
    CandidatesInOrder(lines, sku);
    forall line: Line
      ensures multiset(Candidates(lines, sku))[line] == if sku != "" && line.sku == sku then multiset(lines)[line] else 0
    {
      CandidatesCounted(lines, sku, line);
    }
  }

  // ---------- Totals per SKU ----------

  /** Adds one returned line to the totals, which keep the order their SKUs first appeared in. */
  function Add(wanted: seq<Wanted>, sku: string, quantity: nat): seq<Wanted> {
    if wanted == [] then [Wanted(sku, quantity)]
    else if wanted[0].sku == sku then [Wanted(sku, wanted[0].quantity + quantity)] + wanted[1..]
    else [wanted[0]] + Add(wanted[1..], sku, quantity)
  }

  function QuantityIn(wanted: seq<Wanted>, sku: string): nat {
    if wanted == [] then 0 else if wanted[0].sku == sku then wanted[0].quantity else QuantityIn(wanted[1..], sku)
  }

  ghost predicate DistinctSkus(wanted: seq<Wanted>) {
    forall i, j :: 0 <= i < j < |wanted| ==> wanted[i].sku != wanted[j].sku
  }

  ghost predicate Names(wanted: seq<Wanted>, sku: string) {
    exists i :: 0 <= i < |wanted| && wanted[i].sku == sku
  }

  lemma {:induction false} AddCounts(wanted: seq<Wanted>, sku: string, quantity: nat, other: string)
    ensures QuantityIn(Add(wanted, sku, quantity), other)
            == QuantityIn(wanted, other) + if other == sku then quantity else 0
  {
    if wanted != [] {
      var all := Add(wanted, sku, quantity);
      if wanted[0].sku == sku {
        assert all[1..] == wanted[1..];
      } else {
        AddCounts(wanted[1..], sku, quantity, other);
        assert all[1..] == Add(wanted[1..], sku, quantity);
      }
    }
  }

  lemma NamesCons(first: Wanted, rest: seq<Wanted>, sku: string)
    ensures Names([first] + rest, sku) <==> first.sku == sku || Names(rest, sku)
  {
    var all := [first] + rest;
    assert all[0] == first;
    if Names(rest, sku) {
      var i :| 0 <= i < |rest| && rest[i].sku == sku;
      assert all[i + 1].sku == sku;
    }
    if Names(all, sku) {
      var i :| 0 <= i < |all| && all[i].sku == sku;
      if i > 0 { assert rest[i - 1].sku == sku; }
    }
  }

  lemma {:induction false} AddNames(wanted: seq<Wanted>, sku: string, quantity: nat, other: string)
    ensures Names(Add(wanted, sku, quantity), other) <==> Names(wanted, other) || other == sku
  {
    if wanted == [] {
      NamesCons(Wanted(sku, quantity), [], other);
      assert [Wanted(sku, quantity)] + [] == [Wanted(sku, quantity)];
    } else {
      assert wanted == [wanted[0]] + wanted[1..];
      NamesCons(wanted[0], wanted[1..], other);
      NamesCons(Wanted(sku, wanted[0].quantity + quantity), wanted[1..], other);
      NamesCons(wanted[0], Add(wanted[1..], sku, quantity), other);
      AddNames(wanted[1..], sku, quantity, other);
    }
  }

  lemma DistinctCons(first: Wanted, rest: seq<Wanted>)
    ensures DistinctSkus([first] + rest) <==> DistinctSkus(rest) && !Names(rest, first.sku)
  {
    var all := [first] + rest;
    assert all[0] == first;
    if DistinctSkus(all) {
      forall i, j | 0 <= i < j < |rest| ensures rest[i].sku != rest[j].sku { assert all[i + 1] == rest[i] && all[j + 1] == rest[j]; }
      forall i | 0 <= i < |rest| ensures rest[i].sku != first.sku { assert all[i + 1] == rest[i]; }
    }
    if DistinctSkus(rest) && !Names(rest, first.sku) {
      forall i, j | 0 <= i < j < |all| ensures all[i].sku != all[j].sku {
        assert all[j] == rest[j - 1];
        if i > 0 { assert all[i] == rest[i - 1]; }
      }
    }
  }

  lemma {:induction false} AddKeepsDistinct(wanted: seq<Wanted>, sku: string, quantity: nat)
    requires DistinctSkus(wanted)
    ensures DistinctSkus(Add(wanted, sku, quantity))
  {
    if wanted != [] {
      assert wanted == [wanted[0]] + wanted[1..];
      DistinctCons(wanted[0], wanted[1..]);
      if wanted[0].sku == sku {
        DistinctCons(Wanted(sku, wanted[0].quantity + quantity), wanted[1..]);
      } else {
        assert Add(wanted, sku, quantity) == [wanted[0]] + Add(wanted[1..], sku, quantity);
        AddKeepsDistinct(wanted[1..], sku, quantity);
        AddNames(wanted[1..], sku, quantity, wanted[0].sku);
        DistinctCons(wanted[0], Add(wanted[1..], sku, quantity));
      }
    }
  }

  lemma {:induction false} QuantityAt(wanted: seq<Wanted>, i: nat)
    requires DistinctSkus(wanted) && i < |wanted|
    ensures QuantityIn(wanted, wanted[i].sku) == wanted[i].quantity
  {
    if i > 0 {
      assert wanted[1..][i - 1] == wanted[i];
      QuantityAt(wanted[1..], i - 1);
    }
  }

  method CollectWanted(returned: seq<Returned>) returns (r: Result<seq<Wanted>, Error>)
    ensures r.Ok? <==> forall line :: line in returned ==> Countable(line)
    ensures r.Err? ==> r.error.InvalidQuantity?
    ensures r.Ok? ==> DistinctSkus(r.value)
    ensures r.Ok? ==> forall sku :: QuantityIn(r.value, sku) == WantedOf(returned, sku)
    ensures r.Ok? ==> forall sku :: Names(r.value, sku) <==> exists line :: line in returned && line.sku == sku
  {
    var wanted: seq<Wanted> := [];
    for i := 0 to |returned|
      invariant forall line :: line in returned[..i] ==> Countable(line)
      invariant DistinctSkus(wanted)
      invariant forall sku :: QuantityIn(wanted, sku) == WantedOf(returned[..i], sku)
      invariant forall sku :: Names(wanted, sku) <==> exists line :: line in returned[..i] && line.sku == sku
    {
      var line := returned[i];
      assert line in returned;
      if line.quantity != line.quantity.Floor as real || line.quantity <= 0.0 { return Err(InvalidQuantity(line.sku)); }
      assert returned[..i + 1] == returned[..i] + [line];
      assert returned[..i + 1][..i] == returned[..i];
      forall sku
        ensures QuantityIn(Add(wanted, line.sku, Units(line)), sku) == WantedOf(returned[..i + 1], sku)
        ensures Names(Add(wanted, line.sku, Units(line)), sku) <==> Names(wanted, sku) || sku == line.sku
      {
        AddCounts(wanted, line.sku, Units(line), sku);
        AddNames(wanted, line.sku, Units(line), sku);
      }
      AddKeepsDistinct(wanted, line.sku, Units(line));
      wanted := Add(wanted, line.sku, Units(line));
    }
    assert returned[..|returned|] == returned;
    r := Ok(wanted);
  }

  // ---------- The allocation ----------

  /** Lines granted for each wanted SKU, in the order the SKUs were first returned. */
  function Allocation(wanted: seq<Wanted>, lines: seq<Line>): seq<Grant<Line>> {
    if wanted == [] then []
    else
      var last := wanted[|wanted| - 1];
      Allocation(wanted[..|wanted| - 1], lines) + Grants(Candidates(lines, last.sku), Refundable(), last.quantity)
  }

  predicate Coverable(lines: seq<Line>, w: Wanted) {
    Candidates(lines, w.sku) != [] && w.quantity <= Usable(Candidates(lines, w.sku), Refundable())
  }

  function Uncovered(lines: seq<Line>, w: Wanted): Error {
    if Candidates(lines, w.sku) == [] then MissingLine(w.sku) else ExceedsRefundable(w.sku)
  }

  method GrantSku(candidates: seq<Line>, quantity: nat) returns (grants: seq<Grant<Line>>)
    ensures grants == Grants(candidates, Refundable(), quantity)
  {
    grants := [];
    var remaining: int := quantity;
    var i := 0;
    assert candidates[0..] == candidates;
    while i < |candidates| && remaining != 0
      invariant i <= |candidates| && 0 <= remaining
      invariant Grants(candidates, Refundable(), quantity) == grants + Grants(candidates[i..], Refundable(), remaining)
    {
      GrantOne(grants, candidates, i, Refundable(), remaining);
      var take := Min(remaining, Max(0, candidates[i].refundable));
      if take > 0 { grants := grants + [Grant(candidates[i], take)]; }
      remaining := remaining - take;
      i := i + 1;
    }
    assert Grants(candidates[i..], Refundable(), remaining) == [] && grants + [] == grants;
  }

  method AllocateWanted(wanted: seq<Wanted>, lines: seq<Line>) returns (r: Result<seq<Grant<Line>>, Error>)
    ensures r.Ok? <==> forall w :: w in wanted ==> Coverable(lines, w)
    ensures r.Ok? ==> r.value == Allocation(wanted, lines)
    ensures r.Err? ==> exists w :: w in wanted && !Coverable(lines, w) && r.error == Uncovered(lines, w)
  {
    var grants: seq<Grant<Line>> := [];
    for i := 0 to |wanted|
      invariant forall w :: w in wanted[..i] ==> Coverable(lines, w)
      invariant grants == Allocation(wanted[..i], lines)
    {
      var w := wanted[i];
      assert w in wanted;
      var candidates := Candidates(lines, w.sku);
      if candidates == [] { return Err(MissingLine(w.sku)); }
      if w.quantity > Usable(candidates, Refundable()) { return Err(ExceedsRefundable(w.sku)); }
      var more := GrantSku(candidates, w.quantity);
      assert wanted[..i + 1] == wanted[..i] + [w] && wanted[..i + 1][..i] == wanted[..i];
      grants := grants + more;
    }
    assert wanted[..|wanted|] == wanted;
    r := Ok(grants);
  }

  /** Units allocated of one SKU. */
  function AllocatedOf(grants: seq<Grant<Line>>, sku: string): int {
    if grants == [] then 0
    else AllocatedOf(grants[..|grants| - 1], sku) + if grants[|grants| - 1].item.sku == sku then grants[|grants| - 1].amount else 0
  }

  ghost predicate DistinctIds(lines: seq<Line>) {
    forall i, j :: 0 <= i < j < |lines| ==> lines[i].id != lines[j].id
  }

  ghost predicate NoLineTwice(grants: seq<Grant<Line>>) {
    forall i, j :: 0 <= i < j < |grants| ==> grants[i].item != grants[j].item
  }

  lemma {:induction false} AllocatedConcat(a: seq<Grant<Line>>, b: seq<Grant<Line>>, sku: string)
    ensures AllocatedOf(a + b, sku) == AllocatedOf(a, sku) + AllocatedOf(b, sku)
  {
    if b == [] {
      assert a + b == a;
    } else {
      assert (a + b)[..|a + b| - 1] == a + b[..|b| - 1];
      AllocatedConcat(a, b[..|b| - 1], sku);
    }
  }

  lemma {:induction false} AllocatedOfOneSku(grants: seq<Grant<Line>>, sku: string, other: string)
    requires forall g :: g in grants ==> g.item.sku == sku
    ensures AllocatedOf(grants, other) == if other == sku then Total(grants) else 0
  {
    if grants != [] { AllocatedOfOneSku(grants[..|grants| - 1], sku, other); }
  }

  /** The grants of one SKU: its own lines, each within its refundable quantity and at most once. */
  lemma SkuGrants(lines: seq<Line>, w: Wanted, other: string)
    requires DistinctIds(lines) && Coverable(lines, w)
    ensures var grants := Grants(Candidates(lines, w.sku), Refundable(), w.quantity);
            && (forall g :: g in grants ==> g.item in lines && g.item.sku == w.sku && 0 < g.amount <= g.item.refundable)
            && NoLineTwice(grants)
            && AllocatedOf(grants, other) == if other == w.sku then w.quantity else 0
  {
    var candidates := Candidates(lines, w.sku);
    var grants := Grants(candidates, Refundable(), w.quantity);
    var usable := WithCapacity(candidates, Refundable());
    CandidatesAreTheSkusLines(lines, w.sku);
    GrantsAreGreedy(candidates, Refundable(), w.quantity);
    GrantsTotal(candidates, Refundable(), w.quantity);
    forall g | g in grants ensures g.item in lines && g.item.sku == w.sku && 0 < g.amount <= g.item.refundable {
      var i :| 0 <= i < |grants| && grants[i] == g;
      assert usable[i] in usable;
      WithCapacityMembers(candidates, Refundable(), usable[i]);
      assert multiset(candidates)[usable[i]] > 0;
      assert usable[i] in multiset(lines);
    }
    DistinctCandidates(lines, w.sku);
    DistinctUsable(candidates);
    AllocatedOfOneSku(grants, w.sku, other);
  }

  lemma DistinctCandidates(lines: seq<Line>, sku: string)
    requires DistinctIds(lines)
    ensures forall line :: multiset(Candidates(lines, sku))[line] <= 1
  {
    CandidatesAreTheSkusLines(lines, sku);
    forall line ensures multiset(lines)[line] <= 1 { DistinctOnce(lines, line); }
  }

  lemma {:induction false} DistinctOnce(lines: seq<Line>, line: Line)
    requires DistinctIds(lines)
    ensures multiset(lines)[line] <= 1
  {
    if lines != [] {
      DistinctOnce(lines[..|lines| - 1], line);
      assert lines == lines[..|lines| - 1] + [lines[|lines| - 1]];
    }
  }

  lemma {:induction false} DistinctUsable(items: seq<Line>)
    requires forall line :: multiset(items)[line] <= 1
    ensures forall i, j :: 0 <= i < j < |WithCapacity(items, Refundable())| ==>
              WithCapacity(items, Refundable())[i] != WithCapacity(items, Refundable())[j]
  {
    if items != [] {
      assert items == [items[0]] + items[1..];
      assert forall line :: multiset(items)[line] == multiset(items[1..])[line] + if line == items[0] then 1 else 0;
      DistinctUsable(items[1..]);
      var rest := WithCapacity(items[1..], Refundable());
      forall j | 0 <= j < |rest| ensures rest[j] != items[0] {
        WithCapacityMembers(items[1..], Refundable(), rest[j]);
        assert rest[j] in multiset(items[1..]);
      }
    }
  }

  /**
   * The allocation is exact: each SKU gets precisely its wanted units, no line gives more than is
   * refundable on it, and no line appears twice.
   */
  lemma {:induction false} AllocationIsExact(wanted: seq<Wanted>, lines: seq<Line>, sku: string)
    requires DistinctIds(lines) && DistinctSkus(wanted) && forall w :: w in wanted ==> Coverable(lines, w)
    ensures AllocatedOf(Allocation(wanted, lines), sku) == QuantityIn(wanted, sku)
    ensures forall g :: g in Allocation(wanted, lines) ==>
              g.item in lines && 0 < g.amount <= g.item.refundable && Names(wanted, g.item.sku)
    ensures NoLineTwice(Allocation(wanted, lines))
  {
    if wanted != [] {
      var init, last := wanted[..|wanted| - 1], wanted[|wanted| - 1];
      var before, more := Allocation(init, lines), Grants(Candidates(lines, last.sku), Refundable(), last.quantity);
      AllocationIsExact(init, lines, sku);
      SkuGrants(lines, last, sku);
      AllocatedConcat(before, more, sku);
      QuantityInit(wanted, sku);
      NamesInit(wanted);
      NoLineTwiceConcat(before, more, last.sku);
    }
  }

  lemma NamesInit(wanted: seq<Wanted>)
    requires wanted != [] && DistinctSkus(wanted)
    ensures var init, last := wanted[..|wanted| - 1], wanted[|wanted| - 1];
            && !Names(init, last.sku) && Names(wanted, last.sku)
            && forall sku :: Names(init, sku) ==> Names(wanted, sku)
  {
    assert wanted[|wanted| - 1].sku == wanted[|wanted| - 1].sku;
  }

  lemma NoLineTwiceConcat(a: seq<Grant<Line>>, b: seq<Grant<Line>>, sku: string)
    requires NoLineTwice(a) && NoLineTwice(b)
    requires forall g :: g in a ==> g.item.sku != sku
    requires forall g :: g in b ==> g.item.sku == sku
    ensures NoLineTwice(a + b)
  {
    forall i, j | 0 <= i < j < |a + b| ensures (a + b)[i].item != (a + b)[j].item {
      if i < |a| <= j { assert a[i] in a && b[j - |a|] in b; }
    }
  }

  lemma {:induction false} QuantityInit(wanted: seq<Wanted>, sku: string)
    requires wanted != [] && DistinctSkus(wanted)
    ensures var init, last := wanted[..|wanted| - 1], wanted[|wanted| - 1];
            QuantityIn(wanted, sku) == QuantityIn(init, sku) + if sku == last.sku then last.quantity else 0
  {
    if |wanted| > 1 {
      assert wanted[1..][..|wanted| - 2] == wanted[..|wanted| - 1][1..];
      QuantityInit(wanted[1..], sku);
      if sku == wanted[|wanted| - 1].sku { QuantityAt(wanted, |wanted| - 1); }
    }
  }

  // ---------- The same in terms of quantities and lines ----------

  predicate IsUnits(quantity: real, n: nat) { n > 0 && quantity == n as real }

  /** A positive whole number of units. */
  ghost predicate Whole(quantity: real) { exists n: nat :: IsUnits(quantity, n) }

  /** Everything that was returned of a SKU. */
  function ReturnedQuantity(returned: seq<Returned>, sku: string): real {
    if returned == [] then 0.0
    else
      var last := returned[|returned| - 1];
      ReturnedQuantity(returned[..|returned| - 1], sku) + if last.sku == sku then last.quantity else 0.0
  }

  function OfSku(sku: string): Line -> bool { (line: Line) => line.sku == sku }

  function Available(): Line -> int { (line: Line) => Max(0, line.refundable) }

  /** What all order lines of a SKU can still give back. */
  function RefundableOf(lines: seq<Line>, sku: string): int { Sum(Only(lines, OfSku(sku)), Available()) }

  function GrantsSku(sku: string): Grant<Line> -> bool { (g: Grant<Line>) => g.item.sku == sku }

  function GrantedAmount(): Grant<Line> -> int { (g: Grant<Line>) => g.amount }

  /** The units granted over all lines of a SKU. */
  function GrantedOf(grants: seq<Grant<Line>>, sku: string): int { Sum(Only(grants, GrantsSku(sku)), GrantedAmount()) }

  /** Every quantity is a positive whole number, and every SKU has lines that can give back all of it. */
  ghost predicate Returnable(returned: seq<Returned>, lines: seq<Line>) {
    forall r :: r in returned ==>
      && Whole(r.quantity) && r.sku != "" && (exists line :: line in lines && line.sku == r.sku)
      && ReturnedQuantity(returned, r.sku) <= RefundableOf(lines, r.sku) as real
  }

  lemma CountableIsWhole(r: Returned)
    ensures Countable(r) <==> Whole(r.quantity)
  {
    if Countable(r) { assert IsUnits(r.quantity, r.quantity.Floor); }
    if Whole(r.quantity) {
      var n: nat :| IsUnits(r.quantity, n);
      assert r.quantity.Floor == n;
    }
  }

  lemma {:induction false} WantedIsReturned(returned: seq<Returned>, sku: string)
    requires forall r :: r in returned ==> Countable(r)
    ensures WantedOf(returned, sku) as real == ReturnedQuantity(returned, sku)
  {
    if returned != [] {
      assert Countable(returned[|returned| - 1]);
      WantedIsReturned(returned[..|returned| - 1], sku);
    }
  }

  lemma {:induction false} AllocatedIsGranted(grants: seq<Grant<Line>>, sku: string)
    ensures AllocatedOf(grants, sku) == GrantedOf(grants, sku)
  {
    if grants != [] {
      var init, last := grants[..|grants| - 1], grants[|grants| - 1];
      assert grants == init + [last];
      AllocatedIsGranted(init, sku);
      OnlyPlus(init, GrantsSku(sku), last);
      if last.item.sku == sku { SumPlus(Only(init, GrantsSku(sku)), GrantedAmount(), last); }
    }
  }

  lemma {:induction false} OnlyCounts(lines: seq<Line>, sku: string)
    ensures forall line :: multiset(Only(lines, OfSku(sku)))[line] == if line.sku == sku then multiset(lines)[line] else 0
  {
    if lines != [] {
      var init, last := lines[..|lines| - 1], lines[|lines| - 1];
      assert lines == init + [last];
      OnlyCounts(init, sku);
      OnlyPlus(init, OfSku(sku), last);
    }
  }

  lemma UsableStep(lines: seq<Line>)
    requires lines != []
    ensures Sum(lines, Available()) == Available()(lines[0]) + Sum(lines[1..], Available())
  {
    assert lines == [lines[0]] + lines[1..];
    SumConcat([lines[0]], lines[1..], Available());
    SumPlus([], Available(), lines[0]);
    assert [] + [lines[0]] == [lines[0]];
  }

  lemma {:induction false} UsableIsSum(lines: seq<Line>)
    ensures Usable(lines, Refundable()) == Sum(lines, Available())
  {
    if lines != [] {
      UsableIsSum(lines[1..]);
      UsableStep(lines);
    }
  }

  lemma {:induction false} NoCandidates(lines: seq<Line>)
    ensures Candidates(lines, "") == []
  {
    if lines != [] { NoCandidates(lines[..|lines| - 1]); }
  }

  lemma CoverableIsRefundable(lines: seq<Line>, w: Wanted)
    ensures Coverable(lines, w) <==>
              w.sku != "" && (exists line :: line in lines && line.sku == w.sku) && w.quantity <= RefundableOf(lines, w.sku)
  {
    var candidates, mine := Candidates(lines, w.sku), Only(lines, OfSku(w.sku));
    CandidatesAreTheSkusLines(lines, w.sku);
    OnlyCounts(lines, w.sku);
    UsableIsSum(candidates);
    if w.sku != "" {
      assert multiset(candidates) == multiset(mine);
      SumOfPermutation(candidates, mine, Available());
      if line :| line in lines && line.sku == w.sku { assert line in multiset(candidates); }
      if candidates != [] { assert candidates[0] in multiset(candidates) && candidates[0] in multiset(lines); }
    } else {
      NoCandidates(lines);
    }
  }

  lemma ReturnableMeans(returned: seq<Returned>, lines: seq<Line>)
    ensures Returnable(returned, lines) <==>
              && (forall r :: r in returned ==> Countable(r))
              && forall r :: r in returned ==> Coverable(lines, Wanted(r.sku, WantedOf(returned, r.sku)))
  {
    forall r | r in returned ensures Countable(r) <==> Whole(r.quantity) { CountableIsWhole(r); }
    if forall r :: r in returned ==> Countable(r) {
      forall r | r in returned
        ensures Coverable(lines, Wanted(r.sku, WantedOf(returned, r.sku))) <==>
                  r.sku != "" && (exists line :: line in lines && line.sku == r.sku)
                  && ReturnedQuantity(returned, r.sku) <= RefundableOf(lines, r.sku) as real
      {
        WantedIsReturned(returned, r.sku);
        CoverableIsRefundable(lines, Wanted(r.sku, WantedOf(returned, r.sku)));
      }
    }
  }

  /** Something is granted when something countable was returned. */
  lemma SomethingGranted(returned: seq<Returned>, grants: seq<Grant<Line>>)
    requires returned != [] && forall r :: r in returned ==> Countable(r)
    requires forall sku :: AllocatedOf(grants, sku) == WantedOf(returned, sku)
    ensures grants != []
  {
    var last := returned[|returned| - 1];
    assert Countable(last);
    assert WantedOf(returned, last.sku) > 0;
    assert AllocatedOf(grants, last.sku) > 0;
  }

  /**
   * matchReturnLines. It succeeds exactly when every returned quantity is a positive whole number
   * and every returned SKU is present on the order within its total refundable quantity.
   */
  method MatchReturnLines(returned: seq<Returned>, lines: seq<Line>) returns (r: Result<seq<Grant<Line>>, Error>)
    ensures r.Ok? <==> Returnable(returned, lines)
    ensures r.Ok? && DistinctIds(lines) ==>
              forall sku :: GrantedOf(r.value, sku) as real == ReturnedQuantity(returned, sku)
    ensures r.Ok? && DistinctIds(lines) ==> NoLineTwice(r.value) && (r.value == [] <==> returned == [])
    ensures r.Ok? && DistinctIds(lines) ==> forall g :: g in r.value ==>
              g.item in lines && 0 < g.amount <= g.item.refundable
    ensures r.Err? && r.error.InvalidQuantity? <==> exists line :: line in returned && !Whole(line.quantity)
  {
    ReturnableMeans(returned, lines);
    forall line | line in returned ensures Countable(line) <==> Whole(line.quantity) { CountableIsWhole(line); }
    var collected := CollectWanted(returned);
    if collected.Err? { return Err(collected.error); }
    var wanted := collected.value;
    forall w | w in wanted ensures exists line :: line in returned && w == Wanted(line.sku, WantedOf(returned, line.sku)) {
      var i :| 0 <= i < |wanted| && wanted[i] == w;
      QuantityAt(wanted, i);
      assert Names(wanted, w.sku);
    }
    forall line | line in returned ensures Wanted(line.sku, WantedOf(returned, line.sku)) in wanted {
      assert Names(wanted, line.sku);
      var i :| 0 <= i < |wanted| && wanted[i].sku == line.sku;
      QuantityAt(wanted, i);
    }
    r := AllocateWanted(wanted, lines);
    if r.Ok? && DistinctIds(lines) {
      forall sku
        ensures AllocatedOf(r.value, sku) == WantedOf(returned, sku)
        ensures GrantedOf(r.value, sku) as real == ReturnedQuantity(returned, sku)
      {
        AllocationIsExact(wanted, lines, sku);
        AllocatedIsGranted(r.value, sku);
        WantedIsReturned(returned, sku);
      }
      AllocationIsExact(wanted, lines, "");
      if returned != [] { SomethingGranted(returned, r.value); }
    }
  }
}

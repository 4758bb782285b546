/**
 * What refunds leave of each product line of a product-only order: the ordered quantity less the
 * units that were refunded and provably never shipped.
 */
module RefundAdjustments {
  import opened Prelude
  import opened SetSum

  datatype Restock = Cancel | NoRestock | Other

  /** A refund line item; a quantity that is not a positive whole number counts as none. */
  datatype Item = Item(id: Option<nat>, line: nat, quantity: int, restock: Restock, cents: int)

  datatype Refund = Refund(id: Option<nat>, items: seq<Item>)

  datatype Fulfillment = Fulfillment(success: bool, items: seq<(nat, int)>)

  datatype Line = Line(id: nat, quantity: int, current: Option<int>)

  datatype Reason = Unchanged | CancelledRefund | RefundedNotShipped | RequiresVerification | InvalidRefundData

  datatype Adjustment = Adjustment(
    original: int, refunded: int, excluded: int, remaining: int, fulfilled: Option<int>, reason: Reason, excludedCents: int)

  // ---------- Refunds, counted once ----------

  predicate Counts(item: Item) { item.quantity > 0 }

  /** Entries taken so far, with the refunds and items already seen. */
  datatype Ledger = Ledger(refunds: set<nat>, items: set<nat>, entries: seq<Item>)

  const Empty := Ledger({}, {}, [])

  function TakeItem(l: Ledger, item: Item): Ledger {
    if !Counts(item) then l
    else if item.id.None? then l.(entries := l.entries + [item])
    else if item.id.value in l.items then l
    else l.(items := l.items + {item.id.value}, entries := l.entries + [item])
  }

  function TakeItems(l: Ledger, items: seq<Item>): Ledger {
    if items == [] then l else TakeItem(TakeItems(l, items[..|items| - 1]), items[|items| - 1])
  }

  function TakeRefund(l: Ledger, refund: Refund): Ledger {
    if refund.id.Some? && refund.id.value in l.refunds then l
    else TakeItems(if refund.id.Some? then l.(refunds := l.refunds + {refund.id.value}) else l, refund.items)
  }

  function TakeRefunds(refunds: seq<Refund>): Ledger {
    if refunds == [] then Empty else TakeRefund(TakeRefunds(refunds[..|refunds| - 1]), refunds[|refunds| - 1])
  }

  method CollectItems(l0: Ledger, items: seq<Item>) returns (l: Ledger)
    ensures l == TakeItems(l0, items)
  {
    l := l0;
    for i := 0 to |items|
      invariant l == TakeItems(l0, items[..i])
    {
      assert items[..i + 1][..i] == items[..i];
      var item := items[i];
      if item.quantity <= 0 { continue; }
      if item.id.Some? {
        if item.id.value in l.items { continue; }
        l := l.(items := l.items + {item.id.value});
      }
      l := l.(entries := l.entries + [item]);
    }
    assert items[..|items|] == items;
  }

  method CollectRefunds(refunds: seq<Refund>) returns (l: Ledger)
    ensures l == TakeRefunds(refunds)
  {
    l := Empty;
    for i := 0 to |refunds|
      invariant l == TakeRefunds(refunds[..i])
    {
      assert refunds[..i + 1][..i] == refunds[..i];
      var refund := refunds[i];
      if refund.id.Some? {
        if refund.id.value in l.refunds { continue; }
        l := l.(refunds := l.refunds + {refund.id.value});
      }
      l := CollectItems(l, refund.items);
    }
    assert refunds[..|refunds|] == refunds;
  }

  // ---------- The collected totals depend on the set of refunds ----------

  /** Every refund and every item has one content. */
  ghost predicate Consistent(refunds: set<Refund>) {
    && (forall a, b :: a in refunds && b in refunds ==> a.id.Some? && (a.id == b.id ==> a == b))
    && (forall a, b, x, y :: a in refunds && b in refunds && x in a.items && y in b.items && x.id.Some? && x.id == y.id ==> x == y)
  }

  function Identified(items: seq<Item>): set<Item> {
    set item | item in items && Counts(item) && item.id.Some?
  }

  function AllIdentified(refunds: set<Refund>): set<Item> {
    set refund, item | refund in refunds && item in refund.items && Counts(item) && item.id.Some? :: item
  }

  /** Items without an id are counted as often as their refund lists them. */
  function Anonymous(items: seq<Item>, f: Item -> int): int {
    if items == [] then 0
    else
      var last := items[|items| - 1];
      Anonymous(items[..|items| - 1], f) + if Counts(last) && last.id.None? then f(last) else 0
  }

  function AnonymousOf(f: Item -> int): Refund -> int {
    (refund: Refund) => Anonymous(refund.items, f)
  }

  /** The total of one set of refunds. */
  ghost function Total(refunds: set<Refund>, f: Item -> int): int {
    Over(AllIdentified(refunds), f) + Over(refunds, AnonymousOf(f))
  }

  function Ids(items: set<Item>): set<nat> {
    set item | item in items && item.id.Some? :: item.id.value
  }

  lemma {:induction false} TakeItemsCounts(l: Ledger, items: seq<Item>, known: set<Item>, f: Item -> int)
    requires l.items == Ids(known) && forall item :: item in known ==> Counts(item) && item.id.Some?
    requires forall x, y :: x in known && y in items && x.id == y.id ==> x == y
    requires forall x, y :: x in items && y in items && x.id.Some? && x.id == y.id ==> x == y
    ensures var m := TakeItems(l, items);
            && m.refunds == l.refunds && m.items == Ids(known + Identified(items))
            && Sum(m.entries, f) - Sum(l.entries, f) == Over(known + Identified(items), f) - Over(known, f)
            + Anonymous(items, f)
  {
    if items == [] {
      assert known + Identified(items) == known;
    } else {
      var init, last := items[..|items| - 1], items[|items| - 1];
      TakeItemsCounts(l, init, known, f);
      assert forall item :: item in items <==> item in init || item == last;
      var before := known + Identified(init);
      var m := TakeItems(l, init);
      SumPlus(m.entries, f, last);
      if Counts(last) && last.id.Some? {
        assert known + Identified(items) == before + {last};
        assert Ids(before + {last}) == Ids(before) + {last.id.value};
        assert last.id.value in m.items <==> last in before;
        OverPlus(before, f, last);
      } else {
        assert known + Identified(items) == before;
      }
    }
  }

  function AsSet(refunds: seq<Refund>): set<Refund> {
    set refund | refund in refunds
  }

  function RefundIds(refunds: set<Refund>): set<nat> {
    set refund | refund in refunds && refund.id.Some? :: refund.id.value
  }

  /** What the collection adds up to is the total of the set of refunds: repetition and order do not matter. */
  lemma {:induction false} CollectedIsTheTotal(refunds: seq<Refund>, f: Item -> int)
    requires Consistent(AsSet(refunds))
    ensures var l := TakeRefunds(refunds);
            && l.refunds == RefundIds(AsSet(refunds)) && l.items == Ids(AllIdentified(AsSet(refunds)))
            && Sum(l.entries, f) == Total(AsSet(refunds), f)
  {
    if refunds == [] {
      assert AsSet(refunds) == {} && AllIdentified({}) == {};
    } else {
      var init, last := refunds[..|refunds| - 1], refunds[|refunds| - 1];
      assert AsSet(refunds) == AsSet(init) + {last};
      CollectedIsTheTotal(init, f);
      AddRefund(AsSet(init), last, TakeRefunds(init), f);
    }
  }

  lemma AddRefund(known: set<Refund>, last: Refund, l: Ledger, f: Item -> int)
    requires Consistent(known + {last})
    requires l.refunds == RefundIds(known) && l.items == Ids(AllIdentified(known))
             && Sum(l.entries, f) == Total(known, f)
    ensures var m := TakeRefund(l, last);
            && m.refunds == RefundIds(known + {last}) && m.items == Ids(AllIdentified(known + {last}))
            && Sum(m.entries, f) == Total(known + {last}, f)
  {
    assert last in known + {last};
    if last.id.value in l.refunds {
      assert last in known;
      assert known + {last} == known;
    } else {
      assert last !in known;
      assert RefundIds(known + {last}) == RefundIds(known) + {last.id.value};
      assert AllIdentified(known + {last}) == AllIdentified(known) + Identified(last.items);
      KnownItemsAgree(known, last);
      TakeItemsCounts(l.(refunds := l.refunds + {last.id.value}), last.items, AllIdentified(known), f);
      OverPlus(known, AnonymousOf(f), last);
    }
  }

  lemma KnownItemsAgree(known: set<Refund>, last: Refund)
    requires Consistent(known + {last})
    ensures forall x, y :: x in AllIdentified(known) && y in last.items && x.id == y.id ==> x == y
    ensures forall x, y :: x in last.items && y in last.items && x.id.Some? && x.id == y.id ==> x == y
  {
    assert last in known + {last};
    forall x, y | x in AllIdentified(known) && y in last.items && x.id == y.id ensures x == y {
      var refund :| refund in known && x in refund.items;
      assert refund in known + {last};
    }
  }

  // ---------- One product line ----------

  /** Refunded units of one line and kind. */
  function Units(line: nat, restock: Restock): Item -> int {
    (item: Item) => if item.line == line && item.restock == restock then item.quantity else 0
  }

  /** The refunded subtotal of one line, without returned or restocked units unless the policy says so. */
  function Cents(line: nat, everything: bool): Item -> int {
    (item: Item) => if item.line == line && (everything || !item.restock.Other?) then item.cents else 0
  }

  datatype Refunded = Refunded(cancelled: int, noRestock: int, other: int, shippedCents: int, allCents: int)

  function RefundedOf(entries: seq<Item>, line: nat): Refunded {
    Refunded(Sum(entries, Units(line, Cancel)), Sum(entries, Units(line, NoRestock)), Sum(entries, Units(line, Other)),
             Sum(entries, Cents(line, false)), Sum(entries, Cents(line, true)))
  }

  function Quantity(line: nat): ((nat, int)) -> int {
    (item: (nat, int)) => if item.0 == line then item.1 else 0
  }

  function Shipped(fulfillments: seq<Fulfillment>, line: nat): int {
    if fulfillments == [] then 0
    else
      var last := fulfillments[|fulfillments| - 1];
      Shipped(fulfillments[..|fulfillments| - 1], line) + if last.success then Sum(last.items, Quantity(line)) else 0
  }

  function FulfilledOf(fulfillments: Option<seq<Fulfillment>>, line: nat): Option<int> {
    if fulfillments.None? then None else Some(Shipped(fulfillments.value, line))
  }

  function AllUnits(r: Refunded): int { r.cancelled + r.noRestock + r.other }

  /** Refund data that contradicts the line itself. */
  predicate Invalid(line: Line, r: Refunded) {
    (line.current.Some? && line.current.value != line.quantity - AllUnits(r)) || AllUnits(r) > line.quantity
  }

  /** Refunds that are not provably of units that were never shipped. */
  predicate Unproven(line: Line, r: Refunded, fulfilled: Option<int>) {
    || r.other > 0
    || (r.noRestock > 0 && fulfilled.None?)
    || (fulfilled.Some? && fulfilled.value > line.quantity - r.cancelled - r.noRestock)
  }

  predicate Ambiguous(line: Line, r: Refunded, fulfilled: Option<int>, meansNotShipped: bool) {
    Invalid(line, r) || (!meansNotShipped && Unproven(line, r, fulfilled))
  }

  method AdjustLine(line: Line, r: Refunded, fulfilled: Option<int>, meansNotShipped: bool)
    returns (a: Adjustment, ambiguous: bool)
    requires 0 <= r.cancelled && 0 <= r.noRestock && 0 <= r.other
    ensures a == Adjusted(line, r, fulfilled, meansNotShipped)
    ensures ambiguous <==> Ambiguous(line, r, fulfilled, meansNotShipped)
  {
    var refunded := r.cancelled + r.noRestock + r.other;
    var kept := Adjustment(line.quantity, refunded, 0, line.quantity, fulfilled, Unchanged, 0);
    var invalid := false;
    if line.current.Some? && line.current.value != line.quantity - refunded { invalid := true; }
    if refunded > line.quantity { invalid := true; }
    if meansNotShipped {
      if invalid { return kept.(reason := InvalidRefundData), true; }
      if refunded == 0 { return kept, false; }
      return kept.(excluded := refunded, remaining := line.quantity - refunded, reason := RefundedNotShipped, excludedCents := r.allCents), false;
    }
    var problems := invalid;
    if r.other > 0 { problems := true; }
    if r.noRestock > 0 && fulfilled.None? { problems := true; }
    if fulfilled.Some? && fulfilled.value > line.quantity - r.cancelled - r.noRestock { problems := true; }
    if problems { return kept.(reason := RequiresVerification), true; }
    if refunded == 0 { return kept, false; }
    var excluded := r.cancelled + r.noRestock;
    a := kept.(excluded := excluded, remaining := line.quantity - excluded, reason := CancelledRefund, excludedCents := r.shippedCents);
    ambiguous := false;
  }

  /** The whole refunded quantity goes, or nothing does because the refunds are ambiguous. */
  function Adjusted(line: Line, r: Refunded, fulfilled: Option<int>, meansNotShipped: bool): Adjustment {
    var gone := if Ambiguous(line, r, fulfilled, meansNotShipped) then 0 else AllUnits(r);
    Adjustment(line.quantity, AllUnits(r), gone, line.quantity - gone, fulfilled,
               if Ambiguous(line, r, fulfilled, meansNotShipped) then (if meansNotShipped then InvalidRefundData else RequiresVerification)
               else if gone == 0 then Unchanged
               else if meansNotShipped then RefundedNotShipped else CancelledRefund,
               if gone == 0 then 0 else if meansNotShipped then r.allCents else r.shippedCents)
  }

  lemma {:induction false} UnitsAreNatural(refunds: seq<Refund>, line: nat, restock: Restock)
    ensures Sum(TakeRefunds(refunds).entries, Units(line, restock)) >= 0
  {
    EntriesCount(refunds);
    SumOfCounted(TakeRefunds(refunds).entries, line, restock);
  }

  lemma {:induction false} SumOfCounted(entries: seq<Item>, line: nat, restock: Restock)
    requires forall item :: item in entries ==> Counts(item)
    ensures Sum(entries, Units(line, restock)) >= 0
  {
    if entries != [] {
      assert Counts(entries[|entries| - 1]);
      SumOfCounted(entries[..|entries| - 1], line, restock);
    }
  }

  lemma {:induction false} EntriesCount(refunds: seq<Refund>)
    ensures forall item :: item in TakeRefunds(refunds).entries ==> Counts(item)
  {
    if refunds != [] {
      var init, last := refunds[..|refunds| - 1], refunds[|refunds| - 1];
      EntriesCount(init);
      var l := TakeRefunds(init);
      ItemsCount(if last.id.Some? then l.(refunds := l.refunds + {last.id.value}) else l, last.items);
    }
  }

  lemma {:induction false} ItemsCount(l: Ledger, items: seq<Item>)
    requires forall item :: item in l.entries ==> Counts(item)
    ensures forall item :: item in TakeItems(l, items).entries ==> Counts(item)
  {
    if items != [] { ItemsCount(l, items[..|items| - 1]); }
  }

  /** The adjustment of one line of an order. */
  function AdjustmentOf(refunds: seq<Refund>, fulfillments: Option<seq<Fulfillment>>, line: Line,
      meansNotShipped: bool): Adjustment
  {
    Adjusted(line, RefundedOf(TakeRefunds(refunds).entries, line.id), FulfilledOf(fulfillments, line.id), meansNotShipped)
  }

  predicate AmbiguousOf(refunds: seq<Refund>, fulfillments: Option<seq<Fulfillment>>, line: Line, meansNotShipped: bool)
  {
    Ambiguous(line, RefundedOf(TakeRefunds(refunds).entries, line.id), FulfilledOf(fulfillments, line.id), meansNotShipped)
  }

  /** Two deliveries of the same refunds, in any order and with any repetition, adjust every line alike. */
  lemma DependsOnlyOnTheSetOfRefunds(a: seq<Refund>, b: seq<Refund>, fulfillments: Option<seq<Fulfillment>>, line: Line,
      meansNotShipped: bool)
    requires AsSet(a) == AsSet(b) && Consistent(AsSet(a))
    ensures AdjustmentOf(a, fulfillments, line, meansNotShipped) == AdjustmentOf(b, fulfillments, line, meansNotShipped)
    ensures AmbiguousOf(a, fulfillments, line, meansNotShipped) == AmbiguousOf(b, fulfillments, line, meansNotShipped)
  {
    SameTotals(a, b, Units(line.id, Cancel));
    SameTotals(a, b, Units(line.id, NoRestock));
    SameTotals(a, b, Units(line.id, Other));
    SameTotals(a, b, Cents(line.id, false));
    SameTotals(a, b, Cents(line.id, true));
  }

  lemma SameTotals(a: seq<Refund>, b: seq<Refund>, f: Item -> int)
    requires AsSet(a) == AsSet(b) && Consistent(AsSet(a))
    ensures Sum(TakeRefunds(a).entries, f) == Sum(TakeRefunds(b).entries, f)
  {
    CollectedIsTheTotal(a, f);
    CollectedIsTheTotal(b, f);
  }

  /** What remains and what is excluded are the ordered quantity; shipped units are never excluded. */
  lemma AdjustmentIsSound(refunds: seq<Refund>, fulfillments: Option<seq<Fulfillment>>, line: Line,
      meansNotShipped: bool)
    ensures var a := AdjustmentOf(refunds, fulfillments, line, meansNotShipped);
            && a.remaining + a.excluded == a.original == line.quantity && 0 <= a.excluded
            && (0 <= line.quantity ==> 0 <= a.remaining <= line.quantity)
            && (AmbiguousOf(refunds, fulfillments, line, meansNotShipped) ==> a.excluded == 0)
            && (!AmbiguousOf(refunds, fulfillments, line, meansNotShipped) ==> a.excluded == a.refunded)
            && (!AmbiguousOf(refunds, fulfillments, line, meansNotShipped) && line.current.Some? ==>
                a.remaining == line.current.value)
            && (!AmbiguousOf(refunds, fulfillments, line, meansNotShipped) && !meansNotShipped && a.fulfilled.Some? ==>
                  a.fulfilled.value + a.excluded <= line.quantity)
  {
    UnitsAreNatural(refunds, line.id, Cancel);
    UnitsAreNatural(refunds, line.id, NoRestock);
    UnitsAreNatural(refunds, line.id, Other);
  }

  method ShippedUnits(fulfillments: seq<Fulfillment>, line: nat) returns (units: int)
    ensures units == Shipped(fulfillments, line)
  {
    units := 0;
    for i := 0 to |fulfillments|
      invariant units == Shipped(fulfillments[..i], line)
    {
      assert fulfillments[..i + 1][..i] == fulfillments[..i];
      if fulfillments[i].success { units := units + Sum(fulfillments[i].items, Quantity(line)); }
    }
    assert fulfillments[..|fulfillments|] == fulfillments;
  }

  function Adjusting(refunds: seq<Refund>, fulfillments: Option<seq<Fulfillment>>,
      meansNotShipped: bool): Line -> Adjustment
  {
    (line: Line) => AdjustmentOf(refunds, fulfillments, line, meansNotShipped)
  }

  function Blocking(refunds: seq<Refund>, fulfillments: Option<seq<Fulfillment>>, meansNotShipped: bool): Line -> bool {
    (line: Line) => AmbiguousOf(refunds, fulfillments, line, meansNotShipped)
  }

  function ById(lines: seq<Line>, adjust: Line -> Adjustment): map<nat, Adjustment> {
    if lines == [] then map[]
    else ById(lines[..|lines| - 1], adjust)[lines[|lines| - 1].id := adjust(lines[|lines| - 1])]
  }

  function IdsOf(lines: seq<Line>, blocks: Line -> bool): seq<nat> {
    if lines == [] then []
    else IdsOf(lines[..|lines| - 1], blocks) + if blocks(lines[|lines| - 1]) then [lines[|lines| - 1].id] else []
  }

  method AdjustOne(ledger: Ledger, refunds: seq<Refund>, fulfillments: Option<seq<Fulfillment>>, line: Line,
      meansNotShipped: bool)
    returns (a: Adjustment, ambiguous: bool)
    requires ledger == TakeRefunds(refunds)
    ensures a == Adjusting(refunds, fulfillments, meansNotShipped)(line)
    ensures ambiguous == Blocking(refunds, fulfillments, meansNotShipped)(line)
  {
    UnitsAreNatural(refunds, line.id, Cancel);
    UnitsAreNatural(refunds, line.id, NoRestock);
    UnitsAreNatural(refunds, line.id, Other);
    var fulfilled: Option<int> := None;
    if fulfillments.Some? {
      var units := ShippedUnits(fulfillments.value, line.id);
      fulfilled := Some(units);
    }
    a, ambiguous := AdjustLine(line, RefundedOf(ledger.entries, line.id), fulfilled, meansNotShipped);
  }

  /** computeRefundAdjustments: every line as adjusted by its own refunds, and the lines that block, in order. */
  method ComputeRefundAdjustments(
      refunds: seq<Refund>, fulfillments: Option<seq<Fulfillment>>, lines: seq<Line>, meansNotShipped: bool)
    returns (adjusted: map<nat, Adjustment>, ambiguous: seq<nat>)
    ensures adjusted == ById(lines, Adjusting(refunds, fulfillments, meansNotShipped))
    ensures ambiguous == IdsOf(lines, Blocking(refunds, fulfillments, meansNotShipped))
  {
    ghost var adjust, blocking := Adjusting(refunds, fulfillments, meansNotShipped),
        Blocking(refunds, fulfillments, meansNotShipped);
    var ledger := CollectRefunds(refunds);
    adjusted, ambiguous := map[], [];
    for i := 0 to |lines|
      invariant adjusted == ById(lines[..i], adjust) && ambiguous == IdsOf(lines[..i], blocking)
    {
      OneMoreLine(lines, i, adjust, blocking);
      var a, blocks := AdjustOne(ledger, refunds, fulfillments, lines[i], meansNotShipped);
      adjusted := adjusted[lines[i].id := a];
      if blocks { ambiguous := ambiguous + [lines[i].id]; }
    }
    assert lines[..|lines|] == lines;
  }

  lemma OneMoreLine(lines: seq<Line>, i: nat, adjust: Line -> Adjustment, blocks: Line -> bool)
    requires i < |lines|
    ensures ById(lines[..i + 1], adjust) == ById(lines[..i], adjust)[lines[i].id := adjust(lines[i])]
    ensures IdsOf(lines[..i + 1], blocks) == if blocks(lines[i]) then IdsOf(lines[..i], blocks) + [lines[i].id]
            else IdsOf(lines[..i], blocks)
  {
    assert lines[..i + 1][..i] == lines[..i];
  }

  ghost predicate OneLinePerId(lines: seq<Line>) {
    forall i, j :: 0 <= i < j < |lines| ==> lines[i].id != lines[j].id
  }

  lemma LastLine(lines: seq<Line>)
    requires lines != [] && OneLinePerId(lines)
    ensures var init, last := lines[..|lines| - 1], lines[|lines| - 1];
            && OneLinePerId(init) && (forall line :: line in lines <==> line in init || line == last)
            && forall line :: line in init ==> line.id != last.id
  {
    assert lines == lines[..|lines| - 1] + [lines[|lines| - 1]];
  }

  /** With one line per id, every line has its own adjustment. */
  lemma {:induction false} EveryLineIsAdjusted(lines: seq<Line>, adjust: Line -> Adjustment)
    requires OneLinePerId(lines)
    ensures ById(lines, adjust).Keys == set line | line in lines :: line.id
    ensures forall line :: line in lines ==>
              line.id in ById(lines, adjust) && ById(lines, adjust)[line.id] == adjust(line)
  {
    if lines != [] {
      LastLine(lines);
      EveryLineIsAdjusted(lines[..|lines| - 1], adjust);
    }
  }

  /** Exactly the blocking lines are listed. */
  lemma {:induction false} BlockingLinesAreListed(lines: seq<Line>, blocks: Line -> bool)
    requires OneLinePerId(lines)
    ensures forall id :: id in IdsOf(lines, blocks) <==> exists line :: line in lines && line.id == id && blocks(line)
  {
    if lines != [] {
      LastLine(lines);
      BlockingLinesAreListed(lines[..|lines| - 1], blocks);
    }
  }

  /** Two deliveries of the same refunds give the same adjustments and the same blocking lines. */
  lemma SameRefundsSameResult(a: seq<Refund>, b: seq<Refund>, fulfillments: Option<seq<Fulfillment>>, lines: seq<Line>,
      meansNotShipped: bool)
    requires AsSet(a) == AsSet(b) && Consistent(AsSet(a))
    ensures ById(lines, Adjusting(a, fulfillments, meansNotShipped))
            == ById(lines, Adjusting(b, fulfillments, meansNotShipped))
    ensures IdsOf(lines, Blocking(a, fulfillments, meansNotShipped))
            == IdsOf(lines, Blocking(b, fulfillments, meansNotShipped))
  {
    forall line
      ensures AdjustmentOf(a, fulfillments, line, meansNotShipped)
              == AdjustmentOf(b, fulfillments, line, meansNotShipped)
      ensures AmbiguousOf(a, fulfillments, line, meansNotShipped) == AmbiguousOf(b, fulfillments, line, meansNotShipped)
    {
      DependsOnlyOnTheSetOfRefunds(a, b, fulfillments, line, meansNotShipped);
    }
    SameAdjusting(lines, Adjusting(a, fulfillments, meansNotShipped), Adjusting(b, fulfillments, meansNotShipped));
    SameBlocking(lines, Blocking(a, fulfillments, meansNotShipped), Blocking(b, fulfillments, meansNotShipped));
  }

  lemma {:induction false} SameAdjusting(lines: seq<Line>, f: Line -> Adjustment, g: Line -> Adjustment)
    requires forall line :: f(line) == g(line)
    ensures ById(lines, f) == ById(lines, g)
  {
    if lines != [] { SameAdjusting(lines[..|lines| - 1], f, g); }
  }

  lemma {:induction false} SameBlocking(lines: seq<Line>, f: Line -> bool, g: Line -> bool)
    requires forall line :: f(line) == g(line)
    ensures IdsOf(lines, f) == IdsOf(lines, g)
  {
    if lines != [] { SameBlocking(lines[..|lines| - 1], f, g); }
  }
}

/**
 * What the refund adjustments mean, counted afresh: the units of one line over its own refund items
 * and over the items of the successful fulfillments.
 */
module RefundMeaning {
  import opened Prelude
  import opened SetSum
  import opened RefundAdjustments

  // ---------- What was shipped ----------

  /** The items of the successful fulfillments, in order. */
  function Delivered(fulfillments: seq<Fulfillment>): seq<(nat, int)> {
    if fulfillments == [] then []
    else (if fulfillments[0].success then fulfillments[0].items else []) + Delivered(fulfillments[1..])
  }

  function IsOfLine(line: nat): ((nat, int)) -> bool { (item: (nat, int)) => item.0 == line }

  function Amount(): ((nat, int)) -> int { (item: (nat, int)) => item.1 }

  /** The units of a line over all successful fulfillments. */
  function DeliveredUnits(fulfillments: seq<Fulfillment>, line: nat): int {
    Sum(Only(Delivered(fulfillments), IsOfLine(line)), Amount())
  }

  lemma {:induction false} DeliveredPlus(fulfillments: seq<Fulfillment>, f: Fulfillment)
    ensures Delivered(fulfillments + [f]) == Delivered(fulfillments) + if f.success then f.items else []
  {
    if fulfillments == [] {
      assert ([] + [f])[1..] == [];
    } else {
      assert (fulfillments + [f])[1..] == fulfillments[1..] + [f];
      DeliveredPlus(fulfillments[1..], f);
    }
  }

  lemma {:induction false} ShippedIsDelivered(fulfillments: seq<Fulfillment>, line: nat)
    ensures Shipped(fulfillments, line) == DeliveredUnits(fulfillments, line)
  {
    if fulfillments != [] {
      var init, last := fulfillments[..|fulfillments| - 1], fulfillments[|fulfillments| - 1];
      assert fulfillments == init + [last];
      ShippedIsDelivered(init, line);
      DeliveredPlus(init, last);
      var more := if last.success then last.items else [];
      OnlyConcat(Delivered(init), more, IsOfLine(line));
      SumConcat(Only(Delivered(init), IsOfLine(line)), Only(more, IsOfLine(line)), Amount());
      SumOfOnly(last.items, IsOfLine(line), Amount(), Quantity(line));
    }
  }

  lemma {:induction false} ShippedConcat(a: seq<Fulfillment>, b: seq<Fulfillment>, line: nat)
    ensures Shipped(a + b, line) == Shipped(a, line) + Shipped(b, line)
  {
    if b == [] {
      assert a + b == a;
    } else {
      assert (a + b)[..|a + b| - 1] == a + b[..|b| - 1];
      ShippedConcat(a, b[..|b| - 1], line);
    }
  }

  /** A successful fulfillment, wherever it stands, adds exactly its units of the line; any other adds nothing. */
  lemma OneFulfillment(a: seq<Fulfillment>, f: Fulfillment, b: seq<Fulfillment>, line: nat)
    ensures FulfilledOf(Some(a + [f] + b), line)
            == Some(FulfilledOf(Some(a + b), line).value + if f.success then Sum(Only(f.items, IsOfLine(line)), Amount()) else 0)
  {
    ShippedConcat(a, b, line);
    ShippedConcat(a + [f], b, line);
    assert (a + [f])[..|a|] == a;
    SumOfOnly(f.items, IsOfLine(line), Amount(), Quantity(line));
  }

  /** A fulfillment that did not succeed changes no adjustment. */
  lemma FailedFulfillmentChangesNothing(
      refunds: seq<Refund>, a: seq<Fulfillment>, f: Fulfillment, b: seq<Fulfillment>, line: Line, meansNotShipped: bool)
    requires !f.success
    ensures AdjustmentOf(refunds, Some(a + [f] + b), line, meansNotShipped)
            == AdjustmentOf(refunds, Some(a + b), line, meansNotShipped)
    ensures AmbiguousOf(refunds, Some(a + [f] + b), line, meansNotShipped)
            == AmbiguousOf(refunds, Some(a + b), line, meansNotShipped)
  {
    OneFulfillment(a, f, b, line.id);
  }

  // ---------- What was refunded ----------

  function Positive(): Item -> bool { (item: Item) => item.quantity > 0 }

  /** The items of all refunds, in order. */
  function AllItems(refunds: seq<Refund>): seq<Item> {
    if refunds == [] then [] else AllItems(refunds[..|refunds| - 1]) + refunds[|refunds| - 1].items
  }

  predicate Fresh(items: seq<Item>) {
    forall i, j :: 0 <= i < j < |items| && items[i].id.Some? ==> items[i].id != items[j].id
  }

  ghost predicate IdsAmong(ids: set<nat>, items: seq<Item>) {
    forall id :: id in ids ==> exists item :: item in items && item.id == Some(id)
  }

  lemma {:induction false} TakeFresh(l: Ledger, seen: seq<Item>, items: seq<Item>)
    requires Fresh(seen + items) && IdsAmong(l.items, seen)
    ensures var m := TakeItems(l, items);
            m.refunds == l.refunds && m.entries == l.entries + Only(items, Positive()) && IdsAmong(m.items, seen + items)
  {
    if items != [] {
      var init, last := items[..|items| - 1], items[|items| - 1];
      var all := seen + items;
      assert items == init + [last] && all == seen + init + [last];
      assert Fresh(seen + init) by {
        assert forall i :: 0 <= i < |seen + init| ==> (seen + init)[i] == all[i];
      }
      TakeFresh(l, seen, init);
      OnlyPlus(init, Positive(), last);
      assert forall item :: item in seen + init ==> item in all;
      assert last in all;
      if last.id.Some? {
        forall item | item in seen + init ensures item.id != last.id {
          var i :| 0 <= i < |seen + init| && (seen + init)[i] == item;
          assert all[i] == item && all[|all| - 1] == last;
        }
      }
    }
  }

  /** When nothing is delivered twice, every item with a positive quantity is taken, in order. */
  lemma {:induction false} NothingIsLost(refunds: seq<Refund>)
    requires forall i, j :: 0 <= i < j < |refunds| && refunds[i].id.Some? ==> refunds[i].id != refunds[j].id
    requires Fresh(AllItems(refunds))
    ensures var l := TakeRefunds(refunds);
            && l.entries == Only(AllItems(refunds), Positive()) && IdsAmong(l.items, AllItems(refunds))
            && forall id :: id in l.refunds ==> exists refund :: refund in refunds && refund.id == Some(id)
  {
    if refunds != [] {
      var init, last := refunds[..|refunds| - 1], refunds[|refunds| - 1];
      assert refunds == init + [last];
      var seen := AllItems(init);
      assert Fresh(seen) by { assert forall i :: 0 <= i < |seen| ==> AllItems(refunds)[i] == seen[i]; }
      NothingIsLost(init);
      var l := TakeRefunds(init);
      assert !(last.id.Some? && last.id.value in l.refunds);
      TakeFresh(if last.id.Some? then l.(refunds := l.refunds + {last.id.value}) else l, seen, last.items);
      OnlyConcat(seen, last.items, Positive());
    }
  }

  /** The refund items of one line, each counted once. */
  function MyItems(refunds: seq<Refund>, line: nat): seq<Item> {
    Only(TakeRefunds(refunds).entries, Mine(line))
  }

  function Mine(line: nat): Item -> bool { (item: Item) => item.line == line }

  function OfKind(restock: Restock): Item -> bool { (item: Item) => item.restock == restock }

  function QuantityOf(): Item -> int { (item: Item) => item.quantity }

  function CentsOf(): Item -> int { (item: Item) => item.cents }

  function UnitsOfKind(items: seq<Item>, restock: Restock): int { Sum(Only(items, OfKind(restock)), QuantityOf()) }

  /** The units of an item, if it is of the kind. */
  function KindUnits(restock: Restock): Item -> int { (item: Item) => if item.restock == restock then item.quantity else 0 }

  lemma CountedByKind(entries: seq<Item>, line: nat, restock: Restock)
    ensures Sum(entries, Units(line, restock)) == UnitsOfKind(Only(entries, Mine(line)), restock)
  {
    SumOfOnly(entries, Mine(line), KindUnits(restock), Units(line, restock));
    SumOfOnly(Only(entries, Mine(line)), OfKind(restock), QuantityOf(), KindUnits(restock));
  }

  lemma {:induction false} KindsAddUp(items: seq<Item>)
    ensures Sum(items, QuantityOf()) == UnitsOfKind(items, Cancel) + UnitsOfKind(items, NoRestock) + UnitsOfKind(items, Other)
  {
    if items != [] {
      var init, last := items[..|items| - 1], items[|items| - 1];
      assert items == init + [last];
      KindsAddUp(init);
      OnlyPlus(init, OfKind(Cancel), last);
      OnlyPlus(init, OfKind(NoRestock), last);
      OnlyPlus(init, OfKind(Other), last);
      SumPlus(Only(init, OfKind(last.restock)), QuantityOf(), last);
    }
  }

  /** There is an item of the kind. */
  predicate Has(items: seq<Item>, restock: Restock) { exists item :: item in items && item.restock == restock }

  /** Counted items of a kind add up to more than nothing exactly when there is one. */
  lemma {:induction false} SomeUnits(items: seq<Item>, restock: Restock)
    requires forall item :: item in items ==> Counts(item)
    ensures UnitsOfKind(items, restock) >= 0
    ensures UnitsOfKind(items, restock) > 0 <==> Has(items, restock)
  {
    if items != [] {
      var init, last := items[..|items| - 1], items[|items| - 1];
      assert items == init + [last] && Counts(last);
      SomeUnits(init, restock);
      OnlyPlus(init, OfKind(restock), last);
      if last.restock == restock { SumPlus(Only(init, OfKind(restock)), QuantityOf(), last); }
    }
  }

  lemma AllCents(entries: seq<Item>, line: nat)
    ensures Sum(entries, Cents(line, true)) == Sum(Only(entries, Mine(line)), CentsOf())
  {
    SumOfOnly(entries, Mine(line), CentsOf(), Cents(line, true));
  }

  lemma ShippedCents(entries: seq<Item>, line: nat)
    requires forall item :: item in Only(entries, Mine(line)) ==> !item.restock.Other?
    ensures Sum(entries, Cents(line, false)) == Sum(Only(entries, Mine(line)), CentsOf())
  {
    forall item | item in entries ensures Mine(line)(item) ==> !item.restock.Other? {
      OnlyMembers(entries, Mine(line), item);
    }
    SumOfOnly(entries, Mine(line), CentsOf(), Cents(line, false));
  }

  lemma MyItemsCount(refunds: seq<Refund>, line: nat)
    ensures forall item :: item in MyItems(refunds, line) ==> Counts(item)
  {
    EntriesCount(refunds);
    forall item | item in MyItems(refunds, line) ensures Counts(item) {
      OnlyMembers(TakeRefunds(refunds).entries, Mine(line), item);
    }
  }

  // ---------- The adjustment of a line ----------

  /** When the refunds of a line block it: in terms of its own items, its quantities and the fulfillments. */
  predicate Blocks(items: seq<Item>, fulfillments: Option<seq<Fulfillment>>, line: Line, meansNotShipped: bool) {
    var units := Sum(items, QuantityOf());
    || units > line.quantity
    || (line.current.Some? && line.current.value != line.quantity - units)
    || (!meansNotShipped
        && (|| Has(items, Other)
            || (fulfillments.None? && Has(items, NoRestock))
            || (fulfillments.Some? && DeliveredUnits(fulfillments.value, line.id) > line.quantity - units)))
  }

  lemma UnitsOfLine(refunds: seq<Refund>, line: nat)
    ensures var items, r := MyItems(refunds, line), RefundedOf(TakeRefunds(refunds).entries, line);
            && r.cancelled == UnitsOfKind(items, Cancel) && r.noRestock == UnitsOfKind(items, NoRestock)
            && r.other == UnitsOfKind(items, Other)
  {
    var entries := TakeRefunds(refunds).entries;
    CountedByKind(entries, line, Cancel);
    CountedByKind(entries, line, NoRestock);
    CountedByKind(entries, line, Other);
  }

  /** The units collected of a line are those of its own items. */
  predicate CollectedUnits(items: seq<Item>, r: Refunded) {
    && AllUnits(r) == Sum(items, QuantityOf()) && 0 <= r.cancelled && 0 <= r.noRestock && 0 <= r.other
    && (r.other > 0 <==> Has(items, Other)) && (r.noRestock > 0 <==> Has(items, NoRestock))
  }

  /** So is the money, when nothing was returned. */
  predicate CollectedCents(items: seq<Item>, r: Refunded) {
    && r.allCents == Sum(items, CentsOf()) && (!Has(items, Other) ==> r.shippedCents == Sum(items, CentsOf()))
    && (Sum(items, QuantityOf()) == 0 ==> Sum(items, CentsOf()) == 0)
  }

  lemma KindsOfCounted(items: seq<Item>, r: Refunded)
    requires forall item :: item in items ==> Counts(item)
    requires r.cancelled == UnitsOfKind(items, Cancel) && r.noRestock == UnitsOfKind(items, NoRestock)
    requires r.other == UnitsOfKind(items, Other)
    ensures CollectedUnits(items, r)
  {
    KindsAddUp(items);
    SomeUnits(items, Cancel);
    SomeUnits(items, NoRestock);
    SomeUnits(items, Other);
  }

  lemma UnitsCollected(refunds: seq<Refund>, line: nat)
    ensures CollectedUnits(MyItems(refunds, line), RefundedOf(TakeRefunds(refunds).entries, line))
  {
    MyItemsCount(refunds, line);
    UnitsOfLine(refunds, line);
    KindsOfCounted(MyItems(refunds, line), RefundedOf(TakeRefunds(refunds).entries, line));
  }

  lemma CentsCollected(refunds: seq<Refund>, line: nat)
    ensures CollectedCents(MyItems(refunds, line), RefundedOf(TakeRefunds(refunds).entries, line))
  {
    var items := MyItems(refunds, line);
    MyItemsCount(refunds, line);
    AllCents(TakeRefunds(refunds).entries, line);
    if Sum(items, QuantityOf()) == 0 { NoItems(items); }
    if !Has(items, Other) { ShippedCents(TakeRefunds(refunds).entries, line); }
  }

  /**
   * The whole adjustment of a line, counted afresh. A line is blocked exactly for the reasons above
   * and then keeps everything; otherwise all its refunded units and their money leave it.
   */
  lemma AdjustmentFromItsItems(
      refunds: seq<Refund>, fulfillments: Option<seq<Fulfillment>>, line: Line, meansNotShipped: bool)
    ensures var items, a := MyItems(refunds, line.id), AdjustmentOf(refunds, fulfillments, line, meansNotShipped);
            && (AmbiguousOf(refunds, fulfillments, line, meansNotShipped) <==> Blocks(items, fulfillments, line, meansNotShipped))
            && a.original == line.quantity && a.refunded == Sum(items, QuantityOf())
            && a.excluded == (if Blocks(items, fulfillments, line, meansNotShipped) then 0 else Sum(items, QuantityOf()))
            && a.remaining == line.quantity - a.excluded
            && a.excludedCents == (if Blocks(items, fulfillments, line, meansNotShipped) then 0 else Sum(items, CentsOf()))
            && (fulfillments.Some? ==> a.fulfilled == Some(DeliveredUnits(fulfillments.value, line.id)))
  {
    UnitsCollected(refunds, line.id);
    CentsCollected(refunds, line.id);
    if fulfillments.Some? { ShippedIsDelivered(fulfillments.value, line.id); }
  }

  lemma {:induction false} NoItems(items: seq<Item>)
    requires (forall item :: item in items ==> Counts(item)) && Sum(items, QuantityOf()) == 0
    ensures items == []
  {
    if items != [] {
      assert Counts(items[|items| - 1]);
      PositiveUnits(items[..|items| - 1]);
    }
  }

  lemma {:induction false} PositiveUnits(items: seq<Item>)
    requires forall item :: item in items ==> Counts(item)
    ensures Sum(items, QuantityOf()) >= 0
  {
    if items != [] {
      assert Counts(items[|items| - 1]);
      PositiveUnits(items[..|items| - 1]);
    }
  }

  /** Under the careful policy no shipped unit of a line that is not blocked is taken from it. */
  lemma ShippedUnitsStay(refunds: seq<Refund>, fulfillments: seq<Fulfillment>, line: Line)
    ensures !AmbiguousOf(refunds, Some(fulfillments), line, false) ==>
              DeliveredUnits(fulfillments, line.id) + AdjustmentOf(refunds, Some(fulfillments), line, false).excluded <= line.quantity
  {
    AdjustmentFromItsItems(refunds, Some(fulfillments), line, false);
  }
}

/**
 * From the claim of an order to the lookup of its invoices: the floor that a claim reads from the
 * invoice index lies below every invoice of the order its row ends up naming.
 */
module FloorPath {
  import opened Prelude
  import O = OrderProtocol
  import I = InvoiceIndex
  import InvoiceLookup

  /** The row names an order and carries a floor that a claim read at this instant. */
  predicate CarriesFloor(w: O.World, order: nat, at: nat) {
    w.row.Some? && w.row.value.order == Some(order) && w.row.value.floorAt == Some(at)
  }

  /** No invoice of an order is created before the order. */
  ghost predicate InvoicedLater(w: I.World, code: string, createdAt: int) {
    forall inv :: inv in w.remote && inv.order == Some(code) ==> createdAt <= inv.createdAt
  }

  /**
   * Whatever claims, requeues and links led to the row: if the claim whose floor it carries read
   * `floor` from the index as it was at that instant, then in every later state of the index the
   * floor is one a lookup may rely on for the order the row names.
   */
  lemma RecordedFloorIsBelow(
      orders: seq<O.Step>, order: nat, claimed: I.World, floor: Option<nat>, after: seq<I.Step>, code: string)
    requires CarriesFloor(O.Run(O.Start, orders), order, claimed.now)
    requires I.Inv(claimed) && InvoiceLookup.IsFloor(claimed.rows, floor)
    requires order in O.Run(O.Start, orders).landed ==>
               InvoicedLater(I.Run(claimed, after), code, O.Run(O.Start, orders).landed[order])
    ensures InvoiceLookup.FloorBelow(I.Run(claimed, after), floor, code)
  {
    O.FloorPrecedesItsOrder(orders);
    I.RunKeepsInv(claimed, after);
  }
}

/**
 * A product-only order is priced twice: when it is created, line by line, and when its invoice is
 * planned, from the unit prices of the audit. This module proves that the two agree.
 */
module CreationAgreement {
  import opened Prelude
  import opened SetSum
  import opened Merchandise
  import opened InvoicePlan
  import InvoiceAudit
  import RefundAdjustments

  /** Every SKU of the order has its product. */
  predicate Mapped(lines: seq<Prepared>) { forall p :: p in lines ==> p.line.product.Some? }

  /** Every kept line comes from an original line with the same id. */
  lemma {:induction false} KeptIsOriginal(lines: seq<Line>, adjusted: map<nat, RefundAdjustments.Adjustment>,
      p: Prepared)
    requires p in Kept(lines, adjusted)
    ensures p.line in lines && p.quantity == RemainingOf(adjusted, p.line) > 0
  {
    var init, last := lines[..|lines| - 1], lines[|lines| - 1];
    if p in Kept(init, adjusted) { KeptIsOriginal(init, adjusted, p); }
  }

  /** With one line per id the planner expects of a kept line the price it was created with. */
  lemma CreatedAtTheExpectedPrice(lines: seq<Line>, adjusted: map<nat, RefundAdjustments.Adjustment>, p: Prepared)
    requires InvoiceAudit.OneLinePerId(lines) && p in Kept(lines, adjusted)
    ensures ExpectedPrice(p, InvoiceAudit.PricesOf(lines, adjusted)) == DetailPrice(p)
  {
    KeptIsOriginal(lines, adjusted, p);
    var k :| 0 <= k < |lines| && lines[k] == p.line;
    InvoiceAudit.PriceOfALine(lines, adjusted, k);
  }

  lemma {:induction false} SameDetails(kept: seq<Prepared>, unitPrices: map<nat, int>)
    requires forall p :: p in kept ==> ExpectedPrice(p, unitPrices) == DetailPrice(p)
    ensures ExpectedDetails(kept, unitPrices) == Details(kept)
  {
    if kept != [] {
      assert kept[|kept| - 1] in kept;
      SameDetails(kept[..|kept| - 1], unitPrices);
    }
  }

  lemma CreatedAsExpected(lines: seq<Line>, adjusted: map<nat, RefundAdjustments.Adjustment>)
    requires InvoiceAudit.OneLinePerId(lines)
    ensures ExpectedDetails(Kept(lines, adjusted), InvoiceAudit.PricesOf(lines, adjusted))
            == Details(Kept(lines, adjusted))
  {
    forall p | p in Kept(lines, adjusted)
      ensures ExpectedPrice(p, InvoiceAudit.PricesOf(lines, adjusted)) == DetailPrice(p)
    {
      CreatedAtTheExpectedPrice(lines, adjusted, p);
    }
    SameDetails(Kept(lines, adjusted), InvoiceAudit.PricesOf(lines, adjusted));
  }

  /**
   * Planning the invoice of an order from its original lines and the unit prices of their audit
   * finds nothing wrong with the lines, quantities, prices, surcharges and total of the order as it
   * was created from those lines, exactly when each product has one price.
   */
  lemma CreatedOrderPlansCleanly(
      lines: seq<Line>, adjusted: map<nat, RefundAdjustments.Adjustment>, isPaid: bool, ignoreMismatch: bool)
    requires InvoiceAudit.OneLinePerId(lines) && Mapped(Kept(lines, adjusted))
    ensures var kept, unitPrices := Kept(lines, adjusted), InvoiceAudit.PricesOf(lines, adjusted);
            (forall reason :: !Reported(reason, kept, unitPrices, CreatedOrder(kept, isPaid), ignoreMismatch)) <==>
              OnePricePerProduct(Details(kept))
  {
    CreatedAsExpected(lines, adjusted);
    SameDetailsPlanCleanly(Kept(lines, adjusted), InvoiceAudit.PricesOf(lines, adjusted), isPaid, ignoreMismatch);
  }

  /** Planned line by line over the products, or audited line by line over the order, the invoice is worth the same. */
  lemma PlannedTotalIsTheAudited(lines: seq<Line>, adjusted: map<nat, RefundAdjustments.Adjustment>)
    requires InvoiceAudit.OneLinePerId(lines) && Mapped(Kept(lines, adjusted))
    requires forall line :: line in lines ==>
               RemainingOf(adjusted, line) >= 0 && line.quantity > 0 && !InvoiceAudit.Unrepresentable(adjusted, line)
    requires OnePricePerProduct(Details(Kept(lines, adjusted)))
    ensures TallyTotal(Tallied(ExpectedDetails(Kept(lines, adjusted), InvoiceAudit.PricesOf(lines, adjusted))))
            == Sum(lines, InvoiceAudit.InvoicedCents(adjusted))
  {
    var kept := Kept(lines, adjusted);
    forall p | p in kept ensures Representable(p) {
      KeptIsOriginal(lines, adjusted, p);
      assert !InvoiceAudit.Unrepresentable(adjusted, p.line);
    }
    CreatedAsExpected(lines, adjusted);
    TallyIsTheSum(Details(kept));
    PaidIsTheDetailsTotal(kept);
    InvoiceAudit.InvoicedIsThePrepayment(lines, adjusted);
  }
}

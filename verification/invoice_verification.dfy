/** Checking an invoice read back from KiotViet against the lines it was expected to carry. */
module InvoiceVerification {
  import opened Prelude
  import opened SetSum
  import opened Merchandise
  import opened InvoicePlan
  import PlanMeaning

  datatype ExpectedLine = ExpectedLine(product: nat, quantity: int, price: int)

  /** The invoice as it was read back. */
  datatype Invoice = Invoice(
    branch: nat, orderCode: string, status: int, lines: seq<Detail>, total: int, surcharges: seq<int>)

  /**
   * What the row remembers of the plan. A validation reason is its code, the text before the colon;
   * `approved` are the codes an administrator accepted.
   */
  datatype Expectation = Expectation(
    branch: Option<nat>, orderCode: string, lines: seq<ExpectedLine>, total: Option<int>,
    reasons: seq<string>, approved: set<string>, stockBefore: Stock)

  const COMPLETED := 1

  /** Stock of one branch by product; an absent product or null could not be read. */
  type Stock = map<nat, int>

  function AsDetail(e: ExpectedLine): Detail { Detail(e.product, e.quantity, e.price, 0) }

  function AsDetails(expected: seq<ExpectedLine>): (r: seq<Detail>)
    ensures |r| == |expected| && forall i :: 0 <= i < |expected| ==> r[i] == AsDetail(expected[i])
  {
    if expected == [] then [] else AsDetails(expected[..|expected| - 1]) + [AsDetail(expected[|expected| - 1])]
  }

  ghost predicate OneLinePerProduct(expected: seq<ExpectedLine>) {
    forall i, j :: 0 <= i < j < |expected| ==> expected[i].product != expected[j].product
  }

  ghost predicate DistinctLines(expected: seq<ExpectedLine>) {
    forall i, j :: 0 <= i < j < |expected| ==> expected[i] != expected[j]
  }

  /** The planner's expected lines, made from its tally: one line per product. */
  method ExpectedLines(expected: map<nat, Tally>) returns (lines: seq<ExpectedLine>)
    ensures OneLinePerProduct(lines)
    ensures forall e :: e in lines <==>
              e.product in expected && e == ExpectedLine(e.product, expected[e.product].quantity, expected[e.product].price)
  {
    lines := [];
    var todo := expected.Keys;
    while todo != {}
      invariant todo <= expected.Keys && OneLinePerProduct(lines)
      invariant forall e :: e in lines <==>
                  e.product in expected.Keys - todo && e == ExpectedLine(e.product, expected[e.product].quantity, expected[e.product].price)
      decreases |todo|
    {
      var p :| p in todo;
      assert forall i :: 0 <= i < |lines| ==> lines[i] in lines;
      lines := lines + [ExpectedLine(p, expected[p].quantity, expected[p].price)];
      todo := todo - {p};
    }
  }

  // ---------- Lines ----------

  method HasMatch(e: ExpectedLine, actual: seq<Detail>) returns (found: bool)
    ensures found <==> AsDetail(e) in actual
  {
    for i := 0 to |actual|
      invariant AsDetail(e) !in actual[..i]
    {
      var a := actual[i];
      assert actual[..i + 1] == actual[..i] + [a];
      if a.product == e.product && a.quantity == e.quantity && a.price == e.price && a.discount == 0 { return true; }
    }
    assert actual[..|actual|] == actual;
    found := false;
  }

  /** The check of finalizeInvoice: both sides have lines, equally many, and every expected line has a match. */
  method LinesCheck(expected: seq<ExpectedLine>, actual: seq<Detail>) returns (ok: bool)
    ensures ok <==> Passes(expected, actual)
  {
    if actual == [] || expected == [] || |actual| != |expected| { return false; }
    for i := 0 to |expected|
      invariant forall k :: 0 <= k < i ==> AsDetail(expected[k]) in actual
    {
      var found := HasMatch(expected[i], actual);
      if !found { return false; }
    }
    ok := true;
  }

  predicate Passes(expected: seq<ExpectedLine>, actual: seq<Detail>) {
    actual != [] && expected != [] && |actual| == |expected| && forall k :: 0 <= k < |expected| ==> AsDetail(expected[k]) in actual
  }

  /** Removing one occurrence from both sides. */
  lemma RemoveOne(actual: seq<Detail>, d: Detail) returns (rest: seq<Detail>)
    requires d in actual
    ensures |rest| == |actual| - 1 && multiset(actual) == multiset(rest) + multiset{d}
    ensures forall x :: x in actual && x != d ==> x in rest
  {
    var i :| 0 <= i < |actual| && actual[i] == d;
    rest := actual[..i] + actual[i + 1..];
    assert actual == actual[..i] + [d] + actual[i + 1..];
  }

  lemma {:induction false} Pigeonhole(expected: seq<ExpectedLine>, actual: seq<Detail>)
    requires DistinctLines(expected) && |actual| == |expected|
    requires forall k :: 0 <= k < |expected| ==> AsDetail(expected[k]) in actual
    ensures multiset(actual) == multiset(AsDetails(expected))
  {
    if expected == [] {
      assert actual == [];
    } else {
      var init, last := expected[..|expected| - 1], expected[|expected| - 1];
      var rest := RemoveOne(actual, AsDetail(last));
      forall k | 0 <= k < |init| ensures AsDetail(init[k]) in rest {
        assert AsDetail(expected[k]) in actual && expected[k] != last;
      }
      Pigeonhole(init, rest);
    }
  }

  /** With distinct lines the check passes exactly when the invoice has them, no more, no less and none repriced. */
  lemma LinesAreExactlyTheExpected(expected: seq<ExpectedLine>, actual: seq<Detail>)
    requires DistinctLines(expected)
    ensures Passes(expected, actual) <==> expected != [] && multiset(actual) == multiset(AsDetails(expected))
  {
    if Passes(expected, actual) {
      Pigeonhole(expected, actual);
    } else if multiset(actual) == multiset(AsDetails(expected)) {
      assert |multiset(actual)| == |actual| && |multiset(AsDetails(expected))| == |expected|;
      forall k | 0 <= k < |expected| ensures AsDetail(expected[k]) in actual {
        assert AsDetails(expected)[k] in multiset(AsDetails(expected));
      }
    }
  }

  /** One of two identical lines may be any other line, here one with a discount. */
  lemma RepeatedLineHidesAnother(expected: seq<ExpectedLine>, i: nat, j: nat) returns (actual: seq<Detail>)
    requires i < j < |expected| && expected[i] == expected[j]
    ensures Passes(expected, actual) && multiset(actual) != multiset(AsDetails(expected))
  {
    var foreign := AsDetail(expected[j]).(discount := 1);
    actual := AsDetails(expected)[j := foreign];
    forall k | 0 <= k < |expected| ensures AsDetail(expected[k]) in actual {
      assert actual[if k == j then i else k] == AsDetail(expected[k]);
    }
    assert actual[j] in multiset(actual);
    assert foreign !in AsDetails(expected);
  }

  /** The check accepts nothing but the expected lines if and only if no two of them are identical. */
  lemma CheckIsExactForDistinctLines(expected: seq<ExpectedLine>)
    requires expected != []
    ensures (forall actual :: Passes(expected, actual) ==> multiset(actual) == multiset(AsDetails(expected)))
            <==> DistinctLines(expected)
  {
    if DistinctLines(expected) {
      forall actual | Passes(expected, actual) ensures multiset(actual) == multiset(AsDetails(expected)) {
        Pigeonhole(expected, actual);
      }
    } else {
      var i, j :| 0 <= i < j < |expected| && expected[i] == expected[j];
      var actual := RepeatedLineHidesAnother(expected, i, j);
      assert Passes(expected, actual);
    }
  }

  // ---------- Stock ----------

  /** Units expected of one product. */
  function Units(product: nat): ExpectedLine -> int {
    (e: ExpectedLine) => if e.product == product then e.quantity else 0
  }

  predicate Moved(before: Stock, after: Stock, product: nat, quantity: int) {
    product in before && product in after && after[product] == before[product] - quantity
  }

  /** verifyStockMovement: every expected product moved by exactly its expected units. */
  method VerifyStock(expected: seq<ExpectedLine>, before: Stock, after: Stock) returns (ok: bool)
    ensures ok <==> forall e :: e in expected ==> Moved(before, after, e.product, Sum(expected, Units(e.product)))
  {
    var quantities: map<nat, int> := map[];
    for i := 0 to |expected|
      invariant forall product :: product in quantities <==> exists e :: e in expected[..i] && e.product == product
      invariant forall product :: product in quantities ==> quantities[product] == Sum(expected[..i], Units(product))
      invariant forall product :: product !in quantities ==> Sum(expected[..i], Units(product)) == 0
    {
      var e := expected[i];
      assert expected[..i + 1] == expected[..i] + [e];
      forall product ensures Sum(expected[..i + 1], Units(product)) == Sum(expected[..i], Units(product)) + Units(product)(e) {
        SumPlus(expected[..i], Units(product), e);
      }
      quantities := quantities[e.product := (if e.product in quantities then quantities[e.product] else 0) + e.quantity];
    }
    assert expected[..|expected|] == expected;
    ok := forall product :: product in quantities ==> Moved(before, after, product, quantities[product]);
  }

  // ---------- The status of the invoice ----------

  /** The stock of every expected product fell by all its expected units. */
  predicate StockFell(expected: Expectation, after: Stock) {
    forall e :: e in expected.lines ==>
      && e.product in expected.stockBefore && e.product in after
      && after[e.product] == expected.stockBefore[e.product] - Sum(expected.lines, Units(e.product))
  }

  /** Every check of a product-only invoice, and the stock. Status 1 is that of a completed invoice. */
  predicate Settled(expected: Expectation, invoice: Invoice, after: Option<Stock>) {
    && expected.branch == Some(invoice.branch) && invoice.orderCode == expected.orderCode
    && invoice.status == 1 && (forall reason :: reason in expected.reasons ==> reason in expected.approved)
    && Passes(expected.lines, invoice.lines)
    && expected.total == Some(invoice.total) && Sum(invoice.surcharges, Identity()) == 0
    && after.Some? && StockFell(expected, after.value)
  }

  method AllApproved(reasons: seq<string>, approved: set<string>) returns (ok: bool)
    ensures ok <==> forall reason :: reason in reasons ==> reason in approved
  {
    for i := 0 to |reasons|
      invariant forall reason :: reason in reasons[..i] ==> reason in approved
    {
      assert reasons[..i + 1] == reasons[..i] + [reasons[i]];
      if reasons[i] !in approved {
        assert reasons[i] in reasons;
        return false;
      }
    }
    assert reasons[..|reasons|] == reasons;
    ok := true;
  }

  method SumSurcharges(surcharges: seq<int>) returns (total: int)
    ensures total == Sum(surcharges, Identity())
  {
    total := 0;
    for i := 0 to |surcharges|
      invariant total == Sum(surcharges[..i], Identity())
    {
      assert surcharges[..i + 1] == surcharges[..i] + [surcharges[i]];
      SumPlus(surcharges[..i], Identity(), surcharges[i]);
      total := total + surcharges[i];
    }
    assert surcharges[..|surcharges|] == surcharges;
  }

  /**
   * finalizeInvoice: a product-only invoice is recorded as created when every check passes; `after` is
   * None when the stock could not be read.
   */
  method FinalizeProductOnly(expected: Expectation, invoice: Invoice, after: Option<Stock>) returns (created: bool)
    ensures created <==> Settled(expected, invoice, after)
  {
    var branch := expected.branch.Some? && invoice.branch == expected.branch.value;
    var validation := AllApproved(expected.reasons, expected.approved);
    var lines := LinesCheck(expected.lines, invoice.lines);
    var surcharges := SumSurcharges(invoice.surcharges);
    var total := expected.total.Some? && invoice.total == expected.total.value && surcharges == 0;
    var stock := false;
    if after.Some? && expected.branch.Some? && expected.lines != [] {
      stock := VerifyStock(expected.lines, expected.stockBefore, after.value);
    }
    created := branch && validation && lines && invoice.orderCode == expected.orderCode
               && invoice.status == COMPLETED && total && stock;
  }

  /** Units of one product on an invoice. */
  function InvoicedUnits(product: nat): Detail -> int {
    (d: Detail) => if d.product == product then d.quantity else 0
  }

  lemma {:induction false} UnitsAsDetails(expected: seq<ExpectedLine>, product: nat)
    ensures Sum(AsDetails(expected), InvoicedUnits(product)) == Sum(expected, Units(product))
  {
    if expected != [] {
      var init, last := expected[..|expected| - 1], expected[|expected| - 1];
      UnitsAsDetails(init, product);
      SumPlus(AsDetails(init), InvoicedUnits(product), AsDetail(last));
    }
  }

  /**
   * What a created status stands for: with distinct expected lines the invoice has exactly these,
   * undiscounted, and the stock of every invoiced product fell by all its invoiced units.
   */
  lemma CreatedMeansDelivered(expected: Expectation, invoice: Invoice, after: Stock)
    requires DistinctLines(expected.lines) && Settled(expected, invoice, Some(after))
    ensures multiset(invoice.lines) == multiset(AsDetails(expected.lines))
    ensures forall d :: d in invoice.lines ==>
              && d.discount == 0 && d.product in expected.stockBefore && d.product in after
              && after[d.product] == expected.stockBefore[d.product] - PlanMeaning.UnitsOf(invoice.lines, d.product)
  {
    LinesAreExactlyTheExpected(expected.lines, invoice.lines);
    forall d | d in invoice.lines
      ensures d.discount == 0
      ensures Moved(expected.stockBefore, after, d.product, PlanMeaning.UnitsOf(invoice.lines, d.product))
    {
      assert d in multiset(invoice.lines);
      assert d in AsDetails(expected.lines);
      var k :| 0 <= k < |expected.lines| && AsDetails(expected.lines)[k] == d;
      assert expected.lines[k] in expected.lines;
      UnitsAsDetails(expected.lines, d.product);
      SumOfPermutation(invoice.lines, AsDetails(expected.lines), InvoicedUnits(d.product));
      SumOfOnly(invoice.lines, PlanMeaning.OfProduct(d.product), PlanMeaning.QuantityOf(), InvoicedUnits(d.product));
    }
  }
}

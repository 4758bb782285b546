/** Planning the invoice of a product-only order against the KiotViet order it was created as. */
module InvoicePlan {
  import opened Prelude
  import opened SetSum
  import opened Merchandise

  datatype Detail = Detail(product: nat, quantity: int, price: int, discount: int)

  /** A KiotViet order as the planner reads it back. */
  datatype KiotVietOrder = KiotVietOrder(details: seq<Detail>, surcharges: seq<int>, total: int, prepaid: int)

  datatype Tally = Tally(quantity: int, price: int, discount: int)

  datatype Reason =
    SkuUnmapped | PriceConflict | LineMissing | QuantityMismatch | PriceMismatch | UnsupportedDiscount | ExtraLine | HasSurcharge | TotalMismatch

  // ---------- Creation ----------

  function DetailOf(p: Prepared): Detail
    requires p.line.product.Some?
  {
    Detail(p.line.product.value, p.quantity, DetailPrice(p), 0)
  }

  /** The details of the mapped lines, in order. */
  function Details(lines: seq<Prepared>): seq<Detail> {
    if lines == [] then []
    else
      var last := lines[|lines| - 1];
      Details(lines[..|lines| - 1]) + if last.line.product.Some? then [DetailOf(last)] else []
  }

  function DetailCents(d: Detail): int { d.price * d.quantity }

  function DetailsTotal(details: seq<Detail>): int {
    Sum(details, DetailCents)
  }

  /** plannedOrderPayment: nothing unless the customer paid, otherwise the merchandise of the remaining units. */
  function Prepayment(lines: seq<Prepared>, isPaid: bool): int { if isPaid then MerchandisePaid(lines) else 0 }

  /** The order KiotViet stores for a product-only order: its lines, their sum, no surcharge, the payment sent. */
  function CreatedOrder(lines: seq<Prepared>, isPaid: bool): KiotVietOrder {
    KiotVietOrder(Details(lines), [], DetailsTotal(Details(lines)), Prepayment(lines, isPaid))
  }

  // ---------- Planning ----------

  /** The price the planner expects: the audited unit price of the line, or its list price when the audit has none. */
  function ExpectedPrice(p: Prepared, unitPrices: map<nat, int>): int {
    if p.line.id in unitPrices then unitPrices[p.line.id] else p.line.list
  }

  function ExpectedDetail(p: Prepared, unitPrices: map<nat, int>): Detail
    requires p.line.product.Some?
  {
    Detail(p.line.product.value, p.quantity, ExpectedPrice(p, unitPrices), 0)
  }

  /** What the planner expects of the mapped lines, in order. */
  function ExpectedDetails(lines: seq<Prepared>, unitPrices: map<nat, int>): seq<Detail> {
    if lines == [] then []
    else
      var last := lines[|lines| - 1];
      ExpectedDetails(lines[..|lines| - 1], unitPrices)
      + if last.line.product.Some? then [ExpectedDetail(last, unitPrices)] else []
  }

  function AddDetail(m: map<nat, Tally>, d: Detail): map<nat, Tally> {
    var prior := if d.product in m then m[d.product] else Tally(0, 0, 0);
    m[d.product := Tally(prior.quantity + d.quantity, d.price, prior.discount + d.discount)]
  }

  /** Quantities and discounts per product, with the price of its last line. */
  function Tallied(details: seq<Detail>): map<nat, Tally> {
    if details == [] then map[] else AddDetail(Tallied(details[..|details| - 1]), details[|details| - 1])
  }

  ghost predicate OnePricePerProduct(details: seq<Detail>) {
    forall d, e :: d in details && e in details && d.product == e.product ==> d.price == e.price
  }

  function Worth(m: map<nat, Tally>): nat -> int {
    (product: nat) => if product in m then m[product].price * m[product].quantity else 0
  }

  ghost function TallyTotal(m: map<nat, Tally>): int { Over(m.Keys, Worth(m)) }

  method TallyDetails(details: seq<Detail>) returns (m: map<nat, Tally>)
    ensures m == Tallied(details)
  {
    m := map[];
    for i := 0 to |details|
      invariant m == Tallied(details[..i])
    {
      assert details[..i + 1][..i] == details[..i];
      m := AddDetail(m, details[i]);
    }
    assert details[..|details|] == details;
  }

  /** The expected lines, with the SKUs that are not mapped and the products that appear at two prices. */
  method TallyExpected(lines: seq<Prepared>, unitPrices: map<nat, int>)
    returns (m: map<nat, Tally>, unmapped: bool, conflict: bool)
    ensures m == Tallied(ExpectedDetails(lines, unitPrices))
    ensures unmapped <==> exists p :: p in lines && p.line.product.None?
    ensures conflict <==> !OnePricePerProduct(ExpectedDetails(lines, unitPrices))
  {
    m, unmapped, conflict := map[], false, false;
    for i := 0 to |lines|
      invariant m == Tallied(ExpectedDetails(lines[..i], unitPrices))
      invariant unmapped <==> exists p :: p in lines[..i] && p.line.product.None?
      invariant conflict <==> !OnePricePerProduct(ExpectedDetails(lines[..i], unitPrices))
    {
      assert lines[..i + 1] == lines[..i] + [lines[i]];
      ExpectedStep(lines[..i], lines[i], unitPrices);
      var p := lines[i];
      if p.line.product.None? {
        unmapped := true;
      } else {
        var price := if p.line.id in unitPrices then unitPrices[p.line.id] else p.line.list;
        var d := Detail(p.line.product.value, p.quantity, price, 0);
        ConflictStep(ExpectedDetails(lines[..i], unitPrices), d);
        if d.product in m && m[d.product].price != d.price { conflict := true; }
        m := AddDetail(m, d);
      }
    }
    assert lines[..|lines|] == lines;
  }

  lemma ExpectedStep(lines: seq<Prepared>, p: Prepared, unitPrices: map<nat, int>)
    ensures ExpectedDetails(lines + [p], unitPrices) ==
            if p.line.product.Some? then ExpectedDetails(lines, unitPrices) + [ExpectedDetail(p, unitPrices)]
            else ExpectedDetails(lines, unitPrices)
  {
    assert (lines + [p])[..|lines|] == lines;
  }

  lemma DetailsStep(lines: seq<Prepared>, p: Prepared)
    ensures Details(lines + [p]) == if p.line.product.Some? then Details(lines) + [DetailOf(p)] else Details(lines)
  {
    assert (lines + [p])[..|lines|] == lines;
  }

  lemma ConflictStep(details: seq<Detail>, d: Detail)
    ensures var m := Tallied(details);
            OnePricePerProduct(details + [d]) <==> OnePricePerProduct(details) && (d.product in m ==> m[d.product].price == d.price)
    ensures Tallied(details + [d]) == AddDetail(Tallied(details), d)
  {
    assert (details + [d])[..|details|] == details;
    TalliedPrices(details, d.product);
    var m := Tallied(details);
    if OnePricePerProduct(details + [d]) && d.product in m {
      var e :| e in details && e.product == d.product && e.price == m[d.product].price;
      assert e in details + [d] && d in details + [d];
    }
    if OnePricePerProduct(details) && (d.product in m ==> m[d.product].price == d.price) {
      forall x | x in details && x.product == d.product ensures x.price == d.price {
        var e :| e in details && e.product == d.product && e.price == m[d.product].price;
      }
    }
  }

  /** A product is tallied when it has a detail, at the price of one of its details. */
  lemma {:induction false} TalliedPrices(details: seq<Detail>, product: nat)
    ensures product in Tallied(details) <==> exists d :: d in details && d.product == product
    ensures product in Tallied(details) ==>
              exists d :: d in details && d.product == product && d.price == Tallied(details)[product].price
  {
    if details != [] {
      var init, last := details[..|details| - 1], details[|details| - 1];
      TalliedPrices(init, product);
      assert details == init + [last];
      assert last in details;
    }
  }

  // ---------- Comparing an order with what is expected ----------

  /** What can be wrong with one expected product on the KiotViet order. */
  predicate Wrong(reason: Reason, expected: Tally, actual: map<nat, Tally>, product: nat) {
    match reason
    case LineMissing => product !in actual
    case QuantityMismatch => product in actual && actual[product].quantity != expected.quantity
    case PriceMismatch => product in actual && actual[product].price != expected.price
    case UnsupportedDiscount => product in actual && actual[product].discount != 0
    case _ => false
  }

  ghost predicate SomeWrong(reason: Reason, expected: map<nat, Tally>, actual: map<nat, Tally>, products: set<nat>) {
    exists p :: p in products && p in expected && Wrong(reason, expected[p], actual, p)
  }

  predicate TotalExplained(order: KiotVietOrder, linesTotal: int, ignoreMismatch: bool) {
    order.total == linesTotal
    || (ignoreMismatch && Sum(order.surcharges, Identity()) > 0
        && order.total == linesTotal + Sum(order.surcharges, Identity()))
  }

  /** When each reason is reported. */
  ghost predicate Reported(
      reason: Reason, lines: seq<Prepared>, unitPrices: map<nat, int>, order: KiotVietOrder, ignoreMismatch: bool)
  {
    var expected, actual := Tallied(ExpectedDetails(lines, unitPrices)), Tallied(order.details);
    match reason
    case SkuUnmapped => exists p :: p in lines && p.line.product.None?
    case PriceConflict => !OnePricePerProduct(ExpectedDetails(lines, unitPrices))
    case ExtraLine => !(actual.Keys <= expected.Keys)
    case HasSurcharge => order.surcharges != []
    case TotalMismatch => !TotalExplained(order, TallyTotal(expected), ignoreMismatch)
    case _ => SomeWrong(reason, expected, actual, expected.Keys)
  }

  method CompareProduct(expected: Tally, actual: map<nat, Tally>, product: nat) returns (reasons: set<Reason>)
    ensures forall reason :: reason in reasons <==> Wrong(reason, expected, actual, product)
  {
    if product !in actual { return {LineMissing}; }
    reasons := {};
    if actual[product].quantity != expected.quantity { reasons := reasons + {QuantityMismatch}; }
    if actual[product].price != expected.price { reasons := reasons + {PriceMismatch}; }
    if actual[product].discount != 0 { reasons := reasons + {UnsupportedDiscount}; }
  }

  /** The loop over the expected products. */
  method CompareLines(expected: map<nat, Tally>, actual: map<nat, Tally>) returns (reasons: set<Reason>)
    ensures forall reason :: reason in reasons <==> SomeWrong(reason, expected, actual, expected.Keys)
  {
    reasons := {};
    var todo, done := expected.Keys, {};
    while todo != {}
      invariant todo + done == expected.Keys && todo !! done
      invariant forall reason :: reason in reasons <==> SomeWrong(reason, expected, actual, done)
      decreases |todo|
    {
      var p :| p in todo;
      var more := CompareProduct(expected[p], actual, p);
      forall reason ensures SomeWrong(reason, expected, actual, done + {p}) <==> reason in reasons + more {
        OneMore(reason, expected, actual, done, p);
      }
      reasons, todo, done := reasons + more, todo - {p}, done + {p};
    }
    assert done == expected.Keys;
  }

  lemma OneMore(reason: Reason, expected: map<nat, Tally>, actual: map<nat, Tally>, done: set<nat>, p: nat)
    requires p in expected
    ensures SomeWrong(reason, expected, actual, done + {p}) <==>
              SomeWrong(reason, expected, actual, done) || Wrong(reason, expected[p], actual, p)
  {}

  /** What the expected products are worth together. */
  method LinesTotal(expected: map<nat, Tally>) returns (total: int)
    ensures total == TallyTotal(expected)
  {
    total := 0;
    var todo := expected.Keys;
    while todo != {}
      invariant todo <= expected.Keys && total == TallyTotal(expected) - Over(todo, Worth(expected))
      decreases |todo|
    {
      var p :| p in todo;
      OverWithout(todo, Worth(expected), p);
      total := total + expected[p].price * expected[p].quantity;
      todo := todo - {p};
    }
  }

  /** The product-only part of the planner: every reason is reported exactly when it applies. */
  method PlanReasons(lines: seq<Prepared>, unitPrices: map<nat, int>, order: KiotVietOrder, ignoreMismatch: bool)
    returns (reasons: set<Reason>)
    ensures forall reason :: reason in reasons <==> Reported(reason, lines, unitPrices, order, ignoreMismatch)
  {
    var expected, unmapped, conflict := TallyExpected(lines, unitPrices);
    var actual := TallyDetails(order.details);
    var wrong := CompareLines(expected, actual);
    var total := LinesTotal(expected);
    var extra := !(actual.Keys <= expected.Keys);
    var explained := TotalExplained(order, total, ignoreMismatch);
    reasons := Assembled(wrong, unmapped, conflict, extra, order.surcharges != [], !explained);
    forall reason ensures reason in reasons <==> Reported(reason, lines, unitPrices, order, ignoreMismatch) {
      AssembledHas(wrong, unmapped, conflict, extra, order.surcharges != [], !explained, reason);
    }
  }

  function Assembled(wrong: set<Reason>, unmapped: bool, conflict: bool, extra: bool, surcharged: bool,
      unexplained: bool): set<Reason>
  {
    wrong + (if unmapped then {SkuUnmapped} else {}) + (if conflict then {PriceConflict} else {}) + (if extra then {ExtraLine} else {})
    + (if surcharged then {HasSurcharge} else {}) + (if unexplained then {TotalMismatch} else {})
  }

  lemma AssembledHas(wrong: set<Reason>, unmapped: bool, conflict: bool, extra: bool, surcharged: bool,
      unexplained: bool, reason: Reason)
    ensures reason in Assembled(wrong, unmapped, conflict, extra, surcharged, unexplained) <==>
              reason in wrong
              || match reason
                 case SkuUnmapped => unmapped
                 case PriceConflict => conflict
                 case ExtraLine => extra
                 case HasSurcharge => surcharged
                 case TotalMismatch => unexplained
                 case _ => false
  {}

  // ---------- Creation and planning agree ----------

  /** With one price per product, the products are worth what their details add up to. */
  lemma {:induction false} TallyIsTheSum(details: seq<Detail>)
    requires OnePricePerProduct(details)
    ensures TallyTotal(Tallied(details)) == DetailsTotal(details)
  {
    if details != [] {
      var init, last := details[..|details| - 1], details[|details| - 1];
      assert details == init + [last];
      assert OnePricePerProduct(init);
      TallyIsTheSum(init);
      ConflictStep(init, last);
      AddToTotal(Tallied(init), last);
    }
  }

  lemma AddToTotal(m: map<nat, Tally>, d: Detail)
    requires d.product in m ==> m[d.product].price == d.price
    ensures TallyTotal(AddDetail(m, d)) == TallyTotal(m) + DetailCents(d)
  {
    var n, p := AddDetail(m, d), d.product;
    var quantity := if p in m then m[p].quantity else 0;
    SameOver(n.Keys - {p}, Worth(m), Worth(n));
    OverWithout(n.Keys, Worth(n), p);
    Distribute(d.price, quantity, d.quantity);
    if p in m {
      assert n.Keys == m.Keys;
      OverWithout(m.Keys, Worth(m), p);
    } else {
      assert n.Keys - {p} == m.Keys;
    }
  }

  lemma Distribute(price: int, a: int, b: int)
    ensures price * (a + b) == price * a + price * b
  {}

  lemma {:induction false} SameOver(s: set<nat>, f: nat -> int, g: nat -> int)
    requires forall x :: x in s ==> f(x) == g(x)
    ensures Over(s, f) == Over(s, g)
    decreases |s|
  {
    if s != {} {
      var x :| x in s && Over(s, f) == Over(s - {x}, f) + f(x);
      OverWithout(s, g, x);
      SameOver(s - {x}, f, g);
    }
  }

  lemma {:induction false} NoDetailDiscounts(lines: seq<Prepared>, product: nat)
    ensures product in Tallied(Details(lines)) ==> Tallied(Details(lines))[product].discount == 0
  {
    if lines != [] {
      var init, last := lines[..|lines| - 1], lines[|lines| - 1];
      NoDetailDiscounts(init, product);
      DetailsStep(init, last);
      if last.line.product.Some? { ConflictStep(Details(init), DetailOf(last)); }
      assert lines == init + [last];
    }
  }

  lemma NothingReported(
      lines: seq<Prepared>, unitPrices: map<nat, int>, isPaid: bool, ignoreMismatch: bool, reason: Reason)
    requires forall p :: p in lines ==> p.line.product.Some?
    requires ExpectedDetails(lines, unitPrices) == Details(lines) && OnePricePerProduct(Details(lines))
    ensures !Reported(reason, lines, unitPrices, CreatedOrder(lines, isPaid), ignoreMismatch)
  {
    match reason
    case TotalMismatch => TallyIsTheSum(Details(lines));
    case UnsupportedDiscount =>
      forall product ensures product in Tallied(Details(lines)) ==> Tallied(Details(lines))[product].discount == 0 {
        NoDetailDiscounts(lines, product);
      }
    case _ =>
  }

  /** An order planned against what it was created with: nothing is reported exactly when each product has one price. */
  lemma SameDetailsPlanCleanly(lines: seq<Prepared>, unitPrices: map<nat, int>, isPaid: bool, ignoreMismatch: bool)
    requires forall p :: p in lines ==> p.line.product.Some?
    requires ExpectedDetails(lines, unitPrices) == Details(lines)
    ensures (forall reason :: !Reported(reason, lines, unitPrices, CreatedOrder(lines, isPaid), ignoreMismatch)) <==>
              OnePricePerProduct(Details(lines))
  {
    if OnePricePerProduct(Details(lines)) {
      forall reason ensures !Reported(reason, lines, unitPrices, CreatedOrder(lines, isPaid), ignoreMismatch) {
        NothingReported(lines, unitPrices, isPaid, ignoreMismatch, reason);
      }
    } else {
      assert Reported(PriceConflict, lines, unitPrices, CreatedOrder(lines, isPaid), ignoreMismatch);
    }
  }

  /** With representable discounts the payment sent with the order is the sum of its details, line by line. */
  lemma {:induction false} PaidIsTheDetailsTotal(lines: seq<Prepared>)
    requires forall p :: p in lines ==> p.line.product.Some? && Representable(p)
    ensures MerchandisePaid(lines) == DetailsTotal(Details(lines))
  {
    if lines != [] {
      var init, last := lines[..|lines| - 1], lines[|lines| - 1];
      assert lines == init + [last];
      PaidIsTheDetailsTotal(init);
      DetailsStep(init, last);
      SumPlus(Details(init), DetailCents, DetailOf(last));
      SumPlus(init, LineCents, last);
    }
  }

  /**
   * Then whether the invoice may be made depends only on a payment having been sent and its
   * inheritance being accepted.
   */
  lemma PaymentDecidedByInheritance(lines: seq<Prepared>, isPaid: bool, inheritanceVerified: bool,
      allowUnverified: bool)
    requires forall p :: p in lines ==> p.line.product.Some? && Representable(p)
    ensures var order := CreatedOrder(lines, isPaid);
            var decision := PaymentDecision(order.prepaid, DetailsTotal(order.details), inheritanceVerified, allowUnverified);
            && (decision.PaymentMissing? <==> !isPaid || MerchandisePaid(lines) == 0)
            && (decision.Safe? <==> isPaid && MerchandisePaid(lines) != 0 && (inheritanceVerified || allowUnverified))
            && (decision.Safe? ==> decision.policy == if inheritanceVerified then Verified else UnverifiedAccepted)
            && !decision.ExceedsInvoice? && !decision.BelowInvoice?
  {
    PaidIsTheDetailsTotal(lines);
  }
}

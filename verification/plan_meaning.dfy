/**
 * What a plan without reasons means, counted over the lines of the Shopify order and the details of
 * the KiotViet order themselves.
 */
module PlanMeaning {
  import opened Prelude
  import opened SetSum
  import opened Merchandise
  import opened InvoicePlan

  // ---------- Details and lines of one product ----------

  function OfProduct(product: nat): Detail -> bool { (d: Detail) => d.product == product }

  function QuantityOf(): Detail -> int { (d: Detail) => d.quantity }

  function DiscountOf(): Detail -> int { (d: Detail) => d.discount }

  /** Units of a product over all its details. */
  function UnitsOf(details: seq<Detail>, product: nat): int { Sum(Only(details, OfProduct(product)), QuantityOf()) }

  function DiscountsOf(details: seq<Detail>, product: nat): int { Sum(Only(details, OfProduct(product)), DiscountOf()) }

  /** The price of the last detail of a product. */
  function LastPrice(details: seq<Detail>, product: nat): Option<int> {
    if details == [] then None
    else
      var last := details[|details| - 1];
      if last.product == product then Some(last.price) else LastPrice(details[..|details| - 1], product)
  }

  function IsLineOf(product: nat): Prepared -> bool { (p: Prepared) => p.line.product == Some(product) }

  function UnitsLeft(): Prepared -> int { (p: Prepared) => p.quantity }

  /** Units that are left of a product over all lines. */
  function UnitsExpected(lines: seq<Prepared>, product: nat): int { Sum(Only(lines, IsLineOf(product)), UnitsLeft()) }

  /** What a line is worth at the price the planner expects. */
  function Value(unitPrices: map<nat, int>): Prepared -> int {
    (p: Prepared) => ExpectedPrice(p, unitPrices) * p.quantity
  }

  /** What the tally of a product says, if it has one. */
  predicate Means(m: map<nat, Tally>, details: seq<Detail>, product: nat) {
    if product in m then
      LastPrice(details, product) == Some(m[product].price)
      && m[product].quantity == UnitsOf(details, product) && m[product].discount == DiscountsOf(details, product)
    else LastPrice(details, product).None? && UnitsOf(details, product) == 0 && DiscountsOf(details, product) == 0
  }

  lemma OneMoreDetail(init: seq<Detail>, last: Detail, product: nat)
    ensures LastPrice(init + [last], product) == if last.product == product then Some(last.price) else LastPrice(init, product)
    ensures UnitsOf(init + [last], product) == UnitsOf(init, product) + if last.product == product then last.quantity else 0
    ensures DiscountsOf(init + [last], product) == DiscountsOf(init, product) + if last.product == product then last.discount else 0
  {
    assert (init + [last])[..|init|] == init;
    OnlyPlus(init, OfProduct(product), last);
    if last.product == product {
      SumPlus(Only(init, OfProduct(product)), QuantityOf(), last);
      SumPlus(Only(init, OfProduct(product)), DiscountOf(), last);
    }
  }

  lemma {:induction false} TalliedMeans(details: seq<Detail>, product: nat)
    ensures Means(Tallied(details), details, product)
  {
    if details != [] {
      var init, last := details[..|details| - 1], details[|details| - 1];
      assert details == init + [last];
      TalliedMeans(init, product);
      OneMoreDetail(init, last, product);
    }
  }

  predicate AllMapped(lines: seq<Prepared>) { forall p :: p in lines ==> p.line.product.Some? }

  lemma {:induction false} ExpectedMembers(lines: seq<Prepared>, unitPrices: map<nat, int>)
    requires AllMapped(lines)
    ensures forall p :: p in lines ==> ExpectedDetail(p, unitPrices) in ExpectedDetails(lines, unitPrices)
    ensures forall d :: d in ExpectedDetails(lines, unitPrices) ==> exists p :: p in lines && d == ExpectedDetail(p, unitPrices)
  {
    if lines != [] {
      var init, last := lines[..|lines| - 1], lines[|lines| - 1];
      assert lines == init + [last] && last in lines;
      ExpectedMembers(init, unitPrices);
      ExpectedStep(init, last, unitPrices);
    }
  }

  lemma {:induction false} ExpectedUnits(lines: seq<Prepared>, unitPrices: map<nat, int>, product: nat)
    requires AllMapped(lines)
    ensures UnitsOf(ExpectedDetails(lines, unitPrices), product) == UnitsExpected(lines, product)
    ensures DiscountsOf(ExpectedDetails(lines, unitPrices), product) == 0
  {
    if lines != [] {
      var init, last := lines[..|lines| - 1], lines[|lines| - 1];
      assert lines == init + [last] && last in lines;
      ExpectedUnits(init, unitPrices, product);
      ExpectedStep(init, last, unitPrices);
      var before, d := ExpectedDetails(init, unitPrices), ExpectedDetail(last, unitPrices);
      OnlyPlus(before, OfProduct(product), d);
      OnlyPlus(init, IsLineOf(product), last);
      if d.product == product {
        SumPlus(Only(before, OfProduct(product)), QuantityOf(), d);
        SumPlus(Only(before, OfProduct(product)), DiscountOf(), d);
        SumPlus(Only(init, IsLineOf(product)), UnitsLeft(), last);
      }
    }
  }

  lemma {:induction false} ExpectedTotal(lines: seq<Prepared>, unitPrices: map<nat, int>)
    requires AllMapped(lines)
    ensures DetailsTotal(ExpectedDetails(lines, unitPrices)) == Sum(lines, Value(unitPrices))
  {
    if lines != [] {
      var init, last := lines[..|lines| - 1], lines[|lines| - 1];
      assert lines == init + [last] && last in lines;
      ExpectedTotal(init, unitPrices);
      ExpectedStep(init, last, unitPrices);
      SumPlus(ExpectedDetails(init, unitPrices), DetailCents, ExpectedDetail(last, unitPrices));
      SumPlus(init, Value(unitPrices), last);
    }
  }

  lemma {:induction false} LastPriceIsOfADetail(details: seq<Detail>, product: nat)
    ensures LastPrice(details, product).Some? <==> exists d :: d in details && d.product == product
    ensures LastPrice(details, product).Some? ==>
              exists d :: d in details && d.product == product && d.price == LastPrice(details, product).value
  {
    if details != [] {
      var init, last := details[..|details| - 1], details[|details| - 1];
      assert details == init + [last];
      LastPriceIsOfADetail(init, product);
      assert last in details;
    }
  }

  // ---------- The whole order ----------

  /** Lines of one product have one price. */
  ghost predicate OnePrice(lines: seq<Prepared>, unitPrices: map<nat, int>) {
    forall p, q :: p in lines && q in lines && p.line.product == q.line.product ==>
      ExpectedPrice(p, unitPrices) == ExpectedPrice(q, unitPrices)
  }

  /** The details carry the product as its line expects: all its units, undiscounted, last at its price. */
  predicate Carries(details: seq<Detail>, lines: seq<Prepared>, unitPrices: map<nat, int>, p: Prepared)
    requires p.line.product.Some?
  {
    var product := p.line.product.value;
    && UnitsOf(details, product) == UnitsExpected(lines, product) && DiscountsOf(details, product) == 0
    && LastPrice(details, product) == Some(ExpectedPrice(p, unitPrices))
  }

  /** The order is exactly the one the lines call for. */
  ghost predicate IsTheOrderOf(order: KiotVietOrder, lines: seq<Prepared>, unitPrices: map<nat, int>) {
    && AllMapped(lines) && OnePrice(lines, unitPrices) && order.surcharges == []
    && (forall p :: p in lines ==> Carries(order.details, lines, unitPrices, p))
    && (forall d :: d in order.details ==> exists p :: p in lines && p.line.product == Some(d.product))
    && order.total == Sum(lines, Value(unitPrices))
  }

  lemma OnePriceMeans(lines: seq<Prepared>, unitPrices: map<nat, int>)
    requires AllMapped(lines)
    ensures OnePricePerProduct(ExpectedDetails(lines, unitPrices)) <==> OnePrice(lines, unitPrices)
  {
    ExpectedMembers(lines, unitPrices);
    if OnePricePerProduct(ExpectedDetails(lines, unitPrices)) {
      forall p, q | p in lines && q in lines && p.line.product == q.line.product
        ensures ExpectedPrice(p, unitPrices) == ExpectedPrice(q, unitPrices)
      {
        assert ExpectedDetail(p, unitPrices) in ExpectedDetails(lines, unitPrices);
        assert ExpectedDetail(q, unitPrices) in ExpectedDetails(lines, unitPrices);
      }
    }
  }

  /** What is expected of the product of a line. */
  lemma ExpectedTally(lines: seq<Prepared>, unitPrices: map<nat, int>, p: Prepared)
    requires AllMapped(lines) && OnePrice(lines, unitPrices) && p in lines
    ensures var m, product := Tallied(ExpectedDetails(lines, unitPrices)), p.line.product.value;
            product in m && m[product] == Tally(UnitsExpected(lines, product), ExpectedPrice(p, unitPrices), 0)
  {
    var details, product := ExpectedDetails(lines, unitPrices), p.line.product.value;
    ExpectedMembers(lines, unitPrices);
    TalliedMeans(details, product);
    LastPriceIsOfADetail(details, product);
    ExpectedUnits(lines, unitPrices, product);
    assert ExpectedDetail(p, unitPrices) in details;
    OnePriceMeans(lines, unitPrices);
  }

  /** A product is expected when it has a line. */
  lemma ExpectedProducts(lines: seq<Prepared>, unitPrices: map<nat, int>, product: nat)
    requires AllMapped(lines)
    ensures product in Tallied(ExpectedDetails(lines, unitPrices)) <==> exists p :: p in lines && p.line.product == Some(product)
  {
    ExpectedMembers(lines, unitPrices);
    TalliedPrices(ExpectedDetails(lines, unitPrices), product);
  }

  predicate ProductReason(reason: Reason) {
    reason.LineMissing? || reason.QuantityMismatch? || reason.PriceMismatch? || reason.UnsupportedDiscount?
  }

  /** One expected product is carried exactly when nothing is wrong with it. */
  lemma NothingWrongMeansCarried(lines: seq<Prepared>, unitPrices: map<nat, int>, details: seq<Detail>, p: Prepared)
    requires AllMapped(lines) && OnePrice(lines, unitPrices) && p in lines
    ensures var expected := Tallied(ExpectedDetails(lines, unitPrices));
            var product := p.line.product.value;
            product in expected
            && (Carries(details, lines, unitPrices, p) <==> Right(expected[product], Tallied(details), product))
  {
    var expected, actual, product := Tallied(ExpectedDetails(lines, unitPrices)), Tallied(details), p.line.product.value;
    ExpectedTally(lines, unitPrices, p);
    TalliedMeans(details, product);
    if Right(expected[product], actual, product) {
      assert !Wrong(LineMissing, expected[product], actual, product);
      assert !Wrong(QuantityMismatch, expected[product], actual, product);
      assert !Wrong(PriceMismatch, expected[product], actual, product);
      assert !Wrong(UnsupportedDiscount, expected[product], actual, product);
    }
  }

  /** Nothing is wrong with a product. */
  ghost predicate Right(expected: Tally, actual: map<nat, Tally>, product: nat) {
    forall reason :: !Wrong(reason, expected, actual, product)
  }

  ghost predicate NoneWrong(expected: map<nat, Tally>, actual: map<nat, Tally>) {
    forall reason :: !SomeWrong(reason, expected, actual, expected.Keys)
  }

  ghost predicate AllRight(expected: map<nat, Tally>, actual: map<nat, Tally>) {
    forall product :: product in expected ==> Right(expected[product], actual, product)
  }

  lemma NoneWrongMeansAllRight(expected: map<nat, Tally>, actual: map<nat, Tally>)
    ensures NoneWrong(expected, actual) <==> AllRight(expected, actual)
  {
    if NoneWrong(expected, actual) {
      forall product, reason | product in expected ensures !Wrong(reason, expected[product], actual, product) {
        assert !SomeWrong(reason, expected, actual, expected.Keys);
      }
    }
    if AllRight(expected, actual) {
      forall reason ensures !SomeWrong(reason, expected, actual, expected.Keys) {
        forall product | product in expected ensures !Wrong(reason, expected[product], actual, product) {
          assert Right(expected[product], actual, product);
        }
      }
    }
  }

  lemma ProductIsRight(lines: seq<Prepared>, unitPrices: map<nat, int>, details: seq<Detail>, product: nat)
    requires AllMapped(lines) && OnePrice(lines, unitPrices)
    requires product in Tallied(ExpectedDetails(lines, unitPrices))
    ensures Right(Tallied(ExpectedDetails(lines, unitPrices))[product], Tallied(details), product) <==>
              forall p :: p in lines && p.line.product == Some(product) ==> Carries(details, lines, unitPrices, p)
  {
    ExpectedProducts(lines, unitPrices, product);
    forall p | p in lines && p.line.product == Some(product)
      ensures Carries(details, lines, unitPrices, p) <==>
                Right(Tallied(ExpectedDetails(lines, unitPrices))[product], Tallied(details), product)
    {
      NothingWrongMeansCarried(lines, unitPrices, details, p);
    }
  }

  ghost predicate AllCarried(details: seq<Detail>, lines: seq<Prepared>, unitPrices: map<nat, int>)
    requires AllMapped(lines)
  {
    forall p :: p in lines ==> Carries(details, lines, unitPrices, p)
  }

  lemma AllRightMeansCarried(lines: seq<Prepared>, unitPrices: map<nat, int>, details: seq<Detail>)
    requires AllMapped(lines) && OnePrice(lines, unitPrices)
    requires AllRight(Tallied(ExpectedDetails(lines, unitPrices)), Tallied(details))
    ensures AllCarried(details, lines, unitPrices)
  {
    forall p | p in lines ensures Carries(details, lines, unitPrices, p) {
      NothingWrongMeansCarried(lines, unitPrices, details, p);
    }
  }

  lemma CarriedMeansAllRight(lines: seq<Prepared>, unitPrices: map<nat, int>, details: seq<Detail>)
    requires AllMapped(lines) && OnePrice(lines, unitPrices) && AllCarried(details, lines, unitPrices)
    ensures AllRight(Tallied(ExpectedDetails(lines, unitPrices)), Tallied(details))
  {
    var expected := Tallied(ExpectedDetails(lines, unitPrices));
    forall product: nat | product in expected ensures Right(expected[product], Tallied(details), product) {
      ProductIsRight(lines, unitPrices, details, product);
    }
  }

  /** No product reason is reported exactly when the details carry every line. */
  lemma NoProductReason(lines: seq<Prepared>, unitPrices: map<nat, int>, details: seq<Detail>)
    requires AllMapped(lines) && OnePrice(lines, unitPrices)
    ensures var expected := Tallied(ExpectedDetails(lines, unitPrices));
            NoneWrong(expected, Tallied(details)) <==> AllCarried(details, lines, unitPrices)
  {
    var expected := Tallied(ExpectedDetails(lines, unitPrices));
    NoneWrongMeansAllRight(expected, Tallied(details));
    if AllRight(expected, Tallied(details)) { AllRightMeansCarried(lines, unitPrices, details); }
    if AllCarried(details, lines, unitPrices) { CarriedMeansAllRight(lines, unitPrices, details); }
  }

  lemma NoExtraLine(lines: seq<Prepared>, unitPrices: map<nat, int>, details: seq<Detail>)
    requires AllMapped(lines)
    ensures Tallied(details).Keys <= Tallied(ExpectedDetails(lines, unitPrices)).Keys <==>
              forall d :: d in details ==> exists p :: p in lines && p.line.product == Some(d.product)
  {
    var expected, actual := Tallied(ExpectedDetails(lines, unitPrices)), Tallied(details);
    forall product: nat ensures product in actual <==> exists d :: d in details && d.product == product {
      TalliedPrices(details, product);
    }
    forall product: nat ensures product in expected <==> exists p :: p in lines && p.line.product == Some(product) {
      ExpectedProducts(lines, unitPrices, product);
    }
    if actual.Keys <= expected.Keys {
      forall d | d in details ensures exists p :: p in lines && p.line.product == Some(d.product) {
        assert d.product in actual;
        assert d.product in expected.Keys;
      }
    }
  }

  /** The planner reports no reason exactly when the order is the one its lines call for. */
  lemma NoReasonMeansTheOrder(lines: seq<Prepared>, unitPrices: map<nat, int>, order: KiotVietOrder, ignoreMismatch: bool)
    ensures (forall reason :: !Reported(reason, lines, unitPrices, order, ignoreMismatch)) <==>
              IsTheOrderOf(order, lines, unitPrices)
  {
    if AllMapped(lines) {
      OnePriceMeans(lines, unitPrices);
      if OnePrice(lines, unitPrices) {
        MappedAndPriced(lines, unitPrices, order, ignoreMismatch);
      } else {
        assert Reported(PriceConflict, lines, unitPrices, order, ignoreMismatch);
      }
    } else {
      assert Reported(SkuUnmapped, lines, unitPrices, order, ignoreMismatch);
    }
  }

  lemma MappedAndPriced(lines: seq<Prepared>, unitPrices: map<nat, int>, order: KiotVietOrder, ignoreMismatch: bool)
    requires AllMapped(lines) && OnePrice(lines, unitPrices)
    ensures (forall reason :: !Reported(reason, lines, unitPrices, order, ignoreMismatch)) <==>
              IsTheOrderOf(order, lines, unitPrices)
  {
    var expected, actual := Tallied(ExpectedDetails(lines, unitPrices)), Tallied(order.details);
    OnePriceMeans(lines, unitPrices);
    NoProductReason(lines, unitPrices, order.details);
    NoExtraLine(lines, unitPrices, order.details);
    TallyIsTheSum(ExpectedDetails(lines, unitPrices));
    ExpectedTotal(lines, unitPrices);
    ReasonsSplit(lines, unitPrices, order, ignoreMismatch);
  }

  /** The reasons, product by product and for the whole order. */
  lemma ReasonsSplit(lines: seq<Prepared>, unitPrices: map<nat, int>, order: KiotVietOrder, ignoreMismatch: bool)
    requires AllMapped(lines) && OnePricePerProduct(ExpectedDetails(lines, unitPrices))
    ensures var expected, actual := Tallied(ExpectedDetails(lines, unitPrices)), Tallied(order.details);
            (forall reason :: !Reported(reason, lines, unitPrices, order, ignoreMismatch)) <==>
              && NoneWrong(expected, actual)
              && actual.Keys <= expected.Keys && order.surcharges == [] && order.total == TallyTotal(expected)
  {
    var expected, actual := Tallied(ExpectedDetails(lines, unitPrices)), Tallied(order.details);
    if forall reason :: !Reported(reason, lines, unitPrices, order, ignoreMismatch) {
      assert !Reported(ExtraLine, lines, unitPrices, order, ignoreMismatch);
      assert !Reported(HasSurcharge, lines, unitPrices, order, ignoreMismatch);
      assert !Reported(TotalMismatch, lines, unitPrices, order, ignoreMismatch);
      forall reason ensures !SomeWrong(reason, expected, actual, expected.Keys) {
        if ProductReason(reason) { assert !Reported(reason, lines, unitPrices, order, ignoreMismatch); }
      }
    } else {
      var reason :| Reported(reason, lines, unitPrices, order, ignoreMismatch);
      SomethingReported(lines, unitPrices, order, ignoreMismatch, reason);
    }
  }

  lemma SomethingReported(
      lines: seq<Prepared>, unitPrices: map<nat, int>, order: KiotVietOrder, ignoreMismatch: bool, reason: Reason)
    requires AllMapped(lines) && OnePricePerProduct(ExpectedDetails(lines, unitPrices))
    requires Reported(reason, lines, unitPrices, order, ignoreMismatch)
    ensures var expected, actual := Tallied(ExpectedDetails(lines, unitPrices)), Tallied(order.details);
            || SomeWrong(reason, expected, actual, expected.Keys)
            || !(actual.Keys <= expected.Keys) || order.surcharges != [] || order.total != TallyTotal(expected)
  {}

  /**
   * When the total is reported: it is neither the value of the lines nor, where mismatches are ignored,
   * that value and a positive sum of surcharges.
   */
  lemma TotalIsReportedWhen(lines: seq<Prepared>, unitPrices: map<nat, int>, order: KiotVietOrder, ignoreMismatch: bool)
    requires AllMapped(lines) && OnePrice(lines, unitPrices)
    ensures var value, surcharges := Sum(lines, Value(unitPrices)), Sum(order.surcharges, Identity());
            Reported(TotalMismatch, lines, unitPrices, order, ignoreMismatch) <==>
              order.total != value && !(ignoreMismatch && surcharges > 0 && order.total == value + surcharges)
  {
    OnePriceMeans(lines, unitPrices);
    TallyIsTheSum(ExpectedDetails(lines, unitPrices));
    ExpectedTotal(lines, unitPrices);
  }
}

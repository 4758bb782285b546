/**
 * The product-only audit of an order: what its invoice is worth, which charges stay in Shopify,
 * and whether anything is left that would make the invoice overstate the sale (integer cents).
 */
module InvoiceAudit {
  import opened Prelude
  import opened SetSum
  import opened Merchandise
  import RefundAdjustments

  datatype Status = Paid | PartiallyRefunded | OtherStatus

  /** A refund with the sum of its successful refund transactions. */
  datatype MoneyRefund = MoneyRefund(id: nat, cents: int)

  datatype Order = Order(
    cancelled: bool, status: Status, currencyMatches: bool, taxesIncluded: bool,
    total: int, shipping: int, shippingTaxLines: int, fees: int, tip: int, refunds: seq<MoneyRefund>)

  datatype Policy = Policy(
    ignoreMismatch: bool, excludeShipping: bool, excludeFees: bool, excludeOther: bool)

  datatype Reason =
    | OrderCancelled | NotPaid | CurrencyProblem | DiscountNotRepresentable | UnsupportedTax | ShippingNotExcluded
    | FeesNotExcluded | UnsupportedTip | AmountMismatch | RefundDetailsMissing | AmbiguousRefund | RefundExceedsCharges

  datatype Code = CancelledItems | CancelledAllocation | Shipping | Fees | Tip | Other | RefundOfCharges | PaidVsInvoice

  datatype Difference = Difference(code: Code, cents: int)

  /** `unitPrices` holds the discounted unit price per line id, for the lines that have one. */
  datatype Audit = Audit(
    reasons: set<Reason>, merchandise: int, original: int, refunded: int, paid: int, differences: seq<Difference>,
    unitPrices: map<nat, int>)

  function InCode(code: Code): Difference -> int {
    (d: Difference) => if d.code == code then d.cents else 0
  }

  /** What was recorded under one code. */
  function AmountOf(differences: seq<Difference>, code: Code): int { Sum(differences, InCode(code)) }

  method Record(differences0: seq<Difference>, code: Code, cents: int) returns (differences: seq<Difference>)
    ensures forall c :: AmountOf(differences, c) == AmountOf(differences0, c) + if c == code then cents else 0
    ensures forall d :: d in differences ==> d in differences0 || (d.code == code && d.cents != 0)
  {
    if cents == 0 { return differences0; }
    differences := differences0 + [Difference(code, cents)];
    forall c ensures AmountOf(differences, c) == AmountOf(differences0, c) + if c == code then cents else 0 {
      SumPlus(differences0, InCode(c), Difference(code, cents));
    }
  }

  // ---------- Lines ----------

  /** What the invoice carries of an original line. */
  function InvoicedCents(adjusted: map<nat, RefundAdjustments.Adjustment>): Line -> int {
    (line: Line) => if RemainingOf(adjusted, line) == 0 then 0 else LineCents(Prepared(line, RemainingOf(adjusted, line)))
  }

  function TaxCents(line: Line): int { line.tax }

  predicate Unrepresentable(adjusted: map<nat, RefundAdjustments.Adjustment>, line: Line) {
    RemainingOf(adjusted, line) != 0 && !(line.quantity > 0 && UnitPrice(line).Some?)
  }

  /** A line that is invoiced at a discounted unit price. */
  predicate Priced(adjusted: map<nat, RefundAdjustments.Adjustment>, line: Line) {
    RemainingOf(adjusted, line) != 0 && line.quantity > 0 && UnitPrice(line).Some?
  }

  /** The unit prices of the priced lines, by line id. */
  function PricesOf(lines: seq<Line>, adjusted: map<nat, RefundAdjustments.Adjustment>): map<nat, int> {
    if lines == [] then map[]
    else
      var last, before := lines[|lines| - 1], PricesOf(lines[..|lines| - 1], adjusted);
      if Priced(adjusted, last) then before[last.id := UnitPrice(last).value] else before
  }

  ghost predicate OneLinePerId(lines: seq<Line>) {
    forall i, j :: 0 <= i < j < |lines| ==> lines[i].id != lines[j].id
  }

  /** With one line per id the map has exactly the unit price of every priced line. */
  lemma {:induction false} PriceOfALine(lines: seq<Line>, adjusted: map<nat, RefundAdjustments.Adjustment>, k: nat)
    requires OneLinePerId(lines) && k < |lines|
    ensures lines[k].id in PricesOf(lines, adjusted) <==> Priced(adjusted, lines[k])
    ensures Priced(adjusted, lines[k]) ==> PricesOf(lines, adjusted)[lines[k].id] == UnitPrice(lines[k]).value
  {
    if k < |lines| - 1 {
      PriceOfALine(lines[..|lines| - 1], adjusted, k);
    } else {
      NoPriceOfAnother(lines[..k], adjusted, lines[k].id);
    }
  }

  lemma {:induction false} NoPriceOfAnother(lines: seq<Line>, adjusted: map<nat, RefundAdjustments.Adjustment>, id: nat)
    requires forall line :: line in lines ==> line.id != id
    ensures id !in PricesOf(lines, adjusted)
  {
    if lines != [] {
      assert lines[|lines| - 1] in lines;
      NoPriceOfAnother(lines[..|lines| - 1], adjusted, id);
    }
  }

  lemma OneMoreLine(done: seq<Line>, line: Line, adjusted: map<nat, RefundAdjustments.Adjustment>)
    ensures Sum(done + [line], InvoicedCents(adjusted)) == Sum(done, InvoicedCents(adjusted)) + InvoicedCents(adjusted)(line)
    ensures Sum(done + [line], NetCents) == Sum(done, NetCents) + NetCents(line)
    ensures Sum(done + [line], TaxCents) == Sum(done, TaxCents) + line.tax
    ensures PricesOf(done + [line], adjusted) ==
            if Priced(adjusted, line) then PricesOf(done, adjusted)[line.id := UnitPrice(line).value] else PricesOf(done, adjusted)
  {
    assert (done + [line])[..|done|] == done;
  }

  method SumLines(lines: seq<Line>, adjusted: map<nat, RefundAdjustments.Adjustment>)
    returns (merchandise: int, original: int, tax: int, unrepresentable: bool, unitPrices: map<nat, int>)
    requires forall line :: line in lines ==> line.quantity > 0
    ensures merchandise == Sum(lines, InvoicedCents(adjusted))
    ensures original == Sum(lines, NetCents) && tax == Sum(lines, TaxCents)
    ensures unrepresentable <==> exists line :: line in lines && Unrepresentable(adjusted, line)
    ensures unitPrices == PricesOf(lines, adjusted)
  {
    merchandise, original, tax, unrepresentable, unitPrices := 0, 0, 0, false, map[];
    for i := 0 to |lines|
      invariant merchandise == Sum(lines[..i], InvoicedCents(adjusted))
      invariant original == Sum(lines[..i], NetCents) && tax == Sum(lines[..i], TaxCents)
      invariant unrepresentable <==> exists line :: line in lines[..i] && Unrepresentable(adjusted, line)
      invariant unitPrices == PricesOf(lines[..i], adjusted)
    {
      var line := lines[i];
      assert line in lines;
      assert lines[..i + 1] == lines[..i] + [line];
      OneMoreLine(lines[..i], line, adjusted);
      assert Unrepresentable(adjusted, line) <==> RemainingOf(adjusted, line) != 0 && UnitPrice(line).None?;
      var remaining := RemainingOf(adjusted, line);
      var net := NetCents(line);
      original := original + net;
      tax := tax + line.tax;
      if remaining != 0 {
        var unit := UnitPrice(line);
        if unit.None? {
          unrepresentable := true;
          merchandise := merchandise + Rounded(net * remaining, line.quantity);
        } else {
          unitPrices := unitPrices[line.id := unit.value];
          merchandise := merchandise + unit.value * remaining;
        }
      }
    }
    assert lines[..|lines|] == lines;
  }

  // ---------- Refunds ----------

  function RefundCents(refund: MoneyRefund): int { refund.cents }

  function AsSet(refunds: seq<MoneyRefund>): set<MoneyRefund> { set refund | refund in refunds }

  /** Refunds of one id have one content. */
  ghost predicate Consistent(refunds: seq<MoneyRefund>) {
    forall a, b :: a in refunds && b in refunds && a.id == b.id ==> a == b
  }

  /** The money of all refunds, each refund once however often it was delivered. */
  method SumRefunds(refunds: seq<MoneyRefund>) returns (refunded: int)
    ensures Consistent(refunds) ==> refunded == Over(AsSet(refunds), RefundCents)
    ensures (forall refund :: refund in refunds ==> refund.cents >= 0) ==> refunded >= 0
  {
    refunded := 0;
    var counted: set<nat> := {};
    for i := 0 to |refunds|
      invariant counted == set refund | refund in refunds[..i] :: refund.id
      invariant Consistent(refunds) ==> refunded == Over(AsSet(refunds[..i]), RefundCents)
      invariant (forall refund :: refund in refunds ==> refund.cents >= 0) ==> refunded >= 0
    {
      var refund := refunds[i];
      assert refund in refunds;
      assert refunds[..i + 1] == refunds[..i] + [refund];
      assert AsSet(refunds[..i + 1]) == AsSet(refunds[..i]) + {refund};
      OverPlus(AsSet(refunds[..i]), RefundCents, refund);
      if refund.id !in counted {
        counted := counted + {refund.id};
        refunded := refunded + refund.cents;
      }
    }
    assert refunds[..|refunds|] == refunds;
  }

  // ---------- Charges ----------

  datatype Charges = Charges(shipping: int, fees: int, tip: int, other: int)

  /** Each kind of charge is recorded when the policy excludes it and blocks otherwise. */
  method RecordCharges(differences0: seq<Difference>, c: Charges, policy: Policy)
    returns (differences: seq<Difference>, reasons: set<Reason>)
    ensures reasons <= {ShippingNotExcluded, FeesNotExcluded, UnsupportedTip, AmountMismatch}
    ensures ShippingNotExcluded in reasons <==> c.shipping > 0 && !policy.excludeShipping
    ensures FeesNotExcluded in reasons <==> c.fees > 0 && !policy.excludeFees
    ensures UnsupportedTip in reasons <==> c.tip > 0 && !policy.excludeOther
    ensures AmountMismatch in reasons <==>
              c.other < 0 || (c.other > 0 && !(policy.excludeOther && policy.ignoreMismatch))
    ensures reasons == {} && 0 <= c.shipping && 0 <= c.fees && 0 <= c.tip ==>
              && 0 <= c.other
              && forall code :: AmountOf(differences, code) == AmountOf(differences0, code) + match code
                                case Shipping => c.shipping case Fees => c.fees case Tip => c.tip case Other => c.other case _ => 0
  {
    differences, reasons := differences0, {};
    if c.shipping > 0 {
      if policy.excludeShipping { differences := Record(differences, Shipping, c.shipping); }
      else { reasons := reasons + {ShippingNotExcluded}; }
    }
    if c.fees > 0 {
      if policy.excludeFees { differences := Record(differences, Fees, c.fees); }
      else { reasons := reasons + {FeesNotExcluded}; }
    }
    if c.tip > 0 {
      if policy.excludeOther { differences := Record(differences, Tip, c.tip); }
      else { reasons := reasons + {UnsupportedTip}; }
    }
    if c.other < 0 {
      reasons := reasons + {AmountMismatch};
    } else if c.other > 0 {
      if policy.excludeOther && policy.ignoreMismatch { differences := Record(differences, Other, c.other); }
      else { reasons := reasons + {AmountMismatch}; }
    }
  }

  // ---------- The audit ----------

  predicate NonNegative(order: Order, lines: seq<Line>) {
    && (forall line :: line in lines ==> line.tax >= 0)
    && order.shipping >= 0 && order.shippingTaxLines >= 0 && order.fees >= 0 && order.tip >= 0
    && forall refund :: refund in order.refunds ==> refund.cents >= 0
  }

  /** No line keeps more units than were ordered, and no discount is above its gross amount. */
  predicate RemainsWithin(lines: seq<Line>, adjusted: map<nat, RefundAdjustments.Adjustment>) {
    forall line :: line in lines ==> 0 <= RemainingOf(adjusted, line) <= line.quantity && NetCents(line) >= 0
  }

  lemma {:induction false} SumIsNatural(lines: seq<Line>, f: Line -> int)
    requires forall line :: line in lines ==> f(line) >= 0
    ensures Sum(lines, f) >= 0
  {
    if lines != [] {
      assert lines[|lines| - 1] in lines;
      SumIsNatural(lines[..|lines| - 1], f);
    }
  }

  /** The units that are left are worth at most the whole line. */
  lemma {:induction false} InvoicedAtMostNet(lines: seq<Line>, adjusted: map<nat, RefundAdjustments.Adjustment>)
    requires RemainsWithin(lines, adjusted) && forall line :: line in lines ==>
               line.quantity > 0 && !Unrepresentable(adjusted, line)
    ensures Sum(lines, InvoicedCents(adjusted)) <= Sum(lines, NetCents)
  {
    if lines != [] {
      var line := lines[|lines| - 1];
      assert line in lines;
      InvoicedAtMostNet(lines[..|lines| - 1], adjusted);
      if RemainingOf(adjusted, line) != 0 {
        UnitPriceIsExact(line);
        Monotonic(UnitPrice(line).value, RemainingOf(adjusted, line), line.quantity);
      }
    }
  }

  lemma Monotonic(unit: int, a: int, b: int)
    requires unit >= 0 && a <= b
    ensures unit * a <= unit * b
  {}

  function ShippingTax(order: Order): int { if order.taxesIncluded then 0 else order.shippingTaxLines }

  function AddedTax(order: Order, tax: int): int { if order.taxesIncluded then 0 else tax }

  /** Shopify's total is the invoice plus every recorded category. */
  predicate TotalIsExplained(a: Audit, order: Order) {
    order.total == a.merchandise + AmountOf(a.differences, CancelledItems) + AmountOf(a.differences, Shipping)
                   + AmountOf(a.differences, Fees) + AmountOf(a.differences, Tip) + AmountOf(a.differences, Other)
  }

  /** The recorded categories and the refund entry are the recorded difference between what was paid and the invoice. */
  predicate DifferencesBalance(a: Audit) {
    AmountOf(a.differences, PaidVsInvoice)
    == AmountOf(a.differences, CancelledItems) + AmountOf(a.differences, Shipping) + AmountOf(a.differences, Fees)
       + AmountOf(a.differences, Tip) + AmountOf(a.differences, Other) + AmountOf(a.differences, RefundOfCharges)
  }

  /** Reasons that do not depend on amounts. */
  function StatusReasons(order: Order, ambiguous: bool): set<Reason> {
    (if order.cancelled then {OrderCancelled} else {}) + (if order.status.OtherStatus? then {NotPaid} else {})
    + (if order.currencyMatches then {} else {CurrencyProblem}) + (if ambiguous then {AmbiguousRefund} else {})
    + (if order.status.PartiallyRefunded? && order.refunds == [] then {RefundDetailsMissing} else {})
  }

  function AllReasons(charges: set<Reason>, status: set<Reason>, unrepresentable: bool, taxed: bool,
      exceeds: bool): set<Reason>
  {
    charges + status + (if unrepresentable then {DiscountNotRepresentable} else {}) + (if taxed then {UnsupportedTax} else {})
    + (if exceeds then {RefundExceedsCharges} else {})
  }

  lemma StatusReasonHas(order: Order, ambiguous: bool, reason: Reason)
    ensures reason in StatusReasons(order, ambiguous) <==>
              match reason
              case OrderCancelled => order.cancelled
              case NotPaid => order.status != Paid && order.status != PartiallyRefunded
              case CurrencyProblem => !order.currencyMatches
              case RefundDetailsMissing => order.status == PartiallyRefunded && order.refunds == []
              case AmbiguousRefund => ambiguous
              case _ => false
  {}

  lemma ReasonAssembled(charges: set<Reason>, order: Order, ambiguous: bool, unrepresentable: bool, taxed: bool,
      exceeds: bool, reason: Reason)
    requires charges <= {ShippingNotExcluded, FeesNotExcluded, UnsupportedTip, AmountMismatch}
    ensures reason in AllReasons(charges, StatusReasons(order, ambiguous), unrepresentable, taxed, exceeds) <==>
              match reason
              case OrderCancelled => order.cancelled
              case NotPaid => order.status != Paid && order.status != PartiallyRefunded
              case CurrencyProblem => !order.currencyMatches
              case RefundDetailsMissing => order.status == PartiallyRefunded && order.refunds == []
              case AmbiguousRefund => ambiguous
              case DiscountNotRepresentable => unrepresentable
              case UnsupportedTax => taxed
              case RefundExceedsCharges => exceeds
              case _ => reason in charges
  {
    StatusReasonHas(order, ambiguous, reason);
    var status := StatusReasons(order, ambiguous);
    assert reason in AllReasons(charges, status, unrepresentable, taxed, exceeds) <==>
             || reason in charges || reason in status || (reason.DiscountNotRepresentable? && unrepresentable)
             || (reason.UnsupportedTax? && taxed) || (reason.RefundExceedsCharges? && exceeds);
  }

  /** Which reasons there are for the charges of an order. */
  predicate ChargeReasons(charges: set<Reason>, c: Charges, policy: Policy) {
    && charges <= {ShippingNotExcluded, FeesNotExcluded, UnsupportedTip, AmountMismatch}
    && (ShippingNotExcluded in charges <==> c.shipping > 0 && !policy.excludeShipping)
    && (FeesNotExcluded in charges <==> c.fees > 0 && !policy.excludeFees)
    && (UnsupportedTip in charges <==> c.tip > 0 && !policy.excludeOther)
    && (AmountMismatch in charges <==> c.other < 0 || (c.other > 0 && !(policy.excludeOther && policy.ignoreMismatch)))
  }

  /** The charges of an order, with the tax that is added to prices and to shipping. */
  ghost function ChargesOf(order: Order, lines: seq<Line>, original: int): Charges {
    var added := if order.taxesIncluded then 0 else Sum(lines, TaxCents);
    var shipping := order.shipping + if order.taxesIncluded then 0 else order.shippingTaxLines;
    Charges(shipping, order.fees, order.tip, order.total - (original + added + shipping + order.fees + order.tip))
  }

  /** When each reason applies. */
  ghost predicate Applies(reason: Reason, a: Audit, order: Order, lines: seq<Line>,
      adjusted: map<nat, RefundAdjustments.Adjustment>, ambiguous: bool, policy: Policy)
  {
    var added := if order.taxesIncluded then 0 else Sum(lines, TaxCents);
    var c := ChargesOf(order, lines, a.original);
    match reason
    case OrderCancelled => order.cancelled
    case NotPaid => order.status != Paid && order.status != PartiallyRefunded
    case CurrencyProblem => !order.currencyMatches
    case RefundDetailsMissing => order.status == PartiallyRefunded && order.refunds == []
    case AmbiguousRefund => ambiguous
    case DiscountNotRepresentable => exists line :: line in lines && Unrepresentable(adjusted, line)
    case UnsupportedTax => added > 0
    case ShippingNotExcluded => c.shipping > 0 && !policy.excludeShipping
    case FeesNotExcluded => c.fees > 0 && !policy.excludeFees
    case UnsupportedTip => c.tip > 0 && !policy.excludeOther
    case AmountMismatch => c.other < 0 || (c.other > 0 && !(policy.excludeOther && policy.ignoreMismatch))
    case RefundExceedsCharges => a.refunded > 0 && a.refunded > order.total - a.merchandise - added
  }

  lemma ReasonsApply(charges: set<Reason>, a: Audit, order: Order, lines: seq<Line>,
      adjusted: map<nat, RefundAdjustments.Adjustment>, ambiguous: bool, policy: Policy,
      unrepresentable: bool, taxed: bool, exceeds: bool)
    requires a.reasons == AllReasons(charges, StatusReasons(order, ambiguous), unrepresentable, taxed, exceeds)
    requires ChargeReasons(charges, ChargesOf(order, lines, a.original), policy)
    requires unrepresentable <==> exists line :: line in lines && Unrepresentable(adjusted, line)
    requires taxed <==> AddedTax(order, Sum(lines, TaxCents)) > 0
    requires exceeds <==> a.refunded > Max(0, order.total - a.merchandise - AddedTax(order, Sum(lines, TaxCents)))
    ensures forall reason :: reason in a.reasons <==> Applies(reason, a, order, lines, adjusted, ambiguous, policy)
    ensures a.reasons == {} ==> charges == {} && !exceeds && !taxed && !unrepresentable
  {
    forall reason ensures reason in a.reasons <==> Applies(reason, a, order, lines, adjusted, ambiguous, policy) {
      ReasonAssembled(charges, order, ambiguous, unrepresentable, taxed, exceeds, reason);
    }
    if a.reasons == {} {
      assert charges <= {};
      assert DiscountNotRepresentable !in a.reasons && UnsupportedTax !in a.reasons && RefundExceedsCharges !in a.reasons;
    }
  }

  /** The entries of the cancelled units and of the charges. */
  method RecordExcluded(cancelled: int, refundSubtotal: int, c: Charges, policy: Policy)
    returns (differences: seq<Difference>, reasons: set<Reason>)
    ensures ChargeReasons(reasons, c, policy)
    ensures reasons == {} && 0 <= c.shipping && 0 <= c.fees && 0 <= c.tip ==>
              0 <= c.other && Entered(differences, cancelled, c, 0, 0)
  {
    differences := Record([], CancelledItems, cancelled);
    if cancelled > 0 && refundSubtotal > 0 {
      differences := Record(differences, CancelledAllocation, refundSubtotal - cancelled);
    }
    differences, reasons := RecordCharges(differences, c, policy);
  }

  /**
   * What is recorded: the cancelled units, the charges, the refunds of charges, and what was paid against
   * the invoice.
   */
  predicate Entered(differences: seq<Difference>, cancelled: int, c: Charges, refundOfCharges: int, paidVsInvoice: int)
  {
    && AmountOf(differences, CancelledItems) == cancelled && AmountOf(differences, Shipping) == c.shipping
    && AmountOf(differences, Fees) == c.fees && AmountOf(differences, Tip) == c.tip
    && AmountOf(differences, Other) == c.other
    && AmountOf(differences, RefundOfCharges) == refundOfCharges
    && AmountOf(differences, PaidVsInvoice) == paidVsInvoice
  }

  /** The entries of the refunds and of what was paid against the invoice. */
  method RecordPaid(differences0: seq<Difference>, refunded: int, exceeds: bool, paidVsInvoice: int,
      ghost cancelled: int, ghost c: Charges)
    returns (differences: seq<Difference>)
    ensures Entered(differences0, cancelled, c, 0, 0) ==>
              Entered(differences, cancelled, c, if exceeds then 0 else -refunded, paidVsInvoice)
  {
    differences := differences0;
    if !exceeds { differences := Record(differences, RefundOfCharges, -refunded); }
    differences := Record(differences, PaidVsInvoice, paidVsInvoice);
  }

  lemma EntriesBalance(a: Audit, order: Order, c: Charges)
    requires Entered(a.differences, a.original - a.merchandise, c, -a.refunded, a.paid - a.merchandise)
    requires c.other == order.total - (a.original + c.shipping + c.fees + c.tip) && a.paid == order.total - a.refunded
    ensures TotalIsExplained(a, order) && DifferencesBalance(a)
  {}

  /** evaluateProductOnlyFinancials. An order without reasons balances to the cent. */
  method EvaluateProductOnly(order: Order, lines: seq<Line>, adjusted: map<nat, RefundAdjustments.Adjustment>,
      ambiguous: bool, refundSubtotal: int, policy: Policy)
    returns (a: Audit)
    requires forall line :: line in lines ==> line.quantity > 0
    ensures a.merchandise == Sum(lines, InvoicedCents(adjusted)) && a.original == Sum(lines, NetCents)
    ensures a.unitPrices == PricesOf(lines, adjusted)
    ensures a.paid == order.total - a.refunded
    ensures Consistent(order.refunds) ==> a.refunded == Over(AsSet(order.refunds), RefundCents)
    ensures forall reason :: reason in a.reasons <==> Applies(reason, a, order, lines, adjusted, ambiguous, policy)
    // Without reasons every category is recorded in full.
    ensures NonNegative(order, lines) && a.reasons == {} ==>
              Entered(a.differences, a.original - a.merchandise, ChargesOf(order, lines, a.original), -a.refunded,
                      a.paid - a.merchandise)
    ensures NonNegative(order, lines) && a.reasons == {} ==> TotalIsExplained(a, order) && DifferencesBalance(a)
    ensures NonNegative(order, lines) && RemainsWithin(lines, adjusted) && a.reasons == {} ==>
              a.merchandise <= a.original && a.merchandise <= a.paid
  {
    var merchandise, original, tax, unrepresentable, unitPrices := SumLines(lines, adjusted);
    var addedTax := AddedTax(order, tax);
    var shipping := order.shipping + ShippingTax(order);
    var other := order.total - (original + addedTax + shipping + order.fees + order.tip);
    var c := Charges(shipping, order.fees, order.tip, other);
    var differences, charges := RecordExcluded(original - merchandise, refundSubtotal, c, policy);
    var refunded := SumRefunds(order.refunds);
    var exceeds := refunded > Max(0, order.total - merchandise - addedTax);
    differences := RecordPaid(differences, refunded, exceeds, order.total - refunded - merchandise, original - merchandise, c);
    a := Audit(AllReasons(charges, StatusReasons(order, ambiguous), unrepresentable, addedTax > 0, exceeds),
               merchandise, original, refunded, order.total - refunded, differences, unitPrices);
    ReasonsApply(charges, a, order, lines, adjusted, ambiguous, policy, unrepresentable, addedTax > 0, exceeds);
    if NonNegative(order, lines) && a.reasons == {} {
      SumIsNatural(lines, TaxCents);
      EntriesBalance(a, order, c);
      if RemainsWithin(lines, adjusted) { InvoicedAtMostNet(lines, adjusted); }
    }
  }

  /**
   * The audit and the creation of the KiotViet order agree: the invoiced merchandise is the
   * payment the order was sent with, and with representable discounts the sum of its details.
   */
  lemma {:induction false} InvoicedIsThePrepayment(lines: seq<Line>, adjusted: map<nat, RefundAdjustments.Adjustment>)
    requires forall line :: line in lines ==> RemainingOf(adjusted, line) >= 0
    ensures Sum(lines, InvoicedCents(adjusted)) == MerchandisePaid(Kept(lines, adjusted))
  {
    if lines != [] {
      var line := lines[|lines| - 1];
      assert line in lines;
      InvoicedIsThePrepayment(lines[..|lines| - 1], adjusted);
      var before := Kept(lines[..|lines| - 1], adjusted);
      SumPlus(before, LineCents, Prepared(line, RemainingOf(adjusted, line)));
      assert before + [] == before;
    }
  }
}

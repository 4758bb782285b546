/** Product lines of a Shopify order as a product-only order and invoice carry them (integer cents). */
module Merchandise {
  import opened Prelude
  import opened SetSum
  import RefundAdjustments

  /** A purchased line; `product` is the KiotViet product its SKU is mapped to, `list` its list price. */
  datatype Line = Line(
    id: nat, hasSku: bool, product: Option<nat>, list: int, quantity: int, current: Option<int>,
    allocations: Option<seq<int>>, totalDiscount: int, tax: int)

  /** A line with the quantity that is left after confirmed cancelled refunds. */
  datatype Prepared = Prepared(line: Line, quantity: int)

  datatype Invalid = MissingSku(id: nat) | InvalidQuantity(id: nat) | InvalidPrice(id: nat)

  function Identity(): int -> int { (cents: int) => cents }

  function DiscountCents(line: Line): int {
    if line.allocations.Some? then Sum(line.allocations.value, Identity()) else line.totalDiscount
  }

  function NetCents(line: Line): int { line.list * line.quantity - DiscountCents(line) }

  /** The discounted unit price, when the line discount splits into whole cents per ordered unit. */
  function UnitPrice(line: Line): Option<int>
    requires line.quantity > 0
  {
    if NetCents(line) < 0 || NetCents(line) % line.quantity != 0 then None else Some(NetCents(line) / line.quantity)
  }

  /** Rounds a quotient to the nearest integer, halves upwards. */
  function Rounded(a: int, b: int): int
    requires b > 0
  {
    (2 * a + b) / (2 * b)
  }

  /** What is rounded lies within half of the divisor, and half is rounded up. */
  lemma RoundedIsNearest(a: int, b: int)
    requires b > 0
    ensures var r := Rounded(a, b); 2 * a - b < 2 * (b * r) <= 2 * a + b
  {
    var r := Rounded(a, b);
    assert 2 * a + b == (2 * b) * r + (2 * a + b) % (2 * b);
    assert (2 * b) * r == 2 * (b * r);
  }

  predicate WellFormed(p: Prepared) { p.line.quantity > 0 }

  /** What the remaining units of a line are worth. */
  function LineCents(p: Prepared): int {
    if !WellFormed(p) then 0
    else
      var unit := UnitPrice(p.line);
      if unit.Some? then unit.value * p.quantity else Rounded(NetCents(p.line) * p.quantity, p.line.quantity)
  }

  /** The price the line is put on the KiotViet order with. */
  function DetailPrice(p: Prepared): int {
    if WellFormed(p) && UnitPrice(p.line).Some? then UnitPrice(p.line).value else p.line.list
  }

  predicate Representable(p: Prepared) { WellFormed(p) && UnitPrice(p.line).Some? }

  predicate Splits(unit: nat, quantity: int, net: int) { unit * quantity == net }

  /** There is a unit price exactly when the net line is a whole number of cents per ordered unit; it loses nothing. */
  lemma UnitPriceIsExact(line: Line)
    requires line.quantity > 0
    ensures var discount := if line.allocations.Some? then Sum(line.allocations.value, Identity()) else line.totalDiscount;
            var net := line.list * line.quantity - discount;
            && (UnitPrice(line).Some? <==> exists unit: nat :: Splits(unit, line.quantity, net))
            && (UnitPrice(line).Some? ==> UnitPrice(line).value * line.quantity == net)
  {
    var net := NetCents(line);
    assert net == (net / line.quantity) * line.quantity + net % line.quantity;
    if UnitPrice(line).Some? {
      assert Splits(net / line.quantity, line.quantity, net);
    }
    if unit: nat :| Splits(unit, line.quantity, net) {
      Multiple(unit, net / line.quantity, line.quantity, net % line.quantity);
    }
  }

  /** A remainder below the divisor that is itself a multiple is zero. */
  lemma Multiple(unit: nat, quotient: int, quantity: int, rest: int)
    requires quantity > 0 && 0 <= rest < quantity && unit * quantity == quotient * quantity + rest
    ensures rest == 0 && unit * quantity >= 0
  {
    var k := unit - quotient;
    assert k * quantity == rest by { assert (unit - quotient) * quantity == unit * quantity - quotient * quantity; }
    AtLeastOnce(k, quantity);
    AtLeastOnce(-k, quantity);
    AtLeastOnce(unit, quantity);
    assert (-k) * quantity == -(k * quantity);
  }

  lemma {:induction false} AtLeastOnce(k: int, quantity: int)
    requires quantity > 0
    ensures k > 0 ==> k * quantity >= quantity
  {
    if k > 1 {
      AtLeastOnce(k - 1, quantity);
      assert k * quantity == (k - 1) * quantity + quantity;
    }
  }

  // ---------- Preparing an order ----------

  function AsRefundLine(line: Line): RefundAdjustments.Line {
    RefundAdjustments.Line(line.id, line.quantity, line.current)
  }

  function RemainingOf(adjusted: map<nat, RefundAdjustments.Adjustment>, line: Line): int {
    if line.id in adjusted then adjusted[line.id].remaining else line.quantity
  }

  /** The lines that still have units, in order. */
  function Kept(lines: seq<Line>, adjusted: map<nat, RefundAdjustments.Adjustment>): seq<Prepared> {
    if lines == [] then []
    else
      var last := lines[|lines| - 1];
      Kept(lines[..|lines| - 1], adjusted)
      + if RemainingOf(adjusted, last) > 0 then [Prepared(last, RemainingOf(adjusted, last))] else []
  }

  predicate Valid(line: Line) { line.hasSku && line.quantity > 0 && line.list >= 0 }

  /** What is reported about a line that cannot be sent. */
  function Defect(line: Line): Invalid {
    if !line.hasSku then MissingSku(line.id) else if line.quantity <= 0 then InvalidQuantity(line.id) else InvalidPrice(line.id)
  }

  /** prepareOrderForKiotViet: the lines that are left, or the first of them that cannot be sent. */
  method PrepareLines(lines: seq<Line>, adjusted: map<nat, RefundAdjustments.Adjustment>)
    returns (r: Result<seq<Prepared>, Invalid>)
    ensures r.Ok? <==> forall p :: p in Kept(lines, adjusted) ==> Valid(p.line)
    ensures r.Ok? ==> r.value == Kept(lines, adjusted)
    ensures r.Err? ==> exists p :: p in Kept(lines, adjusted) && !Valid(p.line) && r.error == Defect(p.line)
  {
    var prepared: seq<Prepared> := [];
    for i := 0 to |lines|
      invariant prepared == Kept(lines[..i], adjusted)
      invariant forall p :: p in prepared ==> Valid(p.line)
    {
      assert lines[..i + 1][..i] == lines[..i];
      var line := lines[i];
      var remaining := RemainingOf(adjusted, line);
      if remaining > 0 {
        KeptPrefix(lines, adjusted, i + 1);
        assert Kept(lines[..i + 1], adjusted)[|prepared|] == Prepared(line, remaining);
        if !line.hasSku { return Err(MissingSku(line.id)); }
        if line.quantity <= 0 { return Err(InvalidQuantity(line.id)); }
        if line.list < 0 { return Err(InvalidPrice(line.id)); }
        prepared := prepared + [Prepared(line, remaining)];
      }
    }
    assert lines[..|lines|] == lines;
    r := Ok(prepared);
  }

  lemma {:induction false} KeptPrefix(lines: seq<Line>, adjusted: map<nat, RefundAdjustments.Adjustment>, n: nat)
    requires n <= |lines|
    ensures forall p :: p in Kept(lines[..n], adjusted) ==> p in Kept(lines, adjusted)
  {
    if n == |lines| {
      assert lines[..n] == lines;
    } else {
      assert lines[..|lines| - 1][..n] == lines[..n];
      KeptPrefix(lines[..|lines| - 1], adjusted, n);
    }
  }

  function RefundLines(lines: seq<Line>): (r: seq<RefundAdjustments.Line>)
    ensures |r| == |lines| && forall i :: 0 <= i < |lines| ==> r[i] == AsRefundLine(lines[i])
  {
    if lines == [] then [] else RefundLines(lines[..|lines| - 1]) + [AsRefundLine(lines[|lines| - 1])]
  }

  /** The whole preparation of a product-only order: refunds first, then the lines that still have units. */
  method PrepareOrder(
      lines: seq<Line>, refunds: seq<RefundAdjustments.Refund>, fulfillments: Option<seq<RefundAdjustments.Fulfillment>>, meansNotShipped: bool)
    returns (r: Result<seq<Prepared>, Invalid>, adjusted: map<nat, RefundAdjustments.Adjustment>, ambiguous: seq<nat>)
    ensures adjusted == RefundAdjustments.ById(RefundLines(lines),
            RefundAdjustments.Adjusting(refunds, fulfillments, meansNotShipped))
    ensures ambiguous == RefundAdjustments.IdsOf(RefundLines(lines),
            RefundAdjustments.Blocking(refunds, fulfillments, meansNotShipped))
    ensures r.Ok? <==> forall p :: p in Kept(lines, adjusted) ==> Valid(p.line)
    ensures r.Ok? ==> r.value == Kept(lines, adjusted)
  {
    adjusted, ambiguous := RefundAdjustments.ComputeRefundAdjustments(refunds, fulfillments, RefundLines(lines), meansNotShipped);
    r := PrepareLines(lines, adjusted);
  }

  /** Whatever the refunds are, a prepared line keeps at least no units and at most those that were ordered. */
  lemma PreparedWithinOrdered(
      lines: seq<Line>, refunds: seq<RefundAdjustments.Refund>, fulfillments: Option<seq<RefundAdjustments.Fulfillment>>, meansNotShipped: bool)
    requires forall i, j :: 0 <= i < j < |lines| ==> lines[i].id != lines[j].id
    requires forall line :: line in lines ==> line.quantity > 0
    ensures var adjusted := RefundAdjustments.ById(RefundLines(lines),
            RefundAdjustments.Adjusting(refunds, fulfillments, meansNotShipped));
            forall line :: line in lines ==> 0 <= RemainingOf(adjusted, line) <= line.quantity
  {
    var adjust := RefundAdjustments.Adjusting(refunds, fulfillments, meansNotShipped);
    RefundAdjustments.EveryLineIsAdjusted(RefundLines(lines), adjust);
    forall line | line in lines ensures 0 <= RemainingOf(RefundAdjustments.ById(RefundLines(lines), adjust), line) <= line.quantity {
      var i :| 0 <= i < |lines| && lines[i] == line;
      assert RefundLines(lines)[i] in RefundLines(lines);
      RefundAdjustments.AdjustmentIsSound(refunds, fulfillments, AsRefundLine(line), meansNotShipped);
    }
  }

  lemma {:induction false} KeptMembers(lines: seq<Line>, adjusted: map<nat, RefundAdjustments.Adjustment>, p: Prepared)
    ensures p in Kept(lines, adjusted) <==> p.line in lines && p.quantity == RemainingOf(adjusted, p.line) > 0
  {
    if lines != [] {
      var init, last := lines[..|lines| - 1], lines[|lines| - 1];
      assert lines == init + [last];
      KeptMembers(init, adjusted, p);
    }
  }

  /** A line is sent with exactly what its refunds leave of it, and not at all when they leave nothing. */
  lemma PreparedIsWhatRemains(
      lines: seq<Line>, refunds: seq<RefundAdjustments.Refund>, fulfillments: Option<seq<RefundAdjustments.Fulfillment>>,
      meansNotShipped: bool, p: Prepared)
    requires forall i, j :: 0 <= i < j < |lines| ==> lines[i].id != lines[j].id
    ensures var adjusted := RefundAdjustments.ById(RefundLines(lines), RefundAdjustments.Adjusting(refunds, fulfillments, meansNotShipped));
            var own := RefundAdjustments.Line(p.line.id, p.line.quantity, p.line.current);
            p in Kept(lines, adjusted) <==>
              && p.line in lines
              && p.quantity == RefundAdjustments.AdjustmentOf(refunds, fulfillments, own, meansNotShipped).remaining > 0
  {
    var adjust := RefundAdjustments.Adjusting(refunds, fulfillments, meansNotShipped);
    KeptMembers(lines, RefundAdjustments.ById(RefundLines(lines), adjust), p);
    RefundAdjustments.EveryLineIsAdjusted(RefundLines(lines), adjust);
    if p.line in lines {
      var i :| 0 <= i < |lines| && lines[i] == p.line;
      assert RefundLines(lines)[i] in RefundLines(lines);
    }
  }

  // ---------- Payment ----------

  /** The payment sent with a new order: the merchandise of the remaining units. */
  function MerchandisePaid(lines: seq<Prepared>): int {
    Sum(lines, LineCents)
  }

  datatype Policy = Verified | UnverifiedAccepted

  datatype Decision = Safe(policy: Policy) | PaymentMissing | ExceedsInvoice | BelowInvoice | InheritanceUnverified

  function PaymentDecision(prepaid: int, invoiceTotal: int, inheritanceVerified: bool, allowUnverified: bool): Decision
  {
    if prepaid == 0 then PaymentMissing
    else if prepaid > invoiceTotal then ExceedsInvoice
    else if prepaid < invoiceTotal then BelowInvoice
    else if !inheritanceVerified && !allowUnverified then InheritanceUnverified
    else Safe(if inheritanceVerified then Verified else UnverifiedAccepted)
  }

  /** The invoice may be made exactly when all of it is prepaid, no more and no less, and that counts for the invoice. */
  lemma SafeMeansPrepaid(prepaid: int, invoiceTotal: int, inheritanceVerified: bool, allowUnverified: bool)
    ensures var decision := PaymentDecision(prepaid, invoiceTotal, inheritanceVerified, allowUnverified);
            && (decision.Safe? <==> prepaid == invoiceTotal != 0 && (inheritanceVerified || allowUnverified))
            && (decision.ExceedsInvoice? <==> prepaid != 0 && prepaid > invoiceTotal)
            && (decision.BelowInvoice? <==> prepaid != 0 && prepaid < invoiceTotal)
  {}
}

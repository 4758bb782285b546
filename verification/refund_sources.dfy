/** Which payments a refund is taken from (integer cents). */
module RefundSources {
  import opened Prelude
  import opened Greedy
  import opened SetSum

  datatype Kind = Sale | Capture | Refund | Other

  datatype Payment = Payment(id: nat, kind: Kind, success: bool, parent: Option<nat>, cents: nat)

  datatype Shortage = Shortage(available: int)

  predicate IsSource(p: Payment) {
    p.success && (p.kind.Sale? || p.kind.Capture?)
  }

  function Sources(payments: seq<Payment>): seq<Payment> {
    if payments == [] then []
    else (if IsSource(payments[0]) then [payments[0]] else []) + Sources(payments[1..])
  }

  /** Successful refunds already made against one payment. */
  function Refunded(payments: seq<Payment>, id: nat): nat {
    if payments == [] then 0
    else
      var last := payments[|payments| - 1];
      Refunded(payments[..|payments| - 1], id)
      + if last.success && last.kind.Refund? && last.parent == Some(id) then last.cents else 0
  }

  /** What can still be refunded on one payment. */
  function Left(payments: seq<Payment>): Payment -> int {
    (source: Payment) => source.cents - Refunded(payments, source.id)
  }

  method RefundedByParent(payments: seq<Payment>) returns (refunded: map<nat, nat>)
    ensures forall id :: Refunded(payments, id) == if id in refunded then refunded[id] else 0
  {
    refunded := map[];
    for i := 0 to |payments|
      invariant forall id :: Refunded(payments[..i], id) == if id in refunded then refunded[id] else 0
    {
      var p := payments[i];
      assert payments[..i + 1][..i] == payments[..i];
      if p.success && p.kind.Refund? && p.parent.Some? {
        var id := p.parent.value;
        refunded := refunded[id := (if id in refunded then refunded[id] else 0) + p.cents];
      }
    }
    assert payments[..|payments|] == payments;
  }

  lemma SourcesStep(payments: seq<Payment>, i: nat, done: seq<Payment>)
    requires i < |payments|
    ensures done + Sources(payments[i..]) == (if IsSource(payments[i]) then done + [payments[i]] else done)
            + Sources(payments[i + 1..])
  {
    assert payments[i..][1..] == payments[i + 1..];
  }

  method FilterSources(payments: seq<Payment>) returns (sources: seq<Payment>)
    ensures sources == Sources(payments)
  {
    sources := [];
    for i := 0 to |payments|
      invariant Sources(payments) == sources + Sources(payments[i..])
    {
      SourcesStep(payments, i, sources);
      if IsSource(payments[i]) { sources := sources + [payments[i]]; }
    }
  }

  /** The allocation loop over the sources, with what is left on each. */
  method TakeFrom(sources: seq<Payment>, left: Payment -> int, requested: int)
    returns (grants: seq<Grant<Payment>>, remaining: int)
    ensures grants == Grants(sources, left, requested)
    ensures remaining > 0 <==> requested > Usable(sources, left)
    ensures remaining > 0 ==> requested - remaining == Usable(sources, left)
  {
    grants, remaining := [], requested;
    var i := 0;
    assert sources[0..] == sources;
    while i < |sources| && remaining > 0
      invariant i <= |sources|
      invariant Grants(sources, left, requested) == grants + Grants(sources[i..], left, remaining)
      invariant requested - remaining <= Usable(sources, left) - Usable(sources[i..], left)
      invariant remaining > 0 ==> requested - remaining == Usable(sources, left) - Usable(sources[i..], left)
    {
      GrantOne(grants, sources, i, left, remaining);
      var amount := Min(Max(0, left(sources[i])), remaining);
      if amount > 0 {
        grants := grants + [Grant(sources[i], amount)];
        remaining := remaining - amount;
      }
      i := i + 1;
    }
    assert Grants(sources[i..], left, remaining) == [] && grants + [] == grants;
  }

  // ---------- The same in terms of the transactions ----------

  /** Successful sales and captures, from which a refund may be taken. */
  function Takes(): Payment -> bool { (p: Payment) => p.success && (p.kind == Sale || p.kind == Capture) }

  /** Successful refunds of one payment. */
  function GivesBack(id: nat): Payment -> bool {
    (p: Payment) => p.success && p.kind == Refund && p.parent == Some(id)
  }

  function CentsOf(): Payment -> int { (p: Payment) => p.cents }

  function GivenBack(payments: seq<Payment>, id: nat): int { Sum(Only(payments, GivesBack(id)), CentsOf()) }

  /** What a payment can still give back. */
  function OpenCents(payments: seq<Payment>): Payment -> int {
    (p: Payment) => Max(0, p.cents - GivenBack(payments, p.id))
  }

  /** What all payments together can still give back. */
  function AvailableCents(payments: seq<Payment>): int { Sum(Only(payments, Takes()), OpenCents(payments)) }

  lemma {:induction false} RefundedIsGivenBack(payments: seq<Payment>, id: nat)
    ensures Refunded(payments, id) == GivenBack(payments, id)
  {
    if payments != [] {
      var init, last := payments[..|payments| - 1], payments[|payments| - 1];
      assert payments == init + [last];
      RefundedIsGivenBack(init, id);
      OnlyPlus(init, GivesBack(id), last);
      if GivesBack(id)(last) { SumPlus(Only(init, GivesBack(id)), CentsOf(), last); }
    }
  }

  lemma {:induction false} SourcesAreTakes(payments: seq<Payment>)
    ensures Sources(payments) == Only(payments, Takes())
  {
    if payments != [] {
      var first, rest := payments[0], payments[1..];
      SourcesAreTakes(rest);
      assert payments == [first] + rest;
      OnlyConcat([first], rest, Takes());
      OnlyPlus([], Takes(), first);
      assert [] + [first] == [first];
    }
  }

  lemma UsableStep(sources: seq<Payment>, payments: seq<Payment>)
    requires sources != []
    ensures Sum(sources, OpenCents(payments)) == OpenCents(payments)(sources[0]) + Sum(sources[1..], OpenCents(payments))
  {
    assert sources == [sources[0]] + sources[1..];
    SumConcat([sources[0]], sources[1..], OpenCents(payments));
    SumPlus([], OpenCents(payments), sources[0]);
    assert [] + [sources[0]] == [sources[0]];
  }

  lemma {:induction false} UsableIsSum(sources: seq<Payment>, payments: seq<Payment>)
    ensures Usable(sources, Left(payments)) == Sum(sources, OpenCents(payments))
  {
    if sources != [] {
      UsableIsSum(sources[1..], payments);
      OpenIsLeft(payments, sources[0]);
      UsableStep(sources, payments);
    }
  }

  /** The grants come from such payments, in order, each open up to its amount, and in full up to the last. */
  ghost predicate TakenFrom(payments: seq<Payment>, grants: seq<Grant<Payment>>) {
    && (forall g :: g in grants ==> g.item in payments && Takes()(g.item) && 0 < g.amount <= OpenCents(payments)(g.item))
    && (forall i :: 0 <= i < |grants| - 1 ==> grants[i].amount == OpenCents(payments)(grants[i].item))
  }

  lemma OpenIsLeft(payments: seq<Payment>, p: Payment)
    ensures OpenCents(payments)(p) == Max(0, Left(payments)(p))
  {
    RefundedIsGivenBack(payments, p.id);
  }

  lemma OpenPayment(payments: seq<Payment>, p: Payment)
    requires p in WithCapacity(Sources(payments), Left(payments))
    ensures p in payments && Takes()(p) && Left(payments)(p) == OpenCents(payments)(p)
  {
    OpenIsLeft(payments, p);
    assert p in Sources(payments) && Left(payments)(p) > 0 by {
      WithCapacityMembers(Sources(payments), Left(payments), p);
    }
    assert p in Only(payments, Takes()) by { SourcesAreTakes(payments); }
    OnlyMembers(payments, Takes(), p);
  }

  lemma GrantsAreTaken(payments: seq<Payment>, requested: int)
    ensures TakenFrom(payments, Grants(Sources(payments), Left(payments), requested))
  {
    var grants, usable := Grants(Sources(payments), Left(payments), requested), WithCapacity(Sources(payments), Left(payments));
    GrantsAreGreedy(Sources(payments), Left(payments), requested);
    forall p | p in usable ensures p in payments && Takes()(p) && Left(payments)(p) == OpenCents(payments)(p) {
      OpenPayment(payments, p);
    }
    assert forall i :: 0 <= i < |grants| ==> grants[i].item in usable;
  }

  lemma AllocationMeans(payments: seq<Payment>, requested: int)
    ensures Usable(Sources(payments), Left(payments)) == AvailableCents(payments)
    ensures TakenFrom(payments, Grants(Sources(payments), Left(payments), requested))
  {
    SourcesAreTakes(payments);
    UsableIsSum(Sources(payments), payments);
    GrantsAreTaken(payments, requested);
  }

  /**
   * getShopifyRefundTransactions: the requested cents exactly, taken from the payments in order
   * and never beyond what is left on one, or an error that names what is there when the payments
   * cannot cover the request.
   */
  method AllocateRefund(payments: seq<Payment>, requested: int) returns (r: Result<seq<Grant<Payment>>, Shortage>)
    ensures var available := Usable(Sources(payments), Left(payments));
            if requested <= available then
              r == Ok(Grants(Sources(payments), Left(payments), requested)) && Total(r.value) == Max(0, requested)
            else r == Err(Shortage(available))
    ensures r.Ok? <==> requested <= AvailableCents(payments)
    ensures r.Ok? ==> Total(r.value) == Max(0, requested) && TakenFrom(payments, r.value)
    ensures r.Err? ==> r.error.available == AvailableCents(payments)
  {
    AllocationMeans(payments, requested);
    var refunded := RefundedByParent(payments);
    var sources := FilterSources(payments);
    var left := (source: Payment) => source.cents - if source.id in refunded then refunded[source.id] else 0;
    var grants, remaining := TakeFrom(sources, left, requested);
    SameCapacity(sources, left, Left(payments), requested);
    GrantsTotal(sources, Left(payments), requested);
    if remaining > 0 { return Err(Shortage(requested - remaining)); }
    r := Ok(grants);
  }

  lemma {:induction false} SameCapacity(sources: seq<Payment>, a: Payment -> int, b: Payment -> int, requested: int)
    requires forall source :: a(source) == b(source)
    ensures Grants(sources, a, requested) == Grants(sources, b, requested)
    ensures Usable(sources, a) == Usable(sources, b)
  {
    if sources != [] {
      SameCapacity(sources[1..], a, b, requested - Min(requested, Max(0, a(sources[0]))));
    }
  }

  /** No payment gives more than is left on it, none but the last partly, and none is passed over. */
  lemma RefundStaysWithinPayments(payments: seq<Payment>, requested: int)
    ensures
      var grants := Grants(Sources(payments), Left(payments), requested);
      var open := WithCapacity(Sources(payments), Left(payments));
      && |grants| <= |open|
      && (forall i :: 0 <= i < |grants| ==>
            grants[i].item == open[i] && 0 < grants[i].amount && grants[i].amount + Refunded(payments, open[i].id) <= open[i].cents)
      && (forall i :: 0 <= i < |grants| - 1 ==> grants[i].amount + Refunded(payments, open[i].id) == open[i].cents)
  {
    GrantsAreGreedy(Sources(payments), Left(payments), requested);
  }
}

/**
 * One worker synchronizing a KiotViet return: the statements of the claim, the reads, the mark and
 * the request, each at its own moment of a run of the refund protocol.
 */
module ReturnSync {
  import opened Prelude
  import opened Greedy
  import opened RefundProtocol
  import ReturnAllocation
  import RefundSources

  datatype Answer = Accepted | Rejected | NoAnswer

  /** What happens before one statement of this worker, and how the statement goes. */
  datatype Turn = Turn(others: seq<Step>, fails: bool, clock: int, dbNow: int, shown: set<nat>, answer: Answer)

  /** A refund of the Shopify order without the note of this return: the SKUs of its lines and its money. */
  datatype OtherRefund = OtherRefund(id: nat, skus: seq<string>, cents: int, createdAt: Option<int>)

  /**
   * What this worker reads of the return, whose time may be unreadable, and of its Shopify order;
   * `amounts` are the cents of the refunds that carry the note, absent when Shopify names none.
   */
  datatype Evidence = Evidence(
    returned: seq<ReturnAllocation.Returned>, returnTime: Option<int>, expected: Option<nat>,
    lines: seq<ReturnAllocation.Line>, payments: seq<RefundSources.Payment>,
    others: seq<OtherRefund>, linkedElsewhere: set<nat>, amounts: map<nat, int>)

  const ONE_DAY := 86_400_000

  datatype Request = Request(lines: seq<Grant<ReturnAllocation.Line>>, transactions: seq<Grant<RefundSources.Payment>>)

  datatype Outcome = Created(refund: nat) | Linked(refund: nat) | AlreadyRefunded | UnderReview | ClaimLost | Failure

  // ---------- What other refunds of the order say ----------

  predicate Touches(e: Evidence, skus: seq<string>) {
    exists sku :: sku in skus && exists line :: line in e.returned && line.sku == sku
  }

  /**
   * Another refund that may be this return: it has a returned SKU, or is money alone from the day before
   * the return on.
   */
  predicate Suspicious(e: Evidence, refund: OtherRefund) {
    && refund.id !in e.linkedElsewhere
    && (|| Touches(e, refund.skus)
        || (refund.skus == [] && refund.cents > 0
            && (e.returnTime.None? || refund.createdAt.None?
                || refund.createdAt.value >= e.returnTime.value - ONE_DAY)))
  }

  predicate SomeSuspicious(e: Evidence) { exists refund :: refund in e.others && Suspicious(e, refund) }

  /** Whether a refund that carries the note paid what the return expects. */
  predicate AmountMatches(e: Evidence, refund: nat) {
    e.expected == Some(if refund in e.amounts then e.amounts[refund] else 0)
  }

  method TouchesReturned(e: Evidence, skus: seq<string>) returns (found: bool)
    ensures found <==> Touches(e, skus)
  {
    var returned: set<string> := {};
    for i := 0 to |e.returned|
      invariant forall sku :: sku in returned <==> exists line :: line in e.returned[..i] && line.sku == sku
    {
      assert e.returned[..i + 1] == e.returned[..i] + [e.returned[i]];
      returned := returned + {e.returned[i].sku};
    }
    assert e.returned[..|e.returned|] == e.returned;
    for i := 0 to |skus|
      invariant forall k :: 0 <= k < i ==> skus[k] !in returned
    {
      if skus[i] in returned {
        assert skus[i] in skus;
        return true;
      }
    }
    found := false;
  }

  /** classifyExistingRefunds: whether any other refund needs a person. */
  method ClassifyOthers(e: Evidence) returns (suspicious: bool)
    ensures suspicious <==> SomeSuspicious(e)
  {
    for i := 0 to |e.others|
      invariant forall k :: 0 <= k < i ==> !Suspicious(e, e.others[k])
    {
      var refund := e.others[i];
      if refund.id !in e.linkedElsewhere {
        var touched := TouchesReturned(e, refund.skus);
        var moneyOnly := refund.skus == [] && refund.cents > 0;
        if touched
           || (moneyOnly && (e.returnTime.None? || refund.createdAt.None?
               || refund.createdAt.value >= e.returnTime.value - ONE_DAY))
        {
          assert refund in e.others && Suspicious(e, refund);
          return true;
        }
      }
    }
    suspicious := false;
  }

  // ---------- Other workers and the environment ----------

  /** Whose statement a step is; requests land and get lost on their own. */
  predicate ActsFor(step: Step, t: nat) {
    match step
    case Claim(_, _) => false
    case Land(_) => false
    case Lose(_) => false
    case Look(u, _) => u == t
    case Duplicate(u) => u == t
    case Link(u, _, _) => u == t
    case Wait(u, _) => u == t
    case Unknown(u, _) => u == t
    case Review(u) => u == t
    case Mark(u, _) => u == t
    case Succeed(u) => u == t
    case Reject(u) => u == t
    case Unclear(u) => u == t
    case Release(u) => u == t
  }

  function WithoutMine(steps: seq<Step>, t: nat): (r: seq<Step>)
    ensures forall step :: step in r ==> !ActsFor(step, t)
  {
    if steps == [] then []
    else
      var last := steps[|steps| - 1];
      WithoutMine(steps[..|steps| - 1], t) + if ActsFor(last, t) then [] else [last]
  }

  /** The writes a worker ends with. */
  predicate Ends(step: Step, t: nat) {
    ActsFor(step, t) && !step.Look? && !step.Mark?
  }

  /** The worker's own variables are where it left them. */
  predicate Mine(w: World, t: nat, me: Worker) {
    t < w.nextToken && t in w.workers && w.workers[t] == me && (me.phase.Looked? ==> me.phase.ours <= w.applied)
  }

  lemma OtherKeepsMine(w: World, step: Step, t: nat, me: Worker)
    requires Mine(w, t, me) && !ActsFor(step, t)
    ensures Mine(Take(w, step), t, me)
    ensures w.applied <= Take(w, step).applied
  {}

  lemma {:induction false} OthersKeepMine(w: World, steps: seq<Step>, t: nat, me: Worker)
    requires Mine(w, t, me) && forall step :: step in steps ==> !ActsFor(step, t)
    ensures Mine(Run(w, steps), t, me)
    ensures w.applied <= Run(w, steps).applied
  {
    if steps != [] {
      OthersKeepMine(w, steps[..|steps| - 1], t, me);
      OtherKeepsMine(Run(w, steps[..|steps| - 1]), steps[|steps| - 1], t, me);
    }
  }

  lemma {:induction false} RunConcat(w: World, a: seq<Step>, b: seq<Step>)
    ensures Run(w, a + b) == Run(Run(w, a), b)
  {
    if b == [] {
      assert a + b == a;
    } else {
      assert (a + b)[..|a + b| - 1] == a + b[..|b| - 1];
      RunConcat(w, a, b[..|b| - 1]);
    }
  }

  lemma RunOne(w: World, steps: seq<Step>, step: Step)
    ensures Run(w, steps + [step]) == Take(Run(w, steps), step)
  {
    assert (steps + [step])[..|steps|] == steps;
  }

  lemma OneStep(w: World, step: Step, t: nat)
    requires !ActsFor(step, t)
    ensures WithoutMine([step], t) == [step] && Run(w, [step]) == Take(w, step)
  {
    assert [step][..0] == [];
    assert WithoutMine([], t) == [] && Run(w, []) == w;
  }

  /** What was returned, on lines that can still give it back, and the expected money from payments that are open. */
  ghost predicate ExactRequest(e: Evidence, r: Request) {
    && (forall sku :: ReturnAllocation.GrantedOf(r.lines, sku) as real == ReturnAllocation.ReturnedQuantity(e.returned, sku))
    && ReturnAllocation.NoLineTwice(r.lines)
    && (forall g :: g in r.lines ==> g.item in e.lines && 0 < g.amount <= g.item.refundable)
    && e.expected.Some? && Total(r.transactions) == e.expected.value && RefundSources.TakenFrom(e.payments, r.transactions)
  }

  /** When a request can be prepared at all. */
  ghost predicate Preparable(e: Evidence) {
    && !SomeSuspicious(e) && e.returned != [] && ReturnAllocation.Returnable(e.returned, e.lines)
    && e.expected.Some? && e.expected.value <= RefundSources.AvailableCents(e.payments)
  }

  // ---------- What the claim finds ----------

  predicate RowDone(row: Option<Row>) { row.Some? && (row.value.refundId.Some? || row.value.status == Refunded) }

  predicate RowInReview(row: Option<Row>) { row.Some? && row.value.refundId.None? && row.value.status == NeedsReview }

  /** A claim younger than its lease of 15 minutes is validating or has its request out. */
  predicate RowBusy(row: Option<Row>, clock: int) {
    row.Some? && row.value.refundId.None? && clock - row.value.claimedAt < 15 * 60_000
    && (row.value.status == Processing || (row.value.status == Sending && row.value.token.Some?))
  }

  /** Nothing was ever sent for the row, and no claim on it is young. */
  predicate RowUnsent(row: Option<Row>, clock: int) {
    row.None?
    || (row.value.refundId.None?
        && (row.value.status == Failed || (row.value.status == Processing && clock - row.value.claimedAt >= 15 * 60_000)))
  }

  /** Nothing fails and no one interferes; the refund is made before the answer arrives. */
  ghost predicate Undisturbed(turns: nat -> Turn, t: nat) {
    forall i :: !turns(i).fails && turns(i).answer.Accepted? && turns(i).others == if i == 5 then [Land(t)] else []
  }

  predicate SavedIs(w: World, refund: nat) {
    w.row.Some? && w.row.value.status == Refunded && w.row.value.refundId == Some(refund)
  }

  /** The run ended with this step. */
  predicate EndsWith(history: seq<Step>, step: Step) { history != [] && history[|history| - 1] == step }

  class RefundDatabase {
    var w: World
    ghost var history: seq<Step>

    ghost predicate Valid()
      reads this
    {
      w == Run(Start, history)
    }

    constructor ()
      ensures Valid() && w == Start && history == []
    {
      w, history := Start, [];
    }

    method Others(steps: seq<Step>)
      requires Valid()
      modifies this
      ensures Valid() && w == Run(old(w), steps) && history == old(history) + steps
    {
      RunConcat(Start, history, steps);
      w, history := Run(w, steps), history + steps;
    }

    method Act(step: Step)
      requires Valid() && Enabled(w, step)
      modifies this
      ensures Valid() && w == Apply(old(w), step) && history == old(history) + [step]
    {
      RunOne(Start, history, step);
      w, history := Apply(w, step), history + [step];
    }

    /** Others act, then this worker ends with a write of its own. */
    method End(turn: Turn, t: nat, me: Worker, step: Step)
      requires Valid() && Mine(w, t, me)
      requires Ends(step, t) && forall v :: Mine(v, t, me) ==> Enabled(v, step)
      modifies this
      ensures Valid() && old(history) <= history && old(w).applied <= w.applied
      ensures At(w, t, Done) && EndsWith(history, step)
    {
      OthersKeepMine(w, WithoutMine(turn.others, t), t, me);
      Others(WithoutMine(turn.others, t));
      Act(step);
    }

    /** The release of the claim after an error, which may fail as well. */
    method GiveUp(turn: Turn, t: nat, me: Worker)
      requires Valid() && Mine(w, t, me)
      modifies this
      ensures Valid() && old(history) <= history
      ensures !turn.fails ==> At(w, t, Done)
    {
      if !turn.fails { End(turn, t, me, Release(t)); }
    }

    /** The claim transaction, with the token drawn just before it. */
    method ClaimReturn(turn: Turn) returns (verdict: Verdict, t: nat, me: Worker)
      requires Valid()
      modifies this
      ensures Valid() && old(history) <= history
      ensures var before := Run(old(w), turn.others);
              verdict == Examine(before.row, turn.clock) && t == before.nextToken && (!verdict.Free? ==> w == before)
      ensures var before := Run(old(w), turn.others);
              && (verdict.Finished? <==> RowDone(before.row)) && (verdict.InReview? <==> RowInReview(before.row))
              && (verdict.Busy? <==> RowBusy(before.row, turn.clock))
              && (RowUnsent(before.row, turn.clock) ==> verdict.Free? && !me.reconcileOnly && w.applied == before.applied)
      ensures verdict.Free? ==>
                Mine(w, t, me) && me.phase.Claimed? && Holds(w.row, t)
                && w.row.value.status == if me.reconcileOnly then Sending else Processing
    {
      Others(turn.others);
      verdict, t := Examine(w.row, turn.clock), w.nextToken;
      me := Worker(w.row.Some? && w.row.value.status.Sending?, if w.row.Some? then w.row.value.sentAt else None, Claimed);
      if verdict.Free? { Act(Claim(turn.clock, turn.dbNow)); }
    }

    /** Shopify's refunds of the order that carry the note of this return. */
    method ReadRefunds(turn: Turn, t: nat, me0: Worker) returns (me: Worker)
      requires Valid() && Mine(w, t, me0) && me0.phase.Claimed?
      modifies this
      ensures Valid() && old(history) <= history
      ensures Mine(w, t, me) && me.phase.Looked? && me.reconcileOnly == me0.reconcileOnly
      ensures turn.others == [] ==> w.row == old(w).row && me.phase.ours <= old(w).applied
    {
      OthersKeepMine(w, WithoutMine(turn.others, t), t, me0);
      Others(WithoutMine(turn.others, t));
      var ours := turn.shown * w.applied;
      Act(Look(t, ours));
      me := me0.(phase := Looked(ours));
    }

    /** The switch to sending; it tells whether the claim was still held. */
    method MarkSending(turn: Turn, t: nat, me0: Worker) returns (marked: bool, me: Worker)
      requires Valid() && Mine(w, t, me0) && me0.phase == Looked({}) && !me0.reconcileOnly
      modifies this
      ensures Valid() && old(history) <= history
      ensures Mine(w, t, me) && me.phase == (if marked then Sent else Done)
              && (marked ==> Holds(w.row, t) && w.row.value.status.Sending?)
      ensures turn.others == [] && Holds(old(w).row, t) && old(w).row.value.status.Processing? ==> marked && t in w.inflight
    {
      OthersKeepMine(w, WithoutMine(turn.others, t), t, me0);
      Others(WithoutMine(turn.others, t));
      marked := Holds(w.row, t) && w.row.value.status.Processing?;
      Act(Mark(t, turn.dbNow));
      me := me0.(phase := if marked then Sent else Done);
    }

    /** The answer to refundCreate and the write that follows it. */
    method Receive(turn: Turn, t: nat, me: Worker) returns (outcome: Outcome)
      requires Valid() && Mine(w, t, me) && me.phase.Sent?
      modifies this
      ensures Valid() && old(history) <= history
      ensures outcome == Failure || (outcome == Created(t) && t in w.applied)
      ensures At(w, t, Done)
      ensures turn.others == [Land(t)] && turn.answer.Accepted? && t in old(w).inflight && Holds(old(w).row, t) ==>
                outcome == Created(t) && SavedIs(w, t)
    {
      OthersKeepMine(w, WithoutMine(turn.others, t), t, me);
      if t in w.inflight { OneStep(w, Land(t), t); }
      Others(WithoutMine(turn.others, t));
      outcome := Failure;
      if turn.answer.Accepted? && t in w.applied {
        outcome := Created(t);
        Act(Succeed(t));
      } else if turn.answer.Rejected? && t !in w.inflight && t !in w.applied {
        Act(Reject(t));
      } else {
        Act(Unclear(t));
      }
    }

    /** What Shopify's refunds and an earlier attempt decide before anything may be sent. */
    method Reconcile(turn: Turn, e: Evidence, t: nat, me: Worker) returns (outcome: Option<Outcome>)
      requires Valid() && Mine(w, t, me) && me.phase.Looked?
      modifies this
      ensures Valid() && old(history) <= history
      ensures if outcome.None? then Mine(w, t, me) && w == old(w) else At(w, t, Done)
      ensures outcome.None? <==> me.phase.ours == {} && !me.reconcileOnly
      ensures |me.phase.ours| > 1 ==> outcome == Some(UnderReview) && EndsWith(history, Duplicate(t))
      ensures |me.phase.ours| == 1 ==>
                && outcome.Some? && outcome.value.Linked? && me.phase.ours == {outcome.value.refund}
                && outcome.value.refund in w.applied
                && var x := outcome.value.refund;
                   EndsWith(history, Link(t, x, e.expected == Some(if x in e.amounts then e.amounts[x] else 0)))
      ensures me.phase.ours == {} && me.reconcileOnly ==>
                var sentAt := if me.sentAt.Some? then me.sentAt.value else 0;
                if turn.clock - sentAt < 10 * 60_000 then outcome == Some(Failure) && EndsWith(history, Wait(t, turn.clock))
                else outcome == Some(UnderReview) && EndsWith(history, Unknown(t, turn.clock))
    {
      var ours := me.phase.ours;
      if |ours| > 1 {
        End(turn, t, me, Duplicate(t));
        return Some(UnderReview);
      }
      if ours != {} {
        var refund :| refund in ours;
        OneElement(ours, refund);
        End(turn, t, me, Link(t, refund, AmountMatches(e, refund)));
        return Some(Linked(refund));
      }
      if !me.reconcileOnly { return None; }
      if TooEarly(me, turn.clock) {
        End(turn, t, me, Wait(t, turn.clock));
        return Some(Failure);
      }
      End(turn, t, me, Unknown(t, turn.clock));
      return Some(UnderReview);
    }

    /** The mark, refundCreate and its answer. */
    method Send(turns: nat -> Turn, t: nat, me0: Worker) returns (outcome: Outcome, sent: bool)
      requires Valid() && Mine(w, t, me0) && me0.phase == Looked({}) && !me0.reconcileOnly
      modifies this
      ensures Valid() && old(history) <= history
      ensures (outcome.Created? && outcome.refund in w.applied && sent) || outcome.Failure?
              || (outcome.ClaimLost? && !sent)
      ensures !turns(6).fails ==> At(w, t, Done)
      ensures Undisturbed(turns, t) && Holds(old(w).row, t) && old(w).row.value.status.Processing? ==>
                sent && outcome == Created(t) && SavedIs(w, t)
    {
      if turns(4).fails { GiveUp(turns(6), t, me0); return Failure, false; }
      var marked, me := MarkSending(turns(4), t, me0);
      if !marked { return ClaimLost, false; }
      sent := true;
      if turns(5).fails { GiveUp(turns(6), t, me); return Failure, true; }
      outcome := Receive(turns(5), t, me);
    }

    /** What is left of a claimed return: reads, decision, request. */
    method ProcessClaimed(e: Evidence, turns: nat -> Turn, t: nat, me0: Worker)
      returns (outcome: Outcome, request: Option<Request>)
      requires Valid() && ReturnAllocation.DistinctIds(e.lines) && Mine(w, t, me0) && me0.phase.Claimed?
      modifies this
      ensures Valid() && old(history) <= history
      ensures request.Some? ==> ExactRequest(e, request.value) && !SomeSuspicious(e)
      ensures outcome.Created? || outcome.Linked? ==> outcome.refund in w.applied
      ensures outcome.Created? ==> request.Some?
      ensures outcome.Linked? || outcome.UnderReview? ==> request.None?
      ensures !outcome.AlreadyRefunded? && (!turns(6).fails ==> At(w, t, Done))
      ensures Undisturbed(turns, t) && Holds(old(w).row, t) && old(w).row.value.status.Processing? && !me0.reconcileOnly
              && old(w).applied == {} ==>
                (Preparable(e) <==> request.Some?) && (request.Some? ==> outcome == Created(t) && SavedIs(w, t))
    {
      request := None;
      if turns(1).fails { GiveUp(turns(6), t, me0); return Failure, None; }
      var me := ReadRefunds(turns(1), t, me0);
      if turns(2).fails { GiveUp(turns(6), t, me); return Failure, None; }
      var decided := Reconcile(turns(2), e, t, me);
      if decided.Some? { return decided.value, None; }
      var prepared := Prepare(e);
      match prepared {
        case Err(NeedsPerson) => End(turns(3), t, me, Review(t)); return UnderReview, None;
        case Err(Invalid) => GiveUp(turns(6), t, me); return Failure, None;
        case Ok(exact) =>
          if turns(3).fails { GiveUp(turns(6), t, me); return Failure, None; }
          var sent;
          outcome, sent := Send(turns, t, me);
          request := if sent then Some(exact) else None;
      }
    }

    /**
     * syncKiotVietReturn after its lookups. A request that is sent refunds exactly what was
     * returned, and a refund that is reported is the only one there is.
     */
    method SyncReturn(e: Evidence, turns: nat -> Turn) returns (outcome: Outcome, request: Option<Request>)
      requires Valid() && ReturnAllocation.DistinctIds(e.lines)
      modifies this
      ensures Valid() && old(history) <= history
      ensures request.Some? ==> ExactRequest(e, request.value) && !SomeSuspicious(e)
      ensures outcome.Created? || outcome.Linked? ==> w.applied == {outcome.refund}
      ensures outcome.Created? ==> request.Some?
      ensures outcome.Linked? || outcome.UnderReview? || outcome.AlreadyRefunded? ==> request.None?
      // What the row decides before anything is read or sent.
      ensures var before := Run(old(w), turns(0).others);
              && (outcome.AlreadyRefunded? <==> RowDone(before.row))
              && (RowInReview(before.row) ==> outcome.UnderReview?)
              && (RowBusy(before.row, turns(0).clock) ==> outcome.Failure? && request.None?)
              && if RowDone(before.row) || RowInReview(before.row) || RowBusy(before.row, turns(0).clock) then w == before
                 else !turns(6).fails ==> !Holds(w.row, before.nextToken)
      // An undisturbed worker over a row for which nothing was sent refunds exactly what can be prepared.
      ensures Undisturbed(turns, old(w).nextToken) && RowUnsent(old(w).row, turns(0).clock) && old(w).applied == {} ==>
                if Preparable(e) then
                  request.Some? && outcome == Created(old(w).nextToken) && SavedIs(w, old(w).nextToken)
                else request.None? && !outcome.Created?
    {
      var verdict, t, me := ClaimReturn(turns(0));
      match verdict {
        case Finished => return AlreadyRefunded, None;
        case InReview => return UnderReview, None;
        case Busy => return Failure, None;
        case Free => outcome, request := ProcessClaimed(e, turns, t, me);
      }
      if outcome.Created? || outcome.Linked? { OnlyRefund(history, outcome.refund); }
      ClaimsEndWithTheirWorkers(history, t);
    }
  }

  lemma OnlyRefund(history: seq<Step>, refund: nat)
    requires refund in Run(Start, history).applied
    ensures Run(Start, history).applied == {refund}
  {
    RunKeepsInv(Start, history);
  }

  datatype Refusal = NeedsPerson | Invalid

  /** The checks and allocations before the mark. */
  method Prepare(e: Evidence) returns (r: Result<Request, Refusal>)
    requires ReturnAllocation.DistinctIds(e.lines)
    ensures r.Ok? ==> ExactRequest(e, r.value) && !SomeSuspicious(e) && r.value.lines != []
    ensures r.Ok? <==> Preparable(e)
    ensures SomeSuspicious(e) || e.expected.None? ==> r == Err(NeedsPerson)
  {
    var suspicious := ClassifyOthers(e);
    if suspicious || e.expected.None? { return Err(NeedsPerson); }
    var lines := ReturnAllocation.MatchReturnLines(e.returned, e.lines);
    if lines.Err? || lines.value == [] { return Err(Invalid); }
    var transactions := RefundSources.AllocateRefund(e.payments, e.expected.value);
    if transactions.Err? { return Err(NeedsPerson); }
    r := Ok(Request(lines.value, transactions.value));
  }

  lemma OneElement(s: set<nat>, x: nat)
    requires x in s && |s| <= 1
    ensures s == {x}
  {
    assert |s - {x}| == |s| - 1;
  }
}

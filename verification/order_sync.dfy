/**
 * One worker synchronizing a Shopify order: the claim, the mark, the create request and what is
 * recorded, each statement at its own moment of a run of the order protocol. The request is that of
 * product-only mode.
 */
module OrderSync {
  import opened Prelude
  import opened OrderProtocol
  import Merchandise
  import InvoicePlan

  datatype Answer = Accepted | Rejected | NoAnswer

  /** What happens before one statement of this worker, and how the statement goes. */
  datatype Turn = Turn(others: seq<Step>, fails: bool, answer: Answer)

  /** What the settings and the current Shopify order say; `lines` are the prepared product lines. */
  datatype Evidence = Evidence(
    autoCreate: bool, paidOnly: bool, isPaid: bool, cancelled: bool, ambiguous: bool,
    lines: Option<seq<Merchandise.Prepared>>)

  /** What the claim transaction decides. */
  datatype Decision = ToUpdate | ToVerify(claimedAt: int) | IsBusy | ToSkip | IsInvalid | ToCreate

  datatype Outcome =
    | Updated | Busy | Skipped | InvalidOrder
    | Recovered(order: nat) | StillOpen | NeedsPerson | VerifyFailed
    | NothingSent | RejectedCreate | UnknownOutcome | OrderCreated(order: nat) | MappingChanged(order: nat)

  /** What the settings and the order decide about a row that may be claimed. */
  function Admission(e: Evidence): Decision {
    if !e.autoCreate || (e.paidOnly && !e.isPaid) || e.cancelled then ToSkip
    else if e.lines.None? || e.ambiguous then IsInvalid
    else if e.lines.value == [] then ToSkip
    else ToCreate
  }

  /** The decision of the claim transaction on the row it finds. */
  function Decided(w: World, e: Evidence): Decision {
    if w.row.Some? && w.row.value.order.Some? then ToUpdate
    else if w.row.Some? && w.row.value.status.Creating? then ToVerify(w.row.value.claimedAt)
    else if !Claimable(w) then IsBusy
    else Admission(e)
  }

  // ---------- The same decision, case by case over the row and the order ----------

  /** The row names no order and no request of it is out: none, failed, or a claim older than its lease of 15 minutes. */
  predicate Startable(row: Option<Row>, now: int) {
    row.None?
    || (row.value.order.None?
        && match row.value.status
           case PendingCreate => now - row.value.claimedAt >= 15 * 60_000
           case Creating => false
           case CreateFailed => true
           case Created => true)
  }

  predicate ClaimedByAnother(row: Option<Row>, now: int) {
    row.Some? && row.value.order.None? && row.value.status.PendingCreate? && now - row.value.claimedAt < 15 * 60_000
  }

  /** Creating is switched on, the order is not cancelled, and it is paid for or need not be. */
  predicate Wanted(e: Evidence) { e.autoCreate && (e.paidOnly ==> e.isPaid) && !e.cancelled }

  /** Its refunds are clear and it has lines to send. */
  predicate Sendable(e: Evidence) { Wanted(e) && !e.ambiguous && e.lines.Some? && e.lines.value != [] }

  predicate Mapped(lines: seq<Merchandise.Prepared>) { forall p :: p in lines ==> p.line.product.Some? }

  /** Which decision belongs to which row and order. */
  predicate RightDecision(row: Option<Row>, now: int, e: Evidence, decision: Decision) {
    && (decision.ToUpdate? <==> row.Some? && row.value.order.Some?)
    && (decision.ToVerify? <==> Unlinked(row) && IsUncertain(row))
    && (decision.ToVerify? ==> row.Some? && decision.claimedAt == row.value.claimedAt)
    && (decision.IsBusy? <==> ClaimedByAnother(row, now))
    && (decision.ToSkip? <==> Startable(row, now) && (!Wanted(e) || (e.lines == Some([]) && !e.ambiguous)))
    && (decision.IsInvalid? <==> Startable(row, now) && Wanted(e) && (e.lines.None? || e.ambiguous))
    && (decision.ToCreate? <==> Startable(row, now) && Sendable(e))
  }

  predicate FromVerifying(outcome: Outcome) {
    outcome.Recovered? || outcome.StillOpen? || outcome.NeedsPerson? || outcome.VerifyFailed?
  }

  predicate FromCreating(outcome: Outcome) {
    outcome.NothingSent? || outcome.RejectedCreate? || outcome.UnknownOutcome? || outcome.OrderCreated? || outcome.MappingChanged?
  }

  /** Which outcome belongs to which row and order. */
  predicate RightOutcome(row: Option<Row>, now: int, e: Evidence, outcome: Outcome) {
    && (outcome.Updated? <==> row.Some? && row.value.order.Some?)
    && (FromVerifying(outcome) <==> Unlinked(row) && IsUncertain(row))
    && (outcome.Busy? <==> ClaimedByAnother(row, now))
    && (outcome.Skipped? <==> Startable(row, now) && (!Wanted(e) || (e.lines == Some([]) && !e.ambiguous)))
    && (outcome.InvalidOrder? <==> Startable(row, now) && Wanted(e) && (e.lines.None? || e.ambiguous))
    && (FromCreating(outcome) <==> Startable(row, now) && Sendable(e))
  }

  predicate Follows(decision: Decision, outcome: Outcome) {
    match decision
    case ToUpdate => outcome.Updated?
    case ToVerify(_) => FromVerifying(outcome)
    case IsBusy => outcome.Busy?
    case ToSkip => outcome.Skipped?
    case IsInvalid => outcome.InvalidOrder?
    case ToCreate => FromCreating(outcome)
  }

  lemma DecisionGivesOutcome(row: Option<Row>, now: int, e: Evidence, decision: Decision, outcome: Outcome)
    requires RightDecision(row, now, e, decision) && Follows(decision, outcome)
    ensures RightOutcome(row, now, e, outcome)
  {}

  // ---------- Other workers and the environment ----------

  predicate ActsFor(step: Step, t: nat) {
    match step
    case Tick(_) => false
    case Claim => false
    case Land(_) => false
    case Lose(_) => false
    case Verify(_) => false
    case VerifyPark => false
    case RecordFailure => false
    case PlanRead => false
    case Foreign => false
    case Fail(u) => u == t
    case Mark(u) => u == t
    case Reject(u) => u == t
    case Uncertain(u) => u == t
    case Record(u) => u == t
    case PlanSearch(u, _) => u == t
    case PlanRequeue(u) => u == t
    case ApplyLink(u) => u == t
    case ApplyRequeue(u) => u == t
  }

  function WithoutMine(steps: seq<Step>, t: nat): (r: seq<Step>)
    ensures forall step :: step in r ==> !ActsFor(step, t)
  {
    if steps == [] then []
    else
      var last := steps[|steps| - 1];
      WithoutMine(steps[..|steps| - 1], t) + if ActsFor(last, t) then [] else [last]
  }

  /** The worker is where it left itself, and whether its request left is known. */
  predicate Mine(w: World, t: nat, phase: Phase, sent: bool) {
    t < w.nextWorker && At(w, t, phase) && (!sent ==> t !in w.inflight && t !in w.landed) && (phase.LinkPlan? ==> phase.found in w.landed)
  }

  lemma OtherKeepsPlace(w: World, step: Step, t: nat)
    requires t < w.nextWorker && t in w.workers && !ActsFor(step, t)
    ensures var v := Take(w, step); t < v.nextWorker && t in v.workers && v.workers[t] == w.workers[t]
  {}

  lemma OtherSendsNothing(w: World, step: Step, t: nat)
    requires t < w.nextWorker && !ActsFor(step, t)
    ensures var v := Take(w, step);
            w.landed.Keys <= v.landed.Keys && (t !in w.inflight && t !in w.landed ==> t !in v.inflight && t !in v.landed)
  {}

  lemma OtherKeepsMine(w: World, step: Step, t: nat, phase: Phase, sent: bool)
    requires Mine(w, t, phase, sent) && !ActsFor(step, t)
    ensures Mine(Take(w, step), t, phase, sent)
    ensures w.landed.Keys <= Take(w, step).landed.Keys
  {
    OtherKeepsPlace(w, step, t);
    OtherSendsNothing(w, step, t);
  }

  lemma {:induction false} OthersKeepMine(w: World, steps: seq<Step>, t: nat, phase: Phase, sent: bool)
    requires Mine(w, t, phase, sent) && forall step :: step in steps ==> !ActsFor(step, t)
    ensures Mine(Run(w, steps), t, phase, sent)
    ensures w.landed.Keys <= Run(w, steps).landed.Keys
  {
    if steps != [] {
      OthersKeepMine(w, steps[..|steps| - 1], t, phase, sent);
      OtherKeepsMine(Run(w, steps[..|steps| - 1]), steps[|steps| - 1], t, phase, sent);
    }
  }

  lemma {:induction false} RunConcat(w: World, a: seq<Step>, b: seq<Step>)
    ensures Run(w, a + b) == Run(Run(w, a), b)
  {
    if b == [] {
      assert a + b == a;
    } else {
      assert (a + b)[..|a + b| - 1] == a + b[..|b| - 1];
      RunConcat(w, a, b[..|b| - 1]);
    }
  }

  predicate NothingFrom(w: World, t: nat) { t !in w.inflight && t !in w.landed }

  /** The run ended with this step. */
  predicate EndsWith(history: seq<Step>, step: Step) { history != [] && history[|history| - 1] == step }

  /** The world in which the last step of a run was taken. */
  function Before(history: seq<Step>): World
    requires history != []
  {
    Run(Start, history[..|history| - 1])
  }

  /** Exactly when recording linked the row, and when it was linked to the order all along. */
  predicate Recorded(history: seq<Step>, w: World, t: nat, linked: bool) {
    && EndsWith(history, Record(t)) && t in w.landed
    && (linked <==> HoldsAs(Before(history).row, t, Creating))
    && (LinkedTo(w, t) <==> linked || LinkedTo(Before(history), t))
  }

  /** What verifying left behind: the row names the order if it was uncertain and named none, or named it already. */
  predicate Verified(history: seq<Step>, w: World, found: nat) {
    && EndsWith(history, Verify(found)) && found in w.landed && w.row.Some? && !w.row.value.status.Creating?
    && var before := Before(history);
       var linked := IsUncertain(before.row) && Unlinked(before.row);
       (LinkedTo(w, found) <==> linked || LinkedTo(before, found)) && (linked ==> w.row.value.floorAt.None?)
  }

  /** What a report promises about this worker's own request and about the row, at the end of its run. */
  predicate Truthful(history: seq<Step>, w: World, t: nat, outcome: Outcome) {
    match outcome
    case OrderCreated(order) => order == t && Recorded(history, w, t, true)
    case MappingChanged(order) => order == t && Recorded(history, w, t, false)
    case Recovered(order) => Verified(history, w, order)
    case UnknownOutcome => true
    case _ => NothingFrom(w, t)
  }

  /** Nothing fails and no one interferes; the create is applied before its answer arrives. */
  ghost predicate Undisturbed(turns: nat -> Turn, t: nat) {
    forall i :: turns(i) == Turn(if i == 4 then [Land(t)] else [], false, Accepted)
  }

  lemma OneStep(w: World, step: Step, t: nat)
    requires !ActsFor(step, t)
    ensures WithoutMine([step], t) == [step] && Run(w, [step]) == Take(w, step)
  {
    assert [step][..0] == [];
    assert WithoutMine([], t) == [] && Run(w, []) == w;
  }

  class OrderDatabase {
    var w: World
    ghost var history: seq<Step>

    ghost predicate Valid()
      reads this
    {
      w == Run(Start, history)
    }

    constructor ()
      ensures Valid() && w == Start && history == []
    {
      w, history := Start, [];
    }

    method Others(steps: seq<Step>)
      requires Valid()
      modifies this
      ensures Valid() && w == Run(old(w), steps) && history == old(history) + steps
    {
      RunConcat(Start, history, steps);
      w, history := Run(w, steps), history + steps;
    }

    method Act(step: Step)
      requires Valid() && Enabled(Later(w), step)
      modifies this
      ensures Valid() && w == Apply(Later(old(w)), step) && history == old(history) + [step]
      ensures EndsWith(history, step) && Before(history) == old(w)
    {
      assert (history + [step])[..|history|] == history;
      w, history := Take(w, step), history + [step];
    }

    /** The others' turn before a statement of this worker. */
    method Await(turn: Turn, t: nat, phase: Phase, sent: bool)
      requires Valid() && Mine(w, t, phase, sent)
      modifies this
      ensures Valid() && old(history) <= history && Mine(w, t, phase, sent)
      ensures turn.others == [] ==> w == old(w)
    {
      OthersKeepMine(w, WithoutMine(turn.others, t), t, phase, sent);
      Others(WithoutMine(turn.others, t));
    }

    /** The claim transaction. */
    method ClaimOrder(turn: Turn, e: Evidence) returns (decision: Decision, t: nat, at: int)
      requires Valid()
      modifies this
      ensures Valid() && old(history) <= history
      ensures var v := Run(old(w), turn.others);
              decision == Decided(Later(v), e) && RightDecision(v.row, v.now + 1, e, decision)
      ensures t == Run(old(w), turn.others).nextWorker
      ensures if decision.ToCreate? then Mine(w, t, Claimed(at), false) && HoldsAs(w.row, t, PendingCreate)
              else NothingFrom(w, t)
    {
      Others(turn.others);
      RunKeepsFloorInv(Start, history);
      t, at := w.nextWorker, w.now + 1;
      decision := Decided(Later(w), e);
      if decision.ToCreate? { Act(Claim); }
    }

    /**
     * verifyUncertainOrder: links the order that references the Shopify order, or parks the row once the
     * window has closed.
     */
    method VerifyUncertain(turn: Turn, claimedAt: int) returns (outcome: Outcome)
      requires Valid()
      modifies this
      ensures Valid() && old(history) <= history
      ensures outcome.Recovered? ==> Verified(history, w, outcome.order)
      ensures outcome.Recovered? || outcome.StillOpen? || outcome.NeedsPerson? || outcome.VerifyFailed?
      ensures outcome.NeedsPerson? ==> w.landed == map[] && w.now - claimedAt >= RECOVERY_WINDOW
      ensures var v := Run(old(w), turn.others);
              !turn.fails && v.row.Some? ==>
                if v.landed != map[] then outcome.Recovered?
                else if v.now - claimedAt < 5 * 60_000 then outcome.StillOpen?
                else outcome.NeedsPerson?
    {
      Others(turn.others);
      LinkedOrderIsFinal(Start, history);
      if turn.fails || w.row.None? { return VerifyFailed; }
      if w.landed != map[] {
        var found :| found in w.landed;
        Act(Verify(found));
        return Recovered(found);
      }
      if w.now - claimedAt < RECOVERY_WINDOW { return StillOpen; }
      Act(VerifyPark);
      outcome := NeedsPerson;
    }

    /** The release of a claim for which nothing was sent. */
    method FailClaim(turn: Turn, t: nat, at: int)
      requires Valid() && Mine(w, t, Claimed(at), false)
      modifies this
      ensures Valid() && old(history) <= history && NothingFrom(w, t)
      ensures !turn.fails ==> !HoldsAs(w.row, t, PendingCreate)
    {
      if turn.fails { return; }
      Await(turn, t, Claimed(at), false);
      Act(Fail(t));
    }

    /** The switch to creating. */
    method MarkCreating(turn: Turn, t: nat, at: int) returns (marked: bool)
      requires Valid() && Mine(w, t, Claimed(at), false)
      modifies this
      ensures Valid() && old(history) <= history
      ensures if marked then Mine(w, t, Sent(at), true) else NothingFrom(w, t) && !HoldsAs(w.row, t, PendingCreate)
      ensures turn.others == [] && HoldsAs(old(w).row, t, PendingCreate) ==>
                marked && t in w.inflight && HoldsAs(w.row, t, Creating)
    {
      Await(turn, t, Claimed(at), false);
      marked := HoldsAs(w.row, t, PendingCreate);
      Act(Mark(t));
    }

    /** The created order is recorded, unless the row changed meanwhile. */
    method RecordOrder(turn: Turn, t: nat, at: int) returns (outcome: Outcome)
      requires Valid() && Mine(w, t, Sent(at), true) && t in w.landed
      modifies this
      ensures Valid() && old(history) <= history && Truthful(history, w, t, outcome)
      ensures outcome.OrderCreated? || outcome.MappingChanged? || outcome.UnknownOutcome?
      ensures !turn.fails && turn.others == [] && HoldsAs(old(w).row, t, Creating) ==> outcome == OrderCreated(t)
    {
      if turn.fails { return UnknownOutcome; }
      OthersKeepMine(w, WithoutMine(turn.others, t), t, Sent(at), true);
      Others(WithoutMine(turn.others, t));
      var recorded := HoldsAs(w.row, t, Creating);
      Act(Record(t));
      outcome := if recorded then OrderCreated(t) else MappingChanged(t);
    }

    /** The others' turn before the answer, in which the request may be applied. */
    method AwaitAnswer(turn: Turn, t: nat, at: int)
      requires Valid() && Mine(w, t, Sent(at), true)
      modifies this
      ensures Valid() && old(history) <= history && Mine(w, t, Sent(at), true)
      ensures turn.others == [Land(t)] && t in old(w).inflight ==> t in w.landed && w.row == old(w).row
    {
      if t in w.inflight { OneStep(w, Land(t), t); }
      OthersKeepMine(w, WithoutMine(turn.others, t), t, Sent(at), true);
      Others(WithoutMine(turn.others, t));
    }

    /** The answer to the create request and the write that follows it. */
    method Receive(turns: nat -> Turn, t: nat, at: int) returns (outcome: Outcome)
      requires Valid() && Mine(w, t, Sent(at), true)
      modifies this
      ensures Valid() && old(history) <= history && Truthful(history, w, t, outcome)
      ensures outcome.OrderCreated? || outcome.MappingChanged? || outcome.RejectedCreate? || outcome.UnknownOutcome?
      ensures Undisturbed(turns, t) && t in old(w).inflight && HoldsAs(old(w).row, t, Creating) ==> outcome == OrderCreated(t)
    {
      AwaitAnswer(turns(4), t, at);
      if turns(4).answer.Accepted? && t in w.landed {
        outcome := RecordOrder(turns(5), t, at);
      } else if turns(4).answer.Rejected? && t !in w.inflight && t !in w.landed {
        Act(Reject(t));
        outcome := RejectedCreate;
      } else {
        Act(Uncertain(t));
        outcome := UnknownOutcome;
      }
    }

    /** createMappedOrder: the order with its details and payment, sent at most once for this claim. */
    method CreateOrder(lines: seq<Merchandise.Prepared>, isPaid: bool, turns: nat -> Turn, t: nat, at: int)
      returns (outcome: Outcome, request: Option<InvoicePlan.KiotVietOrder>)
      requires Valid() && Mine(w, t, Claimed(at), false)
      modifies this
      ensures Valid() && old(history) <= history && Truthful(history, w, t, outcome)
      ensures request.Some? ==>
                request.value == InvoicePlan.CreatedOrder(lines, isPaid) && Mapped(lines)
      ensures (request.None? <==> outcome.NothingSent?) && FromCreating(outcome)
      ensures outcome.NothingSent? && !turns(2).fails && !turns(3).fails ==> !HoldsAs(w.row, t, PendingCreate)
      ensures Undisturbed(turns, t) && HoldsAs(old(w).row, t, PendingCreate) && Mapped(lines) ==> outcome == OrderCreated(t)
    {
      var unmapped := exists p :: p in lines && p.line.product.None?;
      if turns(1).fails || unmapped {
        FailClaim(turns(2), t, at);
        return NothingSent, None;
      }
      if turns(3).fails { return NothingSent, None; }
      var marked := MarkCreating(turns(3), t, at);
      if !marked { return NothingSent, None; }
      request := Some(InvoicePlan.CreatedOrder(lines, isPaid));
      outcome := Receive(turns, t, at);
    }

    /** runShopifyOrderSync, with a report that the database and KiotViet bear out. */
    method SyncOrder(e: Evidence, turns: nat -> Turn)
      returns (t: nat, outcome: Outcome, request: Option<InvoicePlan.KiotVietOrder>)
      requires Valid()
      modifies this
      ensures Valid() && old(history) <= history
      ensures outcome.StillOpen? || outcome.NeedsPerson? || outcome.VerifyFailed? || Truthful(history, w, t, outcome)
      ensures request.Some? ==> e.lines.Some? && request.value == InvoicePlan.CreatedOrder(e.lines.value, e.isPaid)
                                && (e.paidOnly ==> e.isPaid) && e.autoCreate && !e.cancelled && !e.ambiguous
      ensures outcome.NothingSent? && !turns(2).fails && !turns(3).fails ==> !HoldsAs(w.row, t, PendingCreate)
      ensures var v := Run(old(w), turns(0).others); RightOutcome(v.row, v.now + 1, e, outcome)
      ensures request.Some? <==> FromCreating(outcome) && !outcome.NothingSent?
      // An undisturbed worker creates exactly the orders that are wanted, clear, not empty and mapped.
      ensures Undisturbed(turns, old(w).nextWorker) && Startable(old(w).row, old(w).now + 1) ==>
                if Sendable(e) && Mapped(e.lines.value) then
                  outcome == OrderCreated(t) && request == Some(InvoicePlan.CreatedOrder(e.lines.value, e.isPaid))
                else !outcome.OrderCreated? && request.None?
    {
      request := None;
      var decision, at;
      ghost var v := Run(w, turns(0).others);
      decision, t, at := ClaimOrder(turns(0), e);
      match decision {
        case ToUpdate => outcome := Updated;
        case ToVerify(claimedAt) => outcome := VerifyUncertain(turns(1), claimedAt);
        case IsBusy => outcome := Busy;
        case ToSkip => outcome := Skipped;
        case IsInvalid => outcome := InvalidOrder;
        case ToCreate => outcome, request := CreateOrder(e.lines.value, e.isPaid, turns, t, at);
      }
      DecisionGivesOutcome(v.row, v.now + 1, e, decision, outcome);
    }
  }
}

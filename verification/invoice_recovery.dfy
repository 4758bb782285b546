/**
 * One recovery run (or invoice job) for an order: the plan, the claim, the second lookup, the
 * mark, the POST and what follows it, each statement at its own moment of a run of the protocol.
 */
module InvoiceRecovery {
  import opened Prelude
  import opened InvoiceProtocol

  datatype Answer = Accepted | Rejected | NoAnswer

  /** What happens before one statement of this worker, and how the statement goes. */
  datatype Turn = Turn(
    others: seq<Step>, fails: bool, clock: int, shown: set<nat>, complete: bool, cancelled: set<nat>, ok: bool, answer: Answer)

  /** Outcomes as applyInvoiceRecovery reports them. */
  datatype Outcome =
    | Blocked
    | AlreadyInvoiced
    | WasReset(done: bool)
    | NothingSent
    | Linked(invoice: nat, done: bool)
    | Saved(invoice: nat)       // created, its id written under the claim, verification left to a review
    | RejectedPost
    | UnknownOutcome
    | ManyInvoices

  // ---------- Other workers and the environment ----------

  predicate ActsFor(step: Step, t: nat) {
    match step
    case Plan => false
    case Land(_) => false
    case Lose(_) => false
    case Delete(_) => false
    case Verify(_, _) => false
    case MarkReview => false
    case RecordBlocked => false
    case PlanLink(u, _) => u == t
    case PlanCreate(u, _) => u == t
    case PlanReset(u, _) => u == t
    case Claim(u, _) => u == t
    case StartCheck(u) => u == t
    case Pass(u) => u == t
    case Appeared(u, _) => u == t
    case Mark(u) => u == t
    case Reject(u) => u == t
    case Unclear(u) => u == t
    case Succeed(u) => u == t
    case Settle(u, _) => u == t
    case Park(u) => u == t
    case Finalize(u, _) => u == t
    case Release(u, _) => u == t
    case Reset(u) => u == t
  }

  function WithoutMine(steps: seq<Step>, t: nat): (r: seq<Step>)
    ensures forall step :: step in r ==> !ActsFor(step, t)
  {
    if steps == [] then []
    else
      var last := steps[|steps| - 1];
      WithoutMine(steps[..|steps| - 1], t) + if ActsFor(last, t) then [] else [last]
  }

  /** The worker is where it left itself, and whether its POST left is known. */
  predicate Mine(w: World, t: nat, phase: Phase, sent: bool) {
    && t < w.nextWorker && At(w, t, phase) && (!sent ==> t !in w.inflight + w.landed)
    && (phase.Linking? || phase.LinkPlan? ==> phase.found in w.landed)
    && (Plans(phase) ==> !Holds(w.row, t))
  }

  predicate Plans(phase: Phase) { phase.Planning? || phase.LinkPlan? || phase.CreatePlan? || phase.ResetPlan? }

  /** A claim without a POST that is less than the verify window old. */
  predicate InFlight(seen: Option<Row>, clock: int) { seen.Some? && seen.value.status.Pending? && Fresh(seen, clock) }

  lemma OnlyElement(s: set<nat>, x: nat)
    requires x in s && |s| <= 1
    ensures s == {x}
  {
    if y :| y in s && y != x { TwoElements(s, x, y); }
  }

  /** The row waits for this worker: no one else may plan over it until the claim is stale. */
  predicate Waits(w: World, t: nat) { Holds(w.row, t) && w.row.value.status.Pending? }

  /** Only workers that exist have sent anything. */
  predicate SendersDrawn(w: World) {
    && (forall t :: t in w.workers ==> t < w.nextWorker) && w.inflight + w.landed <= w.workers.Keys
    && w.existing <= w.landed
  }

  /** Only workers that exist hold the claim, and a row that waits has no invoice. */
  predicate RowDrawn(w: World) {
    && (w.row.Some? && w.row.value.token.Some? ==> w.row.value.token.value < w.nextWorker)
    && (w.row.Some? && w.row.value.status.Pending? ==> w.row.value.invoice.None?)
  }

  predicate Drawn(w: World) { SendersDrawn(w) && RowDrawn(w) }

  lemma StepKeepsSendersDrawn(w: World, step: Step)
    requires SendersDrawn(w)
    ensures SendersDrawn(Take(w, step))
  {
    var v := Take(w, step);
    assert w.workers.Keys <= v.workers.Keys;
    assert v.inflight + v.landed <= v.workers.Keys;
  }

  lemma StepKeepsRowDrawn(w: World, step: Step)
    requires Drawn(w)
    ensures RowDrawn(Take(w, step))
  {}

  lemma {:induction false} RunIsDrawn(steps: seq<Step>)
    ensures Drawn(Run(Start, steps))
  {
    if steps != [] {
      RunIsDrawn(steps[..|steps| - 1]);
      StepKeepsSendersDrawn(Run(Start, steps[..|steps| - 1]), steps[|steps| - 1]);
      StepKeepsRowDrawn(Run(Start, steps[..|steps| - 1]), steps[|steps| - 1]);
    }
  }

  lemma OtherKeepsPlace(w: World, step: Step, t: nat)
    requires t < w.nextWorker && t in w.workers && !ActsFor(step, t)
    ensures var v := Take(w, step);
            t < v.nextWorker && t in v.workers && v.workers[t] == w.workers[t] && (!Holds(w.row, t) ==> !Holds(v.row, t))
  {}

  lemma OtherSendsNothing(w: World, step: Step, t: nat)
    requires !ActsFor(step, t)
    ensures var v := Take(w, step);
            w.landed <= v.landed && (t !in w.inflight + w.landed ==> t !in v.inflight + v.landed)
  {}

  lemma OtherKeepsMine(w: World, step: Step, t: nat, phase: Phase, sent: bool)
    requires Mine(w, t, phase, sent) && !ActsFor(step, t)
    ensures Mine(Take(w, step), t, phase, sent)
  {
    OtherKeepsPlace(w, step, t);
    OtherSendsNothing(w, step, t);
  }

  lemma {:induction false} OthersKeepMine(w: World, steps: seq<Step>, t: nat, phase: Phase, sent: bool)
    requires Mine(w, t, phase, sent) && forall step :: step in steps ==> !ActsFor(step, t)
    ensures Mine(Run(w, steps), t, phase, sent)
  {
    if steps != [] {
      OthersKeepMine(w, steps[..|steps| - 1], t, phase, sent);
      OtherKeepsMine(Run(w, steps[..|steps| - 1]), steps[|steps| - 1], t, phase, sent);
    }
  }

  lemma {:induction false} RunConcat(w: World, a: seq<Step>, b: seq<Step>)
    ensures Run(w, a + b) == Run(Run(w, a), b)
  {
    if b == [] {
      assert a + b == a;
    } else {
      assert (a + b)[..|a + b| - 1] == a + b[..|b| - 1];
      RunConcat(w, a, b[..|b| - 1]);
    }
  }

  lemma RunOne(w: World, steps: seq<Step>, step: Step)
    ensures Run(w, steps + [step]) == Take(Run(w, steps), step)
  {
    assert (steps + [step])[..|steps|] == steps;
  }

  /** The run ended with this step. */
  predicate EndsWith(history: seq<Step>, step: Step) { history != [] && history[|history| - 1] == step }

  /** The world in which the last step of a run was taken. */
  function Before(history: seq<Step>): World
    requires history != []
  {
    Run(Start, history[..|history| - 1])
  }

  /**
   * An id reported as saved was found and written under the claim, or it is that of this worker's
   * own invoice, and then it is on the row exactly when the claim was still held or it was there already.
   */
  predicate Saves(history: seq<Step>, w: World, t: nat, invoice: nat) {
    || (EndsWith(history, Settle(t, invoice)) && SavedIs(w, invoice))
    || (EndsWith(history, Succeed(t)) && invoice == t && t in w.landed
        && (SavedIs(w, t) <==> Holds(Before(history).row, t) || SavedIs(Before(history), t)))
  }

  /**
   * What a report promises: nothing sent means that no POST of this run is or will be applied; a link is
   * on the row.
   */
  predicate Truthful(history: seq<Step>, w: World, t: nat, outcome: Outcome) {
    match outcome
    case Linked(invoice, done) => done ==> SavedIs(w, invoice)
    case Saved(invoice) => Saves(history, w, t, invoice)
    case UnknownOutcome => true
    case ManyInvoices => true
    case _ => t !in w.inflight + w.landed
  }

  lemma OneStep(w: World, step: Step, t: nat)
    requires !ActsFor(step, t)
    ensures WithoutMine([step], t) == [step] && Run(w, [step]) == Take(w, step)
  {
    assert [step][..0] == [];
    assert WithoutMine([], t) == [] && Run(w, []) == w;
  }

  /** Nothing fails and no one interferes; the invoice is made before its answer arrives. */
  ghost predicate Undisturbed(turns: nat -> Turn, t: nat) {
    forall i :: && !turns(i).fails && turns(i).complete && turns(i).ok && turns(i).answer.Accepted?
                && turns(i).others == if i == 7 then [Land(t)] else []
  }

  /** No invoice and certainly nothing sent: no row, a failed or blocked one, or a claim more than five minutes old. */
  predicate Startable(row: Option<Row>, planned: int, claimed: int) {
    row.None?
    || (row.value.invoice.None?
        && (row.value.status == Failed || row.value.status == Status.Blocked
            || (row.value.status == Pending && planned - row.value.claimedAt > 5 * 60_000
                && claimed - row.value.claimedAt > 5 * 60_000)))
  }

  /** A request may have been sent, more than five minutes ago. */
  predicate LongUncertain(row: Option<Row>, clock: int) {
    row.Some? && row.value.invoice.None? && (row.value.status == Creating || row.value.status == NeedsReview)
    && clock - row.value.claimedAt >= 5 * 60_000
  }

  /** An attempt that may still be running: a claim, or a request, less than five minutes old. */
  predicate Young(row: Option<Row>, clock: int) {
    row.Some? && row.value.invoice.None? && clock - row.value.claimedAt < 5 * 60_000
    && (row.value.status == Pending || row.value.status == Creating || row.value.status == NeedsReview)
  }

  /** Which plan belongs to which row and lookup. */
  predicate Planned(turn: Turn, existing: set<nat>, resetUncertain: bool, reasons: bool, seen: Option<Row>, plan: Phase) {
    var active := turn.shown * existing - turn.cancelled;
    var none := !turn.fails && turn.complete && turn.shown * existing == {};
    && (plan.Planning? ==> plan == Planning(seen))
    && (plan.LinkPlan? ==> plan.seen == seen && active == {plan.found})
    && (!turn.fails && |active| == 1 ==> plan.LinkPlan?)
    && (plan.ResetPlan? <==> none && Uncertain(seen) && !Fresh(seen, turn.clock) && resetUncertain)
    && (plan.CreatePlan? <==> none && !Uncertain(seen) && !InFlight(seen, turn.clock) && !reasons)
    && (plan.ResetPlan? || plan.CreatePlan? ==> plan.seen == seen)
  }

  method DecidePlan(turn: Turn, existing: set<nat>, resetUncertain: bool, reasons: bool, seen: Option<Row>)
    returns (plan: Phase)
    ensures plan.Planning? || plan.LinkPlan? || plan.CreatePlan? || plan.ResetPlan?
    ensures plan.LinkPlan? ==> plan.found in existing
    ensures Planned(turn, existing, resetUncertain, reasons, seen, plan)
  {
    plan := Planning(seen);
    var shown := turn.shown * existing;
    var active := shown - turn.cancelled;
    if turn.fails || |active| > 1 { return; }
    if active != {} {
      var found :| found in active;
      OnlyElement(active, found);
      return LinkPlan(seen, found);
    }
    if !turn.complete || shown != {} || InFlight(seen, turn.clock) { return; }
    if Uncertain(seen) {
      if Fresh(seen, turn.clock) || !resetUncertain { return; }
      return ResetPlan(seen);
    }
    if !reasons { return CreatePlan(seen); }
  }

  /** What an undisturbed run plans for an order of which a complete lookup shows no invoice. */
  predicate RightPlan(row: Option<Row>, planned: int, claimed: int, resetUncertain: bool, reasons: bool, plan: Phase) {
    && (Startable(row, planned, claimed) ==> if reasons then plan.Planning? else plan.CreatePlan? && MayClaim(row, row, false, claimed))
    && (LongUncertain(row, planned) ==> if resetUncertain then plan.ResetPlan? && Unsaved(row) else plan.Planning?)
    && (Young(row, planned) ==> plan.Planning?)
  }

  lemma PlanIsRight(row: Option<Row>, planned: int, claimed: int, resetUncertain: bool, reasons: bool, plan: Phase)
    requires plan.Planning? || plan.CreatePlan? || plan.ResetPlan?
    requires plan.ResetPlan? <==> Uncertain(row) && !Fresh(row, planned) && resetUncertain
    requires plan.CreatePlan? <==> !Uncertain(row) && !InFlight(row, planned) && !reasons
    ensures RightPlan(row, planned, claimed, resetUncertain, reasons, plan)
  {}

  /** What an undisturbed run reports of an order without an invoice. */
  predicate RightReport(row: Option<Row>, planned: int, claimed: int, resetUncertain: bool, reasons: bool, t: nat, outcome: Outcome, w: World) {
    && (Startable(row, planned, claimed) ==>
          if reasons then outcome == Outcome.Blocked else outcome == Linked(t, true) && SavedIs(w, t))
    && (LongUncertain(row, planned) ==> outcome == if resetUncertain then WasReset(true) else Outcome.Blocked)
    && (Young(row, planned) ==> outcome == Outcome.Blocked)
  }

  /** The one active invoice is linked and its id is on the row. */
  predicate LinksTheOnly(active: set<nat>, outcome: Outcome, w: World) {
    outcome.Linked? && outcome.done && outcome.invoice in active && SavedIs(w, outcome.invoice)
  }

  class InvoiceDatabase {
    var w: World
    ghost var history: seq<Step>

    ghost predicate Valid()
      reads this
    {
      w == Run(Start, history)
    }

    constructor ()
      ensures Valid() && w == Start && history == []
    {
      w, history := Start, [];
    }

    method Others(steps: seq<Step>)
      requires Valid()
      modifies this
      ensures Valid() && w == Run(old(w), steps) && history == old(history) + steps
    {
      RunConcat(Start, history, steps);
      w, history := Run(w, steps), history + steps;
    }

    method Act(step: Step)
      requires Valid() && Enabled(w, step)
      modifies this
      ensures Valid() && w == Apply(old(w), step) && history == old(history) + [step]
      ensures EndsWith(history, step) && Before(history) == old(w)
    {
      RunOne(Start, history, step);
      assert (history + [step])[..|history|] == history;
      w, history := Apply(w, step), history + [step];
    }

    /** The others' turn before a statement of this worker. */
    method Await(turn: Turn, t: nat, phase: Phase, sent: bool)
      requires Valid() && Mine(w, t, phase, sent)
      modifies this
      ensures Valid() && old(history) <= history && Mine(w, t, phase, sent)
      ensures turn.others == [] ==> w == old(w)
    {
      OthersKeepMine(w, WithoutMine(turn.others, t), t, phase, sent);
      Others(WithoutMine(turn.others, t));
    }

    /** The release before the POST, after which nothing was sent and nothing will be. */
    method ReleaseClaim(turn: Turn, t: nat, phase: Phase, blocked: bool)
      requires Valid() && Mine(w, t, phase, false) && Unsent(phase)
      modifies this
      ensures Valid() && old(history) <= history && t !in w.inflight + w.landed
      ensures !turn.fails ==> !Waits(w, t)
    {
      if turn.fails { return; }
      Await(turn, t, phase, false);
      Act(Release(t, blocked));
    }

    /** finalizeInvoice for an invoice that was found or created. */
    method FinalizeInvoice(turn: Turn, t: nat, found: nat, sent: bool) returns (done: bool)
      requires Valid() && Mine(w, t, Linking(found), sent)
      modifies this
      ensures Valid() && old(history) <= history
      ensures (done <==> SavedIs(w, found)) && !Waits(w, t)
      ensures !sent ==> t !in w.inflight + w.landed
      ensures turn.others == [] && MayFinalize(old(w).row, found) ==> done && w.existing == old(w).existing
    {
      Await(turn, t, Linking(found), sent);
      RunIsDrawn(history);
      done := MayFinalize(w.row, found);
      Act(Finalize(t, turn.ok));
    }

    /** The row as the plan reads it; a row that has its invoice needs no plan. */
    method ReadRow(turn: Turn) returns (t: nat, seen: Option<Row>)
      requires Valid()
      modifies this
      ensures Valid() && old(history) <= history
      ensures !(seen.Some? && seen.value.invoice.Some?) ==> Mine(w, t, Planning(seen), false)
      ensures seen == Run(old(w), turn.others).row
      ensures t !in w.inflight + w.landed
      ensures turn.others == [] ==>
                && t == old(w).nextWorker && seen == w.row == old(w).row && w.existing == old(w).existing
    {
      Others(turn.others);
      RunIsDrawn(history);
      t, seen := w.nextWorker, w.row;
      if !(seen.Some? && seen.value.invoice.Some?) { Act(Plan); }
    }

    /** planInvoiceRecovery as far as the row and the lookup decide it. */
    method PlanInvoice(turns: nat -> Turn, resetUncertain: bool, reasons: bool, t: nat, seen: Option<Row>)
      returns (plan: Phase)
      requires Valid() && Mine(w, t, Planning(seen), false)
      modifies this
      ensures Valid() && old(history) <= history && Mine(w, t, plan, false)
      ensures plan.Planning? || plan.LinkPlan? || plan.CreatePlan? || plan.ResetPlan?
      ensures Planned(turns(1), w.existing, resetUncertain, reasons, seen, plan)
      ensures turns(1).others == [] ==> w.row == old(w).row && w.existing == old(w).existing
    {
      Await(turns(1), t, Planning(seen), false);
      RunIsDrawn(history);
      plan := DecidePlan(turns(1), w.existing, resetUncertain, reasons, seen);
      Adopt(t, seen, plan, turns(1).clock);
    }

    /** The worker goes on with its plan. */
    method Adopt(t: nat, seen: Option<Row>, plan: Phase, clock: int)
      requires Valid() && Mine(w, t, Planning(seen), false)
      requires match plan
               case Planning(s) => s == seen
               case LinkPlan(s, found) => s == seen && found in w.existing && found in w.landed
               case CreatePlan(s) => s == seen && !Uncertain(seen) && !InFlight(seen, clock)
               case ResetPlan(s) => s == seen && Uncertain(seen) && !Fresh(seen, clock)
               case _ => false
      modifies this
      ensures Valid() && old(history) <= history && Mine(w, t, plan, false)
      ensures w.row == old(w).row && w.existing == old(w).existing
    {
      match plan {
        case LinkPlan(_, found) => Act(PlanLink(t, found));
        case CreatePlan(_) => Act(PlanCreate(t, clock));
        case ResetPlan(_) => Act(PlanReset(t, clock));
        case _ =>
      }
    }

    /** The claim transaction. */
    method ClaimRow(turn: Turn, t: nat, plan: Phase) returns (phase: Phase)
      requires Valid() && Mine(w, t, plan, false) && (plan.LinkPlan? || plan.CreatePlan?)
      modifies this
      ensures Valid() && old(history) <= history && Mine(w, t, phase, false)
      ensures if phase == Done then !Holds(w.row, t)
              else Waits(w, t) && phase == if plan.LinkPlan? then Linking(plan.found) else Claimed
      ensures turn.others == [] ==>
                && w.existing == old(w).existing
                && (phase == Done <==> !MayClaim(old(w).row, plan.seen, plan.LinkPlan?, turn.clock))
                && (phase != Done ==> w.row.value.invoice.None?)
    {
      Await(turn, t, plan, false);
      RunIsDrawn(history);
      phase := if !MayClaim(w.row, plan.seen, plan.LinkPlan?, turn.clock) then Done else if plan.LinkPlan? then Linking(plan.found) else Claimed;
      Act(Claim(t, turn.clock));
    }

    /** The second lookup: what it found, or that it passed. */
    method LookAgain(turn: Turn, t: nat, before: set<nat>) returns (phase: Phase, duplicates: bool)
      requires Valid() && Mine(w, t, Checking(before), false)
      modifies this
      ensures Valid() && old(history) <= history && Mine(w, t, phase, false)
      ensures phase == Checking(before) || phase == Clear || phase.Linking?
      ensures turn.others == [] && turn.complete && old(w).existing == {} ==>
                phase == Clear && w.row == old(w).row && w.existing == {}
    {
      Await(turn, t, Checking(before), false);
      RunIsDrawn(history);
      phase, duplicates := Checking(before), false;
      var shown := turn.shown * w.existing;
      var active := shown - turn.cancelled;
      if !turn.complete { return; }
      duplicates := |active| > 1 || (active == {} && shown != {});
      if duplicates { return; }
      if active != {} {
        var found :| found in active;
        assert found in w.existing && found in w.landed;
        Act(Appeared(t, found));
        phase := Linking(found);
      } else {
        Act(Pass(t));
        phase := Clear;
      }
    }

    /** The stock reading, the second lookup and the staleness check, every exit of which releases the claim. */
    method CheckAgain(turns: nat -> Turn, t: nat) returns (clear: bool, outcome: Outcome)
      requires Valid() && Mine(w, t, Claimed, false)
      modifies this
      ensures Valid() && old(history) <= history
      ensures if clear then Mine(w, t, Clear, false)
              else Truthful(history, w, t, outcome) && (outcome == NothingSent || outcome.Linked?)
      ensures !clear && !turns(9).fails ==> !Waits(w, t)
      ensures Undisturbed(turns, t) && old(w).existing == {} ==> clear && w.row == old(w).row && w.existing == {}
    {
      clear, outcome := false, NothingSent;
      if turns(3).fails { ReleaseClaim(turns(9), t, Claimed, false); return; }
      Await(turns(3), t, Claimed, false);
      var before := w.existing;
      Act(StartCheck(t));
      if turns(4).fails { ReleaseClaim(turns(9), t, Checking(before), false); return; }
      var phase, duplicates := LookAgain(turns(4), t, before);
      if phase.Checking? || turns(5).fails || (phase.Clear? && !turns(5).ok) {
        ReleaseClaim(turns(9), t, phase, duplicates);
        return;
      }
      if phase.Linking? {
        var done := FinalizeInvoice(turns(5), t, phase.found, false);
        outcome := Linked(phase.found, done);
        return;
      }
      clear := true;
    }

    /** The switch to creating. */
    method MarkSending(turn: Turn, t: nat) returns (marked: bool)
      requires Valid() && Mine(w, t, Clear, false)
      modifies this
      ensures Valid() && old(history) <= history
      ensures if marked then Mine(w, t, Sent, true) else t !in w.inflight + w.landed && !Waits(w, t)
      ensures turn.others == [] && Waits(old(w), t) && old(w).row.value.invoice.None? ==>
                marked && t in w.inflight && Holds(w.row, t) && Unsaved(w.row)
    {
      Await(turn, t, Clear, false);
      marked := Holds(w.row, t) && w.row.value.status.Pending?;
      Act(Mark(t));
    }

    /** The id of the one invoice that was found is written while the claim is held, and then the invoice is read back. */
    method SettleFound(turn: Turn, t: nat, found: nat) returns (outcome: Outcome)
      requires Valid() && Mine(w, t, Sent, true) && found in w.existing
      modifies this
      ensures Valid() && old(history) <= history
      ensures outcome.Saved? || outcome.Linked?
      ensures outcome.Saved? ==> EndsWith(history, Settle(t, outcome.invoice)) && SavedIs(w, outcome.invoice)
      ensures outcome.Linked? && outcome.done ==> SavedIs(w, outcome.invoice)
    {
      RunIsDrawn(history);
      var owned := Holds(w.row, t) && Unsaved(w.row);
      Act(Settle(t, found));
      if !owned { return Linked(found, false); }
      if turn.fails { return Saved(found); }
      var done := FinalizeInvoice(turn, t, found, true);
      outcome := Linked(found, done);
    }

    /** settleUncertainInvoice: searches again and again for what the POST may have made; it never sends. */
    method SettleUncertain(turns: nat -> Turn, searches: nat, t: nat) returns (outcome: Outcome)
      requires Valid() && Mine(w, t, Sent, true)
      modifies this
      ensures Valid() && old(history) <= history
      ensures outcome.UnknownOutcome? || outcome.ManyInvoices? || outcome.Saved? || outcome.Linked?
      ensures outcome.Saved? ==> EndsWith(history, Settle(t, outcome.invoice)) && SavedIs(w, outcome.invoice)
      ensures outcome.Linked? && outcome.done ==> SavedIs(w, outcome.invoice)
    {
      var h := history;
      var i := 0;
      while i < searches
        invariant i <= searches && Valid() && h <= history && Mine(w, t, Sent, true)
      {
        var turn := turns(10 + i);
        Await(turn, t, Sent, true);
        var active := turn.shown * w.existing - turn.cancelled;
        if !turn.fails && |active| > 1 {
          Act(Park(t));
          return ManyInvoices;
        }
        if !turn.fails && active != {} {
          var found :| found in active;
          outcome := SettleFound(turns(8), t, found);
          return;
        }
        i := i + 1;
      }
      outcome := UnknownOutcome;
    }

    /** The id of a created invoice is written at once, and then the invoice is read back. */
    method RecordCreated(turn: Turn, t: nat) returns (outcome: Outcome)
      requires Valid() && Mine(w, t, Sent, true) && t in w.landed
      modifies this
      ensures Valid() && old(history) <= history
      ensures outcome.Saved? || outcome.Linked?
      ensures outcome.Linked? && outcome.done ==> SavedIs(w, outcome.invoice)
      ensures outcome.Saved? ==> Saves(history, w, t, outcome.invoice)
      ensures !turn.fails && turn.others == [] && Holds(old(w).row, t) && Unsaved(old(w).row) ==>
                outcome == Linked(t, true) && SavedIs(w, t)
    {
      Act(Succeed(t));
      if turn.fails { return Saved(t); }
      var done := FinalizeInvoice(turn, t, t, true);
      outcome := Linked(t, done);
    }

    /** The others' turn before the answer, in which the request may be applied. */
    method AwaitAnswer(turn: Turn, t: nat)
      requires Valid() && Mine(w, t, Sent, true)
      modifies this
      ensures Valid() && old(history) <= history && Mine(w, t, Sent, true)
      ensures turn.others == [Land(t)] && t in old(w).inflight ==> t in w.landed && w.row == old(w).row
    {
      if t in w.inflight { OneStep(w, Land(t), t); }
      OthersKeepMine(w, WithoutMine(turn.others, t), t, Sent, true);
      Others(WithoutMine(turn.others, t));
    }

    /** The answer to the POST and what is written because of it. */
    method Receive(turns: nat -> Turn, searches: nat, t: nat) returns (outcome: Outcome)
      requires Valid() && Mine(w, t, Sent, true)
      modifies this
      ensures Valid() && old(history) <= history
      ensures outcome.RejectedPost? ==> t !in w.inflight + w.landed
      ensures outcome.Linked? && outcome.done ==> SavedIs(w, outcome.invoice)
      ensures outcome.Saved? ==> Saves(history, w, t, outcome.invoice)
      ensures !outcome.NothingSent? && !outcome.Blocked? && !outcome.AlreadyInvoiced? && !outcome.WasReset?
      ensures Undisturbed(turns, t) && t in old(w).inflight && Holds(old(w).row, t) && Unsaved(old(w).row) ==>
                outcome == Linked(t, true) && SavedIs(w, t)
    {
      var turn := turns(7);
      AwaitAnswer(turn, t);
      if turn.answer.Rejected? && t !in w.inflight && t !in w.landed {
        Act(Reject(t));
        return RejectedPost;
      }
      if turn.answer.Accepted? && t in w.landed {
        outcome := RecordCreated(turns(8), t);
        return;
      }
      Act(Unclear(t));
      outcome := SettleUncertain(turns, searches, t);
    }

    /** applyInvoiceRecovery for a plan that creates an invoice. */
    method CreateInvoice(turns: nat -> Turn, searches: nat, t: nat) returns (outcome: Outcome)
      requires Valid() && Mine(w, t, Claimed, false)
      modifies this
      ensures Valid() && old(history) <= history && Truthful(history, w, t, outcome) 
      ensures !outcome.WasReset? && !outcome.Blocked? && !outcome.AlreadyInvoiced?
      ensures Undisturbed(turns, t) && old(w).existing == {} && Waits(old(w), t) && Unsaved(old(w).row) ==>
                outcome == Linked(t, true) && SavedIs(w, t)
      ensures outcome.NothingSent? && !turns(6).fails && !turns(9).fails ==> !Waits(w, t)
    {
      var clear;
      clear, outcome := CheckAgain(turns, t);
      if !clear { return; }
      if turns(6).fails { return NothingSent; }
      var marked := MarkSending(turns(6), t);
      if !marked { return NothingSent; }
      outcome := Receive(turns, searches, t);
    }

    /** applyInvoiceRecovery: exactly the planned action, with a report that the database and KiotViet bear out. */
    method ApplyPlan(turns: nat -> Turn, searches: nat, t: nat, plan: Phase) returns (outcome: Outcome)
      requires Valid() && Mine(w, t, plan, false)
               && (plan.Planning? || plan.LinkPlan? || plan.CreatePlan? || plan.ResetPlan?)
      modifies this
      ensures Valid() && old(history) <= history && Truthful(history, w, t, outcome)
      ensures (outcome.WasReset? <==> plan.ResetPlan?) && (outcome == Outcome.Blocked <==> plan.Planning?)
      ensures !outcome.AlreadyInvoiced?
      ensures Undisturbed(turns, t) && !plan.Planning? && plan.seen == old(w).row ==>
                && (plan.ResetPlan? && Unsaved(old(w).row) ==> outcome == WasReset(true))
                && (plan.LinkPlan? && MayClaim(old(w).row, old(w).row, true, turns(2).clock) ==>
                      outcome == Linked(plan.found, true) && SavedIs(w, plan.found))
                && (plan.CreatePlan? && MayClaim(old(w).row, old(w).row, false, turns(2).clock) && old(w).existing == {} ==>
                      outcome == Linked(t, true) && SavedIs(w, t))
      ensures outcome == WasReset(true) ==> w.row.Some? && w.row.value.status.Failed? && w.row.value.token.None?
      ensures outcome.NothingSent? && !turns(6).fails && !turns(9).fails ==> !Waits(w, t)
    {
      if plan.Planning? { return Outcome.Blocked; }
      if plan.ResetPlan? {
        Await(turns(2), t, plan, false);
        outcome := WasReset(Unsaved(w.row) && Unchanged(w.row, plan.seen));
        Act(Reset(t));
        return;
      }
      var phase := ClaimRow(turns(2), t, plan);
      if phase.Done? { return NothingSent; }
      if phase.Linking? {
        if turns(3).fails { ReleaseClaim(turns(9), t, phase, false); return NothingSent; }
        var done := FinalizeInvoice(turns(3), t, phase.found, false);
        return Linked(phase.found, done);
      }
      outcome := CreateInvoice(turns, searches, t);
    }

    /** The plan for a row without an invoice, and its application. */
    method PlanAndApply(turns: nat -> Turn, searches: nat, resetUncertain: bool, reasons: bool, t: nat, seen: Option<Row>)
      returns (outcome: Outcome)
      requires Valid() && Mine(w, t, Planning(seen), false)
      modifies this
      ensures Valid() && old(history) <= history && Truthful(history, w, t, outcome)
      ensures (outcome.WasReset? ==> resetUncertain) && !outcome.AlreadyInvoiced?
      ensures Undisturbed(turns, t) && old(w).existing == {} && seen == old(w).row ==>
                RightReport(seen, turns(1).clock, turns(2).clock, resetUncertain, reasons, t, outcome, w)
      ensures Undisturbed(turns, t) && seen == old(w).row && (seen.None? || Unsaved(seen))
              && |turns(1).shown * old(w).existing - turns(1).cancelled| == 1 ==>
                LinksTheOnly(turns(1).shown * old(w).existing - turns(1).cancelled, outcome, w)
      ensures outcome.NothingSent? && !turns(6).fails && !turns(9).fails ==> !Waits(w, t)
    {
      ghost var before := w;
      var plan := PlanInvoice(turns, resetUncertain, reasons, t, seen);
      if Undisturbed(turns, t) && before.existing == {} {
        PlanIsRight(seen, turns(1).clock, turns(2).clock, resetUncertain, reasons, plan);
      }
      outcome := ApplyPlan(turns, searches, t, plan);
    }

    /** A whole recovery run for one order. */
    method Recover(turns: nat -> Turn, searches: nat, resetUncertain: bool, reasons: bool)
      returns (t: nat, outcome: Outcome)
      requires Valid()
      modifies this
      ensures Valid() && old(history) <= history && Truthful(history, w, t, outcome)
      ensures outcome.WasReset? ==> resetUncertain
      ensures var v := Run(old(w), turns(0).others);
              outcome.AlreadyInvoiced? <==> v.row.Some? && v.row.value.invoice.Some?
      // What an undisturbed run makes of an order without an invoice, and of one with a single active one.
      ensures Undisturbed(turns, old(w).nextWorker) && old(w).existing == {} ==>
                RightReport(old(w).row, turns(1).clock, turns(2).clock, resetUncertain, reasons, t, outcome, w)
      ensures Undisturbed(turns, old(w).nextWorker) && (old(w).row.None? || Unsaved(old(w).row))
              && |turns(1).shown * old(w).existing - turns(1).cancelled| == 1 ==>
                LinksTheOnly(turns(1).shown * old(w).existing - turns(1).cancelled, outcome, w)
      ensures outcome.NothingSent? && !turns(6).fails && !turns(9).fails ==> !Waits(w, t)
    {
      var seen;
      t, seen := ReadRow(turns(0));
      if seen.Some? && seen.value.invoice.Some? { return t, AlreadyInvoiced; }
      outcome := PlanAndApply(turns, searches, resetUncertain, reasons, t, seen);
    }
  }
}

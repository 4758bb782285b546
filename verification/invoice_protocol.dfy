/**
 * The KiotViet invoice of one Shopify order as a transition system over its row in
 * invoice_mappings. Any number of recovery runs, jobs and operators plan, claim, check again,
 * mark and send; a worker that stops takes no further step, a POST may be applied at any time
 * after the mark or never, and every clock reading is arbitrary.
 */
module InvoiceProtocol {
  import opened Prelude

  const VERIFY_WINDOW: int := 5 * 60_000

  datatype Status = Pending | Creating | Created | NeedsReview | Failed | Blocked

  datatype Row = Row(status: Status, token: Option<nat>, invoice: Option<nat>, version: nat, claimedAt: int)

  datatype Phase =
    | Planning(seen: Option<Row>)            // the row as planInvoiceRecovery read it
    | LinkPlan(seen: Option<Row>, found: nat)
    | CreatePlan(seen: Option<Row>)
    | ResetPlan(seen: Option<Row>)
    | Claimed
    | Checking(before: set<nat>)             // invoices that existed when the second lookup began
    | Clear                                  // it was complete and found none
    | Sent
    | Linking(found: nat)
    | Done

  datatype World = World(
    row: Option<Row>,
    workers: map<nat, Phase>,  // by worker, which is also the claim token it draws
    nextWorker: nat,
    nextVersion: nat,          // updated_at, as a strictly increasing instant
    inflight: set<nat>,        // POSTs that may still be applied, by the worker that sent them
    landed: set<nat>,          // invoices ever created, named after their POST
    existing: set<nat>)        // those not deleted since, cancelled ones included

  datatype Step =
    | Plan
    | PlanLink(t: nat, found: nat)
    | PlanCreate(t: nat, clock: int)
    | PlanReset(t: nat, clock: int)
    | Claim(t: nat, clock: int)
    | StartCheck(t: nat)
    | Pass(t: nat)
    | Appeared(t: nat, found: nat)
    | Mark(t: nat)
    | Land(t: nat)
    | Lose(t: nat)
    | Delete(invoice: nat)
    | Reject(t: nat)
    | Unclear(t: nat)
    | Succeed(t: nat)
    | Settle(t: nat, found: nat)
    | Park(t: nat)
    | Finalize(t: nat, ok: bool)
    | Release(t: nat, blocked: bool)
    | Verify(found: nat, ok: bool)
    | MarkReview
    | RecordBlocked
    | Reset(t: nat)

  // ---------- The SQL statements ----------

  predicate Holds(row: Option<Row>, t: nat) {
    row.Some? && row.value.token == Some(t)
  }

  predicate Unsaved(row: Option<Row>) {
    row.Some? && row.value.invoice.None?
  }

  predicate Unchanged(row: Option<Row>, seen: Option<Row>) {
    row.Some? && seen.Some? && row.value.version == seen.value.version
  }

  /**
   * The claim upsert: a new row, or one that is still as planned and has certainly sent nothing, or any
   * such row to link.
   */
  predicate MayClaim(row: Option<Row>, seen: Option<Row>, link: bool, clock: int) {
    row.None?
    || (Unsaved(row) && Unchanged(row, seen)
        && (row.value.status.Failed? || row.value.status.Blocked? || link
            || (row.value.status.Pending? && row.value.claimedAt < clock - VERIFY_WINDOW)))
  }

  predicate MayFinalize(row: Option<Row>, found: nat) {
    row.Some? && (row.value.invoice.None? || row.value.invoice == Some(found))
  }

  function Write(w: World, row: Row): World {
    w.(row := Some(row.(version := w.nextVersion)), nextVersion := w.nextVersion + 1)
  }

  function Finalized(row: Row, found: nat, ok: bool): Row {
    row.(invoice := Some(found), status := if ok then Created else NeedsReview, token := None)
  }

  // ---------- Steps ----------

  predicate At(w: World, t: nat, phase: Phase) {
    t in w.workers && w.workers[t] == phase
  }

  function To(w: World, t: nat, phase: Phase): World {
    w.(workers := w.workers[t := phase])
  }

  /** Before the POST, where every exit may release the claim. */
  predicate Unsent(phase: Phase) {
    phase.Claimed? || phase.Checking? || phase.Clear? || phase.Linking?
  }

  predicate Uncertain(seen: Option<Row>) {
    seen.Some? && (seen.value.status.Creating? || seen.value.status.NeedsReview?)
  }

  predicate Fresh(seen: Option<Row>, clock: int) {
    seen.Some? && clock - seen.value.claimedAt < VERIFY_WINDOW
  }

  /** Whether a step can be taken; the guard of an UPDATE is not part of it. */
  predicate Enabled(w: World, step: Step) {
    match step
    case Plan => w.row.None? || Unsaved(w.row)
    // A lookup returns invoices it read.
    case PlanLink(t, found) => t in w.workers && w.workers[t].Planning? && found in w.existing
    case PlanCreate(t, clock) =>
      t in w.workers && w.workers[t].Planning?
      && var seen := w.workers[t].seen; !Uncertain(seen) && !(seen.Some? && seen.value.status.Pending? && Fresh(seen, clock))
    case PlanReset(t, clock) =>
      t in w.workers && w.workers[t].Planning? && Uncertain(w.workers[t].seen) && !Fresh(w.workers[t].seen, clock)
    case Claim(t, _) => t in w.workers && (w.workers[t].LinkPlan? || w.workers[t].CreatePlan?)
    case StartCheck(t) => At(w, t, Claimed)
    // The second lookup called itself complete and showed nothing.
    case Pass(t) => t in w.workers && w.workers[t].Checking?
    case Appeared(t, found) => t in w.workers && w.workers[t].Checking? && found in w.existing
    case Mark(t) => At(w, t, Clear)
    case Land(t) => t in w.inflight
    case Lose(t) => t in w.inflight
    case Delete(invoice) => invoice in w.existing
    // A definite rejection says that the POST was not applied and never will be.
    case Reject(t) => At(w, t, Sent) && t !in w.inflight && t !in w.landed
    case Unclear(t) => At(w, t, Sent)
    case Succeed(t) => At(w, t, Sent) && t in w.landed
    case Settle(t, found) => At(w, t, Sent) && found in w.existing
    case Park(t) => At(w, t, Sent)
    case Finalize(t, _) => t in w.workers && w.workers[t].Linking?
    case Release(t, _) => t in w.workers && Unsent(w.workers[t])
    case Verify(found, _) => found in w.landed
    case MarkReview => w.row.Some?
    case RecordBlocked => true
    case Reset(t) => t in w.workers && w.workers[t].ResetPlan?
  }

  function Apply(w: World, step: Step): World
    requires Enabled(w, step)
  {
    match step
    case Plan => w.(workers := w.workers[w.nextWorker := Planning(w.row)], nextWorker := w.nextWorker + 1)
    case PlanLink(t, found) => To(w, t, LinkPlan(w.workers[t].seen, found))
    case PlanCreate(t, _) => To(w, t, CreatePlan(w.workers[t].seen))
    case PlanReset(t, _) => To(w, t, ResetPlan(w.workers[t].seen))
    case Claim(t, clock) =>
      var link := w.workers[t].LinkPlan?;
      if MayClaim(w.row, w.workers[t].seen, link, clock) then
        To(Write(w, Row(Pending, Some(t), None, 0, clock)), t, if link then Linking(w.workers[t].found) else Claimed)
      else To(w, t, Done)
    case StartCheck(t) => To(w, t, Checking(w.existing))
    case Pass(t) => To(w, t, Clear)
    case Appeared(t, found) => To(w, t, Linking(found))
    case Mark(t) =>
      if Holds(w.row, t) && w.row.value.status.Pending? then
        To(Write(w, w.row.value.(status := Creating)), t, Sent).(inflight := w.inflight + {t})
      else To(w, t, Done)
    case Land(t) => w.(inflight := w.inflight - {t}, landed := w.landed + {t}, existing := w.existing + {t})
    case Lose(t) => w.(inflight := w.inflight - {t})
    case Delete(invoice) => w.(existing := w.existing - {invoice})
    case Reject(t) => To(if Holds(w.row, t) then Write(w, w.row.value.(status := Failed, token := None)) else w, t, Done)
    case Unclear(t) => if Holds(w.row, t) then Write(w, w.row.value) else w
    case Succeed(t) =>
      To(if Holds(w.row, t) then Write(w, w.row.value.(status := NeedsReview, invoice := Some(t))) else w, t, Linking(t))
    case Settle(t, found) =>
      if Holds(w.row, t) && Unsaved(w.row) then To(Write(w, w.row.value.(status := NeedsReview, invoice := Some(found))), t, Linking(found))
      else To(w, t, Done)
    case Park(t) => To(if Holds(w.row, t) && Unsaved(w.row) then Write(w, w.row.value.(status := NeedsReview, token := None)) else w, t, Done)
    case Finalize(t, ok) =>
      var found := w.workers[t].found;
      To(if MayFinalize(w.row, found) then Write(w, Finalized(w.row.value, found, ok)) else w, t, Done)
    case Release(t, blocked) =>
      To(if Holds(w.row, t) && w.row.value.status.Pending? then Write(w, w.row.value.(status := if blocked then Blocked else Failed, token := None)) else w, t, Done)
    case Verify(found, ok) => if MayFinalize(w.row, found) then Write(w, Finalized(w.row.value, found, ok)) else w
    case MarkReview => if Unsaved(w.row) then Write(w, w.row.value.(status := NeedsReview, token := None)) else w
    case RecordBlocked =>
      if w.row.None? then Write(w, Row(Blocked, None, None, 0, 0))
      else if Unsaved(w.row) && (w.row.value.status.Blocked? || w.row.value.status.Failed?) then Write(w, w.row.value.(status := Blocked))
      else w
    case Reset(t) =>
      To(if Unsaved(w.row) && Unchanged(w.row, w.workers[t].seen) then Write(w, w.row.value.(status := Failed, token := None)) else w, t, Done)
  }

  /** A step that cannot be taken changes nothing. */
  function Take(w: World, step: Step): World {
    if Enabled(w, step) then Apply(w, step) else w
  }

  function Run(w: World, steps: seq<Step>): World {
    if steps == [] then w else Take(Run(w, steps[..|steps| - 1]), steps[|steps| - 1])
  }

  const Start := World(None, map[], 0, 0, {}, {}, {})

  // ---------- Invariant ----------

  predicate NothingSent(row: Option<Row>) {
    row.None? || row.value.status.Pending? || row.value.status.Failed? || row.value.status.Blocked?
  }

  ghost predicate Known(w: World) {
    && (forall t :: t in w.workers ==> t < w.nextWorker)
    && w.inflight + w.landed <= w.workers.Keys
    && w.existing <= w.landed && w.inflight !! w.landed
    && (w.row.Some? ==> w.row.value.version < w.nextVersion)
    && (w.row.Some? && w.row.value.token.Some? ==> w.row.value.token.value in w.workers)
    && (w.row.Some? && w.row.value.invoice.Some? ==> w.row.value.invoice.value in w.landed && !NothingSent(w.row))
  }

  ghost predicate AtMostOne(w: World) {
    forall a, b :: a in w.existing + w.inflight && b in w.existing + w.inflight ==> a == b
  }

  /** Phases of a worker that has not sent its POST. */
  predicate Early(phase: Phase) {
    !phase.Sent? && !phase.Linking? && !phase.Done?
  }

  /** What is true of the world whatever became of the worker's claim. */
  ghost predicate WorkerOk(w: World, t: nat, phase: Phase) {
    (Early(phase) ==> t !in w.inflight + w.landed)
    && match phase
    case Planning(seen) => seen.Some? ==> seen.value.version < w.nextVersion
    // An invoice was found after the row was read, so no POST can have been in flight then.
    case LinkPlan(seen, found) => (seen.Some? ==> seen.value.version < w.nextVersion) && found in w.landed && (Unchanged(w.row, seen) ==> w.inflight == {})
    case CreatePlan(seen) => seen.Some? ==> seen.value.version < w.nextVersion
    case ResetPlan(seen) => seen.Some? ==> seen.value.version < w.nextVersion
    case Linking(found) => found in w.landed
    case _ => true
  }

  /** What the worker that holds the claim may rely on. */
  ghost predicate HolderOk(w: World, t: nat, phase: Phase)
    requires w.row.Some?
  {
    && (phase.Checking? && w.row.value.status.Pending? ==> w.existing <= phase.before)
    && (phase.Clear? && w.row.value.status.Pending? ==> w.existing == {})
    && (phase.Sent? ==> w.row.value.status.Creating? && w.row.value.invoice.None? && w.inflight <= {t})
  }

  ghost predicate Inv(w: World) {
    && Known(w)
    && AtMostOne(w)
    && (NothingSent(w.row) ==> w.inflight == {})
    && (forall t :: t in w.workers ==> WorkerOk(w, t, w.workers[t]))
    && (forall t :: Holds(w.row, t) ==> t in w.workers && HolderOk(w, t, w.workers[t]))
  }

  predicate SettledReset(w: World, step: Step) {
    step.Reset? ==> w.inflight == {}
  }

  /**
   * A lookup that called itself complete and showed nothing missed no invoice that existed from its start
   * to its end.
   */
  predicate SoundCheck(w: World, step: Step) {
    step.Pass? && step.t in w.workers && w.workers[step.t].Checking? ==> w.workers[step.t].before !! w.existing
  }

  /** A worker moves on, relying on nothing it may not rely on. */
  lemma PhaseKeepsInv(w: World, t: nat, phase: Phase)
    requires Inv(w) && t in w.workers && WorkerOk(w, t, phase) && (Holds(w.row, t) ==> HolderOk(w, t, phase))
    ensures Inv(To(w, t, phase))
  {
    var v := To(w, t, phase);
    assert forall u :: u in v.workers ==> v.workers[u] == if u == t then phase else w.workers[u];
    assert v.workers.Keys == w.workers.Keys;
  }

  /** A row that saves only an invoice that exists, and says that nothing was sent only when nothing can land. */
  ghost predicate MayWrite(w: World, row: Row) {
    if NothingSent(Some(row)) then row.invoice.None? && w.inflight == {} else row.invoice.Some? ==> row.invoice.value in w.landed
  }

  /** A write that pretends nothing was sent only when nothing is in flight. */
  lemma WriteKeepsInv(w: World, row: Row)
    requires Inv(w)
    requires row.token.Some? ==>
               row.token.value in w.workers && HolderOk(Write(w, row), row.token.value, w.workers[row.token.value])
    requires MayWrite(w, row)
    ensures Inv(Write(w, row))
  {
    var v := Write(w, row);
    forall u | u in v.workers ensures WorkerOk(v, u, v.workers[u]) {
      assert WorkerOk(w, u, w.workers[u]);
    }
  }

  lemma EndKeepsInv(w: World, t: nat)
    requires Inv(w) && t in w.workers
    ensures Inv(To(w, t, Done))
  {
    PhaseKeepsInv(w, t, Done);
  }

  lemma PlanKeepsInv(w: World)
    requires Inv(w)
    ensures Inv(Take(w, Plan))
  {
    var v := Take(w, Plan);
    assert forall u :: u in w.workers ==> v.workers[u] == w.workers[u];
    assert w.workers.Keys <= v.workers.Keys;
  }

  lemma ClaimKeepsInv(w: World, t: nat, clock: int)
    requires Inv(w) && Enabled(w, Claim(t, clock))
    ensures Inv(Take(w, Claim(t, clock)))
  {
    var phase := w.workers[t];
    var seen := phase.seen;
    assert WorkerOk(w, t, phase);
    if MayClaim(w.row, seen, phase.LinkPlan?, clock) {
      var next := if phase.LinkPlan? then Linking(phase.found) else Claimed;
      PhaseKeepsInv(w, t, next);
      WriteKeepsInv(To(w, t, next), Row(Pending, Some(t), None, 0, clock));
    } else {
      EndKeepsInv(w, t);
    }
  }

  lemma MarkKeepsInv(w: World, t: nat)
    requires Inv(w) && Enabled(w, Mark(t))
    ensures Inv(Take(w, Mark(t)))
  {
    if Holds(w.row, t) && w.row.value.status.Pending? {
      assert HolderOk(w, t, w.workers[t]);
      var v := Take(w, Mark(t));
      assert v.inflight == {t} && v.existing == {};
      assert v.workers.Keys == w.workers.Keys;
      forall u | u in v.workers ensures WorkerOk(v, u, v.workers[u]) {
        assert WorkerOk(w, u, w.workers[u]);
        assert v.workers[u] == if u == t then Sent else w.workers[u];
      }
    } else {
      EndKeepsInv(w, t);
    }
  }

  /** The environment settles a POST or deletes an invoice. */
  lemma EnvironmentKeepsInv(w: World, step: Step)
    requires Inv(w) && Enabled(w, step) && (step.Land? || step.Lose? || step.Delete?)
    ensures Inv(Take(w, step))
  {
    var v := Take(w, step);
    assert v.inflight <= w.inflight && v.existing + v.inflight <= w.existing + w.inflight;
    forall u | u in v.workers ensures WorkerOk(v, u, v.workers[u]) {
      assert WorkerOk(w, u, w.workers[u]);
    }
  }

  /** A worker's own write, made only under the claim, and where it goes from there. */
  lemma OwnWriteKeepsInv(w: World, t: nat, guard: bool, row: Row, phase: Phase)
    requires Inv(w) && t in w.workers && WorkerOk(w, t, phase) && !Early(phase) && !phase.Sent?
    requires guard ==> Holds(w.row, t) && (row.token.None? || row.token == Some(t))
    requires guard ==> MayWrite(w, row)
    ensures Inv(To(if guard then Write(w, row) else w, t, phase))
  {
    assert Holds(w.row, t) ==> HolderOk(w, t, w.workers[t]);
    PhaseKeepsInv(w, t, phase);
    if guard { WriteKeepsInv(To(w, t, phase), row); }
  }

  /** A write that anyone may make, because it clears the claim and saves only what exists. */
  lemma AnyWriteKeepsInv(w: World, t: nat, guard: bool, row: Row)
    requires Inv(w) && t in w.workers
    requires guard ==> row.token.None? && MayWrite(w, row)
    ensures Inv(To(if guard then Write(w, row) else w, t, Done))
  {
    EndKeepsInv(w, t);
    if guard { WriteKeepsInv(To(w, t, Done), row); }
  }

  lemma AnswerKeepsInv(w: World, step: Step)
    requires Inv(w) && Enabled(w, step) && (step.Reject? || step.Succeed? || step.Settle?)
    ensures Inv(Take(w, step))
  {
    var t, held := step.t, Holds(w.row, step.t);
    assert held ==> HolderOk(w, t, w.workers[t]);
    match step
    case Reject(_) => OwnWriteKeepsInv(w, t, held, if held then w.row.value.(status := Failed, token := None) else Row(Failed, None, None, 0, 0), Done);
    case Succeed(_) =>
      OwnWriteKeepsInv(w, t, held, if held then w.row.value.(status := NeedsReview, invoice := Some(t)) else Row(Failed, None, None, 0, 0), Linking(t));
    case Settle(_, found) =>
      if held && Unsaved(w.row) {
        OwnWriteKeepsInv(w, t, true, w.row.value.(status := NeedsReview, invoice := Some(found)), Linking(found));
      } else {
        EndKeepsInv(w, t);
      }
  }

  lemma EndingKeepsInv(w: World, step: Step)
    requires Inv(w) && Enabled(w, step) && SettledReset(w, step)
             && (step.Park? || step.Finalize? || step.Release? || step.Reset?)
    ensures Inv(Take(w, step))
  {
    var t, none := step.t, Row(NeedsReview, None, None, 0, 0);
    assert WorkerOk(w, t, w.workers[t]);
    match step
    case Park(_) =>
      var may := Holds(w.row, t) && Unsaved(w.row);
      AnyWriteKeepsInv(w, t, may, if may then w.row.value.(status := NeedsReview, token := None) else none);
    case Finalize(_, ok) =>
      var found := w.workers[t].found;
      var may := MayFinalize(w.row, found);
      AnyWriteKeepsInv(w, t, may, if may then Finalized(w.row.value, found, ok) else none);
    case Release(_, blocked) =>
      var may := Holds(w.row, t) && w.row.value.status.Pending?;
      AnyWriteKeepsInv(w, t, may, if may then w.row.value.(status := if blocked then Blocked else Failed, token := None) else none);
    case Reset(_) =>
      var may := Unsaved(w.row) && Unchanged(w.row, w.workers[t].seen);
      AnyWriteKeepsInv(w, t, may, if may then w.row.value.(status := Failed, token := None) else none);
  }

  /** Writes that are no worker's own. */
  lemma SharedKeepsInv(w: World, step: Step)
    requires Inv(w) && Enabled(w, step) && (step.Unclear? || step.Verify? || step.MarkReview? || step.RecordBlocked?)
    ensures Inv(Take(w, step))
  {
    assert w.row.Some? && w.row.value.token.Some? ==> HolderOk(w, w.row.value.token.value, w.workers[w.row.value.token.value]) by {
      if w.row.Some? && w.row.value.token.Some? { assert Holds(w.row, w.row.value.token.value); }
    }
    match step
    case Unclear(t) => if Holds(w.row, t) { WriteKeepsInv(w, w.row.value); }
    case Verify(found, ok) => if MayFinalize(w.row, found) { WriteKeepsInv(w, Finalized(w.row.value, found, ok)); }
    case MarkReview => if Unsaved(w.row) { WriteKeepsInv(w, w.row.value.(status := NeedsReview, token := None)); }
    case RecordBlocked =>
      if w.row.None? { WriteKeepsInv(w, Row(Blocked, None, None, 0, 0)); }
      else if Unsaved(w.row) && (w.row.value.status.Blocked? || w.row.value.status.Failed?) { WriteKeepsInv(w, w.row.value.(status := Blocked)); }
  }

  /** While an invoice exists no POST of the order is in flight. */
  lemma NothingInFlightBeside(w: World, found: nat)
    requires Inv(w) && found in w.existing
    ensures w.inflight == {}
  {
    assert found in w.existing + w.inflight;
    assert forall b :: b in w.existing + w.inflight ==> b == found;
    assert w.inflight <= {found};
  }

  /** Steps of planning and checking, which write nothing. */
  lemma ReadingKeepsInv(w: World, step: Step)
    requires Inv(w) && Enabled(w, step)
    requires step.PlanLink? || step.PlanCreate? || step.PlanReset? || step.StartCheck? || step.Pass? || step.Appeared?
    requires SoundCheck(w, step)
    ensures Inv(Take(w, step))
  {
    var t := step.t;
    assert WorkerOk(w, t, w.workers[t]);
    assert Holds(w.row, t) ==> HolderOk(w, t, w.workers[t]);
    match step
    case PlanLink(_, found) =>
      NothingInFlightBeside(w, found);
      PhaseKeepsInv(w, t, LinkPlan(w.workers[t].seen, found));
    case PlanCreate(_, _) => PhaseKeepsInv(w, t, CreatePlan(w.workers[t].seen));
    case PlanReset(_, _) => PhaseKeepsInv(w, t, ResetPlan(w.workers[t].seen));
    case StartCheck(_) => PhaseKeepsInv(w, t, Checking(w.existing));
    case Pass(_) => PhaseKeepsInv(w, t, Clear);
    case Appeared(_, found) => PhaseKeepsInv(w, t, Linking(found));
  }

  lemma StepKeepsInv(w: World, step: Step)
    requires Inv(w) && SettledReset(w, step) && SoundCheck(w, step)
    ensures Inv(Take(w, step))
  {
    if Enabled(w, step) {
      match step
      case Plan => PlanKeepsInv(w);
      case Claim(t, clock) => ClaimKeepsInv(w, t, clock);
      case Mark(t) => MarkKeepsInv(w, t);
      case Land(_) => EnvironmentKeepsInv(w, step);
      case Lose(_) => EnvironmentKeepsInv(w, step);
      case Delete(_) => EnvironmentKeepsInv(w, step);
      case Reject(_) => AnswerKeepsInv(w, step);
      case Succeed(_) => AnswerKeepsInv(w, step);
      case Settle(_, _) => AnswerKeepsInv(w, step);
      case Park(_) => EndingKeepsInv(w, step);
      case Finalize(_, _) => EndingKeepsInv(w, step);
      case Release(_, _) => EndingKeepsInv(w, step);
      case Reset(_) => EndingKeepsInv(w, step);
      case Unclear(_) => SharedKeepsInv(w, step);
      case Verify(_, _) => SharedKeepsInv(w, step);
      case MarkReview => SharedKeepsInv(w, step);
      case RecordBlocked => SharedKeepsInv(w, step);
      case _ => ReadingKeepsInv(w, step);
    }
  }

  /** Every reset of the run was made when the POST it is about had settled. */
  predicate ResetsWereSettled(w: World, steps: seq<Step>) {
    steps == []
    || (ResetsWereSettled(w, steps[..|steps| - 1]) && SettledReset(Run(w, steps[..|steps| - 1]), steps[|steps| - 1]))
  }

  /** Every second lookup of the run that called itself complete was. */
  predicate ChecksWereSound(w: World, steps: seq<Step>) {
    steps == []
    || (ChecksWereSound(w, steps[..|steps| - 1]) && SoundCheck(Run(w, steps[..|steps| - 1]), steps[|steps| - 1]))
  }

  predicate PremisesHeld(w: World, steps: seq<Step>) {
    ResetsWereSettled(w, steps) && ChecksWereSound(w, steps)
  }

  lemma {:induction false} RunKeepsInv(w: World, steps: seq<Step>)
    requires Inv(w) && PremisesHeld(w, steps)
    ensures Inv(Run(w, steps))
  {
    if steps != [] {
      RunKeepsInv(w, steps[..|steps| - 1]);
      StepKeepsInv(Run(w, steps[..|steps| - 1]), steps[|steps| - 1]);
    }
  }

  // ---------- What every run keeps ----------

  /**
   * No run makes two KiotViet invoices for one Shopify order, provided that an operator resets an
   * uncertain row only after its POST has settled, and that a second lookup that calls itself
   * complete is; no POST is in flight beside an invoice either.
   */
  lemma AtMostOneInvoice(steps: seq<Step>)
    requires PremisesHeld(Start, steps)
    ensures var w := Run(Start, steps);
            |w.existing| <= 1 && (w.existing != {} ==> w.inflight == {}) && |w.inflight| <= 1
  {
    RunKeepsInv(Start, steps);
    OneInvoiceOrPost(Run(Start, steps));
  }

  lemma OneInvoiceOrPost(w: World)
    requires Inv(w)
    ensures |w.existing| <= 1 && (w.existing != {} ==> w.inflight == {}) && |w.inflight| <= 1
  {
    assert forall a :: a in w.existing || a in w.inflight ==> a in w.existing + w.inflight;
    AtMostOneElement(w.existing);
    AtMostOneElement(w.inflight);
    if w.existing != {} {
      var x :| x in w.existing;
      NothingInFlightBeside(w, x);
    }
  }

  lemma AtMostOneElement(s: set<nat>)
    requires forall a, b :: a in s && b in s ==> a == b
    ensures |s| <= 1
  {
    if s != {} {
      var x :| x in s;
      assert s == {x};
    }
  }

  lemma OnlyMarksSend(w: World, step: Step)
    requires Inv(w)
    ensures !(Take(w, step).inflight <= w.inflight) ==>
              step.Mark? && w.existing == {} && w.inflight == {} && Unsaved(w.row)
  {
    if step.Mark? && Enabled(w, step) {
      assert Holds(w.row, step.t) ==> HolderOk(w, step.t, w.workers[step.t]);
    }
  }

  /** A POST is only ever sent while the order has no invoice and no other POST in flight. */
  lemma SentOnlyWithoutInvoice(steps: seq<Step>, step: Step)
    requires PremisesHeld(Start, steps)
    ensures var w, v := Run(Start, steps), Take(Run(Start, steps), step);
            !(v.inflight <= w.inflight) ==> step.Mark? && w.existing == {} && w.inflight == {} && Unsaved(w.row)
  {
    RunKeepsInv(Start, steps);
    OnlyMarksSend(Run(Start, steps), step);
  }

  lemma StepKeepsSavedInvoice(w: World, step: Step)
    requires Inv(w) && w.row.Some? && w.row.value.invoice.Some?
    ensures var v := Take(w, step);
            v.row.Some? && v.row.value.invoice == w.row.value.invoice && v.inflight <= w.inflight
  {
    OnlyMarksSend(w, step);
    if step.Succeed? && Enabled(w, step) {
      assert Holds(w.row, step.t) ==> HolderOk(w, step.t, w.workers[step.t]);
    }
  }

  /** A saved invoice id is never replaced or lost, and no POST is sent after it. */
  lemma {:induction false} SavedInvoiceIsFinal(w: World, steps: seq<Step>)
    requires Inv(w) && PremisesHeld(w, steps) && w.row.Some? && w.row.value.invoice.Some?
    ensures var v := Run(w, steps);
            v.row.Some? && v.row.value.invoice == w.row.value.invoice && v.inflight <= w.inflight
  {
    if steps != [] {
      SavedInvoiceIsFinal(w, steps[..|steps| - 1]);
      RunKeepsInv(w, steps[..|steps| - 1]);
      StepKeepsSavedInvoice(Run(w, steps[..|steps| - 1]), steps[|steps| - 1]);
    }
  }

  // ---------- The operator reset ----------

  lemma Extend(w: World, steps: seq<Step>, step: Step)
    requires ResetsWereSettled(w, steps) && !step.Reset?
    ensures Run(w, steps + [step]) == Take(Run(w, steps), step) && ResetsWereSettled(w, steps + [step])
    ensures ChecksWereSound(w, steps + [step]) <==> ChecksWereSound(w, steps) && SoundCheck(Run(w, steps), step)
  {
    assert (steps + [step])[..|steps|] == steps;
  }

  /** A row that may be planned for a new invoice, while an older POST may still land. */
  predicate OpenWithPost(w: World, u: nat) {
    w.row.Some? && w.row.value.status.Failed? && w.row.value.invoice.None? && w.existing == {} && u in w.inflight && u < w.nextWorker
  }

  /** Plan, claim and check over a failed row without an invoice, whatever is in flight. */
  lemma ClearToSend(w: World) returns (steps: seq<Step>)
    requires w.row.Some? && w.row.value.status.Failed? && w.row.value.invoice.None? && w.existing == {}
    ensures PremisesHeld(w, steps)
    ensures var v := Run(w, steps);
            && At(v, w.nextWorker, Clear) && Holds(v.row, w.nextWorker) && v.row.value.status.Pending?
            && v.row.value.invoice.None?
            && v.existing == {} && v.inflight == w.inflight && v.landed == w.landed
  {
    var n := w.nextWorker;
    steps := ClaimAgain(w);
    Extend(w, steps, StartCheck(n));
    steps := steps + [StartCheck(n)];
    Extend(w, steps, Pass(n));
    steps := steps + [Pass(n)];
  }

  lemma ClaimAgain(w: World) returns (steps: seq<Step>)
    requires w.row.Some? && w.row.value.status.Failed? && w.row.value.invoice.None?
    ensures PremisesHeld(w, steps)
    ensures var v := Run(w, steps);
            && At(v, w.nextWorker, Claimed) && Holds(v.row, w.nextWorker)
            && v.row.value.status.Pending? && v.row.value.invoice.None?
            && v.existing == w.existing && v.inflight == w.inflight && v.landed == w.landed
  {
    var n := w.nextWorker;
    steps := [];
    Extend(w, steps, Plan);
    steps := steps + [Plan];
    assert At(Run(w, steps), n, Planning(w.row));
    Extend(w, steps, PlanCreate(n, 0));
    steps := steps + [PlanCreate(n, 0)];
    assert At(Run(w, steps), n, CreatePlan(w.row));
    Extend(w, steps, Claim(n, 0));
    steps := steps + [Claim(n, 0)];
  }

  /** Claim, check and send once more. */
  lemma SecondPost(w: World, u: nat) returns (steps: seq<Step>)
    requires OpenWithPost(w, u)
    ensures PremisesHeld(w, steps)
    ensures var v := Run(w, steps); v.existing == {} && u in v.inflight && w.nextWorker in v.inflight
  {
    var n := w.nextWorker;
    steps := ClearToSend(w);
    Extend(w, steps, Mark(n));
    steps := steps + [Mark(n)];
  }

  lemma BothPostsLand(w: World, u: nat) returns (steps: seq<Step>)
    requires OpenWithPost(w, u)
    ensures PremisesHeld(w, steps) && |Run(w, steps).existing| == 2
  {
    var n := w.nextWorker;
    steps := SecondPost(w, u);
    Extend(w, steps, Land(n));
    steps := steps + [Land(n)];
    Extend(w, steps, Land(u));
    steps := steps + [Land(u)];
    assert Run(w, steps).existing == {n, u};
  }

  lemma PostLands(w: World) returns (steps: seq<Step>)
    requires Inv(w) && w.row.Some? && w.row.value.status.Failed? && w.existing == {}
    ensures PremisesHeld(w, steps)
    ensures var v := Run(w, steps);
            && At(v, w.nextWorker, Sent) && Holds(v.row, w.nextWorker) && v.row.value.invoice.None?
            && v.existing == {w.nextWorker} && v.inflight == {} && w.nextWorker in v.landed
  {
    var n := w.nextWorker;
    steps := ClearToSend(w);
    Extend(w, steps, Mark(n));
    steps := steps + [Mark(n)];
    assert Run(w, steps).inflight == {n};
    Extend(w, steps, Land(n));
    steps := steps + [Land(n)];
  }

  /** An undisturbed run that finds a failed row and no invoice makes the invoice, saves its id and verifies it. */
  lemma CleanRunInvoices(w: World) returns (steps: seq<Step>)
    requires Inv(w) && w.row.Some? && w.row.value.status.Failed? && w.existing == {}
    ensures PremisesHeld(w, steps)
    ensures var v := Run(w, steps);
            v.row.Some? && v.row.value.status.Created? && v.row.value.invoice == Some(w.nextWorker) && v.existing == {w.nextWorker} && v.inflight == {}
  {
    var n := w.nextWorker;
    steps := PostLands(w);
    Extend(w, steps, Succeed(n));
    steps := steps + [Succeed(n)];
    Extend(w, steps, Finalize(n, true));
    steps := steps + [Finalize(n, true)];
  }

  /** After an operator reset no run can make a second invoice if and only if no POST was in flight. */
  lemma ResetIsSafeExactlyWhenSettled(w: World, t: nat)
    requires Inv(w) && Enabled(w, Reset(t)) && Unsaved(w.row) && Unchanged(w.row, w.workers[t].seen)
    ensures w.inflight == {} <==>
              forall steps :: PremisesHeld(Take(w, Reset(t)), steps) ==> |Run(Take(w, Reset(t)), steps).existing| <= 1
  {
    var v := Take(w, Reset(t));
    if w.inflight == {} {
      StepKeepsInv(w, Reset(t));
      forall steps | PremisesHeld(v, steps) ensures |Run(v, steps).existing| <= 1 {
        RunKeepsInv(v, steps);
        OneInvoiceOrPost(Run(v, steps));
      }
    } else {
      var u :| u in w.inflight;
      assert u in w.workers;
      if w.existing != {} {
        var x :| x in w.existing;
        NothingInFlightBeside(w, x);
      }
      var steps := BothPostsLand(v, u);
    }
  }

  // ---------- The second lookup ----------

  lemma PassedPostLands(v: World, t: nat, x: nat) returns (steps: seq<Step>)
    requires At(v, t, Clear) && Holds(v.row, t) && v.row.value.status.Pending? && x in v.existing && t != x
    ensures PremisesHeld(v, steps) && x in Run(v, steps).existing && t in Run(v, steps).existing
  {
    steps := [];
    Extend(v, steps, Mark(t));
    steps := steps + [Mark(t)];
    Extend(v, steps, Land(t));
    steps := steps + [Land(t)];
  }

  /**
   * After the holder of a claim passed its second lookup no run can make a second invoice if and
   * only if the order has none; so the lookup must be sound, and nothing else protects the POST.
   */
  lemma PassIsSafeExactlyWhenNothingExists(w: World, t: nat)
    requires Inv(w) && Enabled(w, Pass(t)) && Holds(w.row, t) && w.row.value.status.Pending?
    ensures w.existing == {} <==>
              forall steps :: PremisesHeld(Take(w, Pass(t)), steps) ==> |Run(Take(w, Pass(t)), steps).existing| <= 1
  {
    var v := Take(w, Pass(t));
    if w.existing == {} {
      StepKeepsInv(w, Pass(t));
      forall steps | PremisesHeld(v, steps) ensures |Run(v, steps).existing| <= 1 {
        RunKeepsInv(v, steps);
        OneInvoiceOrPost(Run(v, steps));
      }
    } else {
      var x :| x in w.existing;
      assert WorkerOk(w, t, w.workers[t]);
      assert x != t;
      var steps := PassedPostLands(v, t, x);
      TwoElements(Run(v, steps).existing, x, t);
    }
  }

  lemma TwoElements(s: set<nat>, x: nat, y: nat)
    requires x in s && y in s && x != y
    ensures |s| >= 2
  {
    assert |{x, y}| == 2 && {x, y} <= s;
    Smaller({x, y}, s);
  }

  lemma {:induction false} Smaller(a: set<nat>, b: set<nat>)
    requires a <= b
    ensures |a| <= |b|
    decreases |a|
  {
    if a != {} {
      var x :| x in a;
      Smaller(a - {x}, b - {x});
    }
  }

  // ---------- Taking over a claim ----------

  /**
   * A worker that plans to create gets the row exactly when there is none, or it is as planned, has
   * no invoice, and certainly sent nothing: failed, blocked, or claimed more than five minutes ago.
   */
  lemma CreationClaimsExactly(w: World, t: nat, clock: int)
    requires t < w.nextWorker && At(w, t, CreatePlan(w.row)) && !Holds(w.row, t)
    ensures Holds(Take(w, Claim(t, clock)).row, t) <==>
              || w.row.None?
              || (w.row.value.invoice.None?
                  && (w.row.value.status == Failed || w.row.value.status == Blocked
                      || (w.row.value.status == Pending && clock - w.row.value.claimedAt > 5 * 60_000)))
  {}

  /** A worker that stopped after its claim does not keep the order: after five minutes another one makes the invoice. */
  lemma StoppedWorkerIsReplaced(clock: int) returns (steps: seq<Step>)
    requires clock > 5 * 60_000
    ensures PremisesHeld(Start, steps) && Run(Start, steps).existing == {1} && SavedIs(Run(Start, steps), 1)
  {
    steps := StaleClaimTaken(clock);
    Extend(Start, steps, StartCheck(1));
    steps := steps + [StartCheck(1)];
    Extend(Start, steps, Pass(1));
    steps := steps + [Pass(1)];
    steps := LandsAndFinishes(steps);
  }

  lemma LandsAndFinishes(steps0: seq<Step>) returns (steps: seq<Step>)
    requires PremisesHeld(Start, steps0)
    requires var w := Run(Start, steps0);
             && At(w, 1, Clear) && Holds(w.row, 1) && w.row.value.status.Pending? && w.row.value.invoice.None?
             && w.existing == {} && w.inflight == {}
    ensures PremisesHeld(Start, steps) && Run(Start, steps).existing == {1} && SavedIs(Run(Start, steps), 1)
  {
    Extend(Start, steps0, Mark(1));
    steps := steps0 + [Mark(1)];
    assert Run(Start, steps).inflight == {1};
    Extend(Start, steps, Land(1));
    steps := steps + [Land(1)];
    Extend(Start, steps, Succeed(1));
    steps := steps + [Succeed(1)];
    Extend(Start, steps, Finalize(1, true));
    steps := steps + [Finalize(1, true)];
  }

  lemma StaleClaimTaken(clock: int) returns (steps: seq<Step>)
    requires clock > 5 * 60_000
    ensures PremisesHeld(Start, steps)
    ensures var w := Run(Start, steps);
            && At(w, 1, Claimed) && Holds(w.row, 1) && w.row.value.status.Pending? && w.row.value.invoice.None?
            && w.existing == {} && w.inflight == {}
  {
    steps := FirstClaims();
    var row := Run(Start, steps).row;
    Extend(Start, steps, Plan);
    steps := steps + [Plan];
    assert At(Run(Start, steps), 1, Planning(row));
    Extend(Start, steps, PlanCreate(1, clock));
    steps := steps + [PlanCreate(1, clock)];
    assert At(Run(Start, steps), 1, CreatePlan(row));
    Extend(Start, steps, Claim(1, clock));
    steps := steps + [Claim(1, clock)];
  }

  lemma FirstClaims() returns (steps: seq<Step>)
    ensures PremisesHeld(Start, steps)
    ensures var w := Run(Start, steps);
            && At(w, 0, Claimed) && Holds(w.row, 0) && w.row.value.status.Pending? && w.row.value.invoice.None?
            && w.row.value.claimedAt == 0 && w.existing == {} && w.inflight == {} && w.nextWorker == 1
  {
    steps := [];
    Extend(Start, steps, Plan);
    steps := steps + [Plan];
    assert At(Run(Start, steps), 0, Planning(None));
    Extend(Start, steps, PlanCreate(0, 0));
    steps := steps + [PlanCreate(0, 0)];
    assert At(Run(Start, steps), 0, CreatePlan(None));
    Extend(Start, steps, Claim(0, 0));
    steps := steps + [Claim(0, 0)];
  }

  // ---------- Runs that show the premises and the reports at work ----------

  lemma FirstClear() returns (steps: seq<Step>)
    ensures PremisesHeld(Start, steps)
    ensures var w := Run(Start, steps);
            && At(w, 0, Clear) && Holds(w.row, 0) && w.row.value.status.Pending? && w.row.value.invoice.None?
            && w.existing == {} && w.inflight == {} && w.nextWorker == 1
  {
    steps := FirstClaims();
    Extend(Start, steps, StartCheck(0));
    steps := steps + [StartCheck(0)];
    Extend(Start, steps, Pass(0));
    steps := steps + [Pass(0)];
  }

  /** The first worker's POST made its invoice, and its answer is on the way. */
  lemma FirstLands() returns (steps: seq<Step>)
    ensures PremisesHeld(Start, steps)
    ensures var w := Run(Start, steps);
            && At(w, 0, Sent) && 0 in w.landed && w.existing == {0} && w.inflight == {} && w.nextWorker == 1
            && Holds(w.row, 0) && w.row.value.status.Creating? && w.row.value.invoice.None?
  {
    steps := FirstClear();
    Extend(Start, steps, Mark(0));
    steps := steps + [Mark(0)];
    assert Run(Start, steps).inflight == {0};
    Extend(Start, steps, Land(0));
    steps := steps + [Land(0)];
  }

  /** A second worker finds that invoice and takes the row over to link it. */
  lemma SecondLinks() returns (steps: seq<Step>)
    ensures PremisesHeld(Start, steps)
    ensures var w := Run(Start, steps);
            && At(w, 0, Sent) && 0 in w.landed && w.existing == {0} && w.inflight == {} && w.nextWorker == 2
            && At(w, 1, Linking(0)) && Holds(w.row, 1) && w.row.value.status.Pending? && w.row.value.invoice.None?
  {
    steps := FirstLands();
    var row := Run(Start, steps).row;
    Extend(Start, steps, Plan);
    steps := steps + [Plan];
    assert At(Run(Start, steps), 1, Planning(row));
    Extend(Start, steps, PlanLink(1, 0));
    steps := steps + [PlanLink(1, 0)];
    assert At(Run(Start, steps), 1, LinkPlan(row, 0));
    Extend(Start, steps, Claim(1, 0));
    steps := steps + [Claim(1, 0)];
  }

  predicate SavedIs(w: World, invoice: nat) {
    w.row.Some? && w.row.value.invoice == Some(invoice)
  }

  /** Then the answer arrives: the first worker writes the id under a claim it no longer has, and reports it saved. */
  lemma SavedReportCanBeFalse() returns (steps: seq<Step>)
    ensures PremisesHeld(Start, steps)
    ensures var w := Run(Start, steps);
            Enabled(w, Succeed(0)) && w.existing == {0} && Unsaved(Take(w, Succeed(0)).row)
  {
    steps := SecondLinks();
  }

  /** The link fails and releases the row; a third worker may send as soon as a lookup misses the invoice. */
  lemma ThirdChecks() returns (steps: seq<Step>)
    ensures PremisesHeld(Start, steps)
    ensures var w := Run(Start, steps);
            w.existing == {0} && At(w, 2, Checking({0})) && Holds(w.row, 2) && w.row.value.status.Pending?
  {
    steps := SecondLinks();
    Extend(Start, steps, Release(1, false));
    steps := steps + [Release(1, false)];
    var more := ClaimAgain(Run(Start, steps));
    Continue(Start, steps, more);
    steps := steps + more;
    Extend(Start, steps, StartCheck(2));
    steps := steps + [StartCheck(2)];
  }

  lemma {:induction false} Continue(w: World, a: seq<Step>, b: seq<Step>)
    requires PremisesHeld(w, a) && PremisesHeld(Run(w, a), b)
    ensures Run(w, a + b) == Run(Run(w, a), b) && PremisesHeld(w, a + b)
  {
    if b == [] {
      assert a + b == a;
    } else {
      assert (a + b)[..|a + b| - 1] == a + b[..|b| - 1];
      Continue(w, a, b[..|b| - 1]);
    }
  }

  /** With every reset settled, one second lookup that is not sound is enough for two invoices. */
  lemma UnsoundCheckMakesTwoInvoices() returns (steps: seq<Step>)
    ensures ResetsWereSettled(Start, steps) && !ChecksWereSound(Start, steps) && Run(Start, steps).existing == {0, 2}
  {
    steps := ThirdChecks();
    Extend(Start, steps, Pass(2));
    steps := steps + [Pass(2)];
    Extend(Start, steps, Mark(2));
    steps := steps + [Mark(2)];
    Extend(Start, steps, Land(2));
    steps := steps + [Land(2)];
  }
}

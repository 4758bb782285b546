/**
 * The KiotViet order of one Shopify order as a transition system over its row in order_mappings:
 * workers that claim, mark, send and record, workers that verify an uncertain creation, and
 * recovery runs that link or requeue. Every statement and every request is one step at its own
 * instant; the claim transaction is one step as well.
 */
module OrderProtocol {
  import opened Prelude

  const RECOVERY_WINDOW: int := 5 * 60_000
  const CLAIM_LEASE: int := 15 * 60_000

  datatype Status = PendingCreate | Creating | CreateFailed | Created

  datatype Row = Row(status: Status, token: Option<nat>, order: Option<nat>, version: nat, claimedAt: int,
      floorAt: Option<int>)

  datatype Phase =
    | Claimed(at: int)
    | Sent(at: int)                          // with the instant of its claim
    | Planning(seen: Option<Row>)            // the row as planOrderRecovery read it
    | Searched(seen: Option<Row>)            // no order references the Shopify order
    | LinkPlan(found: nat)
    | RequeuePlan(seen: Option<Row>)
    | Done

  datatype World = World(
    now: int,
    row: Option<Row>,
    workers: map<nat, Phase>,  // by worker, which is also the claim token it draws
    nextWorker: nat,
    inflight: map<nat, int>,   // creates that may still be applied, with the instant of their mark
    landed: map<nat, int>)     // KiotViet orders that reference the Shopify order, with the instant of their creation

  datatype Step =
    | Tick(d: nat)
    | Claim
    | Fail(t: nat)
    | Mark(t: nat)
    | Land(t: nat)
    | Lose(t: nat)
    | Reject(t: nat)
    | Uncertain(t: nat)
    | Record(t: nat)
    | Verify(found: nat)
    | VerifyPark
    | RecordFailure
    | PlanRead
    | PlanSearch(t: nat, result: Option<nat>)
    | PlanRequeue(t: nat)
    | ApplyLink(t: nat)
    | ApplyRequeue(t: nat)
    | Foreign

  // ---------- The SQL statements ----------

  predicate Holds(row: Option<Row>, t: nat) {
    row.Some? && row.value.token == Some(t)
  }

  predicate HoldsAs(row: Option<Row>, t: nat, status: Status) {
    Holds(row, t) && row.value.status == status
  }

  predicate Unlinked(row: Option<Row>) {
    row.Some? && row.value.order.None?
  }

  predicate Unchanged(row: Option<Row>, seen: Option<Row>) {
    row.Some? && seen.Some? && row.value.version == seen.value.version
  }

  /** What the claim transaction finds: a row it may claim, or one that is linked, uncertain or claimed by another. */
  predicate Claimable(w: World) {
    w.row.None?
    || (w.row.value.order.None? && !w.row.value.status.Creating?
        && !(w.row.value.status.PendingCreate? && w.now - w.row.value.claimedAt < CLAIM_LEASE))
  }

  /** Every write is given a later version; the instant of the step serves as updated_at. */
  function Write(w: World, row: Row): World {
    w.(row := Some(row.(version := if w.row.Some? then w.row.value.version + 1 else 0)))
  }

  function Linked(row: Row, found: nat): Row {
    row.(order := Some(found), status := Created, token := None)
  }

  const NO_ROW := Row(CreateFailed, None, None, 0, 0, None)

  // ---------- Steps ----------

  predicate At(w: World, t: nat, phase: Phase) {
    t in w.workers && w.workers[t] == phase
  }

  predicate HasSent(w: World, t: nat) {
    t in w.workers && w.workers[t].Sent?
  }

  function To(w: World, t: nat, phase: Phase): World {
    w.(workers := w.workers[t := phase])
  }

  function New(w: World, phase: Phase): World {
    To(w, w.nextWorker, phase).(nextWorker := w.nextWorker + 1)
  }

  predicate WindowOpen(seen: Option<Row>, now: int) {
    seen.Some? && seen.value.status.Creating? && now - seen.value.claimedAt < RECOVERY_WINDOW
  }

  predicate LeaseActive(seen: Option<Row>, now: int) {
    seen.Some? && seen.value.status.PendingCreate? && now - seen.value.claimedAt < CLAIM_LEASE
  }

  /** Whether a step can be taken; the guard of an UPDATE is not part of it. */
  predicate Enabled(w: World, step: Step) {
    match step
    case Tick(_) => true
    case Claim => Claimable(w)
    case Fail(t) => t in w.workers && w.workers[t].Claimed?
    case Mark(t) => t in w.workers && w.workers[t].Claimed?
    case Land(t) => t in w.inflight
    case Lose(t) => t in w.inflight
    // A definite rejection says that the create was not applied and never will be.
    case Reject(t) => HasSent(w, t) && t !in w.inflight && t !in w.landed
    case Uncertain(t) => HasSent(w, t)
    case Record(t) => HasSent(w, t) && t in w.landed
    case Verify(found) => found in w.landed
    case VerifyPark => w.row.Some?
    case RecordFailure => true
    case PlanRead => w.row.None? || Unlinked(w.row)
    // One request; it returns an order exactly when one references the Shopify order.
    case PlanSearch(t, result) =>
      t in w.workers && w.workers[t].Planning? && if result.Some? then result.value in w.landed else w.landed == map[]
    case PlanRequeue(t) =>
      t in w.workers && w.workers[t].Searched? && !WindowOpen(w.workers[t].seen, w.now) && !LeaseActive(w.workers[t].seen, w.now)
    case ApplyLink(t) => t in w.workers && w.workers[t].LinkPlan?
    case ApplyRequeue(t) => t in w.workers && w.workers[t].RequeuePlan?
    // An order with the reference that this application did not create.
    case Foreign => true
  }

  function Apply(w: World, step: Step): World
    requires Enabled(w, step)
  {
    match step
    case Tick(d) => w.(now := w.now + d)
    case Claim =>
      var row := if w.row.Some? then w.row.value else NO_ROW;
      New(Write(w, row.(status := PendingCreate, token := Some(w.nextWorker), claimedAt := w.now, floorAt := Some(w.now))), Claimed(w.now))
    case Fail(t) =>
      To(if HoldsAs(w.row, t, PendingCreate) then Write(w, w.row.value.(status := CreateFailed, token := None)) else w, t, Done)
    case Mark(t) =>
      if HoldsAs(w.row, t, PendingCreate) then
        To(Write(w, w.row.value.(status := Creating, claimedAt := w.now)), t, Sent(w.workers[t].at)).(inflight := w.inflight[t := w.now])
      else To(w, t, Done)
    case Land(t) => w.(inflight := w.inflight - {t}, landed := w.landed[t := w.now])
    case Lose(t) => w.(inflight := w.inflight - {t})
    case Reject(t) =>
      To(if HoldsAs(w.row, t, Creating) then Write(w, w.row.value.(status := CreateFailed, token := None)) else w, t, Done)
    case Uncertain(t) => To(if HoldsAs(w.row, t, Creating) then Write(w, w.row.value) else w, t, Done)
    case Record(t) => To(if HoldsAs(w.row, t, Creating) then Write(w, Linked(w.row.value, t)) else w, t, Done)
    case Verify(found) =>
      if Unlinked(w.row) && w.row.value.status.Creating? then Write(w, Linked(w.row.value, found).(floorAt := None)) else w
    case VerifyPark => if w.row.value.status.Creating? then Write(w, w.row.value) else w
    case RecordFailure =>
      if w.row.None? then Write(w, NO_ROW)
      else if Unlinked(w.row) && w.row.value.status.CreateFailed? then Write(w, w.row.value)
      else w
    case PlanRead => New(w, Planning(w.row))
    case PlanSearch(t, result) => To(w, t, if result.Some? then LinkPlan(result.value) else Searched(w.workers[t].seen))
    case PlanRequeue(t) => To(w, t, RequeuePlan(w.workers[t].seen))
    case ApplyLink(t) =>
      var found := w.workers[t].found;
      To(if w.row.None? then Write(w, Row(Created, None, Some(found), 0, 0, None))
         else if Unlinked(w.row) then Write(w, Linked(w.row.value, found).(floorAt := None)) else w, t, Done)
    case ApplyRequeue(t) =>
      var seen := w.workers[t].seen;
      To(if seen.None? then (if w.row.None? then Write(w, NO_ROW) else w)
         else if Unlinked(w.row) && w.row.value.status == seen.value.status && Unchanged(w.row, seen) then
           Write(w, w.row.value.(status := CreateFailed, token := None))
         else w, t, Done)
    case Foreign => New(w, Done).(landed := w.landed[w.nextWorker := w.now])
  }

  function Later(w: World): World {
    w.(now := w.now + 1)
  }

  /** Every step takes its own instant; one that cannot be taken changes nothing else. */
  function Take(w: World, step: Step): World {
    if Enabled(Later(w), step) then Apply(Later(w), step) else Later(w)
  }

  function Run(w: World, steps: seq<Step>): World {
    if steps == [] then w else Take(Run(w, steps[..|steps| - 1]), steps[|steps| - 1])
  }

  const Start := World(0, None, map[], 0, map[], map[])

  // ---------- The floor, in every run ----------

  /** The floor of the row was recorded before every order it may be used for. */
  ghost predicate FloorInv(w: World) {
    && (forall t :: t in w.workers ==> t < w.nextWorker)
    && w.inflight.Keys + w.landed.Keys <= w.workers.Keys && w.inflight.Keys !! w.landed.Keys
    && (forall t :: Holds(w.row, t) ==> t in w.workers && FloorIsFrom(w, t))
    && (forall t :: t in w.workers ==> ClaimedEarlier(w, t, w.workers[t]))
    && (w.row.Some? && w.row.value.order.Some? && w.row.value.floorAt.Some? ==>
          w.row.value.order.value in w.landed && w.row.value.floorAt.value < w.landed[w.row.value.order.value])
  }

  ghost predicate FloorIsFrom(w: World, t: nat)
    requires w.row.Some? && t in w.workers
  {
    match w.workers[t]
    case Claimed(at) => w.row.value.floorAt == Some(at)
    case Sent(at) => w.row.value.floorAt == Some(at)
    case _ => true
  }

  ghost predicate ClaimedEarlier(w: World, t: nat, phase: Phase) {
    match phase
    case Claimed(at) => at <= w.now && t !in w.inflight && t !in w.landed
    case Sent(at) => at <= w.now && (t in w.landed ==> at < w.landed[t])
    case LinkPlan(found) => found in w.landed
    case RequeuePlan(seen) => !WindowOpen(seen, w.now) && !LeaseActive(seen, w.now)
    case _ => true
  }

  /** A row whose floor is the one of the claim it carries, or of the order it names. */
  ghost predicate FloorFits(w: World, row: Row) {
    && (row.token.Some? ==> row.token.value in w.workers && FloorIsFrom(w.(row := Some(row)), row.token.value))
    && (row.order.Some? && row.floorAt.Some? ==>
        row.order.value in w.landed && row.floorAt.value < w.landed[row.order.value])
  }

  lemma TickKeepsFloor(w: World, d: nat)
    requires FloorInv(w)
    ensures FloorInv(w.(now := w.now + d))
  {
    var v := w.(now := w.now + d);
    assert forall t :: t in w.workers ==> ClaimedEarlier(w, t, w.workers[t]);
    assert forall t :: Holds(w.row, t) ==> FloorIsFrom(w, t);
  }

  lemma PhaseKeepsFloor(w: World, t: nat, phase: Phase)
    requires FloorInv(w) && t < w.nextWorker && ClaimedEarlier(w, t, phase)
    requires Holds(w.row, t) ==> FloorIsFrom(w.(workers := w.workers[t := phase]), t)
    ensures FloorInv(To(w, t, phase))
  {
    var v := To(w, t, phase);
    forall u | u in v.workers ensures ClaimedEarlier(v, u, v.workers[u]) {
      if u != t { assert ClaimedEarlier(w, u, w.workers[u]); }
    }
    forall u | Holds(v.row, u) ensures u in v.workers && FloorIsFrom(v, u) {
      if u != t { assert FloorIsFrom(w, u); }
    }
  }

  lemma WriteKeepsFloor(w: World, row: Row)
    requires FloorInv(w) && FloorFits(w, row)
    ensures FloorInv(Write(w, row))
  {
    var v := Write(w, row);
    assert forall t :: t in w.workers ==> ClaimedEarlier(w, t, w.workers[t]);
  }

  lemma PhaseFits(w: World, t: nat, row: Row, phase: Phase)
    requires FloorInv(w) && !phase.Claimed? && !phase.Sent?
    requires row.token.None? || (w.row.Some? && row.token == w.row.value.token && row.floorAt == w.row.value.floorAt)
    requires row.order.Some? && row.floorAt.Some? ==>
               row.order.value in w.landed && row.floorAt.value < w.landed[row.order.value]
    ensures FloorFits(To(w, t, phase), row)
  {
    if row.token.Some? {
      assert Holds(w.row, row.token.value);
      assert FloorIsFrom(w, row.token.value);
    }
  }

  /** A worker moves on, possibly after a write that keeps the claim and the floor, or drops the claim. */
  lemma MoveKeepsFloor(w: World, t: nat, guard: bool, row: Row, phase: Phase)
    requires FloorInv(w) && t in w.workers && ClaimedEarlier(w, t, phase) && !phase.Claimed? && !phase.Sent?
    requires guard ==>
               row.token.None? || (w.row.Some? && row.token == w.row.value.token && row.floorAt == w.row.value.floorAt)
    requires guard && row.order.Some? && row.floorAt.Some? ==>
               row.order.value in w.landed && row.floorAt.value < w.landed[row.order.value]
    ensures FloorInv(To(if guard then Write(w, row) else w, t, phase))
  {
    PhaseKeepsFloor(w, t, phase);
    if guard {
      PhaseFits(w, t, row, phase);
      WriteKeepsFloor(To(w, t, phase), row);
    }
  }

  lemma ClaimKeepsFloor(w: World)
    requires FloorInv(w) && Claimable(w)
    ensures FloorInv(Apply(w, Claim))
  {
    var n := w.nextWorker;
    var u := w.(nextWorker := n + 1);
    assert FloorInv(u) by {
      assert forall t :: t in w.workers ==> ClaimedEarlier(w, t, w.workers[t]);
      assert forall t :: Holds(w.row, t) ==> FloorIsFrom(w, t);
    }
    PhaseKeepsFloor(u, n, Claimed(w.now));
    var row := if w.row.Some? then w.row.value else NO_ROW;
    WriteKeepsFloor(To(u, n, Claimed(w.now)), row.(status := PendingCreate, token := Some(n), claimedAt := w.now, floorAt := Some(w.now)));
  }

  lemma MarkKeepsFloor(w: World, t: nat)
    requires FloorInv(w) && Enabled(w, Mark(t))
    ensures FloorInv(Apply(w, Mark(t)))
  {
    assert ClaimedEarlier(w, t, w.workers[t]);
    if HoldsAs(w.row, t, PendingCreate) {
      assert FloorIsFrom(w, t);
      var at := w.workers[t].at;
      PhaseKeepsFloor(w, t, Sent(at));
      var u := To(w, t, Sent(at));
      WriteKeepsFloor(u, w.row.value.(status := Creating, claimedAt := w.now));
      var x := Write(u, w.row.value.(status := Creating, claimedAt := w.now));
      var v := x.(inflight := x.inflight[t := w.now]);
      assert v == Apply(w, Mark(t));
      forall u | u in v.workers ensures ClaimedEarlier(v, u, v.workers[u]) { assert ClaimedEarlier(x, u, x.workers[u]); }
      forall u | Holds(v.row, u) ensures FloorIsFrom(v, u) { assert FloorIsFrom(x, u); }
    } else {
      MoveKeepsFloor(w, t, false, NO_ROW, Done);
    }
  }

  /** A create is applied or lost, or an order appears from elsewhere. */
  lemma EnvironmentKeepsFloor(w: World, step: Step)
    requires FloorInv(w) && Enabled(Later(w), step) && (step.Land? || step.Lose? || step.Foreign?)
    ensures FloorInv(Apply(Later(w), step))
  {
    var v := Apply(Later(w), step);
    assert v.workers.Keys >= w.workers.Keys && v.inflight.Keys <= w.inflight.Keys;
    forall u | u in v.workers ensures ClaimedEarlier(v, u, v.workers[u]) {
      if u in w.workers { assert ClaimedEarlier(w, u, w.workers[u]); }
    }
    forall u | Holds(v.row, u) ensures u in v.workers && FloorIsFrom(v, u) { assert Holds(w.row, u) && FloorIsFrom(w, u); }
  }

  lemma PlanKeepsFloor(w: World)
    requires FloorInv(w)
    ensures FloorInv(New(w, Planning(w.row)))
  {
    var u := w.(nextWorker := w.nextWorker + 1);
    assert FloorInv(u) by {
      assert forall t :: t in w.workers ==> ClaimedEarlier(w, t, w.workers[t]);
      assert forall t :: Holds(w.row, t) ==> FloorIsFrom(w, t);
    }
    PhaseKeepsFloor(u, w.nextWorker, Planning(w.row));
  }

  /** A worker's last statement, or one of a plan. */
  lemma WorkerKeepsFloor(w: World, step: Step)
    requires FloorInv(w) && Enabled(w, step)
    requires step.Fail? || step.Reject? || step.Uncertain? || step.Record? || step.ApplyLink? || step.ApplyRequeue?
             || step.PlanSearch? || step.PlanRequeue?
    ensures FloorInv(Apply(w, step))
  {
    var t := step.t;
    assert ClaimedEarlier(w, t, w.workers[t]);
    assert Holds(w.row, t) ==> FloorIsFrom(w, t);
    match step
    case Fail(_) =>
      var held := HoldsAs(w.row, t, PendingCreate);
      MoveKeepsFloor(w, t, held, if held then w.row.value.(status := CreateFailed, token := None) else NO_ROW, Done);
    case Reject(_) =>
      var held := HoldsAs(w.row, t, Creating);
      MoveKeepsFloor(w, t, held, if held then w.row.value.(status := CreateFailed, token := None) else NO_ROW, Done);
    case Uncertain(_) =>
      var held := HoldsAs(w.row, t, Creating);
      MoveKeepsFloor(w, t, held, if held then w.row.value else NO_ROW, Done);
    case Record(_) =>
      var held := HoldsAs(w.row, t, Creating);
      MoveKeepsFloor(w, t, held, if held then Linked(w.row.value, t) else NO_ROW, Done);
    case ApplyLink(_) =>
      var found := w.workers[t].found;
      var may := w.row.None? || Unlinked(w.row);
      MoveKeepsFloor(w, t, may, if w.row.None? then Row(Created, None, Some(found), 0, 0, None) else Linked(w.row.value, found).(floorAt := None), Done);
    case ApplyRequeue(_) =>
      var seen := w.workers[t].seen;
      var may := if seen.None? then w.row.None? else Unlinked(w.row) && w.row.value.status == seen.value.status && Unchanged(w.row, seen);
      MoveKeepsFloor(w, t, may, if seen.None? || w.row.None? then NO_ROW else w.row.value.(status := CreateFailed, token := None), Done);
    case PlanSearch(_, result) => MoveKeepsFloor(w, t, false, NO_ROW, if result.Some? then LinkPlan(result.value) else Searched(w.workers[t].seen));
    case PlanRequeue(_) => MoveKeepsFloor(w, t, false, NO_ROW, RequeuePlan(w.workers[t].seen));
  }

  lemma SharedKeepsFloor(w: World, step: Step)
    requires FloorInv(w) && Enabled(w, step) && (step.Verify? || step.VerifyPark? || step.RecordFailure?)
    ensures FloorInv(Apply(w, step))
  {
    assert w.row.Some? && w.row.value.token.Some? ==> Holds(w.row, w.row.value.token.value);
    match step
    case Verify(found) =>
      if Unlinked(w.row) && w.row.value.status.Creating? { WriteKeepsFloor(w, Linked(w.row.value, found).(floorAt := None)); }
    case VerifyPark => if w.row.value.status.Creating? { WriteKeepsFloor(w, w.row.value); }
    case RecordFailure =>
      if w.row.None? { WriteKeepsFloor(w, NO_ROW); }
      else if Unlinked(w.row) && w.row.value.status.CreateFailed? { WriteKeepsFloor(w, w.row.value); }
  }

  lemma ApplyKeepsFloor(w0: World, w: World, step: Step)
    requires FloorInv(w0) && w == Later(w0) && FloorInv(w) && Enabled(w, step)
    ensures FloorInv(Apply(w, step))
  {
    match step
    case Tick(d) => TickKeepsFloor(w, d);
    case Claim => ClaimKeepsFloor(w);
    case Mark(t) => MarkKeepsFloor(w, t);
    case Land(_) => EnvironmentKeepsFloor(w0, step);
    case Lose(_) => EnvironmentKeepsFloor(w0, step);
    case Foreign => EnvironmentKeepsFloor(w0, step);
    case PlanRead => PlanKeepsFloor(w);
    case Verify(_) => SharedKeepsFloor(w, step);
    case VerifyPark => SharedKeepsFloor(w, step);
    case RecordFailure => SharedKeepsFloor(w, step);
    case Fail(_) => WorkerKeepsFloor(w, step);
    case Reject(_) => WorkerKeepsFloor(w, step);
    case Uncertain(_) => WorkerKeepsFloor(w, step);
    case Record(_) => WorkerKeepsFloor(w, step);
    case ApplyLink(_) => WorkerKeepsFloor(w, step);
    case ApplyRequeue(_) => WorkerKeepsFloor(w, step);
    case PlanSearch(_, _) => WorkerKeepsFloor(w, step);
    case PlanRequeue(_) => WorkerKeepsFloor(w, step);
  }

  lemma StepKeepsFloorInv(w: World, step: Step)
    requires FloorInv(w)
    ensures FloorInv(Take(w, step))
  {
    TickKeepsFloor(w, 1);
    if Enabled(Later(w), step) { ApplyKeepsFloor(w, Later(w), step); }
  }

  lemma {:induction false} RunKeepsFloorInv(w: World, steps: seq<Step>)
    requires FloorInv(w)
    ensures FloorInv(Run(w, steps))
  {
    if steps != [] {
      RunKeepsFloorInv(w, steps[..|steps| - 1]);
      StepKeepsFloorInv(Run(w, steps[..|steps| - 1]), steps[|steps| - 1]);
    }
  }

  /**
   * In every run, whatever was requeued, linked or created elsewhere: an order whose row carries a
   * floor was created after that floor was recorded, so its invoices have larger ids.
   */
  lemma FloorPrecedesItsOrder(steps: seq<Step>)
    ensures var w := Run(Start, steps);
            w.row.Some? && w.row.value.order.Some? && w.row.value.floorAt.Some? ==>
              w.row.value.order.value in w.landed && w.row.value.floorAt.value < w.landed[w.row.value.order.value]
  {
    RunKeepsFloorInv(Start, steps);
  }

  // ---------- At most one order ----------

  /** Creates settle inside the recovery window, and only this application makes orders with the reference. */
  predicate Settles(w: World, step: Step) {
    !step.Foreign? && forall u :: u in w.inflight ==> Later(w).now - w.inflight[u] < RECOVERY_WINDOW
  }

  /** A recovery search of an uncertain row was made when the window of its create had closed. */
  predicate SearchedLate(w: World, step: Step) {
    step.PlanSearch? && step.t in w.workers && w.workers[step.t].Planning? ==> !WindowOpen(w.workers[step.t].seen, Later(w).now)
  }

  predicate AllSettle(w: World, steps: seq<Step>) {
    steps == [] || (AllSettle(w, steps[..|steps| - 1]) && Settles(Run(w, steps[..|steps| - 1]), steps[|steps| - 1]))
  }

  predicate AllSearchedLate(w: World, steps: seq<Step>) {
    steps == [] || (AllSearchedLate(w, steps[..|steps| - 1]) && SearchedLate(Run(w, steps[..|steps| - 1]), steps[|steps| - 1]))
  }

  predicate NothingSent(row: Option<Row>) {
    row.None? || row.value.status.PendingCreate? || row.value.status.CreateFailed?
  }

  predicate IsUncertain(row: Option<Row>) {
    row.Some? && row.value.status.Creating?
  }

  /** No create is in flight and no order exists. */
  predicate Nothing(w: World) {
    w.inflight == map[] && w.landed == map[]
  }

  ghost predicate SeenOk(w: World, seen: Option<Row>) {
    seen.Some? ==>
      w.row.Some? && seen.value.version <= w.row.value.version && (seen.value.version == w.row.value.version ==> seen == w.row)
  }

  predicate Plans(phase: Phase) {
    phase.Planning? || phase.Searched? || phase.RequeuePlan?
  }

  ghost predicate PlannerOk(w: World, phase: Phase) {
    match phase
    case Planning(seen) => SeenOk(w, seen)
    case Searched(seen) => SeenOk(w, seen) && (IsUncertain(seen) && Unchanged(w.row, seen) ==> Nothing(w))
    case RequeuePlan(seen) => SeenOk(w, seen) && (IsUncertain(seen) && Unchanged(w.row, seen) ==> Nothing(w))
    case _ => true
  }

  /** What the row says of the orders there are. */
  ghost predicate RowInv(w: World) {
    && (forall a, b :: a in w.inflight.Keys + w.landed.Keys && b in w.inflight.Keys + w.landed.Keys ==> a == b)
    && (NothingSent(w.row) ==> Nothing(w))
    && (IsUncertain(w.row) ==> forall u :: u in w.inflight ==> w.inflight[u] == w.row.value.claimedAt)
    && (w.row.Some? ==> (w.row.value.status.Created? <==> w.row.value.order.Some?))
    && (forall t :: Holds(w.row, t) && HasSent(w, t) ==> IsUncertain(w.row) && w.inflight.Keys + w.landed.Keys <= {t})
  }

  ghost predicate SafeInv(w: World) {
    RowInv(w) && forall t :: t in w.workers ==> PlannerOk(w, w.workers[t])
  }

  lemma PhaseKeepsSafe(w: World, t: nat, phase: Phase)
    requires SafeInv(w) && PlannerOk(w, phase) && (phase.Sent? ==> HasSent(w, t))
    ensures SafeInv(To(w, t, phase))
  {
    var v := To(w, t, phase);
    forall u | u in v.workers ensures PlannerOk(v, v.workers[u]) {
      if u != t { assert PlannerOk(w, w.workers[u]); }
    }
    forall u | Holds(v.row, u) && HasSent(v, u) ensures IsUncertain(v.row) && v.inflight.Keys + v.landed.Keys <= {u} {
      assert Holds(w.row, u) && HasSent(w, u);
    }
  }

  /** A row that says nothing was sent only when nothing was. */
  lemma WriteKeepsSafe(w: World, row: Row)
    requires SafeInv(w)
    requires NothingSent(Some(row)) ==> Nothing(w)
    requires row.status.Creating? ==> IsUncertain(w.row) && row.claimedAt == w.row.value.claimedAt
    requires row.status.Created? <==> row.order.Some?
    requires row.token.Some? ==> !HasSent(w, row.token.value) || (Holds(w.row, row.token.value) && row.status.Creating?)
    ensures SafeInv(Write(w, row))
  {
    var v := Write(w, row);
    forall u | u in v.workers ensures PlannerOk(v, v.workers[u]) { assert PlannerOk(w, w.workers[u]); }
    forall u | Holds(v.row, u) && HasSent(v, u) ensures IsUncertain(v.row) && v.inflight.Keys + v.landed.Keys <= {u} {
      assert Holds(w.row, u) && HasSent(w, u);
    }
  }

  lemma EndKeepsSafe(w: World, t: nat, guard: bool, row: Row)
    requires SafeInv(w)
    requires guard ==> (NothingSent(Some(row)) ==> Nothing(w)) && (row.status.Created? <==> row.order.Some?)
    requires guard ==> row.token.None? || (w.row == Some(row) && row.status.Creating?)
    requires guard && row.status.Creating? ==> w.row == Some(row)
    ensures SafeInv(To(if guard then Write(w, row) else w, t, Done))
  {
    PhaseKeepsSafe(w, t, Done);
    if guard { WriteKeepsSafe(To(w, t, Done), row); }
  }

  lemma ClaimKeepsSafe(w: World)
    requires FloorInv(w) && SafeInv(w) && Claimable(w)
    ensures SafeInv(Apply(w, Claim))
  {
    var n := w.nextWorker;
    PhaseKeepsSafe(w, n, Claimed(w.now));
    var row := if w.row.Some? then w.row.value else NO_ROW;
    WriteKeepsSafe(To(w, n, Claimed(w.now)), row.(status := PendingCreate, token := Some(n), claimedAt := w.now, floorAt := Some(w.now)));
  }

  lemma MarkKeepsSafe(w: World, t: nat)
    requires FloorInv(w) && SafeInv(w) && Enabled(w, Mark(t))
    ensures SafeInv(Apply(w, Mark(t)))
  {
    if HoldsAs(w.row, t, PendingCreate) {
      var v := Apply(w, Mark(t));
      assert v.inflight == map[t := w.now] && v.landed == map[];
      forall u | u in v.workers ensures PlannerOk(v, v.workers[u]) {
        if u != t { assert PlannerOk(w, w.workers[u]); }
      }
    } else {
      EndKeepsSafe(w, t, false, NO_ROW);
    }
  }

  lemma EnvironmentKeepsSafe(w: World, step: Step)
    requires SafeInv(w) && Enabled(w, step) && (step.Land? || step.Lose? || step.Tick?)
    ensures SafeInv(Apply(w, step))
  {
    var v := Apply(w, step);
    assert v.inflight.Keys + v.landed.Keys <= w.inflight.Keys + w.landed.Keys;
    forall u | u in v.workers ensures PlannerOk(v, v.workers[u]) { assert PlannerOk(w, w.workers[u]); }
  }

  /** The search of an uncertain row, made late, finds what there is; nothing else can still appear. */
  lemma SearchKeepsSafe(w0: World, step: Step)
    requires SafeInv(w0) && step.PlanSearch? && Enabled(Later(w0), step) && Settles(w0, step) && SearchedLate(w0, step)
    ensures SafeInv(Apply(Later(w0), step))
  {
    var w := Later(w0);
    assert SafeInv(w) by {
      assert forall u :: u in w0.workers ==> PlannerOk(w0, w0.workers[u]);
    }
    var seen := w.workers[step.t].seen;
    assert PlannerOk(w, w.workers[step.t]);
    if step.result.None? && IsUncertain(seen) && Unchanged(w.row, seen) {
      assert w.inflight == map[];
    }
    PhaseKeepsSafe(w, step.t, if step.result.Some? then LinkPlan(step.result.value) else Searched(seen));
  }

  lemma WorkerKeepsSafe(w: World, step: Step)
    requires FloorInv(w) && SafeInv(w) && Enabled(w, step)
    requires step.Fail? || step.Reject? || step.Uncertain? || step.Record? || step.ApplyLink? || step.ApplyRequeue?
             || step.PlanRequeue?
    ensures SafeInv(Apply(w, step))
  {
    var t := step.t;
    assert PlannerOk(w, w.workers[t]);
    match step
    case Fail(_) =>
      var held := HoldsAs(w.row, t, PendingCreate);
      EndKeepsSafe(w, t, held, if held then w.row.value.(status := CreateFailed, token := None) else NO_ROW);
    case Reject(_) =>
      var held := HoldsAs(w.row, t, Creating);
      assert held ==> w.inflight.Keys == {} && w.landed.Keys == {};
      EndKeepsSafe(w, t, held, if held then w.row.value.(status := CreateFailed, token := None) else NO_ROW);
    case Uncertain(_) =>
      var held := HoldsAs(w.row, t, Creating);
      EndKeepsSafe(w, t, held, if held then w.row.value else NO_ROW);
    case Record(_) =>
      var held := HoldsAs(w.row, t, Creating);
      EndKeepsSafe(w, t, held, if held then Linked(w.row.value, t) else NO_ROW);
    case ApplyLink(_) =>
      var found := w.workers[t].found;
      EndKeepsSafe(w, t, w.row.None? || Unlinked(w.row),
                   if w.row.None? then Row(Created, None, Some(found), 0, 0, None) else Linked(w.row.value, found).(floorAt := None));
    case ApplyRequeue(_) =>
      var seen := w.workers[t].seen;
      var may := if seen.None? then w.row.None? else Unlinked(w.row) && w.row.value.status == seen.value.status && Unchanged(w.row, seen);
      EndKeepsSafe(w, t, may, if seen.None? || w.row.None? then NO_ROW else w.row.value.(status := CreateFailed, token := None));
    case PlanRequeue(_) => PhaseKeepsSafe(w, t, RequeuePlan(w.workers[t].seen));
  }

  lemma SharedKeepsSafe(w: World, step: Step)
    requires FloorInv(w) && SafeInv(w) && Enabled(w, step)
             && (step.Verify? || step.VerifyPark? || step.RecordFailure? || step.PlanRead?)
    ensures SafeInv(Apply(w, step))
  {
    match step
    case Verify(found) =>
      if Unlinked(w.row) && w.row.value.status.Creating? { WriteKeepsSafe(w, Linked(w.row.value, found).(floorAt := None)); }
    case VerifyPark => if w.row.value.status.Creating? { WriteKeepsSafe(w, w.row.value); }
    case RecordFailure =>
      if w.row.None? { WriteKeepsSafe(w, NO_ROW); }
      else if Unlinked(w.row) && w.row.value.status.CreateFailed? { WriteKeepsSafe(w, w.row.value); }
    case PlanRead => PhaseKeepsSafe(w, w.nextWorker, Planning(w.row));
  }

  lemma LaterKeepsSafe(w: World)
    requires SafeInv(w)
    ensures SafeInv(Later(w))
  {
    assert forall u :: u in w.workers ==> PlannerOk(w, w.workers[u]);
  }

  lemma ApplyKeepsSafe(w0: World, w: World, step: Step)
    requires w == Later(w0) && FloorInv(w) && SafeInv(w0) && SafeInv(w) && Enabled(w, step) && Settles(w0, step)
             && SearchedLate(w0, step)
    ensures SafeInv(Apply(w, step))
  {
    match step
    case Tick(_) => EnvironmentKeepsSafe(w, step);
    case Claim => ClaimKeepsSafe(w);
    case Mark(t) => MarkKeepsSafe(w, t);
    case Land(_) => EnvironmentKeepsSafe(w, step);
    case Lose(_) => EnvironmentKeepsSafe(w, step);
    case PlanSearch(_, _) => SearchKeepsSafe(w0, step);
    case PlanRead => SharedKeepsSafe(w, step);
    case Verify(_) => SharedKeepsSafe(w, step);
    case VerifyPark => SharedKeepsSafe(w, step);
    case RecordFailure => SharedKeepsSafe(w, step);
    case Fail(_) => WorkerKeepsSafe(w, step);
    case Reject(_) => WorkerKeepsSafe(w, step);
    case Uncertain(_) => WorkerKeepsSafe(w, step);
    case Record(_) => WorkerKeepsSafe(w, step);
    case ApplyLink(_) => WorkerKeepsSafe(w, step);
    case ApplyRequeue(_) => WorkerKeepsSafe(w, step);
    case PlanRequeue(_) => WorkerKeepsSafe(w, step);
  }

  lemma StepKeepsSafeInv(w: World, step: Step)
    requires FloorInv(w) && SafeInv(w) && Settles(w, step) && SearchedLate(w, step)
    ensures SafeInv(Take(w, step))
  {
    TickKeepsFloor(w, 1);
    LaterKeepsSafe(w);
    if Enabled(Later(w), step) { ApplyKeepsSafe(w, Later(w), step); }
  }

  lemma {:induction false} RunKeepsSafeInv(w: World, steps: seq<Step>)
    requires FloorInv(w) && SafeInv(w) && AllSettle(w, steps) && AllSearchedLate(w, steps)
    ensures SafeInv(Run(w, steps))
  {
    if steps != [] {
      RunKeepsSafeInv(w, steps[..|steps| - 1]);
      RunKeepsFloorInv(w, steps[..|steps| - 1]);
      StepKeepsSafeInv(Run(w, steps[..|steps| - 1]), steps[|steps| - 1]);
    }
  }

  /**
   * No run makes two KiotViet orders for one Shopify order, provided that creates settle inside
   * the recovery window, that no one else makes orders with its reference, and that a recovery
   * searched an uncertain row only after its window had closed.
   */
  lemma AtMostOneOrder(steps: seq<Step>)
    requires AllSettle(Start, steps) && AllSearchedLate(Start, steps)
    ensures |Run(Start, steps).landed| <= 1
  {
    RunKeepsSafeInv(Start, steps);
    OneOrder(Run(Start, steps));
  }

  lemma OneOrder(w: World)
    requires SafeInv(w)
    ensures |w.landed| <= 1
  {
    if w.landed != map[] {
      var x :| x in w.landed;
      assert forall a :: a in w.landed.Keys ==> a in w.inflight.Keys + w.landed.Keys;
      assert w.landed.Keys == {x};
    }
    assert |w.landed| == |w.landed.Keys|;
  }

  // ---------- What leaves an uncertain row ----------

  /** A planner that still sees the version it read sees the row it read. */
  ghost predicate SeenInv(w: World) {
    forall t :: t in w.workers && Plans(w.workers[t]) ==> SeenOk(w, w.workers[t].seen)
  }

  /** A write gives the row a later version. */
  lemma RowMovesOn(w: World, step: Step)
    ensures var v := Take(w, step);
            v.row == w.row || (v.row.Some? && (w.row.Some? ==> v.row.value.version > w.row.value.version))
  {}

  lemma PlansStay(w: World, step: Step, t: nat)
    requires var v := Take(w, step); t in v.workers && Plans(v.workers[t])
    ensures var v := Take(w, step);
            || (v.row == w.row && v.workers[t].seen == w.row)
            || (t in w.workers && Plans(w.workers[t]) && v.workers[t].seen == w.workers[t].seen)
  {}

  lemma StepKeepsSeenInv(w: World, step: Step)
    requires SeenInv(w)
    ensures SeenInv(Take(w, step))
  {
    RowMovesOn(w, step);
    var v := Take(w, step);
    forall t | t in v.workers && Plans(v.workers[t]) ensures SeenOk(v, v.workers[t].seen) {
      PlansStay(w, step, t);
    }
  }

  lemma {:induction false} RunKeepsSeenInv(w: World, steps: seq<Step>)
    requires SeenInv(w)
    ensures SeenInv(Run(w, steps))
  {
    if steps != [] {
      RunKeepsSeenInv(w, steps[..|steps| - 1]);
      StepKeepsSeenInv(Run(w, steps[..|steps| - 1]), steps[|steps| - 1]);
    }
  }

  lemma LeftFromUncertain(w: World, step: Step)
    requires FloorInv(w) && SeenInv(w) && IsUncertain(w.row)
    ensures var v := Take(w, step);
            && v.row.Some? && !v.row.value.status.PendingCreate?
            && (v.row.value.status.Created? ==> v.row.value.order.Some? && v.row.value.order.value in v.landed)
            && (v.row.value.status.CreateFailed? ==>
                  || (step.Reject? && Holds(w.row, step.t) && step.t !in w.inflight && step.t !in w.landed)
                  || (step.ApplyRequeue? && Enabled(w, step) && w.workers[step.t].seen == w.row
                      && !WindowOpen(w.row, w.now)))
  {
    if (step.ApplyLink? || step.ApplyRequeue?) && Enabled(w, step) {
      assert ClaimedEarlier(w, step.t, w.workers[step.t]);
      if step.ApplyRequeue? { assert SeenOk(w, w.workers[step.t].seen); }
    }
  }

  /**
   * In every run a creating row is left only by a definite rejection of the claim it carries, by
   * an order that exists, or by a requeue that read this very row and whose recovery window has closed.
   */
  lemma CreatingIsLeftOnlyBy(steps: seq<Step>, step: Step)
    requires IsUncertain(Run(Start, steps).row)
    ensures var w, v := Run(Start, steps), Run(Start, steps + [step]);
            && v.row.Some? && !v.row.value.status.PendingCreate?
            && (v.row.value.status.Created? ==> v.row.value.order.Some? && v.row.value.order.value in v.landed)
            && (v.row.value.status.CreateFailed? ==>
                  || (step.Reject? && Holds(w.row, step.t) && step.t !in w.inflight && step.t !in w.landed)
                  || (step.ApplyRequeue? && Enabled(w, step) && w.workers[step.t].seen == w.row
                      && !WindowOpen(w.row, w.now)))
  {
    RunKeepsFloorInv(Start, steps);
    RunKeepsSeenInv(Start, steps);
    Extend(Start, steps, step);
    LeftFromUncertain(Run(Start, steps), step);
  }

  lemma LeftFromPending(w: World, step: Step)
    requires FloorInv(w) && SeenInv(w) && w.row.Some? && w.row.value.status.PendingCreate?
    ensures var v, age := Take(w, step), w.now + 1 - w.row.value.claimedAt;
            && v.row.Some?
            && (v.row.value.status.PendingCreate? ==> v.row == w.row || (step.Claim? && age >= 15 * 60_000))
            && (v.row.value.status.Creating? ==> step.Mark? && Holds(w.row, step.t))
            && (v.row.value.status.Created? ==> v.row.value.order.Some? && v.row.value.order.value in v.landed)
            && (v.row.value.status.CreateFailed? ==>
                  (step.Fail? && Holds(w.row, step.t)) || (step.ApplyRequeue? && age >= 15 * 60_000))
  {
    if (step.ApplyLink? || step.ApplyRequeue?) && Enabled(w, step) {
      assert ClaimedEarlier(w, step.t, w.workers[step.t]);
      if step.ApplyRequeue? { assert SeenOk(w, w.workers[step.t].seen); }
    }
  }

  /**
   * In every run a claim keeps its row for 15 minutes: until then only its own worker moves it on,
   * or an order that exists is linked.
   */
  lemma ClaimIsKept(steps: seq<Step>, step: Step)
    requires var row := Run(Start, steps).row; row.Some? && row.value.status.PendingCreate?
    ensures var w, v := Run(Start, steps), Run(Start, steps + [step]);
            var age := w.now + 1 - w.row.value.claimedAt;
            && v.row.Some?
            && (v.row.value.status.PendingCreate? ==> v.row == w.row || (step.Claim? && age >= 15 * 60_000))
            && (v.row.value.status.Creating? ==> step.Mark? && Holds(w.row, step.t))
            && (v.row.value.status.Created? ==> v.row.value.order.Some? && v.row.value.order.value in v.landed)
            && (v.row.value.status.CreateFailed? ==>
                  (step.Fail? && Holds(w.row, step.t)) || (step.ApplyRequeue? && age >= 15 * 60_000))
  {
    RunKeepsFloorInv(Start, steps);
    RunKeepsSeenInv(Start, steps);
    Extend(Start, steps, step);
    LeftFromPending(Run(Start, steps), step);
  }

  predicate StatusFits(row: Option<Row>) {
    row.Some? ==> (row.value.status.Created? <==> row.value.order.Some?)
  }

  lemma StepKeepsLinkedOrder(w: World, step: Step)
    requires StatusFits(w.row)
    ensures var v := Take(w, step);
            StatusFits(v.row) && (w.row.Some? && w.row.value.order.Some? ==> v.row.Some? && v.row.value.order == w.row.value.order)
  {}

  /** The order of a linked row is never replaced, in any run. */
  lemma {:induction false} LinkedOrderIsFinal(w: World, steps: seq<Step>)
    requires StatusFits(w.row)
    ensures var v := Run(w, steps);
            StatusFits(v.row) && (w.row.Some? && w.row.value.order.Some? ==> v.row.Some? && v.row.value.order == w.row.value.order)
  {
    if steps != [] {
      LinkedOrderIsFinal(w, steps[..|steps| - 1]);
      StepKeepsLinkedOrder(Run(w, steps[..|steps| - 1]), steps[|steps| - 1]);
    }
  }

  // ---------- What a report of a linked order is worth ----------

  predicate LinkedTo(w: World, order: nat) {
    w.row.Some? && w.row.value.order == Some(order)
  }

  ghost predicate NamesAnOrder(w: World) {
    w.row.Some? && w.row.value.order.Some? ==> w.row.value.order.value in w.landed
  }

  lemma StepNamesAnOrder(w: World, step: Step)
    requires FloorInv(w) && NamesAnOrder(w)
    ensures NamesAnOrder(Take(w, step))
  {
    if step.ApplyLink? && Enabled(w, step) {
      assert ClaimedEarlier(w, step.t, w.workers[step.t]);
    }
  }

  lemma {:induction false} RunNamesAnOrder(steps: seq<Step>)
    ensures NamesAnOrder(Run(Start, steps))
  {
    if steps != [] {
      RunNamesAnOrder(steps[..|steps| - 1]);
      RunKeepsFloorInv(Start, steps[..|steps| - 1]);
      StepNamesAnOrder(Run(Start, steps[..|steps| - 1]), steps[|steps| - 1]);
    }
  }

  /**
   * A verification that found an order reports it as recovered without looking at its UPDATE.
   * Under the premises of AtMostOneOrder the row names the order afterwards.
   */
  lemma RecoveredIsLinkedUnderThePremises(steps: seq<Step>, found: nat)
    requires AllSettle(Start, steps) && AllSearchedLate(Start, steps) && found in Run(Start, steps).landed
    ensures LinkedTo(Take(Run(Start, steps), Verify(found)), found)
  {
    RunKeepsSafeInv(Start, steps);
    RunNamesAnOrder(steps);
    LinkedOrderIsFinal(Start, steps);
    var w := Run(Start, steps);
    assert found in w.inflight.Keys + w.landed.Keys;
    if w.row.value.order.Some? { assert w.row.value.order.value in w.inflight.Keys + w.landed.Keys; }
  }

  // ---------- The recovery requeue ----------

  lemma Extend(w: World, steps: seq<Step>, step: Step)
    ensures Run(w, steps + [step]) == Take(Run(w, steps), step)
    ensures AllSettle(w, steps + [step]) <==> AllSettle(w, steps) && Settles(Run(w, steps), step)
    ensures AllSearchedLate(w, steps + [step]) <==> AllSearchedLate(w, steps) && SearchedLate(Run(w, steps), step)
  {
    assert (steps + [step])[..|steps|] == steps;
  }

  /** A row that the next worker may claim for a new order. */
  predicate Open(w: World) {
    w.row.Some? && w.row.value.status.CreateFailed? && w.row.value.order.None?
  }

  lemma OneMoreClaim(w: World, steps0: seq<Step>) returns (steps: seq<Step>)
    requires var v := Run(w, steps0); Open(v) && v.inflight == map[]
    requires AllSettle(w, steps0)
    ensures AllSettle(w, steps) && (AllSearchedLate(w, steps0) <==> AllSearchedLate(w, steps))
    ensures var v, u := Run(w, steps0), Run(w, steps);
            u.landed == v.landed && u.inflight == map[] && HoldsAs(u.row, v.nextWorker, PendingCreate)
            && v.nextWorker in u.workers && u.workers[v.nextWorker].Claimed? && u.row.value.floorAt == Some(u.now)
  {
    Extend(w, steps0, Claim);
    steps := steps0 + [Claim];
  }

  /** Claim, send and create once more. */
  lemma OneMoreOrder(w: World, steps0: seq<Step>) returns (steps: seq<Step>)
    requires var v := Run(w, steps0); Open(v) && v.inflight == map[]
    requires AllSettle(w, steps0)
    ensures AllSettle(w, steps) && (AllSearchedLate(w, steps0) <==> AllSearchedLate(w, steps))
    ensures var v := Run(w, steps0); Run(w, steps).landed.Keys == v.landed.Keys + {v.nextWorker}
  {
    var n := Run(w, steps0).nextWorker;
    steps := OneMoreClaim(w, steps0);
    Extend(w, steps, Mark(n));
    steps := steps + [Mark(n)];
    Extend(w, steps, Land(n));
    steps := steps + [Land(n)];
  }

  lemma CreateLands(w: World) returns (steps: seq<Step>)
    requires Open(w) && w.inflight == map[]
    ensures var v := Run(w, steps);
            && HoldsAs(v.row, w.nextWorker, Creating) && HasSent(v, w.nextWorker) && w.nextWorker in v.landed
            && v.row.value.floorAt.Some? && v.row.value.floorAt.value < v.landed[w.nextWorker]
  {
    var n := w.nextWorker;
    steps := OneMoreClaim(w, []);
    Extend(w, steps, Mark(n));
    steps := steps + [Mark(n)];
    Extend(w, steps, Land(n));
    steps := steps + [Land(n)];
  }

  /** An undisturbed worker that may claim the row makes the order and links it, with a floor older than the order. */
  lemma CleanRunLinksTheOrder(w: World) returns (steps: seq<Step>)
    requires Open(w) && w.inflight == map[]
    ensures var v := Run(w, steps);
            && v.row.Some? && v.row.value.status.Created? && v.row.value.order == Some(w.nextWorker)
            && w.nextWorker in v.landed
            && v.row.value.floorAt.Some? && v.row.value.floorAt.value < v.landed[w.nextWorker]
  {
    steps := CreateLands(w);
    Extend(w, steps, Record(w.nextWorker));
    steps := steps + [Record(w.nextWorker)];
  }

  lemma RequeuedIsSafe(w: World, t: nat)
    requires RowInv(w) && Nothing(w) && SeenInv(w)
    requires t in w.workers && w.workers[t].RequeuePlan? && Unlinked(w.row) && w.row.value.status.Creating?
    requires w.workers[t].seen.Some? && w.workers[t].seen.value.status.Creating? && Unchanged(w.row, w.workers[t].seen)
    ensures SafeInv(Take(w, ApplyRequeue(t)))
  {
    var v := Take(w, ApplyRequeue(t));
    forall u | u in v.workers ensures PlannerOk(v, v.workers[u]) {
      if u != t && Plans(w.workers[u]) { assert SeenOk(w, w.workers[u].seen); }
    }
  }

  lemma TheOnlyOne(v: World) returns (x: nat)
    requires !Nothing(v)
    requires forall a, b :: a in v.inflight.Keys + v.landed.Keys && b in v.inflight.Keys + v.landed.Keys ==> a == b
    ensures v.inflight.Keys + v.landed.Keys == {x}
  {
    assert v.inflight.Keys + v.landed.Keys != {};
    x :| x in v.inflight.Keys + v.landed.Keys;
    assert v.inflight.Keys + v.landed.Keys == {x};
  }

  /** A create in flight lands, or its order is there already. */
  lemma ItLands(v: World, x: nat) returns (steps: seq<Step>)
    requires FloorInv(v) && Open(v) && Settles(v, Land(x)) && v.inflight.Keys + v.landed.Keys == {x}
    ensures AllSettle(v, steps) && AllSearchedLate(v, steps)
    ensures var u := Run(v, steps);
            Open(u) && u.inflight == map[] && u.landed.Keys == {x} && u.nextWorker == v.nextWorker
  {
    steps := [];
    if x in v.inflight {
      Extend(v, [], Land(x));
      steps := [] + [Land(x)];
      assert v.landed.Keys == {};
    } else {
      assert v.inflight.Keys == {};
      assert v.landed.Keys == {x};
    }
  }

  lemma RequeuedMakesTwo(v: World) returns (steps: seq<Step>)
    requires FloorInv(v) && Open(v) && !Nothing(v) && Settles(v, Claim)
    requires forall a, b :: a in v.inflight.Keys + v.landed.Keys && b in v.inflight.Keys + v.landed.Keys ==> a == b
    ensures AllSettle(v, steps) && AllSearchedLate(v, steps) && |Run(v, steps).landed| == 2
  {
    var x := TheOnlyOne(v);
    assert x in v.workers && x < v.nextWorker by { assert x in v.inflight.Keys + v.landed.Keys; }
    var first := ItLands(v, x);
    steps := OneMoreOrder(v, first);
    assert Run(v, steps).landed.Keys == {x, v.nextWorker};
    assert |Run(v, steps).landed| == |Run(v, steps).landed.Keys|;
  }

  /**
   * After an uncertain row was requeued, no run that keeps the premises makes two orders if and
   * only if no create was in flight and no order existed when it was requeued.
   */
  lemma RequeueIsSafeExactlyWhenNothingExists(w: World, t: nat)
    requires FloorInv(w) && RowInv(w) && SeenInv(w)
    requires t in w.workers && w.workers[t].RequeuePlan? && IsUncertain(w.workers[t].seen)
    requires Unlinked(w.row) && w.row.value.status.Creating? && Unchanged(w.row, w.workers[t].seen)
    requires Settles(Take(w, ApplyRequeue(t)), Claim)
    ensures var v := Take(w, ApplyRequeue(t));
            Nothing(w) <==> forall steps :: AllSettle(v, steps) && AllSearchedLate(v, steps) ==> |Run(v, steps).landed| <= 1
  {
    var v := Take(w, ApplyRequeue(t));
    StepKeepsFloorInv(w, ApplyRequeue(t));
    if Nothing(w) {
      RequeuedIsSafe(w, t);
      forall steps | AllSettle(v, steps) && AllSearchedLate(v, steps) ensures |Run(v, steps).landed| <= 1 {
        RunKeepsSafeInv(v, steps);
        OneOrder(Run(v, steps));
      }
    } else {
      var steps := RequeuedMakesTwo(v);
    }
  }

  const ALMOST: nat := 299_990

  lemma SentAndSlow() returns (steps: seq<Step>)
    ensures AllSettle(Start, steps) && AllSearchedLate(Start, steps)
    ensures var w := Run(Start, steps);
            w.now == ALMOST + 3 && w.inflight == map[0 := 2] && w.landed == map[] && w.nextWorker == 1
            && HoldsAs(w.row, 0, Creating) && w.row.value.claimedAt == 2 && w.row.value.order.None?
  {
    steps := [];
    Extend(Start, steps, Claim);
    steps := steps + [Claim];
    Extend(Start, steps, Mark(0));
    steps := steps + [Mark(0)];
    assert Run(Start, steps).inflight == map[0 := 2];
    Extend(Start, steps, Tick(ALMOST));
    steps := steps + [Tick(ALMOST)];
  }

  lemma PlannedTooEarly() returns (steps: seq<Step>)
    ensures AllSettle(Start, steps) && AllSearchedLate(Start, steps)
    ensures var w := Run(Start, steps);
            w.now == ALMOST + 4 && w.inflight == map[0 := 2] && w.landed == map[] && w.nextWorker == 2 && At(w, 1, Planning(w.row))
            && HoldsAs(w.row, 0, Creating) && w.row.value.claimedAt == 2 && w.row.value.order.None?
  {
    steps := SentAndSlow();
    Extend(Start, steps, PlanRead);
    steps := steps + [PlanRead];
  }

  lemma SearchedTooEarly() returns (steps: seq<Step>)
    ensures AllSettle(Start, steps) && !AllSearchedLate(Start, steps)
    ensures var w := Run(Start, steps);
            w.now == ALMOST + 6 && w.inflight == map[] && w.landed.Keys == {0} && w.nextWorker == 2 && At(w, 1, Searched(w.row))
            && HoldsAs(w.row, 0, Creating) && w.row.value.claimedAt == 2 && w.row.value.order.None?
  {
    steps := PlannedTooEarly();
    Extend(Start, steps, PlanSearch(1, None));
    steps := steps + [PlanSearch(1, None)];
    Extend(Start, steps, Land(0));
    steps := steps + [Land(0)];
  }

  /** The uncertain row is requeued although its order exists. */
  lemma RequeuedTooEarly() returns (steps: seq<Step>)
    ensures AllSettle(Start, steps) && !AllSearchedLate(Start, steps)
    ensures var w := Run(Start, steps); Open(w) && w.inflight == map[] && w.landed.Keys == {0} && w.nextWorker == 2
  {
    steps := SearchedTooEarly();
    Extend(Start, steps, Tick(10));
    steps := steps + [Tick(10)];
    Extend(Start, steps, PlanRequeue(1));
    steps := steps + [PlanRequeue(1)];
    Extend(Start, steps, ApplyRequeue(1));
    steps := steps + [ApplyRequeue(1)];
  }

  /** There a verification that had found the order still reports it as recovered, and the row names none. */
  lemma RecoveredReportCanBeFalse() returns (steps: seq<Step>)
    ensures AllSettle(Start, steps)
    ensures var w := Run(Start, steps); 0 in w.landed && Unlinked(Take(w, Verify(0)).row)
  {
    steps := RequeuedTooEarly();
  }

  /**
   * A verification links the order while its creator waits for the answer. The creator then finds
   * its row changed and reports that, although the row names exactly the order it created.
   */
  lemma ChangedReportCanBeFalse() returns (steps: seq<Step>)
    ensures AllSettle(Start, steps) && AllSearchedLate(Start, steps)
    ensures var w := Run(Start, steps);
            HasSent(w, 0) && 0 in w.landed && !HoldsAs(w.row, 0, Creating) && LinkedTo(Take(w, Record(0)), 0)
  {
    steps := [];
    Extend(Start, steps, Claim);
    steps := steps + [Claim];
    Extend(Start, steps, Mark(0));
    steps := steps + [Mark(0)];
    assert Run(Start, steps).inflight == map[0 := 2];
    Extend(Start, steps, Land(0));
    steps := steps + [Land(0)];
    Extend(Start, steps, Verify(0));
    steps := steps + [Verify(0)];
  }

  /**
   * A search made while the window is still open does not protect the requeue that follows it:
   * with every create settling inside the window, this run still makes two orders.
   */
  lemma EarlySearchMakesTwoOrders() returns (steps: seq<Step>)
    ensures AllSettle(Start, steps) && !AllSearchedLate(Start, steps) && |Run(Start, steps).landed| == 2
  {
    steps := RequeuedTooEarly();
    steps := OneMoreOrder(Start, steps);
    assert Run(Start, steps).landed.Keys == {0, 2};
    assert |Run(Start, steps).landed| == |Run(Start, steps).landed.Keys|;
  }
}

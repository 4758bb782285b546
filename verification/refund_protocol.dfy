/**
 * The refund of one KiotViet return as a transition system over its row in refund_mappings. Any
 * number of workers claim the row, read Shopify, mark it and send refundCreate; a worker that
 * stops takes no further step, a request may be applied at any time after the mark or never, and
 * every clock reading is arbitrary, so nothing proved here rests on timing.
 */
module RefundProtocol {
  import opened Prelude

  const CLAIM_LEASE: int := 15 * 60_000
  const SEND_VERIFY: int := 10 * 60_000

  datatype Status = Processing | Sending | Refunded | NeedsReview | Failed

  datatype Row = Row(status: Status, token: Option<nat>, claimedAt: int, sentAt: Option<int>, refundId: Option<nat>)

  /** How far a worker got: claimed, read Shopify's refunds, or sent its own request. */
  datatype Phase = Claimed | Looked(ours: set<nat>) | Sent | Done

  datatype Worker = Worker(reconcileOnly: bool, sentAt: Option<int>, phase: Phase)

  datatype World = World(
    row: Option<Row>,
    workers: map<nat, Worker>,  // by claim token
    nextToken: nat,             // tokens from it on were never drawn
    inflight: set<nat>,         // requests that may still be applied, by the token that sent them
    applied: set<nat>)          // refunds that exist in Shopify, named after their request

  datatype Step =
    | Claim(clock: int, dbNow: int)
    | Look(t: nat, ours: set<nat>)
    | Duplicate(t: nat)
    | Link(t: nat, refund: nat, amountMatches: bool)
    | Wait(t: nat, clock: int)
    | Unknown(t: nat, clock: int)
    | Review(t: nat)
    | Mark(t: nat, dbNow: int)
    | Land(t: nat)
    | Lose(t: nat)
    | Succeed(t: nat)
    | Reject(t: nat)
    | Unclear(t: nat)
    | Release(t: nat)

  // ---------- The SQL statements ----------

  datatype Verdict = Finished | InReview | Busy | Free

  /** What the claim transaction reads off the row before it writes. */
  function Examine(row: Option<Row>, clock: int): Verdict {
    if row.None? then Free
    else
      var r := row.value;
      if r.refundId.Some? || r.status.Refunded? then Finished
      else if r.status.NeedsReview? then InReview
      else if (r.status.Processing? || (r.status.Sending? && r.token.Some?)) && clock - r.claimedAt < CLAIM_LEASE then Busy
      else Free
  }

  function ClaimedRow(row: Option<Row>, t: nat, dbNow: int): Row {
    if row.None? then Row(Processing, Some(t), dbNow, None, None)
    else row.value.(status := if row.value.status.Sending? then Sending else Processing, token := Some(t), claimedAt := dbNow)
  }

  predicate Holds(row: Option<Row>, t: nat) {
    row.Some? && row.value.token == Some(t)
  }

  /** setState: clears the claim and keeps a refund id that is already recorded. */
  function SetState(row: Option<Row>, t: nat, status: Status, refund: Option<nat>): Option<Row> {
    if Holds(row, t) then
      Some(row.value.(status := status, token := None, refundId := if refund.Some? then refund else row.value.refundId))
    else row
  }

  function Unclaimed(row: Option<Row>, t: nat): Option<Row> {
    if Holds(row, t) then Some(row.value.(token := None)) else row
  }

  /** The release after any error: only a row that is still processing is known to have sent nothing. */
  function Released(row: Option<Row>, t: nat): Option<Row> {
    if Holds(row, t) then Some(row.value.(status := if row.value.status.Processing? then Failed else row.value.status, token := None))
    else row
  }

  // ---------- Steps ----------

  predicate At(w: World, t: nat, phase: Phase) {
    t in w.workers && w.workers[t].phase == phase
  }

  predicate HasLooked(w: World, t: nat) {
    t in w.workers && w.workers[t].phase.Looked?
  }

  function Ours(w: World, t: nat): set<nat>
    requires HasLooked(w, t)
  {
    w.workers[t].phase.ours
  }

  function To(w: World, t: nat, phase: Phase): map<nat, Worker>
    requires t in w.workers
  {
    w.workers[t := w.workers[t].(phase := phase)]
  }

  function Ended(w: World, t: nat, row: Option<Row>): World
    requires t in w.workers
  {
    w.(row := row, workers := To(w, t, Done))
  }

  /** Whether refundCreate may have been sent so recently that its refund is not visible yet. */
  predicate TooEarly(worker: Worker, clock: int) {
    clock - (if worker.sentAt.Some? then worker.sentAt.value else 0) < SEND_VERIFY
  }

  /** Whether a step can be taken; the guard of an UPDATE is not part of it. */
  predicate Enabled(w: World, step: Step) {
    match step
    case Claim(clock, _) => Examine(w.row, clock).Free?
    // Shopify may show any of the refunds that exist, and none that does not.
    case Look(t, ours) => At(w, t, Claimed) && ours <= w.applied
    case Duplicate(t) => HasLooked(w, t) && |Ours(w, t)| > 1
    case Link(t, refund, _) => HasLooked(w, t) && Ours(w, t) == {refund}
    case Wait(t, clock) => HasLooked(w, t) && Ours(w, t) == {} && w.workers[t].reconcileOnly && TooEarly(w.workers[t], clock)
    case Unknown(t, clock) => HasLooked(w, t) && Ours(w, t) == {} && w.workers[t].reconcileOnly && !TooEarly(w.workers[t], clock)
    case Review(t) => HasLooked(w, t) && Ours(w, t) == {} && !w.workers[t].reconcileOnly
    case Mark(t, _) => HasLooked(w, t) && Ours(w, t) == {} && !w.workers[t].reconcileOnly
    case Land(t) => t in w.inflight
    case Lose(t) => t in w.inflight
    case Succeed(t) => At(w, t, Sent) && t in w.applied
    // A definite rejection says that the request was not applied and never will be.
    case Reject(t) => At(w, t, Sent) && t !in w.inflight && t !in w.applied
    case Unclear(t) => At(w, t, Sent)
    case Release(t) => t in w.workers
  }

  function Apply(w: World, step: Step): World
    requires Enabled(w, step)
  {
    match step
    case Claim(_, dbNow) =>
      var reconcileOnly := w.row.Some? && w.row.value.status.Sending?;
      var sentAt := if w.row.Some? then w.row.value.sentAt else None;
      w.(row := Some(ClaimedRow(w.row, w.nextToken, dbNow)), nextToken := w.nextToken + 1,
         workers := w.workers[w.nextToken := Worker(reconcileOnly, sentAt, Claimed)])
    case Look(t, ours) => w.(workers := To(w, t, Looked(ours)))
    case Duplicate(t) => Ended(w, t, SetState(w.row, t, NeedsReview, None))
    case Link(t, refund, amountMatches) =>
      Ended(w, t, SetState(w.row, t, if amountMatches then Refunded else NeedsReview, Some(refund)))
    case Wait(t, _) => Ended(w, t, Unclaimed(w.row, t))
    case Unknown(t, _) => Ended(w, t, SetState(w.row, t, NeedsReview, None))
    case Review(t) => Ended(w, t, SetState(w.row, t, NeedsReview, None))
    case Mark(t, dbNow) =>
      if Holds(w.row, t) && w.row.value.status.Processing? then
        w.(row := Some(w.row.value.(status := Sending, sentAt := Some(dbNow))), workers := To(w, t, Sent), inflight := w.inflight + {t})
      else Ended(w, t, w.row)
    case Land(t) => w.(inflight := w.inflight - {t}, applied := w.applied + {t})
    case Lose(t) => w.(inflight := w.inflight - {t})
    case Succeed(t) => Ended(w, t, SetState(w.row, t, Refunded, Some(t)))
    case Reject(t) => Ended(w, t, SetState(w.row, t, Failed, None))
    case Unclear(t) => Ended(w, t, Unclaimed(w.row, t))
    case Release(t) => Ended(w, t, Released(w.row, t))
  }

  /** A step that cannot be taken changes nothing. */
  function Take(w: World, step: Step): World {
    if Enabled(w, step) then Apply(w, step) else w
  }

  function Run(w: World, steps: seq<Step>): World {
    if steps == [] then w else Take(Run(w, steps[..|steps| - 1]), steps[|steps| - 1])
  }

  const Start := World(None, map[], 0, {}, {})

  // ---------- Invariant ----------

  /** No refund was sent that could still count: the states from which sending is allowed. */
  predicate NothingSent(row: Option<Row>) {
    row.None? || row.value.status.Processing? || row.value.status.Failed?
  }

  predicate Closed(row: Option<Row>) {
    row.Some? && (row.value.status.Refunded? || row.value.status.NeedsReview?)
  }

  ghost predicate TokensDrawn(w: World) {
    && (forall t :: t in w.workers ==> t < w.nextToken)
    && (forall t :: t in w.inflight + w.applied ==> t in w.workers)
    && (w.row.Some? && w.row.value.token.Some? ==> w.row.value.token.value in w.workers)
    && (forall t :: HasLooked(w, t) ==> Ours(w, t) <= w.applied)
  }

  /** The one request that may be or become a refund. */
  ghost predicate OnlyRequest(w: World, t: nat) {
    w.inflight + w.applied <= {t}
  }

  /** The row is as the worker that holds its claim believes it to be. */
  ghost predicate HolderAgrees(w: World, t: nat)
    requires Holds(w.row, t)
  {
    t in w.workers
    && match w.workers[t].phase
       case Sent => w.row.value.status.Sending? && OnlyRequest(w, t)
       case Done => false
       case _ => w.row.value.status == if w.workers[t].reconcileOnly then Sending else Processing
  }

  ghost predicate Inv(w: World) {
    && TokensDrawn(w)
    && (NothingSent(w.row) ==> w.inflight == {} && w.applied == {})
    && (forall a, b :: a in w.inflight + w.applied && b in w.inflight + w.applied ==> a == b)
    && (forall t :: Holds(w.row, t) ==> HolderAgrees(w, t))
    && (Closed(w.row) ==> w.row.value.token.None?)
    && (w.row.Some? && w.row.value.refundId.Some? ==> Closed(w.row) && w.row.value.refundId.value in w.applied)
    && (w.row.Some? && w.row.value.status.Refunded? ==> w.row.value.refundId.Some?)
  }

  /** A claim on a row that is free, which reconciles if the row is sending. */
  lemma ClaimKeepsInv(w: World, clock: int, dbNow: int)
    requires Inv(w) && Examine(w.row, clock).Free?
    ensures Inv(Take(w, Claim(clock, dbNow)))
  {
    var v := Take(w, Claim(clock, dbNow));
    assert forall t :: t in w.workers ==> v.workers[t] == w.workers[t];
    assert v.inflight == w.inflight && v.applied == w.applied;
    assert forall t :: HasLooked(v, t) ==> HasLooked(w, t) && Ours(v, t) == Ours(w, t);
  }

  /** Whatever a worker writes as its last act, provided it only reopens a row for which nothing was sent. */
  lemma EndKeepsInv(w: World, t: nat, status: Status, refund: Option<nat>)
    requires Inv(w) && t in w.workers
    requires Holds(w.row, t) ==> (status.Processing? || status.Failed? ==> w.inflight == {} && w.applied == {})
    requires refund.Some? ==> (status.Refunded? || status.NeedsReview?) && refund.value in w.applied
    requires status.Refunded? ==> refund.Some?
    ensures Inv(Ended(w, t, SetState(w.row, t, status, refund)))
  {
    var v := Ended(w, t, SetState(w.row, t, status, refund));
    assert forall u :: u in w.workers ==> u == t || v.workers[u] == w.workers[u];
    assert forall u :: HasLooked(v, u) ==> HasLooked(w, u) && Ours(v, u) == Ours(w, u);
  }

  lemma MarkKeepsInv(w: World, t: nat, dbNow: int)
    requires Inv(w) && Enabled(w, Mark(t, dbNow))
    ensures Inv(Take(w, Mark(t, dbNow)))
  {
    var v := Take(w, Mark(t, dbNow));
    assert forall u :: u in w.workers ==> u == t || v.workers[u] == w.workers[u];
    assert forall u :: HasLooked(v, u) ==> HasLooked(w, u) && Ours(v, u) == Ours(w, u);
  }

  lemma LookKeepsInv(w: World, t: nat, ours: set<nat>)
    requires Inv(w) && Enabled(w, Look(t, ours))
    ensures Inv(Take(w, Look(t, ours)))
  {
    var v := Take(w, Look(t, ours));
    assert forall u :: u in w.workers ==> u == t || v.workers[u] == w.workers[u];
    assert forall u :: HasLooked(v, u) ==> u == t || (HasLooked(w, u) && Ours(v, u) == Ours(w, u));
  }

  /** The environment settles a request: applied, or lost. */
  lemma SettleKeepsInv(w: World, t: nat, lands: bool)
    requires Inv(w) && t in w.inflight
    ensures Inv(Take(w, if lands then Land(t) else Lose(t)))
  {
    var v := Take(w, if lands then Land(t) else Lose(t));
    assert v.inflight + v.applied <= w.inflight + w.applied;
    assert forall u :: HasLooked(v, u) ==> HasLooked(w, u) && Ours(v, u) == Ours(w, u);
  }

  lemma StepKeepsInv(w: World, step: Step)
    requires Inv(w)
    ensures Inv(Take(w, step))
  {
    if Enabled(w, step) {
      match step
      case Claim(clock, dbNow) => ClaimKeepsInv(w, clock, dbNow);
      case Look(t, ours) => LookKeepsInv(w, t, ours);
      case Duplicate(t) => EndKeepsInv(w, t, NeedsReview, None);
      case Link(t, refund, amountMatches) => EndKeepsInv(w, t, if amountMatches then Refunded else NeedsReview, Some(refund));
      case Wait(t, _) => EndKeepsInv(w, t, if Holds(w.row, t) then w.row.value.status else Sending, None);
      case Unknown(t, _) => EndKeepsInv(w, t, NeedsReview, None);
      case Review(t) => EndKeepsInv(w, t, NeedsReview, None);
      case Mark(t, dbNow) => MarkKeepsInv(w, t, dbNow);
      case Land(t) => SettleKeepsInv(w, t, true);
      case Lose(t) => SettleKeepsInv(w, t, false);
      case Succeed(t) => EndKeepsInv(w, t, Refunded, Some(t));
      case Reject(t) => EndKeepsInv(w, t, Failed, None);
      case Unclear(t) => EndKeepsInv(w, t, if Holds(w.row, t) then w.row.value.status else Sending, None);
      case Release(t) =>
        EndKeepsInv(w, t, if !Holds(w.row, t) then Sending else if w.row.value.status.Processing? then Failed else w.row.value.status, None);
    }
  }

  lemma {:induction false} RunKeepsInv(w: World, steps: seq<Step>)
    requires Inv(w)
    ensures Inv(Run(w, steps))
  {
    if steps != [] {
      RunKeepsInv(w, steps[..|steps| - 1]);
      StepKeepsInv(Run(w, steps[..|steps| - 1]), steps[|steps| - 1]);
    }
  }

  // ---------- What every run keeps ----------

  /**
   * At most one refundCreate of a return is ever applied, and the one that may still be applied is
   * the same one, whatever the workers, crashes, lost answers and clocks did.
   */
  lemma AtMostOneRefund(steps: seq<Step>)
    ensures var w := Run(Start, steps);
            && |w.applied| <= 1
            && (w.applied != {} ==> w.inflight <= w.applied)
            && (NothingSent(w.row) ==> w.applied == {} && w.inflight == {})
  {
    RunKeepsInv(Start, steps);
    var w := Run(Start, steps);
    if w.applied != {} {
      var refund :| refund in w.applied;
      assert w.applied == {refund};
    }
  }

  /** A refund recorded on the row is the refund that exists, and a refunded row records one. */
  lemma RecordedRefundExists(steps: seq<Step>)
    ensures var w := Run(Start, steps);
            && (w.row.Some? && w.row.value.refundId.Some? ==> w.applied == {w.row.value.refundId.value})
            && (w.row.Some? && w.row.value.status.Refunded? ==> w.row.value.refundId.Some?)
  {
    RunKeepsInv(Start, steps);
    var w := Run(Start, steps);
    assert w.row.Some? && w.row.value.refundId.Some? ==> w.applied <= {w.row.value.refundId.value};
  }

  /**
   * A row that is sending is never processed again: it leaves that state only to be closed, or after a
   * rejection of its own request.
   */
  lemma SendingIsNeverResent(steps: seq<Step>, step: Step)
    requires var w := Run(Start, steps); w.row.Some? && w.row.value.status.Sending?
    ensures var w, v := Run(Start, steps), Take(Run(Start, steps), step);
            && v.row.Some? && !v.row.value.status.Processing?
            && (v.row.value.status.Failed? ==> step.Reject? && v.applied == {} && v.inflight == {})
            && v.inflight <= w.inflight
  {
    RunKeepsInv(Start, steps);
    SendingStep(Run(Start, steps), step);
  }

  lemma SendingStep(w: World, step: Step)
    requires Inv(w) && w.row.Some? && w.row.value.status.Sending?
    ensures var v := Take(w, step);
            && v.row.Some? && !v.row.value.status.Processing?
            && (v.row.value.status.Failed? ==> step.Reject? && v.applied == {} && v.inflight == {})
            && v.inflight <= w.inflight
  {
    StepKeepsInv(w, step);
  }

  /** A closed row never changes again. */
  lemma {:induction false} ClosedRowIsFinal(w: World, steps: seq<Step>)
    requires Inv(w) && Closed(w.row)
    ensures Run(w, steps).row == w.row
  {
    if steps != [] {
      ClosedRowIsFinal(w, steps[..|steps| - 1]);
      RunKeepsInv(w, steps[..|steps| - 1]);
    }
  }

  /** Once a refund exists the row can only be sending or closed, for ever. */
  lemma {:induction false} RefundIsNeverForgotten(w: World, steps: seq<Step>)
    requires Inv(w) && w.applied != {}
    ensures var v := Run(w, steps);
            v.applied == w.applied && v.row.Some? && (v.row.value.status.Sending? || Closed(v.row))
  {
    RunKeepsInv(w, steps);
    if steps != [] {
      RefundIsNeverForgotten(w, steps[..|steps| - 1]);
      var before := Run(w, steps[..|steps| - 1]);
      RunKeepsInv(w, steps[..|steps| - 1]);
      assert before.applied <= Run(w, steps).applied;
      assert Run(w, steps).applied <= before.applied;
    }
  }

  lemma Extend(w: World, steps: seq<Step>, step: Step)
    ensures Run(w, steps + [step]) == Take(Run(w, steps), step)
  {
    assert (steps + [step])[..|steps|] == steps;
  }

  /**
   * A refund whose worker stopped before saving it is linked, not made again: the next claim that
   * the lease allows and that sees the refund closes the row with it.
   */
  lemma UnsavedRefundIsLinked(w: World, refund: nat, clock: int, dbNow: int, amountMatches: bool)
    requires Inv(w) && w.applied == {refund} && Examine(w.row, clock).Free?
    ensures var t := w.nextToken;
            var v := Run(w, [Claim(clock, dbNow), Look(t, {refund}), Link(t, refund, amountMatches)]);
            && v.row.Some? && v.row.value.refundId == Some(refund) && v.applied == {refund} && v.inflight == w.inflight
            && v.row.value.status == (if amountMatches then Refunded else NeedsReview)
  {
    var t := w.nextToken;
    var w1 := Run(w, [Claim(clock, dbNow)]);
    Extend(w, [], Claim(clock, dbNow));
    assert [] + [Claim(clock, dbNow)] == [Claim(clock, dbNow)];
    assert At(w1, t, Claimed) && w1 == Take(w, Claim(clock, dbNow));
    Extend(w, [Claim(clock, dbNow)], Look(t, {refund}));
    assert [Claim(clock, dbNow)] + [Look(t, {refund})] == [Claim(clock, dbNow), Look(t, {refund})];
    Extend(w, [Claim(clock, dbNow), Look(t, {refund})], Link(t, refund, amountMatches));
    assert [Claim(clock, dbNow), Look(t, {refund})] + [Link(t, refund, amountMatches)]
           == [Claim(clock, dbNow), Look(t, {refund}), Link(t, refund, amountMatches)];
  }

  /** A worker loses its claim to another one, or ends it itself; it never ends with the claim in its hands. */
  lemma ClaimsEndWithTheirWorkers(steps: seq<Step>, t: nat)
    ensures var w := Run(Start, steps); At(w, t, Done) ==> !Holds(w.row, t)
  {
    RunKeepsInv(Start, steps);
  }

  /** An undisturbed worker that finds a free row with nothing sent makes the refund and saves it. */
  lemma CleanRunRefunds(w: World, clock: int, dbNow: int) returns (steps: seq<Step>)
    requires Inv(w) && NothingSent(w.row) && Examine(w.row, clock).Free?
    ensures var v := Run(w, steps);
            v.row.Some? && v.row.value.status.Refunded? && v.row.value.refundId == Some(w.nextToken) && v.applied == {w.nextToken} && v.inflight == {}
  {
    var t := w.nextToken;
    steps := [];
    Extend(w, steps, Claim(clock, dbNow));
    steps := steps + [Claim(clock, dbNow)];
    assert At(Run(w, steps), t, Claimed);
    Extend(w, steps, Look(t, {}));
    steps := steps + [Look(t, {})];
    Extend(w, steps, Mark(t, dbNow));
    steps := steps + [Mark(t, dbNow)];
    assert At(Run(w, steps), t, Sent) && Run(w, steps).inflight == {t};
    Extend(w, steps, Land(t));
    steps := steps + [Land(t)];
    assert Run(w, steps).inflight == {} && Run(w, steps).applied == {t};
    Extend(w, steps, Succeed(t));
    steps := steps + [Succeed(t)];
  }
}

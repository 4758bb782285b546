/**
 * Proof of absence through the index: when a lookup that found no candidate may conclude that
 * an order has no invoice.
 */
module InvoiceAbsence {
  import opened Prelude
  import opened InvoiceList
  import opened InvoiceIndex
  import opened InvoiceIndexRunner

  function CandidatesOf(rows: Rows, code: string): set<nat> {
    set id | id in rows && rows[id] == Some(code)
  }

  /** The candidates of a completed lookup: the index is read again only when the count grew. */
  function FinalCandidates(snapshot: World, scanned: nat, later: World, code: string): set<nat> {
    CandidatesOf(snapshot.rows, code)
    + (if scanned > snapshot.cp.scanned then CandidatesOf(later.rows, code) else {})
  }

  /** No reposition and no reset touched the checkpoint row in between (both are counted in it). */
  predicate Undisturbed(before: Checkpoint, after: Checkpoint) {
    before.generation == after.generation && before.repositions == after.repositions
  }

  /**
   * What the checkpoint says about the rows since a snapshot: its counters never fall, and while
   * they stand still the scanned count never falls and an equal count means nothing was appended.
   */
  ghost predicate SinceSnapshot(w0: World, w: World) {
    && w0.cp.generation <= w.cp.generation && w0.cp.repositions <= w.cp.repositions
    && (Undisturbed(w0.cp, w.cp) ==>
          && w0.cp.scanned <= w.cp.scanned
          && (w.cp.scanned == w0.cp.scanned ==> forall id :: id in w.rows ==>
              id in w0.rows && w0.rows[id] == w.rows[id]))
  }

  lemma StepSinceSnapshot(w0: World, w: World, step: Step)
    requires SinceSnapshot(w0, w)
    ensures SinceSnapshot(w0, Apply(w, step))
  {
    if step.Save? && Examine(step.f).Accepted? && Examine(step.f).added == [] {
      assert Apply(w, step).rows == w.rows;
    }
  }

  lemma {:induction false} RunSinceSnapshot(w0: World, steps: seq<Step>)
    ensures SinceSnapshot(w0, Run(w0, steps))
  {
    if steps != [] {
      RunSinceSnapshot(w0, steps[..|steps| - 1]);
      StepSinceSnapshot(w0, Run(w0, steps[..|steps| - 1]), steps[|steps| - 1]);
    }
  }

  /** An equal or lower scanned count over an undisturbed checkpoint: no row was added since the snapshot. */
  lemma NoGrowthMeansNothingAppended(w0: World, steps: seq<Step>)
    requires Undisturbed(w0.cp, Run(w0, steps).cp) && Run(w0, steps).cp.scanned <= w0.cp.scanned
    ensures Run(w0, steps).cp.scanned == w0.cp.scanned
    ensures forall id :: id in Run(w0, steps).rows ==> id in w0.rows && w0.rows[id] == Run(w0, steps).rows[id]
  {
    RunSinceSnapshot(w0, steps);
  }

  /** Whatever save confirmed the index, every invoice created by its request's start has a row. */
  lemma ConfirmationCovers(w: World, f: Fetch, since: nat)
    requires Inv(w) && Confirms(w, f, since)
    ensures CoveredAsOf(Apply(w, Save(f)), f.startedAt) && since <= f.startedAt
    ensures Apply(w, Save(f)).cp.scanned == Examine(f).scanned
  {
    AcceptedPageCovers(w, f, Apply(w, Save(f)));
  }

  /**
   * Proof of absence. A lookup snapshots rows and checkpoint in `w0`; any runner confirms the
   * index by a request started no earlier; the lookup ends later in `w2`. If the count grew, or
   * neither a reposition nor a reset happened before the confirmation, then every invoice of the
   * order that existed at the snapshot and still exists is a candidate.
   */
  lemma AbsenceIsProven(w0: World, before: seq<Step>, f: Fetch, after: seq<Step>, code: string)
    requires Inv(w0) && Confirms(Run(w0, before), f, w0.now)
    requires Examine(f).scanned > w0.cp.scanned || Undisturbed(w0.cp, Apply(Run(w0, before), Save(f)).cp)
    ensures
      var w2 := Run(Apply(Run(w0, before), Save(f)), after);
      forall inv :: inv in w2.remote && inv.createdAt < w0.now && inv.order == Some(code)
        ==> inv.id in FinalCandidates(w0, Examine(f).scanned, w2, code)
  {
    var w := Run(w0, before);
    var w1 := Apply(w, Save(f));
    var w2 := Run(w1, after);
    RunKeepsInv(w0, before);
    ConfirmationCovers(w, f, w0.now);
    StepKeepsInv(w, Save(f));
    RunKeepsInv(w1, after);
    RunSinceSnapshot(w0, before);
    StepSinceSnapshot(w0, w, Save(f));
    forall inv | inv in w2.remote && inv.createdAt < w0.now && inv.order == Some(code)
      ensures inv.id in FinalCandidates(w0, Examine(f).scanned, w2, code)
    {
      assert inv in w1.remote && Indexed(w1.rows, inv) && Indexed(w2.rows, inv);
    }
  }

  /**
   * Without that hypothesis: a lookup that does not read the index again misses exactly the
   * existing invoices of its order that had no row in the snapshot, so its answer is right if
   * and only if no such invoice was first indexed after the snapshot.
   */
  lemma MissedExactlyWhenAppendedUnread(w0: World, before: seq<Step>, f: Fetch, code: string)
    requires Inv(w0) && Confirms(Run(w0, before), f, w0.now)
    ensures
      var w1 := Apply(Run(w0, before), Save(f));
      (forall inv :: inv in w1.remote && inv.createdAt < w0.now && inv.order == Some(code)
        ==> inv.id in FinalCandidates(w0, Examine(f).scanned, w1, code))
      <==> (Examine(f).scanned > w0.cp.scanned
            || forall inv :: inv in w1.remote && inv.createdAt < w0.now && inv.order == Some(code) ==>
                inv.id in w0.rows)
  {
    var w := Run(w0, before);
    var w1 := Apply(w, Save(f));
    RunKeepsInv(w0, before);
    ConfirmationCovers(w, f, w0.now);
    StepKeepsInv(w, Save(f));
    if Examine(f).scanned > w0.cp.scanned {
      AbsenceIsProven(w0, before, f, [], code);
    } else {
      forall inv | inv in w1.remote && inv.createdAt < w0.now && inv.order == Some(code)
        ensures inv.id in FinalCandidates(w0, Examine(f).scanned, w1, code) <==> inv.id in w0.rows
      {
        assert inv in w0.remote;
      }
    }
  }

  // ---------- When the count grows ----------

  /** A page held at the end of a run and not at its start was requested in it. */
  lemma {:induction false} RequestedInTheRun(w0: World, steps: seq<Step>, f: Fetch) returns (k: nat)
    requires f in Run(w0, steps).fetched && f !in w0.fetched
    ensures k < |steps| && f.st in Run(w0, steps[..k]).snapshots
    ensures f == Requested(Run(w0, steps[..k]).remote, f.st, f.startedAt)
  {
    var init, step := steps[..|steps| - 1], steps[|steps| - 1];
    if f in Run(w0, init).fetched {
      k := RequestedInTheRun(w0, init, f);
      assert steps[..k] == init[..k];
    } else {
      k := |init|;
      assert step == Request(f.st, f.startedAt);
    }
  }

  /** The count a confirming page leaves is the length of the list it was read from. */
  lemma ConfirmedCountIsTheList(remote: seq<Invoice>, st: Checkpoint, startedAt: nat)
    requires st.lastId.None? <==> st.scanned == 0
    requires var v := Examine(Requested(remote, st, startedAt)); v.Accepted? && v.current
    ensures Examine(Requested(remote, st, startedAt)).scanned == |remote|
  {}

  /** More invoices above the last indexed id than the list lost below it since they were counted. */
  predicate OutweighsDeletions(remote: seq<Invoice>, counted: Checkpoint) {
    CountAbove(remote, Previous(counted)) > counted.scanned - CountUpTo(remote, Previous(counted))
  }

  /**
   * Which confirmed lookups miss an invoice, in terms of the remote list alone. Whatever the runners
   * did, the confirming page was read from some list of the run; the lookup is right if and only if
   * that list had more invoices above the snapshot's last indexed id than it had lost below it, or
   * no existing invoice of the order was without a row in the snapshot.
   */
  lemma MissedExactlyWhenDeletionsOutweigh(w0: World, before: seq<Step>, f: Fetch, code: string) returns (k: nat)
    requires Inv(w0) && Confirms(Run(w0, before), f, w0.now)
    ensures k < |before| && f == Requested(Run(w0, before[..k]).remote, f.st, f.startedAt)
    ensures
      var w1 := Apply(Run(w0, before), Save(f));
      (forall inv :: inv in w1.remote && inv.createdAt < w0.now && inv.order == Some(code)
        ==> inv.id in FinalCandidates(w0, Examine(f).scanned, w1, code))
      <==> (OutweighsDeletions(Run(w0, before[..k]).remote, w0.cp)
            || forall inv :: inv in w1.remote && inv.createdAt < w0.now && inv.order == Some(code) ==>
                inv.id in w0.rows)
  {
    assert f !in w0.fetched;
    k := RequestedInTheRun(w0, before, f);
    RunKeepsInv(w0, before[..k]);
    var v := Run(w0, before[..k]);
    assert SnapshotOk(v, f.st);
    ConfirmedCountIsTheList(v.remote, f.st, f.startedAt);
    CountsSplit(v.remote, Previous(w0.cp));
    MissedExactlyWhenAppendedUnread(w0, before, f, code);
  }

  // ---------- The hypothesis is needed ----------

  const GONE := [Invoice(1, None, 0), Invoice(2, None, 0), Invoice(3, None, 0)]
  const OPENED := Checkpoint(1, 0, None, None, None, 0)
  const INDEXED := Checkpoint(1, 3, Some(3), Some(3), Some(5), 0)
  const MOVED := Checkpoint(1, 1, Some(3), Some(2), Some(5), 1)

  /** An empty index over three invoices. */
  function Opening(): World {
    World(GONE, 4, 4, OPENED, map[], {}, {}, {})
  }

  /** The three invoices are indexed; then the two oldest are deleted and order "X" gets invoice 4. */
  function BeforeLookup(): World {
    World([Invoice(3, None, 0), Invoice(4, Some("X"), 9)], 5, 10, INDEXED, map[1 := None, 2 := None, 3 := None],
          {OPENED}, {Fetch(OPENED, 5, GONE, 3)}, {})
  }

  lemma Extend(w: World, steps: seq<Step>, v: World, step: Step, v': World)
    requires Run(w, steps) == v && Apply(v, step) == v'
    ensures Run(w, steps + [step]) == v'
  {
    assert (steps + [step])[..|steps|] == steps;
  }

  lemma OpeningPageIsSaved(v: World, v': World)
    requires v == Opening().(now := 6, snapshots := {OPENED}, fetched := {Fetch(OPENED, 5, GONE, 3)})
    requires v' == v.(now := 7, cp := INDEXED, rows := map[1 := None, 2 := None, 3 := None])
    ensures Apply(v, Save(Fetch(OPENED, 5, GONE, 3))) == v'
  {
    var f := Fetch(OPENED, 5, GONE, 3);
    assert f.page[0..] == GONE;
    assert GONE[1..] == [GONE[1], GONE[2]] && GONE[1..][1..] == [GONE[2]] && GONE[1..][1..][1..] == [];
    IncreasingIsAscending(0, GONE);
    assert Upsert(map[], GONE) == Upsert(map[1 := None], GONE[1..]) == Upsert(map[1 := None, 2 := None], GONE[1..][1..]);
  }

  /** The opening index after its first page. */
  function AfterFirstPage(): World {
    Opening().(now := 7, snapshots := {OPENED}, fetched := {Fetch(OPENED, 5, GONE, 3)}, cp := INDEXED,
               rows := map[1 := None, 2 := None, 3 := None])
  }

  lemma FirstPageIsReachable() returns (steps: seq<Step>)
    ensures Run(Opening(), steps) == AfterFirstPage()
  {
    var f := Fetch(OPENED, 5, GONE, 3);
    var v1 := Opening().(now := 5, snapshots := {OPENED});
    var v2 := v1.(now := 6, fetched := {f});
    Extend(Opening(), [], Opening(), Read, v1);
    steps := [] + [Read];
    assert PageAt(GONE, 0, PAGE_SIZE) == GONE;
    Extend(Opening(), steps, v1, Request(OPENED, 5), v2);
    steps := steps + [Request(OPENED, 5)];
    OpeningPageIsSaved(v2, AfterFirstPage());
    Extend(Opening(), steps, v2, Save(f), AfterFirstPage());
    steps := steps + [Save(f)];
  }

  /** The two oldest invoices are gone. */
  function AfterDeletes(): World {
    AfterFirstPage().(now := 9, remote := [GONE[2]])
  }

  lemma DeletesAreReachable() returns (steps: seq<Step>)
    ensures Run(Opening(), steps) == AfterDeletes()
  {
    steps := FirstPageIsReachable();
    var v4 := AfterFirstPage().(now := 8, remote := [GONE[1], GONE[2]]);
    assert GONE[..0] + GONE[1..] == v4.remote && v4.remote[..0] + v4.remote[1..] == [GONE[2]];
    Extend(Opening(), steps, AfterFirstPage(), Delete(0), v4);
    steps := steps + [Delete(0)];
    Extend(Opening(), steps, v4, Delete(0), AfterDeletes());
    steps := steps + [Delete(0)];
  }

  lemma BeforeLookupIsReachable() returns (steps: seq<Step>)
    ensures Initial(Opening()) && Run(Opening(), steps) == BeforeLookup()
  {
    steps := DeletesAreReachable();
    Extend(Opening(), steps, AfterDeletes(), Create(Some("X")), BeforeLookup());
    steps := steps + [Create(Some("X"))];
  }

  /** The overlap row is gone; two probes find that one indexed invoice is left. */
  lemma TwoProbesMoveTheCheckpoint(w0: World, page: Fetch, s2: Search, v: World) returns (steps: seq<Step>)
    requires w0 == BeforeLookup() && page == Fetch(INDEXED, 11, [], 2) && s2 == Search(INDEXED, 2, 1, 1, Some(3))
    requires v == w0.(now := 15, snapshots := {OPENED, INDEXED}, fetched := w0.fetched + {page},
                      searches := {Search(INDEXED, 2, 0, 2, None), Search(INDEXED, 2, 0, 1, None), s2})
    ensures Run(w0, steps) == v
  {
    var s0 := Search(INDEXED, 2, 0, 2, None);
    var s1 := Search(INDEXED, 2, 0, 1, None);
    var v1 := w0.(now := 11, snapshots := {OPENED, INDEXED});
    var v2 := v1.(now := 12, fetched := w0.fetched + {page});
    var v3 := v2.(now := 13, searches := {s0});
    var v4 := v3.(now := 14, searches := {s0, s1});
    Extend(w0, [], w0, Read, v1);
    steps := [] + [Read];
    assert PageAt(w0.remote, 2, PAGE_SIZE) == [];
    Extend(w0, steps, v1, Request(INDEXED, 11), v2);
    steps := steps + [Request(INDEXED, 11)];
    Extend(w0, steps, v2, StartSearch(page), v3);
    steps := steps + [StartSearch(page)];
    assert Probed(w0.remote, s0) == Some(s1) && Probed(w0.remote, s1) == Some(s2);
    Extend(w0, steps, v3, Probe(s0), v4);
    steps := steps + [Probe(s0)];
    Extend(w0, steps, v4, Probe(s1), v);
    steps := steps + [Probe(s1)];
  }

  /** The page that confirms the index after the move: one new row, a count of 2. */
  lemma OnePageConfirms(v: World, f: Fetch)
    requires v.remote == BeforeLookup().remote && f == Fetch(MOVED, 17, v.remote, 2)
    requires v.cp == MOVED && f in v.fetched && v.rows == BeforeLookup().rows
    ensures Confirms(v, f, 10) && Examine(f).scanned == 2 && 4 in Apply(v, Save(f)).rows
  {
    assert f.page[1..] == [v.remote[1]];
    IncreasingIsAscending(3, f.page[1..]);
    UpsertContents(v.rows, f.page[1..], 4);
    assert Invoice(4, Some("X"), 9) in f.page[1..];
  }

  /** After the move the runner reads the checkpoint and fetches its next page. */
  lemma MovedThenFetches(w0: World, v5: World, probes: seq<Step>, s2: Search) returns (before: seq<Step>, v: World)
    requires w0.remote == BeforeLookup().remote && Run(w0, probes) == v5 && v5.remote == w0.remote && v5.now == 15
    requires s2 in v5.searches && s2.low >= s2.high && Guard(v5.cp, s2.st) && Moved(v5.cp, s2) == MOVED
    ensures Run(w0, before) == v && v.remote == w0.remote && v.cp == MOVED && v.rows == v5.rows
    ensures Fetch(MOVED, 17, w0.remote, 2) in v.fetched
  {
    var v6 := v5.(now := 16, cp := MOVED);
    var v7 := v6.(now := 17, snapshots := v5.snapshots + {MOVED});
    v := v7.(now := 18, fetched := v5.fetched + {Fetch(MOVED, 17, w0.remote, 2)});
    before := probes;
    Extend(w0, before, v5, Move(s2), v6);
    before := before + [Move(s2)];
    Extend(w0, before, v6, Read, v7);
    before := before + [Read];
    assert PageAt(w0.remote, 0, PAGE_SIZE) == w0.remote;
    Extend(w0, before, v7, Request(MOVED, 17), v);
    before := before + [Request(MOVED, 17)];
  }

  /**
   * A reposition inside the refresh lowers the count: 3 scanned rows become 1, the page that
   * confirms the index ends at 2, so the index is not read again and the invoice of order "X",
   * which existed before the lookup began, is no candidate of a lookup that counts as complete.
   */
  lemma RepositionHidesAnInvoice() returns (before: seq<Step>, f: Fetch)
    ensures
      var w0 := BeforeLookup();
      var w1 := Apply(Run(w0, before), Save(f));
      && Confirms(Run(w0, before), f, w0.now)
      && Invoice(4, Some("X"), 9) in w0.remote && Invoice(4, Some("X"), 9) in w1.remote
      && 4 in w1.rows && FinalCandidates(w0, Examine(f).scanned, w1, "X") == {}
  {
    var w0 := BeforeLookup();
    var page := Fetch(INDEXED, 11, [], 2);
    var s2 := Search(INDEXED, 2, 1, 1, Some(3));
    var v5 := w0.(now := 15, snapshots := {OPENED, INDEXED}, fetched := w0.fetched + {page},
                  searches := {Search(INDEXED, 2, 0, 2, None), Search(INDEXED, 2, 0, 1, None), s2});
    var probes := TwoProbesMoveTheCheckpoint(w0, page, s2, v5);
    var v8;
    before, v8 := MovedThenFetches(w0, v5, probes, s2);
    f := Fetch(MOVED, 17, w0.remote, 2);
    OnePageConfirms(v8, f);
    assert w0.remote[1] == Invoice(4, Some("X"), 9);
  }
}

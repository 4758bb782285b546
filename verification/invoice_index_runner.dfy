/**
 * One index runner, statement by statement. Between two of its awaits any steps of other
 * runners and of the remote service may happen (`Turn.others`), any request may fail
 * (`Turn.fails`) and the deadline may pass (`Turn.late`).
 */
module InvoiceIndexRunner {
  import opened Prelude
  import opened InvoiceList
  import opened InvoiceIndex

  const REPOSITION_MAX_REQUESTS: nat := 22
  const LOOKUP_CATCH_UP: nat := 5 * PAGE_SIZE

  datatype Turn = Turn(others: seq<Step>, fails: bool, late: bool)

  datatype Progress = Progress(current: bool, currentAsOf: Option<nat>, scanned: nat, total: Option<nat>, pages: nat)

  ghost predicate Quiet(turns: nat -> Turn) {
    forall i :: turns(i) == Turn([], false, false)
  }

  /** `f` is a page whose save confirms the index current, by a request started at or after `since`. */
  predicate Confirms(w: World, f: Fetch, since: nat) {
    f in w.fetched && Guard(w.cp, f.st) && since <= f.startedAt && Examine(f).Accepted? && Examine(f).current
  }

  /**
   * The trace ends with the save that confirmed the index, by a request started after `since`, at the
   * count reported.
   */
  ghost predicate EndsConfirmed(since: World, w0: World, trace: seq<Step>, p: Progress) {
    && trace != [] && trace[|trace| - 1].Save?
    && var f := trace[|trace| - 1].f;
    && Confirms(Run(w0, trace[..|trace| - 1]), f, since.now)
    && p.currentAsOf == Some(f.startedAt) && p.scanned == Examine(f).scanned
  }

  lemma EndsConfirmedPrefix(w0: World, since: World, before: seq<Step>, w1: World, trace: seq<Step>, p: Progress)
    requires w1 == Run(w0, before) && w0.now <= since.now && EndsConfirmed(since, w1, trace, p)
    ensures EndsConfirmed(w0, w0, before + trace, p)
  {
    assert (before + trace)[..|before + trace| - 1] == before + trace[..|trace| - 1];
    RunConcat(w0, before, trace[..|trace| - 1]);
  }

  /** The checkpoint names a position of the list: the last indexed invoice is the one just before it. */
  ghost predicate Aligned(remote: seq<Invoice>, cp: Checkpoint) {
    if cp.scanned == 0 then cp.lastId.None?
    else cp.scanned <= |remote| && cp.lastId == Some(remote[cp.scanned - 1].id)
  }

  /** Pages that index `missing` further invoices, each re-reading one row. */
  function PagesFor(missing: nat): nat {
    if missing < PAGE_SIZE then 1 else 1 + (missing - 1) / (PAGE_SIZE - 1)
  }

  ghost function PagesToConfirm(remote: seq<Invoice>, cp: Checkpoint): nat {
    if Aligned(remote, cp) then PagesFor(|remote| - cp.scanned)
    else 1 + PagesFor(|remote| - Min(|remote|, CountUpTo(remote, Previous(cp))))
  }

  function Pow2(n: nat): nat { if n == 0 then 1 else 2 * Pow2(n - 1) }

  /** What an await leaves in the hands of a runner: time passes, records stay. */
  ghost predicate Keeps(w: World, w': World) {
    w.now <= w'.now && w.snapshots <= w'.snapshots && w.fetched <= w'.fetched && w.searches <= w'.searches
  }

  lemma {:induction false} RunKeeps(w: World, steps: seq<Step>)
    ensures Keeps(w, Run(w, steps))
  {
    if steps != [] { RunKeeps(w, steps[..|steps| - 1]); }
  }

  /** The other runners' steps of one await, then this runner's own step. */
  lemma AwaitIsRun(w: World, others: seq<Step>, step: Step)
    ensures Apply(Run(w, others), step) == Run(w, others + [step])
    ensures Keeps(w, Run(w, others)) && Keeps(w, Apply(Run(w, others), step))
  {
    assert (others + [step])[..|others|] == others;
    RunKeeps(w, others);
  }

  lemma SavedLast(w0: World, trace: seq<Step>, others: seq<Step>, f: Fetch)
    ensures var all := trace + (others + [Save(f)]);
            all != [] && all[|all| - 1] == Save(f) && Run(w0, all[..|all| - 1]) == Run(Run(w0, trace), others)
  {
    var all := trace + (others + [Save(f)]);
    assert all[..|all| - 1] == trace + others;
    RunConcat(w0, trace, others);
  }

  // ---------- What one runner alone does on a list that stays still ----------

  function StillSearch(remote: seq<Invoice>, s: Search, probesLeft: nat): Option<Search>
    decreases probesLeft
  {
    if s.low >= s.high then Some(s)
    else if probesLeft == 0 then None
    else match Probed(remote, s)
      case None => None
      case Some(next) => StillSearch(remote, next, probesLeft - 1)
  }

  datatype Outcome = Outcome(cp: Checkpoint, confirmed: bool, failed: bool)

  function StillRound(remote: seq<Invoice>, cp: Checkpoint, startedAt: nat): Outcome {
    var f := Requested(remote, cp, startedAt);
    match Examine(f)
    case Mismatch =>
      (match StillSearch(remote, Search(cp, |remote|, 0, |remote|, None), REPOSITION_MAX_REQUESTS)
       case None => Outcome(cp, false, true)
       case Some(s) => Outcome(Moved(cp, s), false, false))
    case Disordered => Outcome(Emptied(cp), false, true)
    case NoProgress => Outcome(cp, false, true)
    case Accepted(_, _, _, current) => Outcome(Saved(cp, f, Examine(f)), current, false)
  }

  ghost predicate Ordered(remote: seq<Invoice>) {
    Ascending(remote) && forall i :: 0 <= i < |remote| ==> 0 < remote[i].id
  }

  ghost predicate Divides(remote: seq<Invoice>, id: nat, boundary: nat) {
    && boundary <= |remote|
    && (forall i :: 0 <= i < boundary ==> remote[i].id <= id)
    && (forall i :: boundary <= i < |remote| ==> id < remote[i].id)
  }

  /** The search interval always contains the boundary, and halves: it never runs out of probes. */
  lemma {:induction false} StillSearchFindsBoundary(remote: seq<Invoice>, s: Search, boundary: nat, probesLeft: nat)
    requires Divides(remote, Previous(s.st), boundary)
    requires s.low <= boundary <= s.high <= |remote| && s.high - s.low < Pow2(probesLeft)
    requires s.low > 0 ==> s.below == Some(remote[s.low - 1].id)
    ensures var r := StillSearch(remote, s, probesLeft);
            r.Some? && r.value.low == boundary && (boundary > 0 ==> r.value.below == Some(remote[boundary - 1].id))
    decreases probesLeft
  {
    if s.low < s.high {
      var middle := (s.low + s.high) / 2;
      assert s.low <= middle < s.high;
      assert remote[middle].id <= Previous(s.st) <==> middle < boundary;
      StillSearchFindsBoundary(remote, Probed(remote, s).value, boundary, probesLeft - 1);
    }
  }

  /**
   * Reposition: on an unchanging ordered list of fewer than 2^22 invoices the search stays within
   * its 22 requests and lands on the number of remaining ids up to the last indexed one and on
   * the greatest such id.
   */
  lemma RepositionIsExact(remote: seq<Invoice>, cp: Checkpoint)
    requires Ordered(remote) && |remote| < Pow2(REPOSITION_MAX_REQUESTS)
    ensures var r := StillSearch(remote, Search(cp, |remote|, 0, |remote|, None), REPOSITION_MAX_REQUESTS);
            && r.Some?
            && r.value.low == CountUpTo(remote, Previous(cp))
            && Aligned(remote, Moved(cp, r.value))
  {
    var boundary := BoundaryOf(remote, Previous(cp));
    StillSearchFindsBoundary(remote, Search(cp, |remote|, 0, |remote|, None), boundary, REPOSITION_MAX_REQUESTS);
  }

  lemma AlignedPageRows(remote: seq<Invoice>, st: Checkpoint, startedAt: nat)
    requires Ordered(remote) && Aligned(remote, st)
    ensures var f := Requested(remote, st, startedAt);
            && Overlap(st) <= |f.page|
            && f.page[Overlap(st)..] == remote[st.scanned..Min(st.scanned - Overlap(st) + PAGE_SIZE, |remote|)]
            && IncreasingFrom(Previous(st), f.page[Overlap(st)..])
  {
    var f := Requested(remote, st, startedAt);
    var to := Min(st.scanned - Overlap(st) + PAGE_SIZE, |remote|);
    assert f.page[Overlap(st)..] == remote[st.scanned..to];
    AlignedRowsIncrease(remote, st, to);
  }

  lemma AlignedRowsIncrease(remote: seq<Invoice>, st: Checkpoint, to: nat)
    requires Ordered(remote) && Aligned(remote, st) && st.scanned <= to <= |remote|
    ensures IncreasingFrom(Previous(st), remote[st.scanned..to])
  {
    var added := remote[st.scanned..to];
    assert forall i :: 0 <= i < |added| ==> added[i] == remote[st.scanned + i];
    IncreasingIsAscending(Previous(st), added);
  }

  lemma AlignedPage(remote: seq<Invoice>, st: Checkpoint, startedAt: nat)
    requires Ordered(remote) && Aligned(remote, st)
    ensures var to := Min(st.scanned - Overlap(st) + PAGE_SIZE, |remote|);
            Examine(Requested(remote, st, startedAt))
            == Accepted(remote[st.scanned..to], to, if to == st.scanned then st.lastId else Some(remote[to - 1].id), to == |remote|)
  {
    AlignedPageRows(remote, st, startedAt);
    var f := Requested(remote, st, startedAt);
    assert Overlap(st) == 1 ==> f.page[0] == remote[st.scanned - 1];
  }

  lemma AlignedRound(remote: seq<Invoice>, cp: Checkpoint, startedAt: nat)
    requires Ordered(remote) && Aligned(remote, cp)
    ensures var r := StillRound(remote, cp, startedAt);
            && !r.failed && Aligned(remote, r.cp) && (r.confirmed <==> r.cp.scanned == |remote|)
            && r.cp.scanned == Min(cp.scanned - Overlap(cp) + PAGE_SIZE, |remote|)
            && r.cp.repositions == cp.repositions
  {
    AlignedPage(remote, cp, startedAt);
  }

  lemma MisalignedRound(remote: seq<Invoice>, cp: Checkpoint, startedAt: nat)
    requires Ordered(remote) && !Aligned(remote, cp) && (cp.lastId.None? <==> cp.scanned == 0)
             && |remote| < Pow2(REPOSITION_MAX_REQUESTS)
    ensures Examine(Requested(remote, cp, startedAt)).Mismatch?
    ensures var r := StillRound(remote, cp, startedAt);
            && !r.failed && !r.confirmed && Aligned(remote, r.cp) && r.cp.scanned == CountUpTo(remote, Previous(cp))
            && r.cp.repositions == cp.repositions + 1
  {
    assert Overlap(cp) == 1;
    RepositionIsExact(remote, cp);
  }

  /**
   * On a still list a page is refused exactly when the checkpoint is not aligned; every round brings the
   * end closer.
   */
  lemma StillRoundProgress(remote: seq<Invoice>, cp: Checkpoint, startedAt: nat)
    requires Ordered(remote) && (cp.lastId.None? <==> cp.scanned == 0) && |remote| < Pow2(REPOSITION_MAX_REQUESTS)
    ensures var r := StillRound(remote, cp, startedAt);
            && !r.failed && Aligned(remote, r.cp)
            && (!r.confirmed ==> PagesToConfirm(remote, r.cp) + 1 <= PagesToConfirm(remote, cp))
            && r.cp.repositions == cp.repositions + (if Aligned(remote, cp) then 0 else 1)
            && r.cp.generation == cp.generation && (r.confirmed ==> r.cp.scanned == |remote|)
            && (r.cp.lastId.None? <==> r.cp.scanned == 0)
  {
    if Aligned(remote, cp) {
      AlignedRound(remote, cp, startedAt);
    } else {
      MisalignedRound(remote, cp, startedAt);
    }
  }

  /**
   * A usable index (lag of at most 500) whose remote list is still the one its last saved page was
   * read from is confirmed within 6 pages, inside the 10 pages a lookup may read.
   */
  lemma UsableIndexNeedsSixPages(remote: seq<Invoice>, st: Checkpoint, startedAt: nat)
    requires Ordered(remote) && (st.lastId.None? <==> st.scanned == 0) && |remote| < Pow2(REPOSITION_MAX_REQUESTS)
    requires Examine(Requested(remote, st, startedAt)).Accepted?
    ensures var cp := StillRound(remote, st, startedAt).cp;
            && cp.total == Some(|remote|) && cp.scanned <= |remote|
            && (|remote| - cp.scanned <= 500 ==> PagesToConfirm(remote, cp) <= 6)
  {
    if !Aligned(remote, st) {
      MisalignedRound(remote, st, startedAt);
    } else {
      AlignedRound(remote, st, startedAt);
    }
  }

  /** Reads a page row by row, as the ordering loop of the runner does. */
  method ExaminePage(f: Fetch) returns (v: Verdict)
    ensures v == Examine(f)
  {
    if Overlap(f.st) == 1 && (f.page == [] || f.page[0].id != f.st.lastId.value) {
      return Mismatch;
    }
    var added := f.page[Overlap(f.st)..];
    var previous := Previous(f.st);
    var i := 0;
    while i < |added|
      invariant i <= |added|
      invariant previous == if i == 0 then Previous(f.st) else added[i - 1].id
      invariant IncreasingFrom(Previous(f.st), added) <==> IncreasingFrom(previous, added[i..])
    {
      if added[i].id <= previous { return Disordered; }
      previous := added[i].id;
      assert added[i..][1..] == added[i + 1..];
      i := i + 1;
    }
    if added == [] && f.st.scanned < f.total { return NoProgress; }
    v := Accepted(added, f.st.scanned + |added|, if added == [] then f.st.lastId else Some(previous),
                  f.st.scanned + |added| >= f.total);
  }

  class IndexDatabase {
    var w: World

    /** SELECT of the checkpoint row. */
    method ReadCheckpoint(turn: Turn) returns (st: Checkpoint, ghost trace: seq<Step>)
      modifies this
      ensures w == Run(old(w), trace) && Keeps(old(w), w)
      ensures st == w.cp && st in w.snapshots
      ensures turn.others == [] ==> w.remote == old(w).remote && w.cp == old(w).cp
    {
      AwaitIsRun(w, turn.others, Read);
      trace := turn.others + [Read];
      w := Run(w, turn.others);
      st := w.cp;
      w := Apply(w, Read);
    }

    /** SELECT clock_timestamp(). */
    method DatabaseClock(turn: Turn) returns (instant: nat, ghost trace: seq<Step>)
      modifies this
      ensures w == Run(old(w), trace) && Keeps(old(w), w)
      ensures old(w).now <= instant < w.now
      ensures turn.others == [] ==> w.remote == old(w).remote && w.cp == old(w).cp
    {
      AwaitIsRun(w, turn.others, Tick);
      trace := turn.others + [Tick];
      w := Run(w, turn.others);
      instant := w.now;
      w := Apply(w, Tick);
    }

    /** One GET /invoices page. */
    method FetchPage(turn: Turn, st: Checkpoint, startedAt: nat) returns (f: Fetch, ghost trace: seq<Step>)
      requires st in w.snapshots && startedAt < w.now
      modifies this
      ensures w == Run(old(w), trace) && Keeps(old(w), w)
      ensures f == Requested(w.remote, st, startedAt) && f in w.fetched
      ensures turn.others == [] ==> w.remote == old(w).remote && w.cp == old(w).cp
    {
      AwaitIsRun(w, turn.others, Request(st, startedAt));
      trace := turn.others + [Request(st, startedAt)];
      w := Run(w, turn.others);
      f := Requested(w.remote, st, startedAt);
      w := Apply(w, Request(st, startedAt));
    }

    /** The guarded page write; `updated` says whether the checkpoint still matched. */
    method SavePage(turn: Turn, f: Fetch) returns (updated: bool, ghost trace: seq<Step>)
      requires f in w.fetched && Examine(f).Accepted?
      modifies this
      ensures w == Run(old(w), trace) && Keeps(old(w), w)
      ensures trace == turn.others + [Save(f)]
      ensures var read := Run(old(w), turn.others);
              && updated == Guard(read.cp, f.st) && f in read.fetched && w.remote == read.remote
              && w.cp == (if updated then Saved(read.cp, f, Examine(f)) else read.cp)
              && w.rows == (if updated then Upsert(read.rows, Examine(f).added) else read.rows)
      ensures turn.others == [] ==> Run(old(w), turn.others) == old(w)
    {
      AwaitIsRun(w, turn.others, Save(f));
      trace := turn.others + [Save(f)];
      w := Run(w, turn.others);
      updated := w.cp.generation == f.st.generation && w.cp.scanned == f.st.scanned;
      w := Apply(w, Save(f));
    }

    /** The guarded reset of the whole checkpoint; indexed rows stay. */
    method ResetIndex(turn: Turn, generation: nat) returns (ghost trace: seq<Step>)
      modifies this
      ensures w == Run(old(w), trace) && Keeps(old(w), w)
      ensures var read := Run(old(w), turn.others);
              && w.cp == (if read.cp.generation == generation then Emptied(read.cp) else read.cp)
              && w.rows == read.rows && w.remote == read.remote
      ensures turn.others == [] ==> Run(old(w), turn.others) == old(w)
    {
      AwaitIsRun(w, turn.others, Reset(generation));
      trace := turn.others + [Reset(generation)];
      w := Run(w, turn.others);
      w := Apply(w, Reset(generation));
    }

    method BeginSearch(f: Fetch) returns (s: Search, ghost trace: seq<Step>)
      requires f in w.fetched && Examine(f).Mismatch?
      modifies this
      ensures w == Run(old(w), trace) && Keeps(old(w), w)
      ensures s == Search(f.st, f.total, 0, f.total, None) && s in w.searches
      ensures w.remote == old(w).remote && w.cp == old(w).cp
    {
      AwaitIsRun(w, [], StartSearch(f));
      trace := [] + [StartSearch(f)];
      s := Search(f.st, f.total, 0, f.total, None);
      w := Apply(w, StartSearch(f));
    }

    /** One single-row read at the middle of the interval. */
    method ReadMiddle(turn: Turn, s: Search) returns (next: Option<Search>, ghost trace: seq<Step>)
      requires s in w.searches && s.low < s.high
      modifies this
      ensures w == Run(old(w), trace) && Keeps(old(w), w)
      ensures next == Probed(w.remote, s) && (next.Some? ==> next.value in w.searches)
      ensures turn.others == [] ==> w.remote == old(w).remote && w.cp == old(w).cp
    {
      AwaitIsRun(w, turn.others, Probe(s));
      trace := turn.others + [Probe(s)];
      w := Run(w, turn.others);
      next := Probed(w.remote, s);
      w := Apply(w, Probe(s));
    }

    /** The guarded move of the checkpoint to the position found. */
    method MoveCheckpoint(turn: Turn, s: Search) returns (ghost trace: seq<Step>)
      requires s in w.searches && s.low >= s.high
      modifies this
      ensures w == Run(old(w), trace) && Keeps(old(w), w)
      ensures var read := Run(old(w), turn.others);
              && w.cp == (if Guard(read.cp, s.st) then Moved(read.cp, s) else read.cp)
              && w.rows == read.rows && w.remote == read.remote
      ensures turn.others == [] ==> Run(old(w), turn.others) == old(w)
    {
      AwaitIsRun(w, turn.others, Move(s));
      trace := turn.others + [Move(s)];
      w := Run(w, turn.others);
      w := Apply(w, Move(s));
    }

    /**
     * Binary search for the first remote position whose id is greater than the last indexed one.
     * Whatever the list does between probes, the result is a run of the transition system.
     */
    method Reposition(f: Fetch, turns: nat -> Turn, k0: nat) returns (ok: bool, k: nat, ghost trace: seq<Step>)
      requires f in w.fetched && Examine(f).Mismatch?
      modifies this
      ensures w == Run(old(w), trace) && Keeps(old(w), w)
      ensures Quiet(turns) && f.st == old(w).cp ==>
                var found := StillSearch(old(w).remote, Search(f.st, f.total, 0, f.total, None), REPOSITION_MAX_REQUESTS);
                && w.remote == old(w).remote && ok == found.Some?
                && w.cp == if ok then Moved(f.st, found.value) else f.st
    {
      ghost var w0 := w;
      ghost var quiet := Quiet(turns) && f.st == w.cp;
      k := k0;
      var s;
      s, trace := BeginSearch(f);
      ghost var found := StillSearch(w.remote, s, REPOSITION_MAX_REQUESTS);
      var requests := 0;
      while s.low < s.high
        invariant w == Run(w0, trace) && Keeps(w0, w) && s in w.searches && s.st == f.st
        invariant requests <= REPOSITION_MAX_REQUESTS
        invariant quiet ==> w.remote == w0.remote && w.cp == f.st
        invariant quiet ==> found == StillSearch(w0.remote, s, REPOSITION_MAX_REQUESTS - requests)
        decreases s.high - s.low
      {
        requests := requests + 1;
        if requests > REPOSITION_MAX_REQUESTS { return false, k, trace; }
        if turns(k).fails { return false, k, trace; }
        ghost var probe;
        var next;
        next, probe := ReadMiddle(turns(k), s);
        RunConcat(w0, trace, probe);
        trace := trace + probe;
        k := k + 1;
        if next.None? { return false, k, trace; }
        s := next.value;
      }
      ghost var move := MoveCheckpoint(turns(k), s);
      RunConcat(w0, trace, move);
      trace := trace + move;
      k := k + 1;
      ok := true;
    }

    /** What follows a fetched page: a reposition, a reset, an error report, or the guarded save. */
    method Conclude(f: Fetch, pages: nat, turns: nat -> Turn, k0: nat)
      returns (next: Option<Checkpoint>, p: Progress, k: nat, ghost trace: seq<Step>)
      requires f in w.fetched
      modifies this
      ensures w == Run(old(w), trace) && Keeps(old(w), w)
      ensures next.Some? ==> next.value in w.snapshots
      ensures next.None? ==> p.pages == pages
      ensures next.None? && p.current ==> EndsConfirmed(old(w).(now := f.startedAt), old(w), trace, p)
      ensures Quiet(turns) && f.st == old(w).cp && f == Requested(old(w).remote, f.st, f.startedAt) ==>
                var r := StillRound(old(w).remote, f.st, f.startedAt);
                && w.remote == old(w).remote && w.cp == r.cp
                && next == (if r.confirmed || r.failed then None else Some(r.cp))
                && (next.None? ==> p.current == r.confirmed)
    {
      ghost var w0 := w;
      next, k, trace := None, k0, [];
      p := Progress(false, f.st.asOf, f.st.scanned, f.st.total, pages);
      var quick := false;
      var v := ExaminePage(f);
      match v {
        case Mismatch =>
          var ok;
          ok, k, trace := Reposition(f, turns, k);
          if !ok { return; }
        case Disordered =>
          trace := ResetIndex(turns(k), f.st.generation);
          p := Progress(false, None, 0, None, pages);
          return;
        case NoProgress =>
          p := p.(total := Some(f.total));
          return;
        case Accepted(_, scanned, _, current) =>
          quick, trace := SavePage(turns(k), f);
          k := k + 1;
          if current && quick {
            SavedLast(w0, [], turns(k0).others, f);
            assert [] + trace == trace;
            p := Progress(true, Some(f.startedAt), scanned, Some(f.total), pages);
            return;
          }
      }
      // A successful save returns the new row itself; otherwise the state is read again.
      var st;
      ghost var more;
      st, more := ReadCheckpoint(if quick then Turn([], false, false) else turns(k));
      RunConcat(w0, trace, more);
      trace := trace + more;
      k := k + 1;
      next := Some(st);
    }

    /** One pass of the page loop: the checkpoint to continue from, or the report the loop returns. */
    method Round(st: Checkpoint, pages: nat, turns: nat -> Turn, k0: nat)
      returns (next: Option<Checkpoint>, p: Progress, k: nat, ghost startedAt: nat, ghost trace: seq<Step>)
      requires st in w.snapshots
      modifies this
      ensures w == Run(old(w), trace) && Keeps(old(w), w)
      ensures next.Some? ==> next.value in w.snapshots
      ensures next.None? ==> p.pages <= pages + 1
      ensures next.None? && p.current ==> EndsConfirmed(old(w), old(w), trace, p)
      ensures Quiet(turns) && st == old(w).cp ==>
                var r := StillRound(old(w).remote, st, startedAt);
                && w.remote == old(w).remote && w.cp == r.cp
                && next == (if r.confirmed || r.failed then None else Some(r.cp))
                && (next.None? ==> p.current == r.confirmed)
    {
      ghost var w0 := w;
      next, k := None, k0;
      p := Progress(false, st.asOf, st.scanned, st.total, pages);
      var clock;
      clock, trace := DatabaseClock(turns(k));
      startedAt := clock;
      if turns(k + 1).fails { return; }
      var f;
      ghost var more;
      f, more := FetchPage(turns(k + 1), st, clock);
      RunConcat(w0, trace, more);
      trace := trace + more;
      ghost var w1 := w;
      next, p, k, more := Conclude(f, pages + 1, turns, k + 2);
      RunConcat(w0, trace, more);
      if p.current && next.None? { EndsConfirmedPrefix(w0, w1.(now := clock), trace, w1, more, p); }
      trace := trace + more;
    }

    /** advanceInvoiceIndex: reads, checks and saves up to `maxPages` pages. */
    method Advance(maxPages: nat, turns: nat -> Turn, k0: nat) returns (p: Progress, k: nat, ghost trace: seq<Step>)
      modifies this
      ensures w == Run(old(w), trace) && Keeps(old(w), w)
      ensures p.current ==> EndsConfirmed(old(w), old(w), trace, p)
      ensures p.pages <= maxPages
      ensures Quiet(turns) && Ordered(old(w).remote) && |old(w).remote| < Pow2(REPOSITION_MAX_REQUESTS)
              && (old(w).cp.lastId.None? <==> old(w).cp.scanned == 0)
              && PagesToConfirm(old(w).remote, old(w).cp) <= maxPages ==>
                && p.current && w.cp.scanned == |w.remote| && w.cp.generation == old(w).cp.generation
                && w.cp.repositions <= old(w).cp.repositions + (if Aligned(old(w).remote, old(w).cp) then 0 else 1)
      ensures Quiet(turns) ==> w.remote == old(w).remote
    {
      ghost var w0 := w;
      ghost var still := Quiet(turns) && Ordered(w.remote) && |w.remote| < Pow2(REPOSITION_MAX_REQUESTS)
          && (w.cp.lastId.None? <==> w.cp.scanned == 0);
      k := k0;
      var st;
      st, trace := ReadCheckpoint(turns(k));
      k := k + 1;
      var pages := 0;
      while pages < maxPages && !turns(k).late
        invariant w == Run(w0, trace) && Keeps(w0, w) && st in w.snapshots && pages <= maxPages
        invariant Quiet(turns) ==> w.remote == w0.remote && st == w.cp
        invariant still ==> (st.lastId.None? <==> st.scanned == 0) && st.generation == w0.cp.generation
        invariant still ==> pages + PagesToConfirm(w.remote, st) <= PagesToConfirm(w0.remote, w0.cp)
        invariant still ==> st.repositions + (if Aligned(w.remote, st) then 0 else 1)
                            <= w0.cp.repositions + (if Aligned(w0.remote, w0.cp) then 0 else 1)
        decreases maxPages - pages
      {
        ghost var w1 := w;
        var next;
        ghost var startedAt, more;
        next, p, k, startedAt, more := Round(st, pages, turns, k);
        if still { StillRoundProgress(w0.remote, st, startedAt); }
        RunConcat(w0, trace, more);
        if next.None? && p.current { EndsConfirmedPrefix(w0, w1, trace, w1, more, p); }
        trace := trace + more;
        if next.None? { return; }
        st := next.value;
        pages := pages + 1;
      }
      p := Progress(false, st.asOf, st.scanned, st.total, pages);
    }
  }
}

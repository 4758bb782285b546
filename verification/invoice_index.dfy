/**
 * The local invoice index as a transition system. Any number of runners (index jobs and
 * lookups) read the one checkpoint row, fetch pages of a remote list that grows at its end and
 * loses rows anywhere, and write back with optimistic guards. Every SQL statement and every
 * remote read is one atomic step; a runner that stops anywhere simply takes no further step.
 */
module InvoiceIndex {
  import opened Prelude
  import opened InvoiceList

  const PAGE_SIZE: nat := 100

  /** The single row of kiotviet_invoice_index_state. */
  datatype Checkpoint = Checkpoint(
    generation: nat, scanned: nat, lastId: Option<nat>, total: Option<nat>, asOf: Option<nat>, repositions: nat)

  /** A page held by a runner, with the checkpoint it was requested for. */
  datatype Fetch = Fetch(st: Checkpoint, startedAt: nat, page: seq<Invoice>, total: nat)

  /** A binary search in progress after an overlap mismatch. */
  datatype Search = Search(st: Checkpoint, total: nat, low: nat, high: nat, below: Option<nat>)

  type Rows = map<nat, Option<string>>

  datatype World = World(
    remote: seq<Invoice>,
    nextId: nat,          // ids below it were allocated, ids from it on were not
    now: nat,             // database clock; every step happens at its own instant
    cp: Checkpoint,
    rows: Rows,           // kiotviet_invoice_index
    snapshots: set<Checkpoint>,
    fetched: set<Fetch>,
    searches: set<Search>)

  datatype Step =
    | Create(order: Option<string>)
    | Delete(position: nat)
    | Read
    | Request(st: Checkpoint, startedAt: nat)
    | Save(f: Fetch)
    | StartSearch(f: Fetch)
    | Probe(s: Search)
    | Move(s: Search)
    | Reset(generation: nat)
    | Forget(id: nat)
    | Tick

  /** GET /invoices from the checkpoint, re-reading the last indexed row when there is one. */
  function Requested(remote: seq<Invoice>, st: Checkpoint, startedAt: nat): Fetch {
    Fetch(st, startedAt, PageAt(remote, st.scanned - Overlap(st), PAGE_SIZE), |remote|)
  }

  // ---------- What a runner decides from one page ----------

  datatype Verdict = Mismatch | Disordered | NoProgress | Accepted(added: seq<Invoice>, scanned: nat,
      lastId: Option<nat>, current: bool)

  function Overlap(st: Checkpoint): (r: nat)
    ensures r <= 1 && r <= st.scanned
  {
    if st.scanned > 0 && st.lastId.Some? then 1 else 0
  }

  function Previous(st: Checkpoint): nat {
    if st.lastId.Some? then st.lastId.value else 0
  }

  predicate IncreasingFrom(previous: nat, added: seq<Invoice>)
    decreases |added|
  {
    added == [] || (previous < added[0].id && IncreasingFrom(added[0].id, added[1..]))
  }

  function Examine(f: Fetch): Verdict {
    if Overlap(f.st) == 1 && (f.page == [] || f.page[0].id != f.st.lastId.value) then Mismatch
    else
      var added := f.page[Overlap(f.st)..];
      if !IncreasingFrom(Previous(f.st), added) then Disordered
      else if added == [] && f.st.scanned < f.total then NoProgress
      else Accepted(added, f.st.scanned + |added|,
                    if added == [] then f.st.lastId else Some(added[|added| - 1].id),
                    f.st.scanned + |added| >= f.total)
  }

  // ---------- The SQL statements ----------

  function Upsert(rows: Rows, added: seq<Invoice>): Rows
    decreases |added|
  {
    if added == [] then rows else Upsert(rows[added[0].id := added[0].order], added[1..])
  }

  predicate Guard(cp: Checkpoint, st: Checkpoint) {
    cp.generation == st.generation && cp.scanned == st.scanned
  }

  function Saved(cp: Checkpoint, f: Fetch, v: Verdict): Checkpoint
    requires v.Accepted?
  {
    cp.(scanned := v.scanned, lastId := v.lastId, total := Some(f.total),
        asOf := if v.current then Some(f.startedAt) else cp.asOf)
  }

  function Moved(cp: Checkpoint, s: Search): Checkpoint {
    cp.(scanned := s.low, lastId := if s.low > 0 then s.below else None, total := Some(s.total),
        repositions := cp.repositions + 1)
  }

  function Emptied(cp: Checkpoint): Checkpoint {
    cp.(generation := cp.generation + 1, scanned := 0, lastId := None, total := None, asOf := None)
  }

  function Probed(remote: seq<Invoice>, s: Search): Option<Search>
    requires s.low < s.high
  {
    var middle := (s.low + s.high) / 2;
    if middle >= |remote| then None
    else if remote[middle].id <= Previous(s.st) then Some(s.(low := middle + 1, below := Some(remote[middle].id)))
    else Some(s.(high := middle))
  }

  /** One step; a step whose guard fails changes nothing but the clock. */
  function Apply(w: World, step: Step): World {
    var w := w.(now := w.now + 1);
    match step
    case Create(order) => w.(remote := w.remote + [Invoice(w.nextId, order, w.now - 1)], nextId := w.nextId + 1)
    case Delete(k) => if k < |w.remote| then w.(remote := w.remote[..k] + w.remote[k + 1..]) else w
    case Read => w.(snapshots := w.snapshots + {w.cp})
    case Request(st, startedAt) =>
      if st in w.snapshots && startedAt < w.now then
        w.(fetched := w.fetched + {Requested(w.remote, st, startedAt)})
      else w
    case Save(f) =>
      var v := Examine(f);
      if f in w.fetched && v.Accepted? && Guard(w.cp, f.st) then
        w.(cp := Saved(w.cp, f, v), rows := Upsert(w.rows, v.added))
      else w
    case StartSearch(f) =>
      if f in w.fetched && Examine(f).Mismatch? then w.(searches := w.searches + {Search(f.st, f.total, 0, f.total, None)}) else w
    case Probe(s) =>
      if s in w.searches && s.low < s.high && Probed(w.remote, s).Some? then w.(searches := w.searches + {Probed(w.remote, s).value}) else w
    case Move(s) =>
      if s in w.searches && s.low >= s.high && Guard(w.cp, s.st) then w.(cp := Moved(w.cp, s)) else w
    case Reset(generation) => if w.cp.generation == generation then w.(cp := Emptied(w.cp)) else w
    // A row is forgotten only after its invoice was read as gone; ids are never allocated twice.
    case Forget(id) => if id < w.nextId && (forall i :: 0 <= i < |w.remote| ==> w.remote[i].id != id) then w.(rows := w.rows - {id}) else w
    case Tick => w
  }

  function Run(w: World, steps: seq<Step>): World {
    if steps == [] then w else Apply(Run(w, steps[..|steps| - 1]), steps[|steps| - 1])
  }

  // ---------- Invariant ----------

  ghost predicate Indexed(rows: Rows, inv: Invoice) {
    inv.id in rows && rows[inv.id] == inv.order
  }

  /** Every invoice that still exists with an id up to `id` has its row. */
  ghost predicate CoveredTo(w: World, id: nat) {
    forall inv :: inv in w.remote && inv.id <= id ==> Indexed(w.rows, inv)
  }

  /** Every invoice that still exists and was created by instant `t` has its row. */
  ghost predicate CoveredAsOf(w: World, t: nat) {
    forall inv :: inv in w.remote && inv.createdAt <= t ==> Indexed(w.rows, inv)
  }

  /** A checkpoint value stays usable for ever, whatever happened since it was read. */
  ghost predicate SnapshotOk(w: World, st: Checkpoint) {
    && (st.lastId.None? <==> st.scanned == 0)
    && (st.lastId.Some? ==> 0 < st.lastId.value < w.nextId && CoveredTo(w, st.lastId.value))
    && (st.asOf.Some? ==> st.asOf.value < w.now && CoveredAsOf(w, st.asOf.value))
  }

  ghost predicate KnownIds(w: World, page: seq<Invoice>) {
    forall p :: p in page ==> 0 < p.id < w.nextId && forall r :: r in w.remote && r.id == p.id ==> r == p
  }

  /** Whether `r` comes no earlier in the list than the page starts. */
  ghost predicate FromPageStart(f: Fetch, r: Invoice) {
    Overlap(f.st) == 0 || (f.page != [] && f.page[0].id <= r.id)
  }

  /** The page is gap-free: what still exists inside its id range is on it. */
  ghost predicate GapFree(w: World, f: Fetch) {
    forall r :: r in w.remote && f.page != [] && FromPageStart(f, r) && r.id <= f.page[|f.page| - 1].id ==> r in f.page
  }

  /** The page that reaches the reported total holds everything from its first row on. */
  ghost predicate ReachesEnd(w: World, f: Fetch) {
    f.st.scanned - Overlap(f.st) + |f.page| >= f.total ==>
      forall r :: r in w.remote && r.createdAt <= f.startedAt && FromPageStart(f, r) ==> r in f.page
  }

  ghost predicate FetchOk(w: World, f: Fetch) {
    && SnapshotOk(w, f.st)
    && f.startedAt < w.now
    && Ascending(f.page)
    && KnownIds(w, f.page)
    && GapFree(w, f)
    && ReachesEnd(w, f)
  }

  ghost predicate SearchOk(w: World, s: Search) {
    && SnapshotOk(w, s.st)
    && s.st.lastId.Some?
    && (s.low > 0 <==> s.below.Some?)
    && (s.below.Some? ==> 0 < s.below.value <= s.st.lastId.value)
  }

  ghost predicate RemoteOk(w: World) {
    && Ascending(w.remote) && 0 < w.nextId
    && (forall r :: r in w.remote ==> 0 < r.id < w.nextId && r.createdAt < w.now)
    && (forall id :: id in w.rows ==> id < w.nextId)
    && (forall r :: r in w.remote && r.id in w.rows ==> w.rows[r.id] == r.order)
  }

  ghost predicate Inv(w: World) {
    && RemoteOk(w)
    && SnapshotOk(w, w.cp)
    && (forall st :: st in w.snapshots ==> SnapshotOk(w, st))
    && (forall f :: f in w.fetched ==> FetchOk(w, f))
    && (forall s :: s in w.searches ==> SearchOk(w, s))
  }

  ghost predicate Initial(w: World) {
    w == World(w.remote, w.nextId, w.now, Checkpoint(1, 0, None, None, None, 0), map[], {}, {}, {}) && RemoteOk(w)
  }

  /** How the remote list and the rows may differ between an earlier and a later world. */
  ghost predicate Later(w: World, w': World) {
    && w.nextId <= w'.nextId && w.now <= w'.now
    && (forall r :: r in w'.remote ==> r in w.remote || (w.nextId <= r.id && w.now <= r.createdAt))
    && (forall r :: r in w'.remote && r in w.remote && Indexed(w.rows, r) ==> Indexed(w'.rows, r))
  }

  // ---------- Stability of what runners hold ----------

  lemma SnapshotStable(w: World, w': World, st: Checkpoint)
    requires Later(w, w') && SnapshotOk(w, st)
    ensures SnapshotOk(w', st)
  {
  }

  lemma FetchStable(w: World, w': World, f: Fetch)
    requires Later(w, w') && FetchOk(w, f)
    ensures FetchOk(w', f)
  {
    SnapshotStable(w, w', f.st);
    if f.page != [] {
      assert f.page[|f.page| - 1] in f.page;
    }
  }

  lemma RecordsStable(w: World, w': World)
    requires Inv(w) && Later(w, w') && RemoteOk(w') && SnapshotOk(w', w'.cp)
    requires forall st :: st in w'.snapshots ==> st in w.snapshots || SnapshotOk(w', st)
    requires forall f :: f in w'.fetched ==> f in w.fetched || FetchOk(w', f)
    requires forall s :: s in w'.searches ==> s in w.searches || SearchOk(w', s)
    ensures Inv(w')
  {
    forall st | st in w.snapshots ensures SnapshotOk(w', st) { SnapshotStable(w, w', st); }
    forall f | f in w.fetched ensures FetchOk(w', f) { FetchStable(w, w', f); }
    forall s | s in w.searches ensures SearchOk(w', s) { SnapshotStable(w, w', s.st); }
  }

  // ---------- Pages ----------

  lemma RequestedIdsKnown(w: World, page: seq<Invoice>)
    requires RemoteOk(w) && forall p :: p in page ==> p in w.remote
    ensures KnownIds(w, page)
  {
    forall p, r | p in page && r in w.remote && r.id == p.id ensures r == p {
      SameIdSameInvoice(w.remote, r, p);
    }
  }

  lemma RequestedPageHolds(w: World, st: Checkpoint, startedAt: nat)
    requires Ascending(w.remote) && (st.lastId.None? <==> st.scanned == 0)
    ensures var f := Requested(w.remote, st, startedAt); GapFree(w, f) && ReachesEnd(w, f)
  {
    var from := st.scanned - Overlap(st);
    var f := Requested(w.remote, st, startedAt);
    forall r | r in w.remote
      ensures f.page != [] && FromPageStart(f, r) && r.id <= f.page[|f.page| - 1].id ==> r in f.page
      ensures from + |f.page| >= |w.remote| && FromPageStart(f, r) ==> r in f.page
    {
      PageIsGapFree(w.remote, from, PAGE_SIZE, r);
    }
  }

  lemma RequestedPageOk(w: World, st: Checkpoint, startedAt: nat)
    requires RemoteOk(w) && SnapshotOk(w, st) && startedAt < w.now
    ensures FetchOk(w, Requested(w.remote, st, startedAt))
  {
    var f := Requested(w.remote, st, startedAt);
    PageIsFromList(w.remote, st.scanned - Overlap(st), PAGE_SIZE);
    RequestedIdsKnown(w, f.page);
    RequestedPageHolds(w, st, startedAt);
  }

  lemma AscendingCons(first: Invoice, rest: seq<Invoice>)
    ensures Ascending([first] + rest) <==> Ascending(rest) && forall p :: p in rest ==> first.id < p.id
  {
    var all := [first] + rest;
    assert all[0] == first;
    if Ascending(all) {
      forall i, j | 0 <= i < j < |rest| ensures rest[i].id < rest[j].id { assert all[i + 1] == rest[i] && all[j + 1] == rest[j]; }
      forall p | p in rest ensures first.id < p.id {
        var i :| 0 <= i < |rest| && rest[i] == p;
        assert all[i + 1] == p;
      }
    }
    if Ascending(rest) && forall p :: p in rest ==> first.id < p.id {
      forall i, j | 0 <= i < j < |all| ensures all[i].id < all[j].id {
        assert all[j] == rest[j - 1] && rest[j - 1] in rest;
        if i > 0 { assert all[i] == rest[i - 1]; }
      }
    }
  }

  lemma {:induction false} IncreasingIsAscending(previous: nat, added: seq<Invoice>)
    ensures IncreasingFrom(previous, added)
            <==> Ascending(added) && forall p :: p in added ==> previous < p.id
    decreases |added|
  {
    if added != [] {
      var rest := added[1..];
      assert added == [added[0]] + rest;
      IncreasingIsAscending(added[0].id, rest);
      AscendingCons(added[0], rest);
    }
  }

  lemma {:induction false} UpsertContents(rows: Rows, added: seq<Invoice>, id: nat)
    requires Ascending(added)
    ensures forall p :: p in added && p.id == id ==> Indexed(Upsert(rows, added), p)
    ensures (forall p :: p in added ==> p.id != id) ==> (id in Upsert(rows, added) <==> id in rows)
    ensures (forall p :: p in added ==> p.id != id) && id in rows ==> Upsert(rows, added)[id] == rows[id]
    decreases |added|
  {
    if added != [] {
      var rest := added[1..];
      assert forall i :: 0 <= i < |rest| ==> rest[i] == added[i + 1];
      assert added == [added[0]] + rest;
      UpsertContents(rows[added[0].id := added[0].order], rest, id);
    }
  }

  /** Writing rows of known invoices keeps the rows of every other existing invoice. */
  lemma UpsertIsLater(w: World, added: seq<Invoice>, w': World)
    requires RemoteOk(w) && KnownIds(w, added) && Ascending(added)
    requires w' == w.(now := w'.now, rows := Upsert(w.rows, added), cp := w'.cp) && w.now <= w'.now
    ensures Later(w, w') && RemoteOk(w')
    ensures forall r :: r in w'.remote && r in added ==> Indexed(w'.rows, r)
  {
    forall r | r in w.remote
      ensures Indexed(w.rows, r) ==> Indexed(w'.rows, r)
      ensures r in added ==> Indexed(w'.rows, r)
      ensures r.id in w'.rows ==> w'.rows[r.id] == r.order
    {
      UpsertContents(w.rows, added, r.id);
      if exists p :: p in added && p.id == r.id {
        var p :| p in added && p.id == r.id;
        assert p == r;
      }
    }
    forall id | id in w'.rows ensures id < w.nextId {
      UpsertContents(w.rows, added, id);
    }
  }

  /** A page without the row it re-reads. */
  lemma TailMembers(page: seq<Invoice>, overlap: nat)
    requires overlap <= |page| && overlap <= 1
    ensures forall p :: p in page[overlap..] ==> p in page
    ensures forall p :: p in page ==> p in page[overlap..] || (overlap == 1 && p == page[0])
    ensures page[overlap..] != [] ==> page[overlap..][|page| - overlap - 1] == page[|page| - 1]
  {
    if overlap == 1 { assert page == [page[0]] + page[1..]; } else { assert page[0..] == page; }
  }

  lemma AddedIsPageTail(f: Fetch)
    requires Ascending(f.page) && Examine(f).Accepted?
    ensures Ascending(Examine(f).added) && forall p :: p in Examine(f).added ==> p in f.page
    ensures f.page != [] ==> f.page[|f.page| - 1].id == Previous(f.st) || f.page[|f.page| - 1] in Examine(f).added
    ensures Overlap(f.st) == 1 ==> f.page != [] && f.page[0].id == Previous(f.st)
    ensures forall p :: p in f.page ==> p in Examine(f).added || (Overlap(f.st) == 1 && p == f.page[0])
  {
    var v := Examine(f);
    IncreasingIsAscending(Previous(f.st), v.added);
    TailMembers(f.page, Overlap(f.st));
  }

  lemma AcceptedLastId(w: World, f: Fetch)
    requires FetchOk(w, f) && Examine(f).Accepted?
    ensures var v := Examine(f);
            && (v.lastId.None? <==> v.scanned == 0)
            && (v.lastId.Some? ==> 0 < v.lastId.value < w.nextId)
            && (v.lastId.Some? && v.added != [] ==> f.page != [] && v.lastId.value == f.page[|f.page| - 1].id)
  {
    AddedIsPageTail(f);
    TailMembers(f.page, Overlap(f.st));
    var v := Examine(f);
    if v.added != [] {
      assert f.page[|f.page| - 1] in f.page;
    }
  }

  /** An accepted page extends the covered prefix of the list, whatever checkpoint it is saved over. */
  lemma AcceptedPageCovers(w: World, f: Fetch, w': World)
    requires RemoteOk(w) && FetchOk(w, f) && Examine(f).Accepted?
    requires w' == w.(now := w'.now, rows := Upsert(w.rows, Examine(f).added), cp := w'.cp) && w.now <= w'.now
    ensures Later(w, w') && RemoteOk(w')
    ensures Examine(f).lastId.Some? ==> CoveredTo(w', Examine(f).lastId.value)
    ensures Examine(f).current ==> CoveredAsOf(w', f.startedAt)
  {
    var v := Examine(f);
    AddedIsPageTail(f);
    AcceptedLastId(w, f);
    assert KnownIds(w, v.added);
    UpsertIsLater(w, v.added, w');
    SnapshotStable(w, w', f.st);
    forall r | r in w'.remote && (r in f.page || !FromPageStart(f, r)) ensures Indexed(w'.rows, r) {
      if r in f.page && r !in v.added { assert r.id == Previous(f.st); }
    }
    assert v.added == [] ==> v.lastId == f.st.lastId;
    assert v.current ==> f.st.scanned - Overlap(f.st) + |f.page| >= f.total;
  }

  // ---------- The invariant holds in every run ----------

  lemma SaveKeepsInv(w: World, f: Fetch)
    requires Inv(w)
    ensures Inv(Apply(w, Save(f))) && Later(w, Apply(w, Save(f)))
  {
    var w' := Apply(w, Save(f));
    if f in w.fetched && Examine(f).Accepted? && Guard(w.cp, f.st) {
      AcceptedLastId(w, f);
      AcceptedPageCovers(w, f, w');
      SnapshotStable(w, w', w.cp);
    }
    RecordsStable(w, w');
  }

  lemma RemoteStaysOk(w: World, step: Step)
    requires RemoteOk(w) && (step.Create? || step.Delete? || step.Forget?)
    ensures RemoteOk(Apply(w, step)) && Later(w, Apply(w, step))
  {
    match step
    case Create(order) => WithNewest(w.remote, Invoice(w.nextId, order, w.now));
    case Delete(k) => if k < |w.remote| { WithoutOne(w.remote, k); }
    case Forget(_) =>
  }

  lemma RemoteKeepsInv(w: World, step: Step)
    requires Inv(w) && (step.Create? || step.Delete? || step.Forget?)
    ensures Inv(Apply(w, step)) && Later(w, Apply(w, step))
  {
    var w' := Apply(w, step);
    RemoteStaysOk(w, step);
    SnapshotStable(w, w', w.cp);
    assert w'.snapshots == w.snapshots && w'.fetched == w.fetched && w'.searches == w.searches;
    RecordsStable(w, w');
  }

  lemma RequestKeepsInv(w: World, st: Checkpoint, startedAt: nat)
    requires Inv(w)
    ensures Inv(Apply(w, Request(st, startedAt))) && Later(w, Apply(w, Request(st, startedAt)))
  {
    var w' := Apply(w, Request(st, startedAt));
    SnapshotStable(w, w', w.cp);
    if st in w.snapshots && startedAt < w'.now {
      SnapshotStable(w, w', st);
      RequestedPageOk(w', st, startedAt);
      assert w'.fetched == w.fetched + {Requested(w.remote, st, startedAt)};
    }
    RecordsStable(w, w');
  }

  lemma SearchKeepsInv(w: World, step: Step)
    requires Inv(w) && (step.StartSearch? || step.Probe?)
    ensures Inv(Apply(w, step)) && Later(w, Apply(w, step))
  {
    var w' := Apply(w, step);
    assert w' == w.(now := w.now + 1, searches := w'.searches);
    SnapshotStable(w, w', w.cp);
    forall s | s in w'.searches && s !in w.searches ensures SearchOk(w', s) {
      match step {
        case StartSearch(f) => SnapshotStable(w, w', f.st);
        case Probe(before) => ProbeKeepsSearch(w, before, w');
      }
    }
    RecordsStable(w, w');
  }

  /**
   * On a list that changes between probes the id found below the boundary is still no greater than the
   * one searched for.
   */
  lemma ProbeKeepsSearch(w: World, s: Search, w': World)
    requires RemoteOk(w) && SearchOk(w, s) && Later(w, w') && s.low < s.high && Probed(w.remote, s).Some?
    ensures SearchOk(w', Probed(w.remote, s).value)
  {
    SnapshotStable(w, w', s.st);
    var middle := (s.low + s.high) / 2;
    assert w.remote[middle] in w.remote;
  }

  lemma MoveKeepsInv(w: World, s: Search)
    requires Inv(w)
    ensures Inv(Apply(w, Move(s))) && Later(w, Apply(w, Move(s)))
  {
    var w' := Apply(w, Move(s));
    assert w' == w.(now := w.now + 1, cp := w'.cp);
    SnapshotStable(w, w', w.cp);
    if s in w.searches { SnapshotStable(w, w', s.st); }
    RecordsStable(w, w');
  }

  lemma StepKeepsInv(w: World, step: Step)
    requires Inv(w)
    ensures Inv(Apply(w, step)) && Later(w, Apply(w, step))
  {
    match step {
      case Save(f) => SaveKeepsInv(w, f);
      case Create(_) => RemoteKeepsInv(w, step);
      case Delete(_) => RemoteKeepsInv(w, step);
      case Forget(_) => RemoteKeepsInv(w, step);
      case Request(st, startedAt) => RequestKeepsInv(w, st, startedAt);
      case StartSearch(_) => SearchKeepsInv(w, step);
      case Probe(_) => SearchKeepsInv(w, step);
      case Move(s) => MoveKeepsInv(w, s);
      case _ =>
        var w' := Apply(w, step);
        SnapshotStable(w, w', w.cp);
        RecordsStable(w, w');
    }
  }

  lemma {:induction false} RunKeepsInv(w: World, steps: seq<Step>)
    requires Inv(w)
    ensures Inv(Run(w, steps)) && Later(w, Run(w, steps))
  {
    if steps != [] {
      RunKeepsInv(w, steps[..|steps| - 1]);
      StepKeepsInv(Run(w, steps[..|steps| - 1]), steps[|steps| - 1]);
    }
  }

  /**
   * Coverage: in every run of any number of runners, with remote creates and deletes, stale
   * saves over a checkpoint whose count fell and returned, repositions, resets and forgets,
   * every existing invoice up to last_invoice_id and every existing invoice created by
   * current_as_of has its index row with its own order code.
   */
  lemma Coverage(w0: World, steps: seq<Step>)
    requires Initial(w0)
    ensures
      var w := Run(w0, steps);
      forall inv :: inv in w.remote
        && ((w.cp.lastId.Some? && inv.id <= w.cp.lastId.value) || (w.cp.asOf.Some? && inv.createdAt <= w.cp.asOf.value))
        ==> Indexed(w.rows, inv)
  {
    RunKeepsInv(w0, steps);
  }

  /** While the remote list honours the id order no page is ever refused as disordered. */
  lemma OrderedRemoteIsNeverDisordered(w0: World, steps: seq<Step>, f: Fetch)
    requires Initial(w0) && f in Run(w0, steps).fetched
    ensures !Examine(f).Disordered?
  {
    RunKeepsInv(w0, steps);
    OrderedPage(Run(w0, steps), f);
  }

  lemma OrderedPage(w: World, f: Fetch)
    requires FetchOk(w, f)
    ensures !Examine(f).Disordered?
  {
    if !Examine(f).Mismatch? {
      var added := f.page[Overlap(f.st)..];
      assert forall i :: 0 <= i < |added| ==> added[i] == f.page[i + Overlap(f.st)];
      assert forall p :: p in added ==> p in f.page;
      IncreasingIsAscending(Previous(f.st), added);
    }
  }

  lemma {:induction false} RunConcat(w: World, a: seq<Step>, b: seq<Step>)
    ensures Run(w, a + b) == Run(Run(w, a), b)
  {
    if b == [] {
      assert a + b == a;
    } else {
      var init := b[..|b| - 1];
      assert (a + b)[..|a + b| - 1] == a + init;
      RunConcat(w, a, init);
    }
  }
}

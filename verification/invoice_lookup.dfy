/**
 * The duplicate lookup of one order: local candidates, the newest-first scan down to the order's
 * recorded id floor, the index confirmation, and the re-read of what was found.
 */
module InvoiceLookup {
  import opened Prelude
  import opened InvoiceList
  import opened InvoiceIndex
  import opened InvoiceIndexRunner
  import opened InvoiceAbsence

  const FLOOR_SCAN_MAX_PAGES: nat := 5

  function Descending(list: seq<Invoice>): seq<Invoice> {
    seq(|list|, i requires 0 <= i < |list| => list[|list| - 1 - i])
  }

  predicate DecreasingFrom(previous: Option<nat>, added: seq<Invoice>)
    decreases |added|
  {
    added == [] || ((previous.Some? ==> added[0].id < previous.value) && DecreasingFrom(Some(added[0].id), added[1..]))
  }

  /** Highest id held by the index: what a claim records as the order's floor (null over an empty index). */
  ghost predicate IsFloor(rows: Rows, floor: Option<nat>) {
    match floor
    case None => rows == map[]
    case Some(id) => id in rows && forall other :: other in rows ==> other <= id
  }

  /**
   * The floor recorded by a claim lies below every invoice of the order it precedes: an order
   * without invoices at the claim can only get ids allocated later, and the index never holds
   * an id that was not allocated yet.
   */
  lemma FloorIsBelowTheOrdersInvoices(w0: World, floor: nat, steps: seq<Step>, code: string)
    requires Inv(w0) && IsFloor(w0.rows, Some(floor))
    requires forall inv :: inv in w0.remote ==> inv.order != Some(code)
    ensures floor < w0.nextId
    ensures forall inv :: inv in Run(w0, steps).remote && inv.order == Some(code) ==> floor < inv.id
  {
    RunKeepsInv(w0, steps);
  }

  /** The part of the list a newest-first page shows, seen from the id the previous page ended at. */
  lemma DescendingPage(list: seq<Invoice>, offset: nat, r: Invoice)
    requires Ascending(list) && r in list
    ensures
      var page := PageAt(Descending(list), offset, PAGE_SIZE);
      && (page != [] && (offset == 0 || r.id <= page[0].id) && page[|page| - 1].id <= r.id ==> r in page)
      && (offset + |page| >= |list| && (offset == 0 || (page != [] && r.id <= page[0].id)) ==> r in page)
  {
    var desc := Descending(list);
    var page := PageAt(desc, offset, PAGE_SIZE);
    var i :| 0 <= i < |list| && list[i] == r;
    var d := |list| - 1 - i;
    assert desc[d] == r;
    if page != [] {
      assert page[0] == desc[offset] && page[|page| - 1] == desc[offset + |page| - 1];
      if offset <= d < offset + |page| { assert page[d - offset] == r; }
    }
  }

  /** Rows of `page` after the overlap, each strictly below the one before it, hold everything seen down to the last. */
  lemma {:induction false} DecreasingMembers(previous: Option<nat>, added: seq<Invoice>, i: nat, j: nat)
    requires DecreasingFrom(previous, added) && i <= j < |added|
    ensures i < j ==> added[j].id < added[i].id
    ensures previous.Some? ==> added[j].id < previous.value
    decreases |added|
  {
    if j > 0 {
      DecreasingMembers(Some(added[0].id), added[1..], if i == 0 then 0 else i - 1, j - 1);
    }
  }

  /** Existed when `w0` was current and still exists in `w`. */
  ghost predicate Lasting(w0: World, w: World, inv: Invoice) {
    inv in w0.remote && inv in w.remote
  }

  /** Rows of a newest-first page that lie below the row it re-reads. */
  lemma DescendingPageAdds(list: seq<Invoice>, start: nat, rows: nat, page: seq<Invoice>, r: Invoice)
    requires Ascending(list) && r in list && page == PageAt(Descending(list), start, PAGE_SIZE)
    requires if rows == 0 then start == 0 else rows == 1 && page != [] && r.id < page[0].id
    ensures page[rows..] != [] && page[|page| - 1].id <= r.id ==> r in page[rows..]
    ensures start + |page| >= |list| ==> r in page[rows..]
  {
    DescendingPage(list, start, r);
    TailMembers(page, rows);
  }

  function Rows(lastId: Option<nat>): nat { if lastId.Some? then 1 else 0 }

  /** Only the clock and what runners hold may differ. */
  predicate SameIndex(w: World, w': World) {
    w'.remote == w.remote && w'.cp == w.cp && w'.rows == w.rows
  }

  /** GET /invoices, newest first. */
  method FetchDescending(db: IndexDatabase, turn: Turn, offset: nat, ghost w0: World, ghost before: seq<Step>)
    returns (page: seq<Invoice>, total: nat, ghost trace: seq<Step>)
    requires Inv(w0) && db.w == Run(w0, before)
    modifies db
    ensures trace == before + turn.others + [Tick] && db.w == Run(w0, trace)
    ensures page == PageAt(Descending(db.w.remote), offset, PAGE_SIZE) && total == |db.w.remote|
    ensures Ascending(db.w.remote)
    ensures forall inv :: Lasting(w0, db.w, inv) ==> Lasting(w0, old(db.w), inv)
    ensures turn.others == [] ==> SameIndex(old(db.w), db.w)
  {
    AwaitIsRun(db.w, turn.others, Tick);
    RunConcat(w0, before, turn.others + [Tick]);
    trace := before + turn.others + [Tick];
    assert trace == before + (turn.others + [Tick]);
    RunKeepsInv(w0, before);
    RunKeepsInv(db.w, turn.others + [Tick]);
    RunKeepsInv(w0, trace);
    db.w := Run(db.w, turn.others);
    page := PageAt(Descending(db.w.remote), offset, PAGE_SIZE);
    total := |db.w.remote|;
    db.w := Apply(db.w, Tick);
  }

  method IsDecreasing(previous: Option<nat>, added: seq<Invoice>) returns (ok: bool)
    ensures ok == DecreasingFrom(previous, added)
  {
    var last := previous;
    var i := 0;
    while i < |added|
      invariant i <= |added|
      invariant last == if i == 0 then previous else Some(added[i - 1].id)
      invariant DecreasingFrom(previous, added) <==> DecreasingFrom(last, added[i..])
    {
      if last.Some? && added[i].id >= last.value { return false; }
      last := Some(added[i].id);
      assert added[i..][1..] == added[i + 1..];
      i := i + 1;
    }
    ok := true;
  }

  /** Everything that lasted and is not below `lastId` was pushed. */
  ghost predicate SeenDownTo(w0: World, w: World, lastId: Option<nat>, found: seq<Invoice>) {
    forall inv :: Lasting(w0, w, inv) && lastId.Some? && lastId.value <= inv.id ==> inv in found
  }

  /** One page carries the scan further down, to the floor, or to the end of the list. */
  lemma PageIsSeen(w0: World, w: World, offset: nat, lastId: Option<nat>, found: seq<Invoice>, taken: nat, floor: nat)
    requires Ascending(w.remote) && (offset == 0 <==> lastId.None?) && SeenDownTo(w0, w, lastId, found)
    requires var page := PageAt(Descending(w.remote), offset - Rows(lastId), PAGE_SIZE);
             && (lastId.Some? ==> page != [] && page[0].id == lastId.value)
             && DecreasingFrom(lastId, page[Rows(lastId)..]) && taken <= |page| - Rows(lastId)
             && (taken < |page| - Rows(lastId) ==> page[Rows(lastId) + taken].id <= floor)
    ensures
      var added := PageAt(Descending(w.remote), offset - Rows(lastId), PAGE_SIZE)[Rows(lastId)..];
      && (taken == |added| > 0 ==> SeenDownTo(w0, w, Some(added[taken - 1].id), found + added))
      && (taken < |added| || offset + |added| >= |w.remote| ==>
            forall inv :: Lasting(w0, w, inv) && floor < inv.id ==> inv in found + added[..taken])
  {
    var page := PageAt(Descending(w.remote), offset - Rows(lastId), PAGE_SIZE);
    var added := page[Rows(lastId)..];
    assert added[..|added|] == added;
    forall inv | Lasting(w0, w, inv) && inv !in found
      ensures taken == |added| > 0 && added[taken - 1].id <= inv.id ==> inv in added
      ensures (taken < |added| || offset + |added| >= |w.remote|) && floor < inv.id ==> inv in added[..taken]
    {
      DescendingPageAdds(w.remote, offset - Rows(lastId), Rows(lastId), page, inv);
      if taken < |added| && floor < inv.id {
        DecreasingMembers(lastId, added, taken, |added| - 1);
        AboveFloorIsTaken(lastId, added, taken, floor, inv);
      }
    }
  }

  // ---------- A scan of a list that stays still ----------

  /** Rows that so many newest-first pages show, each page after the first re-reading one row. */
  function RowsShown(pages: nat): nat { if pages == 0 then 0 else 99 * pages + 1 }

  const SCAN_REACH: nat := RowsShown(FLOOR_SCAN_MAX_PAGES)

  /** The newest `rows` invoices are all there are, or go down to the floor. */
  predicate ScanReaches(remote: seq<Invoice>, floor: nat, rows: nat) {
    |remote| <= rows || (rows > 0 && remote[|remote| - rows].id <= floor)
  }

  /** The scan stands above the floor, right below the newest `offset` invoices. */
  predicate Standing(remote: seq<Invoice>, floor: nat, offset: nat, lastId: Option<nat>) {
    && offset <= |remote| && (offset == 0 <==> lastId.None?)
    && (offset > 0 ==> lastId == Some(remote[|remote| - offset].id) && floor < remote[|remote| - offset].id)
  }

  /** The scan stands above the floor and there is more below it. */
  predicate Above(remote: seq<Invoice>, floor: nat, offset: nat, lastId: Option<nat>) {
    Standing(remote, floor, offset, lastId) && !ScanReaches(remote, floor, offset)
  }

  lemma {:induction false} NewestFirstDecreases(previous: Option<nat>, added: seq<Invoice>)
    requires forall i, j :: 0 <= i < j < |added| ==> added[j].id < added[i].id
    requires previous.Some? ==> forall i :: 0 <= i < |added| ==> added[i].id < previous.value
    ensures DecreasingFrom(previous, added)
    decreases |added|
  {
    if added != [] {
      assert forall i :: 0 <= i < |added[1..]| ==> added[1..][i] == added[i + 1];
      NewestFirstDecreases(Some(added[0].id), added[1..]);
    }
  }

  lemma NewestRows(remote: seq<Invoice>, offset: nat)
    requires offset <= |remote|
    ensures var page := PageAt(Descending(remote), offset, PAGE_SIZE);
            && |page| == Min(PAGE_SIZE, |remote| - offset)
            && forall i :: 0 <= i < |page| ==> page[i] == remote[|remote| - 1 - offset - i]
  {}

  /** On a still list a page re-reads the row the scan stands on and goes on right below it. */
  lemma StillPage(remote: seq<Invoice>, floor: nat, offset: nat, lastId: Option<nat>, page: seq<Invoice>)
    requires Ascending(remote) && Standing(remote, floor, offset, lastId)
    requires page == PageAt(Descending(remote), offset - Rows(lastId), PAGE_SIZE)
    ensures lastId.Some? ==> page != [] && page[0].id == lastId.value
    ensures |page| - Rows(lastId) == Min(PAGE_SIZE - Rows(lastId), |remote| - offset)
    ensures forall i :: 0 <= i < |page| - Rows(lastId) ==> page[Rows(lastId)..][i] == remote[|remote| - 1 - offset - i]
    ensures DecreasingFrom(lastId, page[Rows(lastId)..])
  {
    NewestRows(remote, offset - Rows(lastId));
    StillTail(remote, floor, offset, lastId, page[Rows(lastId)..]);
  }

  lemma StillPageIsAccepted(remote: seq<Invoice>, floor: nat, offset: nat, lastId: Option<nat>, page: seq<Invoice>)
    requires Ascending(remote) && Standing(remote, floor, offset, lastId)
    requires page == PageAt(Descending(remote), offset - Rows(lastId), PAGE_SIZE)
    ensures lastId.Some? ==> page != [] && page[0].id == lastId.value
    ensures DecreasingFrom(lastId, page[Rows(lastId)..])
  {
    StillPage(remote, floor, offset, lastId, page);
  }

  lemma StillTail(remote: seq<Invoice>, floor: nat, offset: nat, lastId: Option<nat>, added: seq<Invoice>)
    requires Ascending(remote) && Standing(remote, floor, offset, lastId) && |added| <= |remote| - offset
    requires forall i :: 0 <= i < |added| ==> added[i] == remote[|remote| - 1 - offset - i]
    ensures DecreasingFrom(lastId, added)
  {
    NewestFirstDecreases(lastId, added);
  }

  lemma ReachGrows(remote: seq<Invoice>, floor: nat, rows: nat, more: nat)
    requires Ascending(remote) && rows <= more && ScanReaches(remote, floor, rows)
    ensures ScanReaches(remote, floor, more)
  {}

  /** What a page of a still list makes of the scan. */
  lemma StillStep(remote: seq<Invoice>, floor: nat, offset: nat, lastId: Option<nat>, added: seq<Invoice>, taken: nat)
    requires Ascending(remote) && Standing(remote, floor, offset, lastId) && NextBelow(remote, offset, lastId, added)
    requires Cut(added, floor, taken)
    ensures var reach := offset + PAGE_SIZE - Rows(lastId);
            if taken < |added| || offset + |added| >= |remote| then ScanReaches(remote, floor, reach)
            else taken > 0 && offset + |added| == reach && Above(remote, floor, reach, Some(added[taken - 1].id))
  {
    if taken < |added| {
      assert added[taken] == remote[|remote| - 1 - offset - taken];
    } else if offset + |added| < |remote| {
      assert added[taken - 1] == remote[|remote| - offset - |added|];
    }
  }

  datatype ScanStep = Stopped | Finished | Continues

  /** What a page adds below the row it re-reads, when that row is still there and the ids descend. */
  method NextRows(db: IndexDatabase, turn: Turn, offset: nat, lastId: Option<nat>, ghost floor: nat, ghost w0: World,
      ghost before: seq<Step>)
    returns (rows: Option<seq<Invoice>>, total: nat, ghost trace: seq<Step>)
    requires Inv(w0) && db.w == Run(w0, before) && (offset == 0 <==> lastId.None?)
    modifies db
    ensures db.w == Run(w0, trace) && Ascending(db.w.remote) && total == |db.w.remote|
    ensures forall inv :: Lasting(w0, db.w, inv) ==> Lasting(w0, old(db.w), inv)
    ensures rows.Some? ==> OnPage(db.w.remote, Scan(offset, lastId, []), rows.value)
    ensures turn.others == [] ==> SameIndex(old(db.w), db.w)
    ensures turn.others == [] && Standing(old(db.w).remote, floor, offset, lastId) ==>
              rows.Some?
  {
    rows := None;
    var page;
    page, total, trace := FetchDescending(db, turn, offset - Rows(lastId), w0, before);
    if Standing(db.w.remote, floor, offset, lastId) { StillPageIsAccepted(db.w.remote, floor, offset, lastId, page); }
    if lastId.Some? && (page == [] || page[0].id != lastId.value) { return; }
    var added := page[Rows(lastId)..];
    var ordered := IsDecreasing(lastId, added);
    if ordered { rows := Some(added); }
  }

  /** What the scan holds between two pages. */
  datatype Scan = Scan(offset: nat, lastId: Option<nat>, found: seq<Invoice>)

  /** The rows a page adds, of which the first `taken` lie above the floor. */
  predicate Cut(added: seq<Invoice>, floor: nat, taken: nat) {
    taken <= |added| && (taken < |added| ==> added[taken].id <= floor) && forall i :: 0 <= i < taken ==> floor < added[i].id
  }

  /** What the rows of a page of a list of `total` invoices make of the scan. */
  predicate Judged(added: seq<Invoice>, floor: nat, taken: nat, total: nat, s: Scan, step: ScanStep, next: Scan) {
    && Cut(added, floor, taken) && next.found == s.found + added[..taken]
    && (step.Finished? <==> taken < |added| || s.offset + |added| >= total)
    && (step.Continues? <==> !step.Finished? && added != [])
    && (step.Continues? ==> taken == |added| && next.offset == s.offset + |added| && next.lastId == Some(added[taken - 1].id))
  }

  method Judge(floor: nat, added: seq<Invoice>, total: nat, s: Scan)
    returns (step: ScanStep, next: Scan, ghost taken: nat)
    ensures Judged(added, floor, taken, total, s, step, next)
  {
    var cut, found, lastId := TakeAboveFloor(floor, added, s.lastId, s.found);
    taken := cut;
    if cut < |added| { return Finished, Scan(s.offset, lastId, found), cut; }
    var offset := s.offset + |added|;
    next := Scan(offset, lastId, found);
    step := if offset >= total then Finished else if added == [] then Stopped else Continues;
  }

  predicate OnPage(remote: seq<Invoice>, s: Scan, added: seq<Invoice>) {
    && (s.offset == 0 <==> s.lastId.None?)
    && var page := PageAt(Descending(remote), s.offset - Rows(s.lastId), PAGE_SIZE);
    && (s.lastId.Some? ==> page != [] && page[0].id == s.lastId.value)
    && added == page[Rows(s.lastId)..] && DecreasingFrom(s.lastId, added)
  }

  /** Everything that lasted and is above the floor was found, or everything down to the last row. */
  ghost predicate Scanned(w0: World, w: World, floor: nat, step: ScanStep, s: Scan) {
    && (forall inv :: inv in s.found ==> floor < inv.id)
    && (step.Finished? ==> forall inv :: Lasting(w0, w, inv) && floor < inv.id ==> inv in s.found)
    && (step.Continues? ==> (s.offset == 0 <==> s.lastId.None?) && SeenDownTo(w0, w, s.lastId, s.found))
  }

  lemma PageIsScanned(w0: World, w: World, floor: nat, added: seq<Invoice>, taken: nat, s: Scan, step: ScanStep, next: Scan)
    requires Ascending(w.remote) && OnPage(w.remote, s, added) && SeenDownTo(w0, w, s.lastId, s.found)
    requires Judged(added, floor, taken, |w.remote|, s, step, next) && forall inv :: inv in s.found ==> floor < inv.id
    ensures Scanned(w0, w, floor, step, next)
  {
    PageIsSeen(w0, w, s.offset, s.lastId, s.found, taken, floor);
    assert added[..|added|] == added;
    FoundAbove(s.found, added, taken, floor);
  }

  lemma FoundAbove(found: seq<Invoice>, added: seq<Invoice>, taken: nat, floor: nat)
    requires Cut(added, floor, taken) && forall inv :: inv in found ==> floor < inv.id
    ensures forall inv :: inv in found + added[..taken] ==> floor < inv.id
  {}

  /** The outcome of a page of a still list. */
  predicate Carried(remote: seq<Invoice>, floor: nat, s: Scan, step: ScanStep, next: Scan) {
    && !step.Stopped?
    && var reach := s.offset + PAGE_SIZE - Rows(s.lastId);
    && (step.Finished? && reach <= SCAN_REACH ==> ScanReaches(remote, floor, SCAN_REACH))
    && (step.Continues? ==> next.offset == reach && Above(remote, floor, reach, next.lastId))
  }

  /** The rows right below the ones the scan has seen. */
  predicate NextBelow(remote: seq<Invoice>, offset: nat, lastId: Option<nat>, added: seq<Invoice>) {
    && offset <= |remote| && |added| == Min(PAGE_SIZE - Rows(lastId), |remote| - offset)
    && forall i :: 0 <= i < |added| ==> added[i] == remote[|remote| - 1 - offset - i]
  }

  lemma StillRows(remote: seq<Invoice>, floor: nat, s: Scan, added: seq<Invoice>)
    requires Ascending(remote) && OnPage(remote, s, added) && Standing(remote, floor, s.offset, s.lastId)
    ensures NextBelow(remote, s.offset, s.lastId, added)
  {
    StillPage(remote, floor, s.offset, s.lastId, PageAt(Descending(remote), s.offset - Rows(s.lastId), PAGE_SIZE));
  }

  lemma StillRowsCarry(remote: seq<Invoice>, floor: nat, added: seq<Invoice>, taken: nat, s: Scan, step: ScanStep, next: Scan)
    requires Ascending(remote) && NextBelow(remote, s.offset, s.lastId, added) && Standing(remote, floor, s.offset, s.lastId)
    requires Judged(added, floor, taken, |remote|, s, step, next)
    ensures Carried(remote, floor, s, step, next)
  {
    StillStep(remote, floor, s.offset, s.lastId, added, taken);
    var reach := s.offset + PAGE_SIZE - Rows(s.lastId);
    if ScanReaches(remote, floor, reach) && reach <= SCAN_REACH { ReachGrows(remote, floor, reach, SCAN_REACH); }
  }

  lemma StillPageCarries(remote: seq<Invoice>, floor: nat, added: seq<Invoice>, taken: nat, s: Scan, step: ScanStep, next: Scan)
    requires Ascending(remote) && OnPage(remote, s, added) && Standing(remote, floor, s.offset, s.lastId)
    requires Judged(added, floor, taken, |remote|, s, step, next)
    ensures Carried(remote, floor, s, step, next)
  {
    StillRows(remote, floor, s, added);
    StillRowsCarry(remote, floor, added, taken, s, step, next);
  }

  lemma PageOutcome(w0: World, w: World, floor: nat, added: seq<Invoice>, taken: nat, s: Scan, step: ScanStep, next: Scan)
    requires Ascending(w.remote) && OnPage(w.remote, s, added) && SeenDownTo(w0, w, s.lastId, s.found)
    requires Judged(added, floor, taken, |w.remote|, s, step, next) && forall inv :: inv in s.found ==> floor < inv.id
    ensures Scanned(w0, w, floor, step, next)
    ensures Standing(w.remote, floor, s.offset, s.lastId) ==> Carried(w.remote, floor, s, step, next)
  {
    PageIsScanned(w0, w, floor, added, taken, s, step, next);
    if Standing(w.remote, floor, s.offset, s.lastId) {
      StillPageCarries(w.remote, floor, added, taken, s, step, next);
    }
  }

  /** Where the scan of a still list stands after so many pages. */
  predicate Progressed(remote: seq<Invoice>, floor: nat, pages: nat, s: Scan) {
    s.offset == RowsShown(pages) && if pages == 0 then s.lastId.None? else Above(remote, floor, s.offset, s.lastId)
  }

  lemma PageProgresses(remote: seq<Invoice>, floor: nat, pages: nat, s: Scan, step: ScanStep, next: Scan)
    requires pages < FLOOR_SCAN_MAX_PAGES && Progressed(remote, floor, pages, s) && Carried(remote, floor, s, step, next)
    ensures step.Finished? ==> ScanReaches(remote, floor, SCAN_REACH)
    ensures step.Continues? ==> Progressed(remote, floor, pages + 1, next)
  {}

  /** One page of the scan: refused, the last one needed, or a step further down. */
  method ScanPage(db: IndexDatabase, floor: nat, turn: Turn, s: Scan, ghost w0: World, ghost before: seq<Step>)
    returns (step: ScanStep, next: Scan, ghost trace: seq<Step>)
    requires Inv(w0) && db.w == Run(w0, before) && (s.offset == 0 <==> s.lastId.None?)
    requires SeenDownTo(w0, db.w, s.lastId, s.found) && forall inv :: inv in s.found ==> floor < inv.id
    modifies db
    ensures db.w == Run(w0, trace)
    ensures Scanned(w0, db.w, floor, step, next)
    ensures turn.others == [] ==> SameIndex(old(db.w), db.w)
    ensures turn.others == [] && Standing(old(db.w).remote, floor, s.offset, s.lastId) ==>
              Carried(old(db.w).remote, floor, s, step, next)
  {
    var rows, total;
    rows, total, trace := NextRows(db, turn, s.offset, s.lastId, floor, w0, before);
    if rows.None? { return Stopped, s, trace; }
    ghost var taken;
    step, next, taken := Judge(floor, rows.value, total, s);
    PageOutcome(w0, db.w, floor, rows.value, taken, s, step, next);
  }

  /**
   * scanInvoicesAboveFloor. Whatever is created or deleted between its pages, a complete scan
   * returns every invoice above the floor that existed when it began and still exists.
   */
  method ScanAboveFloor(db: IndexDatabase, floor: nat, turns: nat -> Turn, k0: nat, ghost w0: World,
      ghost before: seq<Step>)
    returns (complete: bool, found: seq<Invoice>, k: nat, ghost trace: seq<Step>)
    requires Inv(w0) && db.w == Run(w0, before)
    modifies db
    ensures db.w == Run(w0, trace)
    ensures forall inv :: inv in found ==> floor < inv.id
    ensures complete ==> forall inv :: Lasting(w0, db.w, inv) && floor < inv.id ==> inv in found
    // On a still list the scan is complete exactly when its five pages reach the floor or the end.
    ensures Quiet(turns) ==> SameIndex(old(db.w), db.w) && (complete <==> ScanReaches(db.w.remote, floor, 496))
  {
    complete, found, k, trace := false, [], k0, before;
    ghost var remote := db.w.remote;
    var scan := Scan(0, None, []);
    var pages := 0;
    while pages < FLOOR_SCAN_MAX_PAGES
      invariant pages <= FLOOR_SCAN_MAX_PAGES && db.w == Run(w0, trace) && scan.found == found
      invariant scan.offset == 0 <==> scan.lastId.None?
      invariant forall inv :: inv in found ==> floor < inv.id
      invariant SeenDownTo(w0, db.w, scan.lastId, found)
      invariant Quiet(turns) ==> SameIndex(old(db.w), db.w)
      invariant Quiet(turns) ==> Progressed(remote, floor, pages, scan)
    {
      if turns(k).fails { return; }
      var step;
      ghost var s := scan;
      step, scan, trace := ScanPage(db, floor, turns(k), scan, w0, trace);
      if Quiet(turns) { PageProgresses(remote, floor, pages, s, step, scan); }
      found := scan.found;
      k := k + 1;
      pages := pages + 1;
      match step {
        case Stopped => return;
        case Finished => return true, found, k, trace;
        case Continues =>
      }
    }
  }

  lemma AboveFloorIsTaken(previous: Option<nat>, added: seq<Invoice>, taken: nat, floor: nat, inv: Invoice)
    requires DecreasingFrom(previous, added) && taken < |added| && added[taken].id <= floor < inv.id && inv in added
    ensures inv in added[..taken]
  {
    var i :| 0 <= i < |added| && added[i] == inv;
    if i >= taken { DecreasingMembers(previous, added, taken, i); }
    assert added[..taken][i] == inv;
  }

  /** Pushes rows until one at or below the floor appears. */
  method TakeAboveFloor(floor: nat, added: seq<Invoice>, last: Option<nat>, found: seq<Invoice>)
    returns (taken: nat, found': seq<Invoice>, last': Option<nat>)
    ensures taken <= |added| && found' == found + added[..taken]
    ensures taken < |added| ==> added[taken].id <= floor
    ensures forall i :: 0 <= i < taken ==> floor < added[i].id
    ensures last' == if taken == 0 then last else Some(added[taken - 1].id)
  {
    taken, found', last' := 0, found, last;
    while taken < |added|
      invariant taken <= |added| && found' == found + added[..taken]
      invariant forall i :: 0 <= i < taken ==> floor < added[i].id
      invariant last' == if taken == 0 then last else Some(added[taken - 1].id)
    {
      if added[taken].id <= floor { return; }
      found' := found' + [added[taken]];
      last' := Some(added[taken].id);
      taken := taken + 1;
    }
  }

  /** Every invoice of the order that lasted is among the candidates. */
  ghost predicate AllFound(w0: World, w: World, code: string, candidates: set<nat>) {
    forall inv :: Lasting(w0, w, inv) && inv.order == Some(code) ==> inv.id in candidates
  }

  lemma LastingShrinks(w0: World, before: seq<Step>, others: seq<Step>, inv: Invoice)
    requires Inv(w0) && Lasting(w0, Run(Run(w0, before), others), inv)
    ensures Lasting(w0, Run(w0, before), inv)
  {
    RunKeepsInv(w0, before);
    RunKeepsInv(Run(w0, before), others);
  }

  /** The counters of the checkpoint row never fall, so agreement at both ends is agreement throughout. */
  lemma UndisturbedThroughout(w0: World, before: seq<Step>, others: seq<Step>)
    requires Undisturbed(w0.cp, Run(Run(w0, before), others).cp)
    ensures Undisturbed(w0.cp, Run(w0, before).cp)
  {
    RunSinceSnapshot(w0, before);
    RunSinceSnapshot(Run(w0, before), others);
  }

  /** A refresh that confirmed the index, seen from the lookup's snapshot. */
  lemma RefreshProvesAbsence(w0: World, before: seq<Step>, trace: seq<Step>, p: Progress, code: string)
    requires Inv(w0) && EndsConfirmed(Run(w0, before), Run(w0, before), trace, p)
    ensures var w := Run(Run(w0, before), trace);
            p.scanned > w0.cp.scanned || Undisturbed(w0.cp, w.cp) ==> AllFound(w0, w, code, FinalCandidates(w0, p.scanned, w, code))
  {
    var all := before + trace;
    var init := all[..|all| - 1];
    var f := trace[|trace| - 1].f;
    RunConcat(w0, before, trace);
    assert init == before + trace[..|trace| - 1];
    RunConcat(w0, before, trace[..|trace| - 1]);
    RunKeepsInv(w0, before);
    if p.scanned > w0.cp.scanned || Undisturbed(w0.cp, Run(w0, all).cp) {
      AbsenceIsProven(w0, init, f, [], code);
    }
  }

  lemma ReadAgain(w0: World, before: seq<Step>, others: seq<Step>, code: string)
    requires Inv(w0)
    requires var w1 := Run(w0, before);
             AllFound(w0, w1, code, CandidatesOf(w0.rows, code) + CandidatesOf(w1.rows, code))
    ensures var w2 := Run(Run(w0, before), others);
            AllFound(w0, w2, code, CandidatesOf(w0.rows, code) + CandidatesOf(w2.rows, code))
  {
    var w1 := Run(w0, before);
    var w2 := Run(w1, others);
    RunKeepsInv(w0, before);
    RunKeepsInv(w1, others);
    forall inv | Lasting(w0, w2, inv) && inv.order == Some(code)
      ensures inv.id in CandidatesOf(w0.rows, code) + CandidatesOf(w2.rows, code)
    {
      LastingShrinks(w0, before, others, inv);
      if inv.id !in CandidatesOf(w0.rows, code) { assert Indexed(w1.rows, inv) && Indexed(w2.rows, inv); }
    }
  }

  /** A confirmation already stored when the snapshot was taken. */
  lemma StoredConfirmation(w0: World, lookupStart: nat, w: World, code: string)
    requires Inv(w0) && w0.cp.asOf.Some? && lookupStart <= w0.cp.asOf.value
    requires forall inv :: inv in w0.remote ==> inv.createdAt <= lookupStart
    ensures AllFound(w0, w, code, CandidatesOf(w0.rows, code))
  {
    assert SnapshotOk(w0, w0.cp);
    forall inv | Lasting(w0, w, inv) && inv.order == Some(code) ensures inv.id in CandidatesOf(w0.rows, code) {
      assert Indexed(w0.rows, inv);
    }
  }

  /** The index can be confirmed within the page budget, were the list to stay as it is. */
  ghost predicate IndexReady(w: World, maxPages: nat) {
    |w.remote| < Pow2(REPOSITION_MAX_REQUESTS) && PagesToConfirm(w.remote, w.cp) <= maxPages
  }

  lemma OrderedThroughout(w0: World, before: seq<Step>)
    requires Inv(w0)
    ensures var w := Run(w0, before); Ordered(w.remote) && (w.cp.lastId.None? <==> w.cp.scanned == 0)
  {
    RunKeepsInv(w0, before);
  }

  /** A confirmation reports the count it left in the checkpoint. */
  lemma ConfirmedCount(w: World, trace: seq<Step>, p: Progress)
    requires EndsConfirmed(w, w, trace, p)
    ensures Run(w, trace).cp.scanned == p.scanned
  {}

  /** A refresh of the index, which counts only when its request started at or after the lookup did. */
  method Refresh(db: IndexDatabase, code: string, st: Checkpoint, lookupStart: nat, maxPages: nat, turns: nat -> Turn,
      k0: nat, ghost w0: World, ghost before: seq<Step>)
    returns (complete: bool, appended: bool, k: nat, ghost trace: seq<Step>)
    requires Inv(w0) && db.w == Run(w0, before) && st == w0.cp && lookupStart < w0.now
    modifies db
    ensures db.w == Run(w0, trace) && (appended ==> complete)
    ensures complete && (appended || Undisturbed(st, db.w.cp)) ==>
              AllFound(w0, db.w, code,
                       CandidatesOf(w0.rows, code) + (if appended then CandidatesOf(db.w.rows, code) else {}))
    ensures Quiet(turns) ==> db.w.remote == old(db.w).remote
    ensures Quiet(turns) && IndexReady(old(db.w), maxPages) ==> complete && (appended <==> |db.w.remote| > st.scanned)
  {
    OrderedThroughout(w0, before);
    var p;
    ghost var more;
    p, k, more := db.Advance(maxPages, turns, k0);
    RunConcat(w0, before, more);
    trace := before + more;
    complete := p.current && p.currentAsOf.Some? && p.currentAsOf.value >= lookupStart;
    appended := complete && p.scanned > st.scanned;
    if p.current {
      ConfirmedCount(old(db.w), more, p);
      RefreshProvesAbsence(w0, before, more, p, code);
      RunKeeps(w0, before);
    }
  }

  /** The candidates are read again after a refresh that appended rows. */
  method SecondRead(db: IndexDatabase, code: string, turns: nat -> Turn, k0: nat, ghost w0: World, ghost before: seq<Step>)
    returns (extra: set<nat>, k: nat, ghost trace: seq<Step>)
    requires Inv(w0) && db.w == Run(w0, before)
    requires AllFound(w0, db.w, code, CandidatesOf(w0.rows, code) + CandidatesOf(db.w.rows, code))
    modifies db
    ensures db.w == Run(w0, trace) && AllFound(w0, db.w, code, CandidatesOf(w0.rows, code) + extra)
    ensures Quiet(turns) ==> db.w == old(db.w)
  {
    k := k0;
    ReadAgain(w0, before, turns(k).others, code);
    RunConcat(w0, before, turns(k).others);
    trace := before + turns(k).others;
    db.w := Run(db.w, turns(k).others);
    extra := CandidatesOf(db.w.rows, code);
    k := k + 1;
  }

  /**
   * ensureIndexFresh and the conditional second read. The confirmation counts only when its
   * request started at or after the lookup did.
   */
  method IndexPath(db: IndexDatabase, code: string, st: Checkpoint, lookupStart: nat, maxPages: nat, turns: nat -> Turn,
      k0: nat, ghost w0: World, ghost before: seq<Step>)
    returns (complete: bool, appended: bool, extra: set<nat>, k: nat, ghost trace: seq<Step>)
    requires Inv(w0) && db.w == Run(w0, before) && st == w0.cp && lookupStart < w0.now
    modifies db
    ensures db.w == Run(w0, trace)
    ensures complete && (appended || Undisturbed(st, db.w.cp))
            && (forall inv :: inv in w0.remote ==> inv.createdAt <= lookupStart) ==>
              AllFound(w0, db.w, code, CandidatesOf(w0.rows, code) + extra)
    ensures Quiet(turns) ==> db.w.remote == old(db.w).remote
    ensures Quiet(turns) && old(db.w).cp == st && IndexReady(old(db.w), maxPages) ==>
              complete && (appended || extra == {})
              && (st.asOf.None? || st.asOf.value < lookupStart ==> (appended <==> |db.w.remote| > st.scanned))
  {
    complete, appended, extra, k, trace := false, false, {}, k0, before;
    if st.asOf.Some? && st.asOf.value >= lookupStart && st.total.Some? && st.scanned >= st.total.value {
      if forall inv :: inv in w0.remote ==> inv.createdAt <= lookupStart { StoredConfirmation(w0, lookupStart, db.w, code); }
      return true, false, {}, k, trace;
    }
    complete, appended, k, trace := Refresh(db, code, st, lookupStart, maxPages, turns, k, w0, trace);
    if appended { extra, k, trace := SecondRead(db, code, turns, k, w0, trace); }
  }

  function ById(list: seq<Invoice>, id: nat): (r: Option<Invoice>)
    ensures r.Some? ==> r.value in list && r.value.id == id
    ensures r.None? ==> forall inv :: inv in list ==> inv.id != id
  {
    if list == [] then None else if list[0].id == id then Some(list[0]) else ById(list[1..], id)
  }

  lemma DetailIsExact(w0: World, before: seq<Step>, others: seq<Step>, id: nat)
    requires Inv(w0)
    ensures
      var w := Run(Run(w0, before), others);
      && (forall inv :: Lasting(w0, w, inv) ==>
          Lasting(w0, Run(w0, before), inv) && (inv.id == id ==> ById(w.remote, id) == Some(inv)))
      && (Undisturbed(w0.cp, w.cp) ==> Undisturbed(w0.cp, Run(w0, before).cp))
      && (forall inv :: inv in w.remote && inv.id == id ==> ById(w.remote, id) == Some(inv))
  {
    var w := Run(Run(w0, before), others);
    RunKeepsInv(w0, before);
    RunKeepsInv(Run(w0, before), others);
    forall inv | inv in w.remote && inv.id == id ensures ById(w.remote, id) == Some(inv) {
      SameIdSameInvoice(w.remote, inv, ById(w.remote, id).value);
    }
    if Undisturbed(w0.cp, w.cp) { UndisturbedThroughout(w0, before, others); }
  }

  /** One GET /invoices/{id}; an invoice that is gone is also forgotten by the index. */
  method ReadDetail(db: IndexDatabase, id: nat, turn: Turn, ghost w0: World, ghost before: seq<Step>)
    returns (detail: Option<Invoice>, ghost trace: seq<Step>)
    requires Inv(w0) && db.w == Run(w0, before)
    modifies db
    ensures db.w == Run(w0, trace)
    ensures forall inv :: Lasting(w0, db.w, inv) ==>
              Lasting(w0, old(db.w), inv) && (inv.id == id ==> detail == Some(inv))
    ensures Undisturbed(w0.cp, db.w.cp) ==> Undisturbed(w0.cp, old(db.w).cp)
    ensures turn.others == [] ==> db.w.remote == old(db.w).remote && detail == ById(db.w.remote, id)
    ensures forall inv :: inv in db.w.remote && inv.id == id ==> detail == Some(inv)
  {
    DetailIsExact(w0, before, turn.others, id);
    AwaitIsRun(db.w, turn.others, Forget(id));
    RunConcat(w0, before, turn.others);
    RunConcat(w0, before, turn.others + [Forget(id)]);
    db.w := Run(db.w, turn.others);
    trace := before + turn.others;
    detail := ById(db.w.remote, id);
    if detail.None? {
      db.w := Apply(db.w, Forget(id));
      trace := before + (turn.others + [Forget(id)]);
    }
  }

  /** The existing invoices of an order. */
  ghost function InvoicesOf(remote: seq<Invoice>, code: string): set<Invoice> {
    set inv | inv in remote && inv.order == Some(code)
  }

  /** currentInvoices: only invoices that still exist and carry the order's code count. */
  method CurrentInvoices(db: IndexDatabase, candidates: set<nat>, code: string, turns: nat -> Turn, k0: nat,
      ghost w0: World, ghost before: seq<Step>)
    returns (invoices: Option<set<Invoice>>, k: nat, ghost trace: seq<Step>)
    requires Inv(w0) && db.w == Run(w0, before)
    modifies db
    ensures db.w == Run(w0, trace)
    ensures invoices.Some? ==> forall inv :: inv in invoices.value ==> inv.order == Some(code) && inv.id in candidates
    ensures invoices.Some? && AllFound(w0, old(db.w), code, candidates) ==>
              forall inv :: Lasting(w0, db.w, inv) && inv.order == Some(code) ==> inv in invoices.value
    ensures Undisturbed(w0.cp, db.w.cp) ==> Undisturbed(w0.cp, old(db.w).cp)
    ensures Quiet(turns) ==> db.w.remote == old(db.w).remote && invoices.Some?
    ensures Quiet(turns) ==> forall inv :: inv in invoices.value ==> inv in db.w.remote
    ensures Quiet(turns) ==> forall inv :: inv in InvoicesOf(db.w.remote, code) && inv.id in candidates ==> inv in invoices.value
  {
    k, trace := k0, before;
    var current: set<Invoice>, todo := {}, candidates;
    while todo != {}
      invariant db.w == Run(w0, trace) && todo <= candidates
      invariant Undisturbed(w0.cp, db.w.cp) ==> Undisturbed(w0.cp, old(db.w).cp)
      invariant forall inv :: Lasting(w0, db.w, inv) ==> Lasting(w0, old(db.w), inv)
      invariant Quiet(turns) ==> db.w.remote == old(db.w).remote && forall inv :: inv in current ==> inv in db.w.remote
      invariant Quiet(turns) ==>
                  forall inv :: inv in InvoicesOf(db.w.remote, code) && inv.id in candidates && inv.id !in todo ==> inv in current
      invariant forall inv :: inv in current ==> inv.order == Some(code) && inv.id in candidates
      invariant forall inv :: Lasting(w0, db.w, inv) && inv.order == Some(code) && inv.id in candidates && inv.id !in todo ==> inv in current
      decreases todo
    {
      var id :| id in todo;
      todo := todo - {id};
      if turns(k).fails { return None, k, trace; }
      var detail;
      detail, trace := ReadDetail(db, id, turns(k), w0, trace);
      k := k + 1;
      if detail.Some? && detail.value.order == Some(code) && detail.value.id == id { current := current + {detail.value}; }
    }
    invoices := Some(current);
  }

  datatype LookupResult = LookupResult(invoices: set<Invoice>, complete: bool, byFloor: bool, appended: bool,
      snapshot: Checkpoint)

  /** Every invoice of the order, now and later, has an id above the floor. */
  ghost predicate FloorBelow(w: World, floor: Option<nat>, code: string) {
    floor.Some? ==> floor.value < w.nextId && forall inv :: inv in w.remote && inv.order == Some(code) ==> floor.value < inv.id
  }

  lemma FloorStaysBelow(w: World, steps: seq<Step>, floor: Option<nat>, code: string)
    requires Inv(w) && FloorBelow(w, floor, code)
    ensures FloorBelow(Run(w, steps), floor, code)
  {
    RunKeepsInv(w, steps);
  }

  /** localLookupSnapshot: the database clock, the checkpoint and the indexed candidates, in one statement. */
  method TakeSnapshot(db: IndexDatabase, code: string, floor: Option<nat>, turn: Turn)
    returns (lookupStart: nat, st: Checkpoint, candidates: set<nat>)
    requires Inv(db.w) && FloorBelow(db.w, floor, code)
    modifies db
    ensures Inv(db.w) && FloorBelow(db.w, floor, code) && Later(old(db.w), db.w)
    ensures st == db.w.cp && candidates == CandidatesOf(db.w.rows, code) && lookupStart < db.w.now
    ensures forall inv :: inv in db.w.remote ==> inv.createdAt <= lookupStart
    ensures turn.others == [] ==> SameIndex(old(db.w), db.w) && (st.asOf.Some? ==> st.asOf.value < lookupStart)
  {
    AwaitIsRun(db.w, turn.others, Read);
    RunKeepsInv(db.w, turn.others + [Read]);
    FloorStaysBelow(db.w, turn.others + [Read], floor, code);
    db.w := Run(db.w, turn.others);
    lookupStart, st, candidates := db.w.now, db.w.cp, CandidatesOf(db.w.rows, code);
    db.w := Apply(db.w, Read);
  }

  /** The scan reaches the recorded floor, or the end of the list, within its pages. */
  predicate FloorReady(remote: seq<Invoice>, floor: Option<nat>) {
    floor.Some? && ScanReaches(remote, floor.value, 496)
  }

  /** The index lags so little that the lookup asks it first. */
  predicate IndexFirst(cp: Checkpoint) { cp.total.Some? && cp.total.value - cp.scanned <= 500 }

  /** Whatever the two paths find, invoices with a row, a recorded id or, when incomplete, a hint are returned. */
  ghost predicate OfferedAreReturned(
      mine: set<Invoice>, rows: map<nat, Option<string>>, recorded: set<nat>, hint: set<nat>, r: LookupResult)
  {
    forall inv :: inv in mine && (inv.id in rows || inv.id in recorded || (!r.complete && inv.id in hint)) ==> inv in r.invoices
  }

  /** More invoices than were counted, or a row or a recorded id for each of the order's. */
  ghost predicate SeesAll(w: World, code: string, recorded: set<nat>) {
    |w.remote| > w.cp.scanned || forall inv :: inv in InvoicesOf(w.remote, code) ==> inv.id in w.rows || inv.id in recorded
  }

  /** One way of establishing completeness, and the candidates it brings. */
  method CompletenessPath(db: IndexDatabase, viaIndex: bool, code: string, floor: Option<nat>, st: Checkpoint,
      lookupStart: nat, maxPages: nat, turns: nat -> Turn, k0: nat, ghost w0: World, ghost before: seq<Step>)
    returns (complete: bool, appended: bool, extra: set<nat>, k: nat, ghost trace: seq<Step>)
    requires Inv(w0) && db.w == Run(w0, before) && st == w0.cp && lookupStart < w0.now && FloorBelow(w0, floor, code)
    requires forall inv :: inv in w0.remote ==> inv.createdAt <= lookupStart
    modifies db
    ensures db.w == Run(w0, trace)
    ensures complete && (!viaIndex || appended || Undisturbed(st, db.w.cp)) ==>
              AllFound(w0, db.w, code, CandidatesOf(w0.rows, code) + extra)
    ensures Quiet(turns) ==> db.w.remote == old(db.w).remote
    ensures Quiet(turns) && viaIndex && old(db.w).cp == st && IndexReady(old(db.w), maxPages) ==>
              complete && (appended || extra == {})
              && (st.asOf.None? || st.asOf.value < lookupStart ==> (appended <==> |db.w.remote| > st.scanned))
    ensures Quiet(turns) && !viaIndex ==> db.w.cp == old(db.w).cp && (complete <==> FloorReady(db.w.remote, floor))
  {
    complete, appended, extra, k, trace := false, false, {}, k0, before;
    if viaIndex {
      complete, appended, extra, k, trace := IndexPath(db, code, st, lookupStart, maxPages, turns, k, w0, trace);
    } else if floor.Some? {
      var found;
      complete, found, k, trace := ScanAboveFloor(db, floor.value, turns, k, w0, trace);
      extra := set inv | inv in found && inv.order == Some(code) :: inv.id;
    }
  }

  /** An aligned index sees all: either the list grew, or its last indexed invoice is the last there is. */
  lemma AlignedIndexSeesAll(w: World, code: string, recorded: set<nat>)
    requires Inv(w) && Aligned(w.remote, w.cp)
    ensures SeesAll(w, code, recorded)
  {
    if |w.remote| <= w.cp.scanned {
      forall inv | inv in InvoicesOf(w.remote, code) ensures inv.id in w.rows {
        assert inv.id <= w.remote[|w.remote| - 1].id;
        assert Indexed(w.rows, inv);
      }
    }
  }

  /** The two paths to completeness, the one the index lag prefers first. */
  method EstablishCompleteness(db: IndexDatabase, code: string, floor: Option<nat>, st: Checkpoint, candidates0: set<nat>,
      lookupStart: nat, maxPages: nat, turns: nat -> Turn, k0: nat, ghost w0: World, ghost before: seq<Step>)
    returns (complete: bool, viaIndex: bool, appended: bool, candidates: set<nat>, k: nat, ghost trace: seq<Step>)
    requires Inv(w0) && db.w == Run(w0, before) && st == w0.cp && lookupStart < w0.now && FloorBelow(w0, floor, code)
    requires (forall inv :: inv in w0.remote ==> inv.createdAt <= lookupStart) && CandidatesOf(w0.rows, code) <= candidates0
    modifies db
    ensures db.w == Run(w0, trace) && candidates0 <= candidates
    ensures complete && (!viaIndex || appended || Undisturbed(st, db.w.cp)) ==> AllFound(w0, db.w, code, candidates)
    ensures Quiet(turns) ==> db.w.remote == old(db.w).remote
    ensures Quiet(turns) && old(db.w).cp == st ==>
              && (IndexReady(old(db.w), maxPages) || FloorReady(old(db.w).remote, floor) ==> complete)
              && (IndexFirst(st) && IndexReady(old(db.w), maxPages) ==>
                    && viaIndex && (appended || candidates == candidates0)
                    && (st.asOf.None? || st.asOf.value < lookupStart ==> (appended <==> |db.w.remote| > st.scanned)))
              && (!IndexFirst(st) && FloorReady(old(db.w).remote, floor) ==> !viaIndex)
  {
    viaIndex := st.total.Some? && st.total.value - st.scanned <= LOOKUP_CATCH_UP;
    var extra;
    complete, appended, extra, k, trace :=
      CompletenessPath(db, viaIndex, code, floor, st, lookupStart, maxPages, turns, k0, w0, before);
    candidates := candidates0 + extra;
    if !complete {
      viaIndex := !viaIndex;
      complete, appended, extra, k, trace :=
        CompletenessPath(db, viaIndex, code, floor, st, lookupStart, maxPages, turns, k, w0, trace);
      candidates := candidates + extra;
    }
  }

  /**
   * findKiotVietInvoicesForOrder. Local candidates first, then the two completeness paths in the
   * order the index lag decides, then the re-read. `recorded` are the ids this app saved for the
   * order, `hint` what the order filter returned when no path completed; neither proves anything.
   */
  method FindInvoicesForOrder(db: IndexDatabase, code: string, floor: Option<nat>, recorded: set<nat>, hint: set<nat>,
      maxPages: nat, turns: nat -> Turn)
    returns (r: Option<LookupResult>, ghost w0: World, ghost trace: seq<Step>)
    requires Inv(db.w) && FloorBelow(db.w, floor, code)
    modifies db
    ensures Later(old(db.w), w0) && db.w == Run(w0, trace)
    ensures r.Some? ==> r.value.snapshot == w0.cp && forall inv :: inv in r.value.invoices ==> inv.order == Some(code)
    // Proof of absence: complete means every invoice of the order that existed and still does was found.
    ensures r.Some? && r.value.complete
            && (r.value.byFloor || r.value.appended || Undisturbed(r.value.snapshot, db.w.cp)) ==>
              forall inv :: Lasting(w0, db.w, inv) && inv.order == Some(code) ==> inv in r.value.invoices
    // On a list that stays still: when it is complete, by which path, and when it is exact.
    ensures Quiet(turns) ==> r.Some? && db.w.remote == old(db.w).remote
    ensures Quiet(turns) && (IndexReady(old(db.w), maxPages) || FloorReady(old(db.w).remote, floor)) ==> r.value.complete
    ensures Quiet(turns) && IndexFirst(old(db.w).cp) && IndexReady(old(db.w), maxPages) ==>
              !r.value.byFloor && (r.value.appended <==> |db.w.remote| > old(db.w).cp.scanned)
    ensures Quiet(turns) && !IndexFirst(old(db.w).cp) && FloorReady(old(db.w).remote, floor) ==> r.value.byFloor
    ensures Quiet(turns) && r.value.complete && (r.value.byFloor || r.value.appended) ==>
              r.value.invoices == InvoicesOf(db.w.remote, code)
    ensures Quiet(turns) ==>
              OfferedAreReturned(InvoicesOf(db.w.remote, code), old(db.w).rows, recorded, hint, r.value)
    ensures Quiet(turns) && IndexFirst(old(db.w).cp) && IndexReady(old(db.w), maxPages) ==>
              (r.value.invoices == InvoicesOf(db.w.remote, code) <==> SeesAll(old(db.w), code, recorded))
  {
    var lookupStart, st, candidates := TakeSnapshot(db, code, floor, turns(0));
    w0, trace := db.w, [];
    var complete, viaIndex, appended, k;
    complete, viaIndex, appended, candidates, k, trace :=
      EstablishCompleteness(db, code, floor, st, candidates + recorded, lookupStart, maxPages, turns, 1, w0, trace);
    if !complete { candidates := candidates + hint; }
    var invoices;
    invoices, k, trace := CurrentInvoices(db, candidates, code, turns, k, w0, trace);
    r := if invoices.None? then None else Some(LookupResult(invoices.value, complete, !viaIndex, appended, st));
  }
}

/** The remote invoice list as a caller sees it: readable only by offset, ordered by id. */
module InvoiceList {
  import opened Prelude

  /** An invoice is immutable here: its id is allocated once and its order code never changes. */
  datatype Invoice = Invoice(id: nat, order: Option<string>, createdAt: nat)

  /** What `orderBy=id&orderDirection=Asc` promises. */
  ghost predicate Ascending(list: seq<Invoice>) {
    forall i, j :: 0 <= i < j < |list| ==> list[i].id < list[j].id
  }

  /** GET /invoices with `currentItem=offset&pageSize=size`. */
  function PageAt(list: seq<Invoice>, offset: nat, size: nat): seq<Invoice> {
    list[Min(offset, |list|)..Min(offset + size, |list|)]
  }

  lemma SameIdSameInvoice(list: seq<Invoice>, a: Invoice, b: Invoice)
    requires Ascending(list) && a in list && b in list && a.id == b.id
    ensures a == b
  {
  }

  /**
   * A page holds what the list holds between its first and its last row, and the end of the list once it
   * reaches the total.
   */
  lemma PageIsGapFree(list: seq<Invoice>, from: nat, size: nat, r: Invoice)
    requires Ascending(list) && r in list
    ensures
      var page := PageAt(list, from, size);
      && (page != [] && (from == 0 || page[0].id <= r.id) && r.id <= page[|page| - 1].id ==> r in page)
      && (from + |page| >= |list| && (from == 0 || (page != [] && page[0].id <= r.id)) ==> r in page)
  {
    var page := PageAt(list, from, size);
    var i :| 0 <= i < |list| && list[i] == r;
    if page != [] {
      assert page[0] == list[from] && page[|page| - 1] == list[from + |page| - 1];
      if from <= i < from + |page| {
        assert page[i - from] == r;
      }
    }
  }

  lemma PageIsFromList(list: seq<Invoice>, from: nat, size: nat)
    requires Ascending(list)
    ensures Ascending(PageAt(list, from, size))
    ensures forall p :: p in PageAt(list, from, size) ==> p in list
  {
    var page := PageAt(list, from, size);
    assert forall i :: 0 <= i < |page| ==> page[i] == list[from + i];
  }

  lemma WithoutOne(list: seq<Invoice>, k: nat)
    requires Ascending(list) && k < |list|
    ensures Ascending(list[..k] + list[k + 1..])
    ensures forall r :: r in list[..k] + list[k + 1..] ==> r in list
  {
    var rest := list[..k] + list[k + 1..];
    assert forall i :: 0 <= i < |rest| ==> rest[i] == list[if i < k then i else i + 1];
  }

  lemma WithNewest(list: seq<Invoice>, newest: Invoice)
    requires Ascending(list) && forall r :: r in list ==> r.id < newest.id
    ensures Ascending(list + [newest])
  {
    assert forall i :: 0 <= i < |list| ==> list[i] in list;
  }

  function CountUpTo(list: seq<Invoice>, id: nat): nat {
    if list == [] then 0
    else CountUpTo(list[..|list| - 1], id) + if list[|list| - 1].id <= id then 1 else 0
  }

  function CountAbove(list: seq<Invoice>, id: nat): nat {
    if list == [] then 0
    else CountAbove(list[..|list| - 1], id) + if id < list[|list| - 1].id then 1 else 0
  }

  lemma {:induction false} CountsSplit(list: seq<Invoice>, id: nat)
    ensures CountUpTo(list, id) + CountAbove(list, id) == |list|
  {
    if list != [] { CountsSplit(list[..|list| - 1], id); }
  }

  /** On an ordered list the number of ids up to `id` is the one boundary that separates them. */
  lemma {:induction false} CountIsBoundary(list: seq<Invoice>, id: nat, k: nat)
    requires k <= |list|
    requires forall i :: 0 <= i < k ==> list[i].id <= id
    requires forall i :: k <= i < |list| ==> id < list[i].id
    ensures CountUpTo(list, id) == k
  {
    if list != [] {
      var init := list[..|list| - 1];
      assert forall i :: 0 <= i < |init| ==> init[i] == list[i];
      CountIsBoundary(init, id, if k == |list| then k - 1 else k);
    }
  }

  lemma BoundaryOf(list: seq<Invoice>, id: nat) returns (k: nat)
    requires Ascending(list)
    ensures k <= |list| && k == CountUpTo(list, id)
    ensures forall i :: 0 <= i < k ==> list[i].id <= id
    ensures forall i :: k <= i < |list| ==> id < list[i].id
  {
    k := 0;
    while k < |list| && list[k].id <= id
      invariant k <= |list|
      invariant forall i :: 0 <= i < k ==> list[i].id <= id
    {
      k := k + 1;
    }
    CountIsBoundary(list, id, k);
  }

  /**
   * The overlap row of an index page (the row re-read at `scanned - 1`) is the last indexed
   * invoice exactly when that invoice still exists and the number of invoices that remain up
   * to it is still `scanned`.
   */
  lemma OverlapRowMatches(list: seq<Invoice>, scanned: nat, lastId: nat, size: nat)
    requires Ascending(list) && 0 < scanned && 0 < size
    ensures
      var page := PageAt(list, scanned - 1, size);
      (page != [] && page[0].id == lastId)
      <==> (exists inv :: inv in list && inv.id == lastId) && CountUpTo(list, lastId) == scanned
  {
    var k := BoundaryOf(list, lastId);
    var page := PageAt(list, scanned - 1, size);
    if page != [] && page[0].id == lastId {
      assert page[0] == list[scanned - 1] && list[scanned - 1] in list;
      CountIsBoundary(list, lastId, scanned);
    }
    if k == scanned && exists inv :: inv in list && inv.id == lastId {
      var inv :| inv in list && inv.id == lastId;
      var i :| 0 <= i < |list| && list[i] == inv;
      assert i == k - 1;
    }
  }
}

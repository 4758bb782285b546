/** One synchronization job per product family of the KiotViet catalog. */
module ProductFamilies {
  import opened Prelude

  /** `sku` is the normalized code, empty when there is none; `master` names the root of a variant. */
  datatype Product = Product(id: nat, sku: string, active: bool, sellable: bool, master: Option<nat>, hasVariants: bool)

  datatype Key = Family(root: nat) | Single(id: nat)

  datatype Candidate = Candidate(id: nat, key: Key)

  predicate Eligible(p: Product) { p.active && p.sellable && p.sku != "" }

  function Roots(products: seq<Product>): set<nat> {
    set p | p in products && p.master.Some? :: p.master.value
  }

  function KeyOf(p: Product, roots: set<nat>): Key {
    if p.master.Some? then Family(p.master.value) else if p.hasVariants || p.id in roots then Family(p.id) else Single(p.id)
  }

  /** Two different products share the SKU. */
  ghost predicate Conflicting(products: seq<Product>, sku: string) {
    sku != "" && exists p, q :: p in products && q in products && p.sku == sku && q.sku == sku && p.id != q.id
  }

  /** Neither ineligible nor in a SKU conflict. */
  ghost predicate Selectable(products: seq<Product>, p: Product) {
    Eligible(p) && !Conflicting(products, p.sku)
  }

  /** A variant and the root it names are one family. */
  lemma VariantAndRootShareAKey(products: seq<Product>, variant: Product, root: Product)
    requires variant in products && variant.master == Some(root.id) && root.master.None?
    ensures KeyOf(variant, Roots(products)) == KeyOf(root, Roots(products))
  {}

  /**
   * The products of several calls with one set of seen keys: a variant and a root that says it has
   * variants are one family even when no call sees both.
   */
  lemma FamilyAcrossCalls(a: seq<Product>, b: seq<Product>, variant: Product, root: Product)
    requires variant.master == Some(root.id) && root.master.None? && root.hasVariants
    ensures KeyOf(variant, Roots(a)) == KeyOf(root, Roots(b))
  {}

  /** A product stands alone exactly when it names no root, has no variants, and none of the products names it. */
  lemma StandsAlone(products: seq<Product>, p: Product)
    ensures KeyOf(p, Roots(products)) == Single(p.id) <==>
              p.master.None? && !p.hasVariants && forall q :: q in products ==> q.master != Some(p.id)
  {
    if q :| q in products && q.master == Some(p.id) { assert p.id in Roots(products); }
  }

  /** Products of different families, and single products, never share a key. */
  lemma KeysSeparateFamilies(products: seq<Product>, p: Product, q: Product)
    requires p in products && q in products && KeyOf(p, Roots(products)) == KeyOf(q, Roots(products))
    ensures p.id == q.id || p.master == Some(q.id) || q.master == Some(p.id) || (p.master.Some? && p.master == q.master)
  {}

  function IdsOf(products: seq<Product>, sku: string): set<nat> {
    set p | p in products && p.sku == sku :: p.id
  }

  method ConflictingSkus(products: seq<Product>) returns (conflicts: set<string>)
    ensures forall sku :: sku in conflicts <==> Conflicting(products, sku)
  {
    var ids: map<string, set<nat>> := map[];
    for i := 0 to |products|
      invariant forall sku :: sku in ids <==> sku != "" && exists p :: p in products[..i] && p.sku == sku
      invariant forall sku :: sku in ids ==> ids[sku] == IdsOf(products[..i], sku)
    {
      var p := products[i];
      assert products[..i + 1] == products[..i] + [p];
      if p.sku == "" { continue; }
      forall sku | sku != p.sku ensures IdsOf(products[..i + 1], sku) == IdsOf(products[..i], sku) {}
      assert IdsOf(products[..i + 1], p.sku) == IdsOf(products[..i], p.sku) + {p.id};
      ids := ids[p.sku := (if p.sku in ids then ids[p.sku] else {}) + {p.id}];
    }
    assert products[..|products|] == products;
    conflicts := set sku | sku in ids && |ids[sku]| > 1;
    forall sku ensures sku in conflicts <==> Conflicting(products, sku) {
      if sku in ids { ManyIds(products, sku); }
    }
  }

  lemma ManyIds(products: seq<Product>, sku: string)
    requires sku != ""
    ensures |IdsOf(products, sku)| > 1 <==> Conflicting(products, sku)
  {
    var ids := IdsOf(products, sku);
    if Conflicting(products, sku) {
      var p, q :| p in products && q in products && p.sku == sku && q.sku == sku && p.id != q.id;
      assert {p.id, q.id} <= ids && |{p.id, q.id}| == 2;
      SmallerSet({p.id, q.id}, ids);
    } else if ids != {} {
      var x :| x in ids;
      assert ids == {x};
    }
  }

  lemma {:induction false} SmallerSet(a: set<nat>, b: set<nat>)
    requires a <= b
    ensures |a| <= |b|
  {
    if a != {} {
      var x :| x in a;
      SmallerSet(a - {x}, b - {x});
    }
  }

  /** The set of keys the caller passes in, and finds extended afterwards. */
  class KeySet {
    var keys: set<Key>

    constructor (keys: set<Key>)
      ensures this.keys == keys
    {
      this.keys := keys;
    }

    method Add(key: Key)
      modifies this
      ensures keys == old(keys) + {key}
    {
      keys := keys + {key};
    }
  }

  /** The first selectable product of its key that the caller had not seen. */
  ghost predicate IsFirst(products: seq<Product>, i: nat, seen: set<Key>)
    requires i < |products|
  {
    var key := KeyOf(products[i], Roots(products));
    && Selectable(products, products[i]) && key !in seen
    && forall j :: 0 <= j < i && Selectable(products, products[j]) ==> KeyOf(products[j], Roots(products)) != key
  }

  ghost function Firsts(products: seq<Product>, n: nat, seen: set<Key>): seq<Candidate>
    requires n <= |products|
  {
    if n == 0 then []
    else
      Firsts(products, n - 1, seen)
      + if IsFirst(products, n - 1, seen) then [Candidate(products[n - 1].id, KeyOf(products[n - 1], Roots(products)))] else []
  }

  ghost predicate SeenSoFar(products: seq<Product>, n: nat, seen: set<Key>, keys: set<Key>)
    requires n <= |products|
  {
    forall key :: key in keys <==> key in seen || exists j :: 0 <= j < n && Selectable(products, products[j]) && KeyOf(products[j], Roots(products)) == key
  }

  /**
   * selectKiotVietSyncCandidates: the first selectable product of every family that was not seen
   * before, in catalog order; every selectable key is seen afterwards.
   */
  method SelectCandidates(products: seq<Product>, seen: KeySet) returns (candidates: seq<Candidate>, skipped: nat)
    modifies seen
    ensures candidates == Firsts(products, |products|, old(seen.keys))
    ensures SeenSoFar(products, |products|, old(seen.keys), seen.keys)
    ensures |candidates| + skipped == |products|
  {
    candidates, skipped := [], 0;
    var conflicts := ConflictingSkus(products);
    var roots := Roots(products);
    for i := 0 to |products|
      invariant candidates == Firsts(products, i, old(seen.keys))
      invariant SeenSoFar(products, i, old(seen.keys), seen.keys)
      invariant |candidates| + skipped == i
    {
      var p := products[i];
      if !Eligible(p) {
        skipped := skipped + 1;
        continue;
      }
      if p.sku in conflicts {
        skipped := skipped + 1;
        continue;
      }
      var key := KeyOf(p, roots);
      if key in seen.keys {
        skipped := skipped + 1;
        continue;
      }
      seen.Add(key);
      candidates := candidates + [Candidate(p.id, key)];
    }
  }

  ghost predicate FromFirst(products: seq<Product>, n: nat, seen: set<Key>, c: Candidate)
    requires n <= |products|
  {
    exists k :: 0 <= k < n && IsFirst(products, k, seen) && c == Candidate(products[k].id, KeyOf(products[k], Roots(products)))
  }

  /**
   * Candidates have pairwise different keys, none of them seen before, each from the first selectable
   * product of its key.
   */
  lemma {:induction false} FirstsAreDistinct(products: seq<Product>, n: nat, seen: set<Key>)
    requires n <= |products|
    ensures forall i, j :: 0 <= i < j < |Firsts(products, n, seen)| ==>
              Firsts(products, n, seen)[i].key != Firsts(products, n, seen)[j].key
    ensures forall c :: c in Firsts(products, n, seen) ==> c.key !in seen && FromFirst(products, n, seen, c)
  {
    if n > 0 {
      FirstsAreDistinct(products, n - 1, seen);
      var before, c := Firsts(products, n - 1, seen), Firsts(products, n, seen);
      forall d | d in before ensures FromFirst(products, n, seen, d) {
        assert FromFirst(products, n - 1, seen, d);
        var k :| 0 <= k < n - 1 && IsFirst(products, k, seen) && d == Candidate(products[k].id, KeyOf(products[k], Roots(products)));
      }
      if IsFirst(products, n - 1, seen) {
        var last := Candidate(products[n - 1].id, KeyOf(products[n - 1], Roots(products)));
        assert c == before + [last] && FromFirst(products, n, seen, last);
        forall i | 0 <= i < |before| ensures before[i].key != last.key {
          assert before[i] in before;
          assert FromFirst(products, n - 1, seen, before[i]);
        }
      }
    }
  }

  /** A family gets a candidate exactly when it has a selectable product and was not seen before. */
  lemma {:induction false} EveryFamilyOnce(products: seq<Product>, n: nat, seen: set<Key>, key: Key)
    requires n <= |products|
    ensures (exists i :: 0 <= i < |Firsts(products, n, seen)| && Firsts(products, n, seen)[i].key == key)
            <==> key !in seen && exists j :: 0 <= j < n && Selectable(products, products[j]) && KeyOf(products[j], Roots(products)) == key
  {
    if n > 0 {
      EveryFamilyOnce(products, n - 1, seen, key);
      var before, c := Firsts(products, n - 1, seen), Firsts(products, n, seen);
      assert forall i :: 0 <= i < |before| ==> c[i] == before[i];
      if IsFirst(products, n - 1, seen) {
        assert c[|before|].key == KeyOf(products[n - 1], Roots(products));
      }
      if key !in seen && Selectable(products, products[n - 1]) && KeyOf(products[n - 1], Roots(products)) == key && !IsFirst(products, n - 1, seen) {
        var j :| 0 <= j < n - 1 && Selectable(products, products[j]) && KeyOf(products[j], Roots(products)) == key;
      }
    }
  }

  /** Active, for sale, with a SKU that no other product carries. */
  ghost predicate Sellable(products: seq<Product>, p: Product) {
    && p in products && p.active && p.sellable && p.sku != ""
    && forall q :: q in products && q.sku == p.sku ==> q.id == p.id
  }

  /** Which families are synchronized: those not seen before that have a product to sell, once each and by such a product. */
  lemma SoldFamiliesAreSynced(products: seq<Product>, seen: set<Key>, key: Key)
    ensures (exists c :: c in Firsts(products, |products|, seen) && c.key == key) <==>
              key !in seen && exists p :: Sellable(products, p) && KeyOf(p, Roots(products)) == key
    ensures forall c :: c in Firsts(products, |products|, seen) ==> exists p :: Sellable(products, p) && p.id == c.id
  {
    var firsts := Firsts(products, |products|, seen);
    EveryFamilyOnce(products, |products|, seen, key);
    FirstsAreDistinct(products, |products|, seen);
    forall p | p in products ensures Selectable(products, p) <==> Sellable(products, p) {}
    forall c | c in firsts ensures exists p :: Sellable(products, p) && p.id == c.id {
      assert FromFirst(products, |products|, seen, c);
      var k :| 0 <= k < |products| && IsFirst(products, k, seen) && c.id == products[k].id;
      assert products[k] in products;
    }
    if p :| Sellable(products, p) && KeyOf(p, Roots(products)) == key {
      var j :| 0 <= j < |products| && products[j] == p;
      assert Selectable(products, products[j]);
    }
  }
}

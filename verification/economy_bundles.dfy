/** What a purchase costs, SKU by SKU and bundle by bundle (ctr_economy.go:137-200). */
module Bundles {
  import opened Common
  import opened EconomyTypes
  import opened Purchases

  /** All of the SKU's items are there, and it has some. */
  predicate Has(items: set<nat>, sku: Sku) { |sku.items| > 0 && forall k :: 0 <= k < |sku.items| ==> sku.items[k] in items }

  lemma OwnsIsHas(items: set<nat>, sku: Sku)
    ensures Owns(items, sku) <==> Has(items, sku)
  {
  }

  lemma OneBought(catalog: Catalog, a: Account, id: nat)
    ensures Bought(catalog, a, [id]) == AddOne(catalog, Cart(a.coins, a.items, 0), id)
  {
    var one := [id];
    assert one[..0] == [] && one[0] == id;
    assert Fill(catalog, Cart(a.coins, a.items, 0), one[..0]) == Some(Cart(a.coins, a.items, 0));
    hide AddOne;
  }

  /** A SKU that is no bundle costs its price, and nothing to who has it; it is refused if unknown, if
      its price is negative, or if the account cannot pay. */
  lemma PlainCost(catalog: Catalog, a: Account, id: nat)
    requires id in catalog ==> catalog[id].parts == []
    ensures var b := Bought(catalog, a, [id]);
      && (b.None? <==> id !in catalog || var cost := if Has(a.items, catalog[id]) then 0 else catalog[id].price; cost < 0 || cost > a.coins)
      && (b.Some? ==>
            && b.value.total == (if Has(a.items, catalog[id]) then 0 else catalog[id].price)
            && b.value.coins == a.coins - b.value.total && b.value.items == a.items + set i | i in catalog[id].items)
  {
    OneBought(catalog, a, id);
    if id in catalog { OwnsIsHas(a.items, catalog[id]); }
    hide Owns, Has;
  }

  /** The parts of a bundle: known, no bundles themselves, each with items that no other part has,
      none twice, and none for less than nothing. */
  ghost predicate Parts(catalog: Catalog, ps: seq<nat>) {
    && (forall i :: 0 <= i < |ps| ==> Part(catalog, ps[i]))
    && (forall i, j :: 0 <= i < j < |ps| ==> Apart(catalog, ps[i], ps[j]))
  }

  ghost predicate Part(catalog: Catalog, p: nat) { p in catalog && catalog[p].parts == [] && catalog[p].items != [] && catalog[p].price >= 0 }

  ghost predicate Apart(catalog: Catalog, p: nat, q: nat)
  {
    p in catalog && q in catalog && forall i :: i in catalog[p].items ==> i !in catalog[q].items
  }

  lemma PartsShorter(catalog: Catalog, ps: seq<nat>)
    requires ps != [] && Parts(catalog, ps)
    ensures Parts(catalog, ps[..|ps|-1]) && Part(catalog, ps[|ps|-1])
    ensures var p := ps[|ps|-1]; forall q :: q in ps[..|ps|-1] ==> Apart(catalog, q, p)
  {
    hide Part, Apart;
  }

  lemma SumNonNegative(catalog: Catalog, items: set<nat>, ps: seq<nat>)
    requires Parts(catalog, ps)
    ensures PartsPrice(catalog, items, ps).Some? && PartsPrice(catalog, items, ps).value >= 0
  {
    if ps != [] {
      PartsShorter(catalog, ps);
      SumNonNegative(catalog, items, ps[..|ps|-1]);
      hide Parts, Owns;
    }
  }

  /** Having other parts makes no part one's own. */
  lemma PartsApart(catalog: Catalog, items: set<nat>, before: seq<nat>, p: nat)
    requires Part(catalog, p) && forall q :: q in before ==> Apart(catalog, q, p)
    ensures Owns(items + AllItems(catalog, before), catalog[p]) <==> Owns(items, catalog[p])
  {
    forall i | i in catalog[p].items ensures i !in AllItems(catalog, before) {
      forall q | q in before && q in catalog ensures i !in catalog[q].items { assert Apart(catalog, q, p); }
    }
  }

  /** The parts bought one after the other. */
  lemma {:induction false} PartsBought(catalog: Catalog, cart: Cart, ps: seq<nat>)
    requires Parts(catalog, ps)
    ensures PartsPrice(catalog, cart.items, ps).Some?
    ensures var sum := PartsPrice(catalog, cart.items, ps).value; var f := Fill(catalog, cart, ps);
      && (f.Some? <==> ps == [] || sum <= cart.coins)
      && (f.Some? ==> f.value == Cart(cart.coins - sum, cart.items + AllItems(catalog, ps), cart.total + sum))
    decreases |ps|
  {
    SumNonNegative(catalog, cart.items, ps);
    if ps == [] {
      assert AllItems(catalog, []) == {} && cart.items + {} == cart.items;
    } else {
      var before, p := ps[..|ps|-1], ps[|ps|-1];
      PartsShorter(catalog, ps);
      PartsBought(catalog, cart, before);
      SumNonNegative(catalog, cart.items, before);
      PartsApart(catalog, cart.items, before, p);
      ItemsSnoc(catalog, before, p, cart.items);
      assert ps == before + [p];
      hide Owns, Parts, AllItems, ItemSet;
    }
  }

  lemma ItemsSnoc(catalog: Catalog, before: seq<nat>, p: nat, items: set<nat>)
    requires p in catalog
    ensures items + AllItems(catalog, before) + ItemSet(catalog[p]) == items + AllItems(catalog, before + [p])
  {
    assert forall x :: x in before + [p] <==> x in before || x == p;
  }

  lemma BundlePrice(catalog: Catalog, a: Account, b: nat)
    requires b in catalog && catalog[b].parts != [] && !Has(a.items, catalog[b])
    ensures var price := PartsPrice(catalog, a.items, catalog[b].parts); var f := Bought(catalog, a, [b]);
      && (f.Some? <==> price.Some? && 0 <= price.value <= a.coins)
      && (f.Some? ==> f.value.total == price.value && f.value.coins == a.coins - price.value)
  {
    OneBought(catalog, a, b);
    OwnsIsHas(a.items, catalog[b]);
    hide PartsPrice, Owns, Has, ItemSet;
  }

  /** A bundle one does not own costs what its parts cost, bought one after the other: it can be
      bought exactly if they can, at the same total. */
  lemma BundleIsParts(catalog: Catalog, a: Account, b: nat)
    requires b in catalog && catalog[b].parts != [] && !Has(a.items, catalog[b]) && Parts(catalog, catalog[b].parts)
    ensures var (whole, parts) := (Bought(catalog, a, [b]), Bought(catalog, a, catalog[b].parts));
      && (whole.Some? <==> parts.Some?)
      && (whole.Some? ==> whole.value.total == parts.value.total && whole.value.coins == parts.value.coins)
  {
    BundlePrice(catalog, a, b);
    PartsBought(catalog, Cart(a.coins, a.items, 0), catalog[b].parts);
    SumNonNegative(catalog, a.items, catalog[b].parts);
    hide PartsPrice, Fill, Has, Parts, AllItems;
  }

  /** One part more in the account. */
  lemma {:induction false} OnePartLess(catalog: Catalog, items: set<nat>, ps: seq<nat>, k: nat)
    requires Parts(catalog, ps) && k < |ps| && !Has(items, catalog[ps[k]])
    ensures var more := items + set i | i in catalog[ps[k]].items;
      PartsPrice(catalog, items, ps).Some? && PartsPrice(catalog, more, ps).Some?
      && PartsPrice(catalog, more, ps).value == PartsPrice(catalog, items, ps).value - catalog[ps[k]].price
    decreases |ps|
  {
    var before, p := ps[..|ps|-1], ps[|ps|-1];
    var more := items + set i | i in catalog[ps[k]].items;
    SumNonNegative(catalog, items, ps);
    SumNonNegative(catalog, more, ps);
    PartsShorter(catalog, ps);
    OwnsIsHas(items, catalog[ps[k]]);
    if k == |ps| - 1 {
      SameSum(catalog, items, more, before, p);
      assert Owns(more, catalog[p]);
    } else {
      OnePartLess(catalog, items, before, k);
      assert before[k] == ps[k] && before[k] in before;
      OwnsOther(catalog, items, ps[k], p);
    }
  }

  lemma OwnsOther(catalog: Catalog, items: set<nat>, q: nat, p: nat)
    requires Apart(catalog, q, p)
    ensures Owns(items + (set i | i in catalog[q].items), catalog[p]) <==> Owns(items, catalog[p])
  {
  }

  lemma {:induction false} SameSum(catalog: Catalog, items: set<nat>, more: set<nat>, ps: seq<nat>, p: nat)
    requires p in catalog && more == items + (set i | i in catalog[p].items) && forall q :: q in ps ==> Apart(catalog, q, p)
    ensures PartsPrice(catalog, more, ps) == PartsPrice(catalog, items, ps)
    decreases |ps|
  {
    if ps != [] {
      var q := ps[|ps|-1];
      assert q in ps && Apart(catalog, q, p) && Apart(catalog, p, q);
      SameSum(catalog, items, more, ps[..|ps|-1], p);
      OwnsOther(catalog, items, p, q);
      hide Owns, Apart;
    }
  }

  /** Owning one more part lowers what the bundle costs by exactly that part's price, as long as the
      bundle is not owned altogether. */
  lemma PartOwnedPartOff(catalog: Catalog, a: Account, b: nat, k: nat)
    requires b in catalog && Parts(catalog, catalog[b].parts) && k < |catalog[b].parts|
    requires !Has(a.items, catalog[catalog[b].parts[k]]) && Bought(catalog, a, [b]).Some? && !Has(a.items, catalog[b])
    requires var part := catalog[catalog[b].parts[k]]; !Has(a.items + (set i | i in part.items), catalog[b])
    ensures var part := catalog[catalog[b].parts[k]]; var c := a.(items := a.items + set i | i in part.items);
      Bought(catalog, c, [b]).Some? && Bought(catalog, c, [b]).value.total == Bought(catalog, a, [b]).value.total - part.price
  {
    var ps := catalog[b].parts;
    var c := a.(items := a.items + set i | i in catalog[ps[k]].items);
    BundlePrice(catalog, a, b);
    BundlePrice(catalog, c, b);
    OnePartLess(catalog, a.items, ps, k);
    SumNonNegative(catalog, c.items, ps);
    assert Part(catalog, ps[k]);
    hide PartsPrice, Fill, Has, Parts, Part;
  }

  /** A bundle with an unknown part is refused to who does not own it, whatever he has. */
  lemma UnknownPartRefused(catalog: Catalog, a: Account, b: nat, k: nat)
    requires b in catalog && k < |catalog[b].parts| && catalog[b].parts[k] !in catalog && !Has(a.items, catalog[b])
    ensures Bought(catalog, a, [b]).None?
  {
    BundlePrice(catalog, a, b);
    NoSum(catalog, a.items, catalog[b].parts, k);
    hide PartsPrice, Fill, Has;
  }

  lemma {:induction false} NoSum(catalog: Catalog, items: set<nat>, ps: seq<nat>, k: nat)
    requires k < |ps| && ps[k] !in catalog
    ensures PartsPrice(catalog, items, ps).None?
    decreases |ps|
  {
    if k < |ps| - 1 { NoSum(catalog, items, ps[..|ps|-1], k); }
  }

  /** Who owns a bundle gets it for nothing. */
  lemma OwnedIsFree(catalog: Catalog, a: Account, b: nat)
    requires b in catalog && Has(a.items, catalog[b]) && a.coins >= 0
    ensures Bought(catalog, a, [b]) == Some(Cart(a.coins, a.items, 0))
  {
    OneBought(catalog, a, b);
    OwnsIsHas(a.items, catalog[b]);
    assert a.items + ItemSet(catalog[b]) == a.items;
  }
}

/** Prices and purchases (ctr_economy.go:137-200). */
module Purchases {
  import opened Common
  import opened EconomyTypes

  type Catalog = map<nat, Sku>

  /** A SKU without items never counts as owned. */
  predicate Owns(items: set<nat>, sku: Sku) {
    sku.items != [] && forall i :: i in sku.items ==> i in items
  }

  /** A bundle costs what its unowned parts cost; an unknown part is an error. */
  function PartsPrice(catalog: Catalog, items: set<nat>, parts: seq<nat>): Option<int> {
    if parts == [] then Some(0) else
      var before, id := PartsPrice(catalog, items, parts[..|parts|-1]), parts[|parts|-1];
      if before.None? || id !in catalog then None
      else Some(before.value + if Owns(items, catalog[id]) then 0 else catalog[id].price)
  }

  function Price(catalog: Catalog, items: set<nat>, sku: Sku): Option<int> {
    if Owns(items, sku) then Some(0)
    else if sku.parts == [] then Some(sku.price)
    else PartsPrice(catalog, items, sku.parts)
  }

  datatype Cart = Cart(coins: int, items: set<nat>, total: int)

  function ItemSet(sku: Sku): set<nat> { set i | i in sku.items }

  function AddOne(catalog: Catalog, cart: Cart, id: nat): Option<Cart> {
    if id !in catalog then None else
      var price := Price(catalog, cart.items, catalog[id]);
      if price.None? || price.value < 0 || price.value > cart.coins then None
      else Some(Cart(cart.coins - price.value, cart.items + ItemSet(catalog[id]), cart.total + price.value))
  }

  function Fill(catalog: Catalog, cart: Cart, skus: seq<nat>): Option<Cart> {
    if skus == [] then Some(cart) else
      var before := Fill(catalog, cart, skus[..|skus|-1]);
      if before.None? then None else AddOne(catalog, before.value, skus[|skus|-1])
  }

  function Bought(catalog: Catalog, a: Account, skus: seq<nat>): Option<Cart> {
    Fill(catalog, Cart(a.coins, a.items, 0), skus)
  }

  function PurchaseStored(catalog: Catalog, a: Account, skus: seq<nat>): Account {
    var cart := Bought(catalog, a, skus);
    if cart.None? then a else a.(coins := cart.value.coins, items := cart.value.items)
  }

  // ---------- properties ----------

  function AllItems(catalog: Catalog, skus: seq<nat>): set<nat> {
    set id, i | id in skus && id in catalog && i in catalog[id].items :: i
  }

  lemma {:induction false} FillExact(catalog: Catalog, cart: Cart, skus: seq<nat>)
    requires Fill(catalog, cart, skus).Some?
    ensures var c := Fill(catalog, cart, skus).value;
      && cart.total <= c.total && c.coins + c.total == cart.coins + cart.total
      && c.items == cart.items + AllItems(catalog, skus)
      && (skus != [] ==> c.coins >= 0) && (forall id :: id in skus ==> id in catalog)
  {
    if skus == [] {
      assert AllItems(catalog, skus) == {};
    } else {
      var before, id := skus[..|skus|-1], skus[|skus|-1];
      assert skus == before + [id];
      FillExact(catalog, cart, before);
      hide Price;
      assert AllItems(catalog, skus) == AllItems(catalog, before) + ItemSet(catalog[id]);
    }
  }

  /** A successful purchase debits a non-negative amount within the balance, takes exactly
      that, and grants exactly the items of the SKUs. */
  lemma PurchaseExact(catalog: Catalog, a: Account, skus: seq<nat>)
    requires Bought(catalog, a, skus).Some? && skus != []
    ensures var c := Bought(catalog, a, skus).value;
      && 0 <= c.total <= a.coins && c.coins == a.coins - c.total
      && (forall i :: i in c.items <==> i in a.items || exists id :: id in skus && id in catalog && i in catalog[id].items)
  {
    FillExact(catalog, Cart(a.coins, a.items, 0), skus);
  }

  /** Owning more never turns a price into an error, nor the other way round for parts. */
  lemma {:induction false} PartsKnown(catalog: Catalog, items: set<nat>, more: set<nat>, parts: seq<nat>)
    ensures PartsPrice(catalog, items, parts).Some? <==> PartsPrice(catalog, more, parts).Some?
  {
    if parts != [] { PartsKnown(catalog, items, more, parts[..|parts|-1]); }
  }

  lemma {:induction false} PartsCheaper(catalog: Catalog, items: set<nat>, more: set<nat>, parts: seq<nat>)
    requires items <= more && (forall id :: id in catalog ==> catalog[id].price >= 0)
    requires PartsPrice(catalog, items, parts).Some? && PartsPrice(catalog, more, parts).Some?
    ensures 0 <= PartsPrice(catalog, more, parts).value <= PartsPrice(catalog, items, parts).value
  {
    if parts != [] { PartsCheaper(catalog, items, more, parts[..|parts|-1]); }
  }

  /** With prices that are never negative, owning more never raises a price. */
  lemma OwningMoreIsCheaper(catalog: Catalog, items: set<nat>, more: set<nat>, sku: Sku)
    requires items <= more && sku.price >= 0 && (forall id :: id in catalog ==> catalog[id].price >= 0)
    requires Price(catalog, items, sku).Some?
    ensures Price(catalog, more, sku).Some? && 0 <= Price(catalog, more, sku).value <= Price(catalog, items, sku).value
  {
    PartsKnown(catalog, items, more, sku.parts);
    if PartsPrice(catalog, items, sku.parts).Some? { PartsCheaper(catalog, items, more, sku.parts); }
    if sku.parts != [] && Owns(more, sku) && !Owns(items, sku) { PartsCheaper(catalog, items, items, sku.parts); }
  }

  /** Every SKU without items is free at these holdings. */
  ghost predicate ItemlessFree(catalog: Catalog, items: set<nat>, skus: seq<nat>) {
    forall id :: id in skus && id in catalog && catalog[id].items == [] ==> Price(catalog, items, catalog[id]) == Some(0)
  }

  lemma {:induction false} RepeatFill(catalog: Catalog, cart: Cart, skus: seq<nat>)
    requires cart.coins >= 0 && (forall id :: id in skus ==> id in catalog) && AllItems(catalog, skus) <= cart.items
    ensures Fill(catalog, cart, skus).Some? ==>
      (Fill(catalog, cart, skus).value.items == cart.items && Fill(catalog, cart, skus).value.total >= cart.total)
    ensures Fill(catalog, cart, skus) == Some(cart) <==> ItemlessFree(catalog, cart.items, skus)
    ensures Fill(catalog, cart, skus).Some? && Fill(catalog, cart, skus).value.total == cart.total ==> Fill(catalog, cart, skus) == Some(cart)
  {
    if skus != [] {
      var before, id := skus[..|skus|-1], skus[|skus|-1];
      assert skus == before + [id];
      assert AllItems(catalog, before) <= AllItems(catalog, skus);
      RepeatFill(catalog, cart, before);
      assert ItemSet(catalog[id]) <= AllItems(catalog, skus);
      assert cart.items + ItemSet(catalog[id]) == cart.items;
      if catalog[id].items != [] { assert Owns(cart.items, catalog[id]); }
      assert ItemlessFree(catalog, cart.items, skus) <==>
        (ItemlessFree(catalog, cart.items, before) && (catalog[id].items == [] ==> Price(catalog, cart.items, catalog[id]) == Some(0)));
      hide Price, Owns;
    }
  }

  /** Buying the same list again is free if and only if every SKU of the list that grants no
      items is free by then; in particular it is free when every SKU grants an item. */
  lemma RepeatPurchase(catalog: Catalog, a: Account, skus: seq<nat>)
    requires Bought(catalog, a, skus).Some?
    ensures var b := PurchaseStored(catalog, a, skus);
      (Bought(catalog, b, skus).Some? && Bought(catalog, b, skus).value.total == 0) <==> ItemlessFree(catalog, b.items, skus)
  {
    FillExact(catalog, Cart(a.coins, a.items, 0), skus);
    var b := PurchaseStored(catalog, a, skus);
    assert AllItems(catalog, skus) <= b.items;
    if skus != [] { RepeatFill(catalog, Cart(b.coins, b.items, 0), skus); }
  }

  /** What the list costs while the holdings stay as they are. */
  function ListPrice(catalog: Catalog, items: set<nat>, skus: seq<nat>): int {
    if skus == [] then 0
    else
      var id := skus[|skus|-1];
      ListPrice(catalog, items, skus[..|skus|-1])
        + if id in catalog && Price(catalog, items, catalog[id]).Some? then Price(catalog, items, catalog[id]).value else 0
  }

  /** The SKU is known and has a price, which is not negative and at most `most`. */
  predicate Charged(catalog: Catalog, items: set<nat>, id: nat, most: int) {
    id in catalog && Price(catalog, items, catalog[id]).Some? && 0 <= Price(catalog, items, catalog[id]).value <= most
  }

  lemma {:induction false} RepeatCosts(catalog: Catalog, cart: Cart, skus: seq<nat>)
    requires Fill(catalog, cart, skus).Some? && AllItems(catalog, skus) <= cart.items
    ensures var price := ListPrice(catalog, cart.items, skus);
      Fill(catalog, cart, skus).value == Cart(cart.coins - price, cart.items, cart.total + price)
    ensures forall id :: id in skus ==> Charged(catalog, cart.items, id, ListPrice(catalog, cart.items, skus))
  {
    if skus != [] {
      var before, id := skus[..|skus|-1], skus[|skus|-1];
      assert skus == before + [id];
      assert AllItems(catalog, before) <= AllItems(catalog, skus);
      RepeatCosts(catalog, cart, before);
      assert ItemSet(catalog[id]) <= AllItems(catalog, skus);
      assert cart.items + ItemSet(catalog[id]) == cart.items;
      if before != [] { assert before[0] in before; }
      ListPricePositive(catalog, cart.items, before, ListPrice(catalog, cart.items, before));
      hide Price, Owns;
    }
  }

  lemma {:induction false} ListPricePositive(catalog: Catalog, items: set<nat>, skus: seq<nat>, most: int)
    requires forall id :: id in skus ==> Charged(catalog, items, id, most)
    ensures ListPrice(catalog, items, skus) >= 0
  {
    if skus != [] {
      assert Charged(catalog, items, skus[|skus|-1], most);
      ListPricePositive(catalog, items, skus[..|skus|-1], most);
      hide Price;
    }
  }

  /** The same list bought `n` times in a row. */
  function Again(catalog: Catalog, a: Account, skus: seq<nat>, n: nat): Option<Account> {
    if n == 0 then Some(a)
    else
      var before := Again(catalog, a, skus, n - 1);
      if before.None? || Bought(catalog, before.value, skus).None? then None
      else Some(PurchaseStored(catalog, before.value, skus))
  }

  /** Every repetition after the first costs the same: the prices, at the holdings the first one
      left, of the SKUs of the list that are still not owned, which are those without items. A SKU
      without items is charged its price every time. */
  lemma {:induction false} ItemlessChargedEveryTime(catalog: Catalog, a: Account, skus: seq<nat>, n: nat)
    requires skus != [] && Again(catalog, a, skus, n + 1).Some?
    ensures Bought(catalog, a, skus).Some? && forall id :: id in skus ==> id in catalog
    ensures var (b, c) := (PurchaseStored(catalog, a, skus), Again(catalog, a, skus, n + 1).value);
      && c.items == b.items && c.coins == b.coins - n * ListPrice(catalog, b.items, skus)
      && (n > 0 ==> forall id :: id in skus ==>
            Charged(catalog, b.items, id, if catalog[id].items != [] then 0 else ListPrice(catalog, b.items, skus)))
    decreases n
  {
    if n == 0 {
      assert Again(catalog, a, skus, 0) == Some(a);
      FillExact(catalog, Cart(a.coins, a.items, 0), skus);
    } else {
      var last := Again(catalog, a, skus, n).value;
      ItemlessChargedEveryTime(catalog, a, skus, n - 1);
      var b := PurchaseStored(catalog, a, skus);
      FillExact(catalog, Cart(a.coins, a.items, 0), skus);
      RepeatCosts(catalog, Cart(last.coins, last.items, 0), skus);
      GrantingOwned(catalog, b.items, skus);
      hide Fill, Price, ListPrice, AllItems;
      assert n * ListPrice(catalog, b.items, skus) == (n - 1) * ListPrice(catalog, b.items, skus) + ListPrice(catalog, b.items, skus);
    }
  }

  lemma GrantingOwned(catalog: Catalog, items: set<nat>, skus: seq<nat>)
    requires AllItems(catalog, skus) <= items
    ensures forall id :: id in skus && id in catalog && catalog[id].items != [] ==> Price(catalog, items, catalog[id]) == Some(0)
  {
    forall id | id in skus && id in catalog && catalog[id].items != [] ensures Price(catalog, items, catalog[id]) == Some(0) {
      forall i | i in catalog[id].items ensures i in items { assert i in AllItems(catalog, skus); }
    }
  }

  /** The smallest case: one SKU without items, bought twice. */
  lemma ItemlessChargedTwice()
    ensures var catalog := map[1 := Sku([], [], 5)]; var a := Account(10, {}, RaceBook({}, map[]), None, map[]);
      && Bought(catalog, a, [1]) == Some(Cart(5, {}, 5))
      && Bought(catalog, PurchaseStored(catalog, a, [1]), [1]) == Some(Cart(0, {}, 5))
  {
    var catalog := map[1 := Sku([], [], 5)];
    var once := [1];
    assert once[..0] == [] && once[0] == 1;
    assert {} + ItemSet(catalog[1]) == {};
    assert AddOne(catalog, Cart(10, {}, 0), 1) == Some(Cart(5, {}, 5));
    assert AddOne(catalog, Cart(5, {}, 0), 1) == Some(Cart(0, {}, 5));
    assert Fill(catalog, Cart(10, {}, 0), once) == AddOne(catalog, Cart(10, {}, 0), 1);
    assert Fill(catalog, Cart(5, {}, 0), once) == AddOne(catalog, Cart(5, {}, 0), 1);
  }
}

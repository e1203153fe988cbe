/**
 * backend/app/services/purchase_service.py: "buy now" on one listing and the
 * checkout of a cart's selected rows. Both go through the atomic "mark sold"
 * gate, so a listing is sold at most once; a failed call leaves every table as
 * it was.
 */
module PurchaseService {
  import opened Entities
  import opened Errors
  import opened Database
  import opened Seqs
  import PR = ProductRepository
  import CR = CartRepository
  import PuR = PurchaseRepository

  /** The buyer's cart row for the listing, dropped once the listing is bought. */
  function DropFromCart(t: Tables, buyerId: int, productId: int): (r: Tables)
    ensures r == t.(cart := r.cart)
    ensures CR.GetItem(t, buyerId, productId).None? ==> r == t
    ensures CR.GetItem(t, buyerId, productId).Some? ==> r == CR.Remove(t, CR.GetItem(t, buyerId, productId).value.id)
  {
    match CR.GetItem(t, buyerId, productId)
    case Some(c) => CR.Remove(t, c.id)
    case None => t
  }

  /**
   * `buy_now`: 404, then 400 for a hidden listing, then 400 for the buyer's own
   * listing, then 409 if the gate refuses; otherwise the listing is SOLD, one
   * purchase at the price read before the sale is recorded, and the buyer's cart
   * row for it is dropped.
   */
  function BuyNowOutcome(t: Tables, buyerId: int, productId: int): (r: Result<(Tables, Purchase)>)
    ensures productId !in t.products ==> r == Err(ServiceError(404, "Product not found"))
    ensures productId in t.products ==> var p := t.products[productId];
              && (p.isBlinded ==> r == Err(ServiceError(400, "Blinded product cannot be purchased")))
              && (!p.isBlinded && p.sellerId == buyerId ==> r == Err(ServiceError(400, "Cannot buy your own product")))
              && (!p.isBlinded && p.sellerId != buyerId && p.status != OnSale ==>
                    r == Err(ServiceError(409, "Product is already sold or unavailable")))
    ensures r.Ok? <==> productId in t.products && PR.Available(t.products[productId]) && t.products[productId].sellerId != buyerId
    ensures r.Ok? ==> var (t1, purchase) := r.value; var p := t.products[productId];
              && purchase == NewPurchase(buyerId, p.sellerId, productId, p.price).(id := t.nextId, purchasedAt := t.clock)
              && t1.products == t.products[productId := p.(status := Sold)]
              && t1.purchases == t.purchases + [purchase]
              && t1.users == t.users
              && t1.cart == DropFromCart(t, buyerId, productId).cart
              && t1.nextId == t.nextId + 1 && t1.clock == t.clock + 1
  {
    match PR.GetById(t, productId)
    case None => Err(ServiceError(404, "Product not found"))
    case Some(p) =>
      if p.isBlinded then Err(ServiceError(400, "Blinded product cannot be purchased"))
      else if p.sellerId == buyerId then Err(ServiceError(400, "Cannot buy your own product"))
      else
        var (t1, changed) := PR.TryMarkSold(t, productId);
        if !changed then Err(ServiceError(409, "Product is already sold or unavailable"))
        else
          var (t2, purchase) := PuR.Append(t1, NewPurchase(buyerId, p.sellerId, productId, p.price));
          Ok((DropFromCart(t2, buyerId, productId), purchase))
  }

  /** Another buyer who tries the same listing after a successful "buy now" gets the 409 conflict. */
  lemma SecondBuyerConflicts(t: Tables, buyerId: int, productId: int, otherBuyer: int)
    requires BuyNowOutcome(t, buyerId, productId).Ok?
    requires otherBuyer != t.products[productId].sellerId
    ensures BuyNowOutcome(BuyNowOutcome(t, buyerId, productId).value.0, otherBuyer, productId)
            == Err(ServiceError(409, "Product is already sold or unavailable"))
  {
  }

  // ---------------------------------------------------------------- checkout of selected rows

  /** The selected cart row that will be bought: its listing exists, is available and is not the buyer's. */
  function EligibleIn(t: Tables, buyerId: int): CartItem -> bool {
    (c: CartItem) =>
      c.productId in t.products && PR.Available(t.products[c.productId]) && t.products[c.productId].sellerId != buyerId
  }

  /**
   * One pass of the checkout loop: a row whose listing is missing or the buyer's own
   * is skipped, as is one the gate refuses; otherwise the listing is SOLD, a purchase
   * is recorded and the cart row is deleted.
   */
  function CheckoutItem(t: Tables, buyerId: int, item: CartItem): (r: (Tables, Option<Purchase>))
    ensures r.1.Some? <==> EligibleIn(t, buyerId)(item)
    ensures r.1.None? ==> r.0 == t
    ensures r.1.Some? ==> var p := t.products[item.productId];
              && r.1.value == NewPurchase(buyerId, p.sellerId, item.productId, p.price).(id := t.nextId, purchasedAt := t.clock)
              && r.0.products == t.products[item.productId := p.(status := Sold)]
              && r.0.purchases == t.purchases + [r.1.value]
              && (forall c :: c in r.0.cart <==> c in t.cart && c.id != item.id)
              && r.0.nextId == t.nextId + 1 && r.0.clock == t.clock + 1 && r.0.users == t.users
  {
    match PR.GetById(t, item.productId)
    case None => (t, None)
    case Some(p) =>
      if p.sellerId == buyerId then (t, None)
      else
        var (t1, changed) := PR.TryMarkSold(t, item.productId);
        if !changed then (t, None)
        else
          var (t2, purchase) := PuR.Append(t1, NewPurchase(buyerId, p.sellerId, item.productId, p.price));
          (CR.Remove(t2, item.id), Some(purchase))
  }

  /** The checkout loop over `items`, in order: the final tables and the purchases made. */
  function Checkout(t: Tables, buyerId: int, items: seq<CartItem>): (Tables, seq<Purchase>)
    decreases |items|
  {
    if items == [] then (t, [])
    else
      var (t1, purchases) := Checkout(t, buyerId, items[..|items| - 1]);
      var (t2, bought) := CheckoutItem(t1, buyerId, items[|items| - 1]);
      (t2, if bought.Some? then purchases + [bought.value] else purchases)
  }

  /** A checkout that buys nothing changes nothing, so raising afterwards loses no work. */
  lemma {:induction false} NothingBoughtNothingChanged(t: Tables, buyerId: int, items: seq<CartItem>)
    ensures Checkout(t, buyerId, items).1 == [] ==> Checkout(t, buyerId, items).0 == t
    decreases |items|
  {
    if items != [] {
      NothingBoughtNothingChanged(t, buyerId, items[..|items| - 1]);
    }
  }

  /**
   * `buy_selected_cart_items`: 400 when nothing is selected, 400 when none of the
   * selected rows could be bought (and then nothing changed); otherwise the
   * purchases in the order of the selected rows.
   */
  function BuySelectedOutcome(t: Tables, buyerId: int): (r: Result<(Tables, seq<Purchase>)>)
    ensures CR.ListSelected(t, buyerId) == [] ==> r == Err(ServiceError(400, "No selected cart items"))
    ensures CR.ListSelected(t, buyerId) != [] && Checkout(t, buyerId, CR.ListSelected(t, buyerId)).1 == [] ==>
              r == Err(ServiceError(400, "No purchasable selected items"))
    ensures r.Ok? <==> CR.ListSelected(t, buyerId) != [] && Checkout(t, buyerId, CR.ListSelected(t, buyerId)).1 != []
    ensures r.Ok? ==> r.value == Checkout(t, buyerId, CR.ListSelected(t, buyerId)) && r.value.1 != []
  {
    var items := CR.ListSelected(t, buyerId);
    if items == [] then Err(ServiceError(400, "No selected cart items"))
    else
      var (t1, purchases) := Checkout(t, buyerId, items);
      if purchases == [] then Err(ServiceError(400, "No purchasable selected items"))
      else Ok((t1, purchases))
  }

  // ---------------------------------------------------------------- what a checkout does, all at once

  function ItemIds(items: seq<CartItem>): set<int> {
    set c | c in items :: c.id
  }

  function ProductIds(items: seq<CartItem>): set<int> {
    set c | c in items :: c.productId
  }

  /** The purchase recorded for the `k`-th bought row. */
  function Receipt(t: Tables, buyerId: int, item: CartItem, k: nat): Purchase
    requires item.productId in t.products
  {
    var p := t.products[item.productId];
    NewPurchase(buyerId, p.sellerId, item.productId, p.price).(id := t.nextId + k, purchasedAt := t.clock + k)
  }

  /** The purchases are the receipts for the bought rows, in order. */
  ghost predicate Receipts(t: Tables, buyerId: int, bought: seq<CartItem>, purchases: seq<Purchase>) {
    && |purchases| == |bought|
    && forall k :: 0 <= k < |purchases| ==> bought[k].productId in t.products && purchases[k] == Receipt(t, buyerId, bought[k], k)
  }

  /** Exactly the listings of the bought rows are SOLD; no listing appears or disappears. */
  ghost predicate Marked(t: Tables, bought: seq<CartItem>, t1: Tables) {
    && t1.products.Keys == t.products.Keys
    && forall pid :: pid in t.products ==>
         t1.products[pid] == if pid in ProductIds(bought) then t.products[pid].(status := Sold) else t.products[pid]
  }

  /** Exactly the bought rows left the cart. */
  ghost predicate Cleared(t: Tables, bought: seq<CartItem>, t1: Tables) {
    forall c :: c in t1.cart <==> c in t.cart && c.id !in ItemIds(bought)
  }

  /** The ledger grew by the purchases, the counters moved once per purchase, and no account changed. */
  ghost predicate Recorded(t: Tables, purchases: seq<Purchase>, t1: Tables) {
    && t1.purchases == t.purchases + purchases
    && t1.nextId == t.nextId + |purchases| && t1.clock == t.clock + |purchases| && t1.users == t.users
  }

  /**
   * The effect of checking out `items` from `t`, stated against the initial tables:
   * exactly the rows eligible at the start are bought, in order, at the initial
   * price; their listings become SOLD, their cart rows go, and nothing else moves.
   */
  ghost predicate Settled(t: Tables, buyerId: int, items: seq<CartItem>, t1: Tables, purchases: seq<Purchase>) {
    var bought := Filter(items, EligibleIn(t, buyerId));
    Receipts(t, buyerId, bought, purchases) && Recorded(t, purchases, t1) && Marked(t, bought, t1) && Cleared(t, bought, t1)
  }

  /** A row that was not eligible at the start is skipped. */
  lemma SettledSkip(t: Tables, buyerId: int, items: seq<CartItem>, x: CartItem, t1: Tables, purchases: seq<Purchase>)
    requires Settled(t, buyerId, items, t1, purchases)
    requires !EligibleIn(t, buyerId)(x)
    ensures Settled(t, buyerId, items + [x], t1, purchases)
  {
    FilterSnoc(items, x, EligibleIn(t, buyerId));
  }

  lemma ReceiptsBuy(t: Tables, buyerId: int, before: seq<CartItem>, x: CartItem, purchases: seq<Purchase>, t1: Tables, purchase: Purchase)
    requires Receipts(t, buyerId, before, purchases) && Recorded(t, purchases, t1)
    requires x.productId in t.products
    requires purchase == Receipt(t, buyerId, x, |purchases|)
    ensures Receipts(t, buyerId, before + [x], purchases + [purchase])
  {
    var after := before + [x];
    var ps := purchases + [purchase];
    forall k | 0 <= k < |ps|
      ensures after[k].productId in t.products && ps[k] == Receipt(t, buyerId, after[k], k)
    {
      if k < |purchases| {
        assert after[k] == before[k] && ps[k] == purchases[k];
      } else {
        assert after[k] == x && ps[k] == purchase;
      }
    }
  }

  lemma RecordedBuy(t: Tables, purchases: seq<Purchase>, t1: Tables, purchase: Purchase, t2: Tables)
    requires Recorded(t, purchases, t1)
    requires t2.purchases == t1.purchases + [purchase] && t2.users == t1.users
    requires t2.nextId == t1.nextId + 1 && t2.clock == t1.clock + 1
    ensures Recorded(t, purchases + [purchase], t2)
  {
  }

  lemma MarkedBuy(t: Tables, before: seq<CartItem>, x: CartItem, t1: Tables, t2: Tables)
    requires Marked(t, before, t1) && x.productId in t.products && x.productId !in ProductIds(before)
    requires t2.products == t1.products[x.productId := t1.products[x.productId].(status := Sold)]
    ensures Marked(t, before + [x], t2)
  {
    assert ProductIds(before + [x]) == ProductIds(before) + {x.productId};
  }

  lemma ClearedBuy(t: Tables, before: seq<CartItem>, x: CartItem, t1: Tables, t2: Tables)
    requires Cleared(t, before, t1)
    requires forall c :: c in t2.cart <==> c in t1.cart && c.id != x.id
    ensures Cleared(t, before + [x], t2)
  {
    assert ItemIds(before + [x]) == ItemIds(before) + {x.id};
  }

  /** A row that was eligible at the start, for a listing not seen before, is bought. */
  lemma SettledBuy(t: Tables, buyerId: int, items: seq<CartItem>, x: CartItem, t1: Tables, purchases: seq<Purchase>,
                   t2: Tables, purchase: Purchase)
    requires Settled(t, buyerId, items, t1, purchases)
    requires EligibleIn(t, buyerId)(x) && x.productId !in ProductIds(Filter(items, EligibleIn(t, buyerId)))
    requires t1.products[x.productId] == t.products[x.productId]
    requires CheckoutItem(t1, buyerId, x) == (t2, Some(purchase))
    ensures Settled(t, buyerId, items + [x], t2, purchases + [purchase])
  {
    var e := EligibleIn(t, buyerId);
    FilterSnoc(items, x, e);
    var before := Filter(items, e);
    assert Filter(items + [x], e) == before + [x];
    assert purchase == Receipt(t, buyerId, x, |purchases|);
    ReceiptsBuy(t, buyerId, before, x, purchases, t1, purchase);
    RecordedBuy(t, purchases, t1, purchase, t2);
    MarkedBuy(t, before, x, t1, t2);
    ClearedBuy(t, before, x, t1, t2);
  }

  lemma SettledStep(t: Tables, buyerId: int, items: seq<CartItem>, x: CartItem, t1: Tables, purchases: seq<Purchase>)
    requires Settled(t, buyerId, items, t1, purchases)
    requires x.productId !in ProductIds(items)
    ensures var (t2, bought) := CheckoutItem(t1, buyerId, x);
            Settled(t, buyerId, items + [x], t2, if bought.Some? then purchases + [bought.value] else purchases)
  {
    var e := EligibleIn(t, buyerId);
    var before := Filter(items, e);
    assert forall c :: c in before ==> c in items;
    assert x.productId !in ProductIds(before);
    assert x.productId in t1.products <==> x.productId in t.products;
    if x.productId in t.products {
      assert t1.products[x.productId] == t.products[x.productId];
    }
    assert EligibleIn(t1, buyerId)(x) == e(x);
    var (t2, bought) := CheckoutItem(t1, buyerId, x);
    if e(x) {
      SettledBuy(t, buyerId, items, x, t1, purchases, t2, bought.value);
    } else {
      SettledSkip(t, buyerId, items, x, t1, purchases);
    }
  }

  /** Checking out no rows settles nothing. */
  lemma SettledEmpty(t: Tables, buyerId: int)
    ensures Settled(t, buyerId, [], t, [])
  {
    assert ProductIds([]) == {} && ItemIds([]) == {};
  }

  /** The last row of rows for distinct listings names a listing no earlier row names. */
  lemma LastIsNew(items: seq<CartItem>)
    requires items != []
    requires forall i, j :: 0 <= i < j < |items| ==> items[i].productId != items[j].productId
    ensures items[|items| - 1].productId !in ProductIds(items[..|items| - 1])
  {
    var prefix := items[..|items| - 1];
    forall c | c in prefix ensures c.productId != items[|items| - 1].productId {
      var i :| 0 <= i < |prefix| && prefix[i] == c;
      assert items[i] == c;
    }
  }

  /** Checking out rows for distinct listings does exactly what `Settled` says. */
  lemma {:induction false} CheckoutSettles(t: Tables, buyerId: int, items: seq<CartItem>)
    requires forall i, j :: 0 <= i < j < |items| ==> items[i].productId != items[j].productId
    ensures var (t1, purchases) := Checkout(t, buyerId, items);
            Settled(t, buyerId, items, t1, purchases)
    decreases |items|
  {
    if items == [] {
      SettledEmpty(t, buyerId);
    } else {
      var prefix := items[..|items| - 1];
      var x := items[|items| - 1];
      CheckoutSettles(t, buyerId, prefix);
      LastIsNew(items);
      var (t1, purchases) := Checkout(t, buyerId, prefix);
      SettledStep(t, buyerId, prefix, x, t1, purchases);
      var (t2, bought) := CheckoutItem(t1, buyerId, x);
      assert prefix + [x] == items;
      assert Checkout(t, buyerId, items) == (t2, if bought.Some? then purchases + [bought.value] else purchases);
    }
  }

  // ---------------------------------------------------------------- methods on the session

  method BuyNow(db: Session, buyerId: int, productId: int) returns (r: Result<Purchase>)
    modifies db
    ensures db.Snapshot() == After(old(db.Snapshot()), BuyNowOutcome(old(db.Snapshot()), buyerId, productId))
    ensures r == Returned(BuyNowOutcome(old(db.Snapshot()), buyerId, productId))
  {
    var product := PR.GetById(db.Snapshot(), productId);
    if product.None? {
      return Err(ServiceError(404, "Product not found"));
    }
    var p := product.value;
    if p.isBlinded {
      return Err(ServiceError(400, "Blinded product cannot be purchased"));
    }
    if p.sellerId == buyerId {
      return Err(ServiceError(400, "Cannot buy your own product"));
    }
    var changed := PR.MarkSoldIfAvailable(db, productId);
    if !changed {
      return Err(ServiceError(409, "Product is already sold or unavailable"));
    }
    var purchase := PuR.Create(db, NewPurchase(buyerId, p.sellerId, productId, p.price));
    var item := CR.GetItem(db.Snapshot(), buyerId, productId);
    if item.Some? {
      CR.Delete(db, item.value);
    }
    r := Ok(purchase);
  }

  /** One pass of the checkout loop on the session, with the effect of `CheckoutItem`. */
  method CheckoutStep(db: Session, buyerId: int, item: CartItem) returns (bought: Option<Purchase>)
    modifies db
    ensures (db.Snapshot(), bought) == CheckoutItem(old(db.Snapshot()), buyerId, item)
  {
    var product := PR.GetById(db.Snapshot(), item.productId);
    if product.None? || product.value.sellerId == buyerId {
      return None;
    }
    var changed := PR.MarkSoldIfAvailable(db, item.productId);
    if !changed {
      return None;
    }
    var purchase := PuR.Create(db, NewPurchase(buyerId, product.value.sellerId, item.productId, product.value.price));
    CR.Delete(db, item);
    bought := Some(purchase);
  }

  /** The checkout loop on the session, with the effect of `Checkout`. */
  method CheckoutLoop(db: Session, buyerId: int, items: seq<CartItem>) returns (purchases: seq<Purchase>)
    modifies db
    ensures (db.Snapshot(), purchases) == Checkout(old(db.Snapshot()), buyerId, items)
  {
    ghost var t0 := db.Snapshot();
    purchases := [];
    for i := 0 to |items|
      invariant (db.Snapshot(), purchases) == Checkout(t0, buyerId, items[..i])
    {
      assert items[..i + 1][..i] == items[..i];
      var bought := CheckoutStep(db, buyerId, items[i]);
      if bought.Some? {
        purchases := purchases + [bought.value];
      }
    }
    assert items[..|items|] == items;
  }

  method BuySelectedCartItems(db: Session, buyerId: int) returns (r: Result<seq<Purchase>>)
    modifies db
    ensures db.Snapshot() == After(old(db.Snapshot()), BuySelectedOutcome(old(db.Snapshot()), buyerId))
    ensures r == Returned(BuySelectedOutcome(old(db.Snapshot()), buyerId))
  {
    var items := CR.ListSelected(db.Snapshot(), buyerId);
    if |items| == 0 {
      return Err(ServiceError(400, "No selected cart items"));
    }
    ghost var t0 := db.Snapshot();
    var purchases := CheckoutLoop(db, buyerId, items);
    if |purchases| == 0 {
      NothingBoughtNothingChanged(t0, buyerId, items);
      return Err(ServiceError(400, "No purchasable selected items"));
    }
    r := Ok(purchases);
  }
}

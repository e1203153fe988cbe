/**
 * Whole-system properties over any sequence of whole service calls. The headline:
 * a listing is sold at most once, because the gate fires only from ON_SALE and no
 * operation takes a listing out of SOLD. Calls are atomic here; the interleaving of
 * statements inside concurrent requests is not modelled.
 */
module Invariants {
  import opened Entities
  import opened Errors
  import opened Database
  import opened Seqs
  import PR = ProductRepository
  import CR = CartRepository
  import PuR = PurchaseRepository
  import PS = ProductService
  import CS = CartService
  import PuS = PurchaseService
  import AS = AuthService

  function CartItemId(c: CartItem): int { c.id }

  function CartPair(c: CartItem): (int, int) { (c.userId, c.productId) }

  function PurchasedListing(p: Purchase): int { p.productId }

  /** The keys the shared counter hands out next have not been used. */
  ghost predicate FreshKeys(t: Tables) {
    && (forall k :: k in t.products ==> k < t.nextId)
    && (forall c :: c in t.cart ==> c.id < t.nextId)
  }

  /** Every purchase is of a listing that is still there and SOLD. */
  ghost predicate SalesFinal(t: Tables) {
    forall x :: x in t.purchases ==> x.productId in t.products && t.products[x.productId].status == Sold
  }

  /**
   * What every reachable state satisfies: fresh keys, cart rows with distinct ids,
   * at most one cart row per (user, listing) (`uq_cart_user_product`), sold
   * listings stay, and at most one purchase per listing.
   */
  ghost predicate Valid(t: Tables) {
    && FreshKeys(t)
    && Distinct(t.cart, CartItemId)
    && Distinct(t.cart, CartPair)
    && SalesFinal(t)
    && Distinct(t.purchases, PurchasedListing)
  }

  // ---------------------------------------------------------------- cart edits

  lemma SaveKeepsValid(t: Tables, c: CartItem, row: CartItem)
    requires Valid(t) && c in t.cart
    requires row.id == c.id && row.userId == c.userId && row.productId == c.productId
    ensures Valid(CR.Save(t, row))
  {
    var before, after := t.cart, CR.Save(t, row).cart;
    var k :| 0 <= k < |before| && before[k] == c;
    forall i | 0 <= i < |before|
      ensures CartItemId(after[i]) == CartItemId(before[i]) && CartPair(after[i]) == CartPair(before[i])
    {
      if before[i].id == row.id {
        assert CartItemId(before[i]) == CartItemId(before[k]);
        assert i == k;
      }
    }
  }

  lemma RemoveKeepsValid(t: Tables, itemId: int)
    requires Valid(t)
    ensures Valid(CR.Remove(t, itemId)) && Keeps(t, CR.Remove(t, itemId))
  {
    FilterDistinct(t.cart, CR.Other(itemId), CartItemId);
    FilterDistinct(t.cart, CR.Other(itemId), CartPair);
  }

  lemma InsertKeepsValid(t: Tables, userId: int, productId: int)
    requires Valid(t) && CR.GetItem(t, userId, productId).None?
    ensures Valid(CR.Insert(t, NewCartItem(userId, productId)).0)
  {
    var (t1, row) := CR.Insert(t, NewCartItem(userId, productId));
    forall i, j | 0 <= i < j < |t1.cart|
      ensures CartItemId(t1.cart[i]) != CartItemId(t1.cart[j]) && CartPair(t1.cart[i]) != CartPair(t1.cart[j])
    {
      if j == |t.cart| {
        assert t1.cart[i] == t.cart[i] && t.cart[i] in t.cart;
      }
    }
  }

  // ---------------------------------------------------------------- a sale

  /** Marking an unsold listing SOLD and recording its one purchase keeps the state valid. */
  lemma SaleKeepsValid(t: Tables, productId: int, purchase: Purchase, t1: Tables)
    requires Valid(t) && productId in t.products && t.products[productId].status != Sold
    requires t1.products == t.products[productId := t.products[productId].(status := Sold)]
    requires t1.purchases == t.purchases + [purchase] && purchase.productId == productId
    requires t1.cart == t.cart && t1.nextId >= t.nextId
    ensures Valid(t1)
  {
    forall i, j | 0 <= i < j < |t1.purchases|
      ensures PurchasedListing(t1.purchases[i]) != PurchasedListing(t1.purchases[j])
    {
      if j == |t.purchases| {
        assert t1.purchases[i] in t.purchases;
      }
    }
  }

  lemma BuyNowKeepsValid(t: Tables, buyerId: int, productId: int)
    requires Valid(t)
    ensures Valid(After(t, PuS.BuyNowOutcome(t, buyerId, productId)))
    ensures Keeps(t, After(t, PuS.BuyNowOutcome(t, buyerId, productId)))
  {
    var r := PuS.BuyNowOutcome(t, buyerId, productId);
    if r.Ok? {
      var p := t.products[productId];
      var (t1, _) := PR.TryMarkSold(t, productId);
      var (t2, purchase) := PuR.Append(t1, NewPurchase(buyerId, p.sellerId, productId, p.price));
      SaleKeepsValid(t, productId, purchase, t2);
      assert r.value.0 == PuS.DropFromCart(t2, buyerId, productId);
      match CR.GetItem(t2, buyerId, productId)
      case Some(c) => RemoveKeepsValid(t2, c.id);
      case None =>
    }
  }

  lemma CheckoutItemKeepsValid(t: Tables, buyerId: int, item: CartItem)
    requires Valid(t)
    ensures Valid(PuS.CheckoutItem(t, buyerId, item).0)
  {
    if PuS.CheckoutItem(t, buyerId, item).1.Some? {
      var p := t.products[item.productId];
      var (t1, _) := PR.TryMarkSold(t, item.productId);
      var (t2, purchase) := PuR.Append(t1, NewPurchase(buyerId, p.sellerId, item.productId, p.price));
      SaleKeepsValid(t, item.productId, purchase, t2);
      RemoveKeepsValid(t2, item.id);
    }
  }

  lemma {:induction false} CheckoutKeepsValid(t: Tables, buyerId: int, items: seq<CartItem>)
    requires Valid(t)
    ensures Valid(PuS.Checkout(t, buyerId, items).0)
    decreases |items|
  {
    if items != [] {
      CheckoutKeepsValid(t, buyerId, items[..|items| - 1]);
      CheckoutItemKeepsValid(PuS.Checkout(t, buyerId, items[..|items| - 1]).0, buyerId, items[|items| - 1]);
    }
  }

  // ---------------------------------------------------------------- every operation

  /** The service calls a client can make. */
  datatype Op =
    | SignUp(data: AS.SignupData, hash: string -> string)
    | CreateProduct(sellerId: int, create: PS.ProductCreate)
    | UpdateProduct(userId: int, productId: int, update: PS.ProductUpdate)
    | DeleteProduct(userId: int, productId: int)
    | Blind(productId: int, reason: string)
    | Unblind(productId: int)
    | AddToCart(userId: int, add: CS.CartItemCreate)
    | UpdateCartItem(userId: int, itemId: int, edit: CS.CartItemUpdate)
    | DeleteCartItem(userId: int, itemId: int)
    | BuyNow(buyerId: int, productId: int)
    | BuySelected(buyerId: int)

  lemma ProductOpKeepsValid(t: Tables, t1: Tables, productId: int)
    requires Valid(t)
    requires t1.cart == t.cart && t1.purchases == t.purchases && t1.nextId >= t.nextId
    requires productId in t.products && t.products[productId].status == Sold ==>
               productId in t1.products && t1.products[productId].status == Sold
    requires forall k :: k != productId ==> (k in t1.products <==> k in t.products)
    requires forall k :: k != productId && k in t.products ==> t1.products[k] == t.products[k]
    requires productId in t1.products ==> productId < t1.nextId
    ensures Valid(t1) && Keeps(t, t1)
  {
  }

  lemma CreateKeepsValid(t: Tables, sellerId: int, create: PS.ProductCreate)
    requires Valid(t)
    ensures var t1 := After(t, PS.CreateOutcome(t, sellerId, create));
            Valid(t1) && Keeps(t, t1)
  {
    ProductOpKeepsValid(t, After(t, PS.CreateOutcome(t, sellerId, create)), t.nextId);
  }

  lemma ListingUpdateKeepsValid(t: Tables, userId: int, productId: int, update: PS.ProductUpdate)
    requires Valid(t)
    ensures var t1 := After(t, PS.UpdateOutcome(t, userId, productId, update));
            Valid(t1) && Keeps(t, t1)
  {
    ProductOpKeepsValid(t, After(t, PS.UpdateOutcome(t, userId, productId, update)), productId);
  }

  lemma ListingDeleteKeepsValid(t: Tables, userId: int, productId: int)
    requires Valid(t)
    ensures var t1 := After(t, PS.DeleteOutcome(t, userId, productId));
            Valid(t1) && Keeps(t, t1)
  {
    ProductOpKeepsValid(t, After(t, PS.DeleteOutcome(t, userId, productId)), productId);
  }

  lemma ModerationKeepsValid(t: Tables, productId: int, reason: string)
    requires Valid(t)
    ensures var t1 := After(t, PS.BlindOutcome(t, productId, reason));
            Valid(t1) && Keeps(t, t1)
    ensures var t1 := After(t, PS.UnblindOutcome(t, productId));
            Valid(t1) && Keeps(t, t1)
  {
    ProductOpKeepsValid(t, After(t, PS.BlindOutcome(t, productId, reason)), productId);
    ProductOpKeepsValid(t, After(t, PS.UnblindOutcome(t, productId)), productId);
  }

  lemma SignupKeepsValid(t: Tables, data: AS.SignupData, hash: string -> string)
    requires Valid(t)
    ensures var t1 := After(t, AS.SignupOutcome(t, data, hash));
            Valid(t1) && Keeps(t, t1)
  {
  }

  lemma AddKeepsValid(t: Tables, userId: int, payload: CS.CartItemCreate)
    requires Valid(t)
    ensures Valid(After(t, CS.AddOutcome(t, userId, payload)))
    ensures Keeps(t, After(t, CS.AddOutcome(t, userId, payload)))
  {
    if CS.AddOutcome(t, userId, payload).Ok? {
      match CR.GetItem(t, userId, payload.productId)
      case Some(c) => SaveKeepsValid(t, c, c.(quantity := 1, selected := true));
      case None => InsertKeepsValid(t, userId, payload.productId);
    }
  }

  lemma CartUpdateKeepsValid(t: Tables, userId: int, itemId: int, payload: CS.CartItemUpdate)
    requires Valid(t)
    ensures Valid(After(t, CS.UpdateOutcome(t, userId, itemId, payload)))
    ensures Keeps(t, After(t, CS.UpdateOutcome(t, userId, itemId, payload)))
  {
    var r := CS.UpdateOutcome(t, userId, itemId, payload);
    if r.Ok? {
      var c := CR.GetItemById(t, userId, itemId).value;
      assert r.value.0 == CR.Save(t, r.value.1);
      SaveKeepsValid(t, c, r.value.1);
    }
  }

  /** One call from a valid state: the state after it, which is valid again and keeps the history. */
  function Apply(t: Tables, op: Op): (r: Tables)
    requires Valid(t)
    ensures Valid(r) && Keeps(t, r)
  {
    match op
    case SignUp(data, hash) =>
      SignupKeepsValid(t, data, hash);
      After(t, AS.SignupOutcome(t, data, hash))
    case CreateProduct(sellerId, create) =>
      CreateKeepsValid(t, sellerId, create);
      After(t, PS.CreateOutcome(t, sellerId, create))
    case UpdateProduct(userId, productId, update) =>
      ListingUpdateKeepsValid(t, userId, productId, update);
      After(t, PS.UpdateOutcome(t, userId, productId, update))
    case DeleteProduct(userId, productId) =>
      ListingDeleteKeepsValid(t, userId, productId);
      After(t, PS.DeleteOutcome(t, userId, productId))
    case Blind(productId, reason) =>
      ModerationKeepsValid(t, productId, reason);
      After(t, PS.BlindOutcome(t, productId, reason))
    case Unblind(productId) =>
      ModerationKeepsValid(t, productId, "");
      After(t, PS.UnblindOutcome(t, productId))
    case AddToCart(userId, add) =>
      AddKeepsValid(t, userId, add);
      After(t, CS.AddOutcome(t, userId, add))
    case UpdateCartItem(userId, itemId, edit) =>
      CartUpdateKeepsValid(t, userId, itemId, edit);
      After(t, CS.UpdateOutcome(t, userId, itemId, edit))
    case DeleteCartItem(userId, itemId) =>
      RemoveKeepsValid(t, itemId);
      After(t, CS.DeleteOutcome(t, userId, itemId))
    case BuyNow(buyerId, productId) =>
      BuyNowKeepsValid(t, buyerId, productId);
      After(t, PuS.BuyNowOutcome(t, buyerId, productId))
    case BuySelected(buyerId) =>
      CheckoutKeepsValid(t, buyerId, CR.ListSelected(t, buyerId));
      CheckoutKeepsHistory(t, buyerId, CR.ListSelected(t, buyerId));
      After(t, PuS.BuySelectedOutcome(t, buyerId))
  }

  /** The calls one after another, from a valid state; every state on the way is valid. */
  function Run(t: Tables, ops: seq<Op>): (r: Tables)
    requires Valid(t)
    ensures Valid(r)
    decreases |ops|
  {
    if ops == [] then t else Run(Apply(t, ops[0]), ops[1..])
  }

  // ---------------------------------------------------------------- history is never rewritten

  /** From `t` to `t1` the ledger only grew and every SOLD listing is still there and SOLD. */
  ghost predicate Keeps(t: Tables, t1: Tables) {
    && t.purchases <= t1.purchases
    && forall pid :: pid in t.products && t.products[pid].status == Sold ==>
         pid in t1.products && t1.products[pid].status == Sold
  }

  lemma {:induction false} CheckoutKeepsHistory(t: Tables, buyerId: int, items: seq<CartItem>)
    ensures Keeps(t, PuS.Checkout(t, buyerId, items).0)
    decreases |items|
  {
    if items != [] {
      var t1 := PuS.Checkout(t, buyerId, items[..|items| - 1]).0;
      CheckoutKeepsHistory(t, buyerId, items[..|items| - 1]);
      var t2 := PuS.CheckoutItem(t1, buyerId, items[|items| - 1]).0;
      assert Keeps(t1, t2);
    }
  }

  lemma {:induction false} RunKeepsHistory(t: Tables, ops: seq<Op>)
    requires Valid(t)
    ensures Keeps(t, Run(t, ops))
    decreases |ops|
  {
    if ops != [] {
      var t1 := Apply(t, ops[0]);
      RunKeepsHistory(t1, ops[1..]);
    }
  }

  /** Whatever calls are made from an empty database, no listing is bought twice. */
  lemma AtMostOneSalePerListing(ops: seq<Op>)
    ensures var t := Run(Empty(), ops);
            forall i, j :: 0 <= i < j < |t.purchases| ==> t.purchases[i].productId != t.purchases[j].productId
  {
    var t := Run(Empty(), ops);
    forall i, j | 0 <= i < j < |t.purchases| ensures t.purchases[i].productId != t.purchases[j].productId {
      assert PurchasedListing(t.purchases[i]) != PurchasedListing(t.purchases[j]);
    }
  }

  /**
   * Once a listing is SOLD, every later "buy now" on it fails, whatever happened in
   * between; a buyer other than the seller gets 409 unless the listing was blinded since.
   */
  lemma LaterBuyersConflict(t: Tables, ops: seq<Op>, productId: int, buyerId: int)
    requires Valid(t) && productId in t.products && t.products[productId].status == Sold
    ensures var t1 := Run(t, ops);
            && productId in t1.products && t1.products[productId].status == Sold
            && PuS.BuyNowOutcome(t1, buyerId, productId).Err?
            && (!t1.products[productId].isBlinded && t1.products[productId].sellerId != buyerId ==>
                  PuS.BuyNowOutcome(t1, buyerId, productId) == Err(ServiceError(409, "Product is already sold or unavailable")))
  {
    RunKeepsHistory(t, ops);
  }

  /** `buy_now` by one buyer after another on the same listing, and how many of them succeeded. */
  function BuyNowRound(t: Tables, productId: int, buyers: seq<int>): (Tables, nat)
    decreases |buyers|
  {
    if buyers == [] then (t, 0)
    else
      var r := PuS.BuyNowOutcome(t, buyers[0], productId);
      var (t1, n) := BuyNowRound(After(t, r), productId, buyers[1..]);
      (t1, if r.Ok? then n + 1 else n)
  }

  /** However many buyers try, at most one "buy now" on a listing succeeds, and none once it is SOLD. */
  lemma {:induction false} OneWinner(t: Tables, productId: int, buyers: seq<int>)
    ensures BuyNowRound(t, productId, buyers).1 <= 1
    ensures productId in t.products && t.products[productId].status == Sold ==> BuyNowRound(t, productId, buyers).1 == 0
    decreases |buyers|
  {
    if buyers != [] {
      var r := PuS.BuyNowOutcome(t, buyers[0], productId);
      OneWinner(After(t, r), productId, buyers[1..]);
    }
  }

  // ---------------------------------------------------------------- consequences for the buyer

  /** After a successful "buy now" the buyer's cart holds no row for the listing; the unique key guarantees it. */
  lemma BuyNowClearsCart(t: Tables, buyerId: int, productId: int)
    requires Valid(t) && PuS.BuyNowOutcome(t, buyerId, productId).Ok?
    ensures CR.GetItem(PuS.BuyNowOutcome(t, buyerId, productId).value.0, buyerId, productId).None?
  {
    var t1 := PuS.BuyNowOutcome(t, buyerId, productId).value.0;
    var found := CR.GetItem(t, buyerId, productId);
    if found.Some? {
      var c := found.value;
      forall x | x in t.cart && CartPair(x) == CartPair(c) ensures x == c {
        var i :| 0 <= i < |t.cart| && t.cart[i] == x;
        var k :| 0 <= k < |t.cart| && t.cart[k] == c;
        assert CartPair(t.cart[i]) == CartPair(t.cart[k]);
      }
      assert forall x :: x in t1.cart ==> x in t.cart && x.id != c.id;
    }
  }

  /** The purchase a "buy now" records shows up in the buyer's history and in the seller's. */
  lemma PurchaseInBothHistories(t: Tables, buyerId: int, productId: int)
    requires PuS.BuyNowOutcome(t, buyerId, productId).Ok?
    ensures var (t1, purchase) := PuS.BuyNowOutcome(t, buyerId, productId).value;
            && purchase in PuR.ListByBuyer(t1, buyerId)
            && purchase in PuR.ListBySeller(t1, t.products[productId].sellerId)
  {
    var (t1, purchase) := PuS.BuyNowOutcome(t, buyerId, productId).value;
    assert purchase in t1.purchases;
  }

  /**
   * In a valid state the selected rows name distinct listings, so a checkout of them
   * settles exactly as `PurchaseService.Settled` describes.
   */
  lemma SelectedCheckoutSettles(t: Tables, buyerId: int)
    requires Valid(t)
    ensures var items := CR.ListSelected(t, buyerId);
            var (t1, purchases) := PuS.Checkout(t, buyerId, items);
            PuS.Settled(t, buyerId, items, t1, purchases)
  {
    var items := CR.ListSelected(t, buyerId);
    FilterDistinct(t.cart, CR.SelectedBy(buyerId), CartPair);
    forall i, j | 0 <= i < j < |items| ensures items[i].productId != items[j].productId {
      assert items[i] in items && items[j] in items;
      assert CartPair(items[i]) != CartPair(items[j]);
    }
    PuS.CheckoutSettles(t, buyerId, items);
  }
}

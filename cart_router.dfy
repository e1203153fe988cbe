/**
 * backend/app/routers/cart.py: the cart endpoints. `list_cart` prices every row at
 * the listing's current price; the others turn a ServiceError into an HTTPException
 * with the same status and message.
 */
module CartRouter {
  import opened Entities
  import opened Errors
  import opened Database
  import opened Seqs
  import CartService

  /** One entry of `CartResponse.items`. */
  datatype CartLine = CartLine(
    id: int,
    productId: int,
    title: string,
    status: ProductStatus,
    price: int,
    quantity: int,
    selected: bool,
    subtotal: int)

  datatype CartResponse = CartResponse(items: seq<CartLine>, totalAmount: int)

  function IsSelected(l: CartLine): bool { l.selected }

  /** The sum of the subtotals of the selected lines. */
  function SelectedTotal(lines: seq<CartLine>): int {
    if lines == [] then 0
    else
      var last := lines[|lines| - 1];
      SelectedTotal(lines[..|lines| - 1]) + (if last.selected then last.subtotal else 0)
  }

  /** Unselected lines add nothing: the total is that of the selected lines alone. */
  lemma {:induction false} SelectedTotalOfSelected(lines: seq<CartLine>)
    ensures SelectedTotal(lines) == SelectedTotal(Filter(lines, IsSelected))
  {
    if lines != [] {
      var init, last := lines[..|lines| - 1], lines[|lines| - 1];
      assert lines == init + [last];
      FilterSnoc(init, last, IsSelected);
      SelectedTotalOfSelected(init);
      var f := Filter(init, IsSelected);
      assert SelectedTotal(lines) == SelectedTotal(init) + (if last.selected then last.subtotal else 0);
      if last.selected {
        assert (f + [last])[..|f + [last]| - 1] == f;
        assert SelectedTotal(f + [last]) == SelectedTotal(f) + last.subtotal;
      } else {
        assert Filter(lines, IsSelected) == f;
      }
    }
  }

  /** With nothing selected the total is 0. */
  lemma {:induction false} NothingSelectedTotalsZero(lines: seq<CartLine>)
    requires forall i :: 0 <= i < |lines| ==> !lines[i].selected
    ensures SelectedTotal(lines) == 0
  {
    if lines != [] {
      NothingSelectedTotalsZero(lines[..|lines| - 1]);
    }
  }

  /** One line of `list_cart`: the row with its listing's live title, status and price. */
  function LineOf(c: CartItem, p: Product): (line: CartLine)
    ensures line.id == c.id && line.productId == c.productId
    ensures line.quantity == c.quantity && line.selected == c.selected
    ensures line.title == p.title && line.status == p.status && line.price == p.price
    ensures line.subtotal == c.quantity * p.price
  {
    CartLine(c.id, c.productId, p.title, p.status, p.price, c.quantity, c.selected, c.quantity * p.price)
  }

  /**
   * The loop of `list_cart` over `items`: each row with its listing's live title,
   * status and price and a subtotal of quantity times that price; the total adds up
   * the selected subtotals. A row whose listing was deleted makes the loop fail on
   * `item.product.price`, which ends in the generic 500.
   */
  method BuildLines(items: seq<CartItem>, products: map<int, Product>) returns (r: Reply<CartResponse>)
    ensures r.Crashed? <==> exists i :: 0 <= i < |items| && items[i].productId !in products
    ensures !r.Raised?
    ensures r.Answer? ==>
              && |r.value.items| == |items|
              && (forall i :: 0 <= i < |items| ==> r.value.items[i] == LineOf(items[i], products[items[i].productId]))
              && r.value.totalAmount == SelectedTotal(r.value.items)
  {
    var lines: seq<CartLine> := [];
    var total := 0;
    for i := 0 to |items|
      invariant |lines| == i
      invariant forall j :: 0 <= j < i ==> items[j].productId in products
      invariant forall j :: 0 <= j < i ==> lines[j] == LineOf(items[j], products[items[j].productId])
      invariant total == SelectedTotal(lines)
    {
      var item := items[i];
      if item.productId !in products {
        return Crashed;
      }
      var product := products[item.productId];
      var subtotal := item.quantity * product.price;
      if item.selected {
        total := total + subtotal;
      }
      var line := CartLine(item.id, item.productId, product.title, product.status, product.price,
                           item.quantity, item.selected, subtotal);
      assert (lines + [line])[..i] == lines;
      lines := lines + [line];
    }
    r := Answer(CartResponse(lines, total));
  }

  /** `list_cart`: the caller's cart rows, newest first, priced as `BuildLines` prices them. */
  method ListCart(db: Session, userId: int) returns (r: Reply<CartResponse>)
    ensures var items := CartService.ListOutcome(db.Snapshot(), userId);
      && (r.Crashed? <==> exists i :: 0 <= i < |items| && items[i].productId !in db.products)
      && !r.Raised?
      && (r.Answer? ==>
            && |r.value.items| == |items|
            && (forall i :: 0 <= i < |items| ==> r.value.items[i] == LineOf(items[i], db.products[items[i].productId]))
            && r.value.totalAmount == SelectedTotal(r.value.items))
  {
    var items := CartService.ListOutcome(db.Snapshot(), userId);
    r := BuildLines(items, db.products);
  }

  function ItemId(c: CartItem): int { c.id }

  function CartUpdated(c: CartItem): string { "Cart updated" }

  function CartItemDeleted(u: ()): string { "Cart item deleted" }

  /** `add_to_cart`: the new row's id, or the service's error re-raised. */
  method AddToCart(db: Session, userId: int, payload: CartService.CartItemCreate) returns (r: Reply<int>)
    modifies db
    ensures db.Snapshot() == After(old(db.Snapshot()), CartService.AddOutcome(old(db.Snapshot()), userId, payload))
    ensures r == Guard(Returned(CartService.AddOutcome(old(db.Snapshot()), userId, payload)), ItemId)
  {
    var res := CartService.Add(db, userId, payload);
    r := Guard(res, ItemId);
  }

  /** `update_cart_item`. */
  method UpdateCartItem(db: Session, userId: int, itemId: int, payload: CartService.CartItemUpdate) returns (r: Reply<string>)
    modifies db
    ensures db.Snapshot() == After(old(db.Snapshot()), CartService.UpdateOutcome(old(db.Snapshot()), userId, itemId, payload))
    ensures r == Guard(Returned(CartService.UpdateOutcome(old(db.Snapshot()), userId, itemId, payload)), CartUpdated)
  {
    var res := CartService.Update(db, userId, itemId, payload);
    r := Guard(res, CartUpdated);
  }

  /** `delete_cart_item`. */
  method DeleteCartItem(db: Session, userId: int, itemId: int) returns (r: Reply<string>)
    modifies db
    ensures db.Snapshot() == After(old(db.Snapshot()), CartService.DeleteOutcome(old(db.Snapshot()), userId, itemId))
    ensures r == Guard(Returned(CartService.DeleteOutcome(old(db.Snapshot()), userId, itemId)), CartItemDeleted)
  {
    var res := CartService.Delete(db, userId, itemId);
    r := Guard(res, CartItemDeleted);
  }
}

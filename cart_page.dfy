/**
 * frontend/app/cart/page.tsx: the cart screen's optimistic next states. Each edit
 * first shows a locally recomputed cart, then sends the request. The screen keeps
 * the backend's `CartResponse` shape.
 */
module CartPage {
  import opened Entities
  import opened Seqs
  import opened CartRouter

  /** `reduce((sum, item) => sum + item.price * item.quantity, 0)`, folded left to right. */
  function PriceTimesQuantitySum(lines: seq<CartLine>): int {
    if lines == [] then 0
    else
      var last := lines[|lines| - 1];
      PriceTimesQuantitySum(lines[..|lines| - 1]) + last.price * last.quantity
  }

  /** The client's total: price times quantity over the selected lines. */
  function ClientTotal(lines: seq<CartLine>): int {
    PriceTimesQuantitySum(Filter(lines, IsSelected))
  }

  /** `recalculateTotal`: the same lines with the client's total. */
  function RecalculateTotal(cart: CartResponse): (r: CartResponse)
    ensures r.items == cart.items
    ensures r.totalAmount == ClientTotal(cart.items)
  {
    cart.(totalAmount := ClientTotal(cart.items))
  }

  /** A line whose subtotal is its price times its quantity, as `list_cart` builds it. */
  predicate Priced(l: CartLine) {
    l.subtotal == l.price * l.quantity
  }

  lemma {:induction false} SumOfSelectedSubtotals(lines: seq<CartLine>)
    requires forall i :: 0 <= i < |lines| ==> lines[i].selected && Priced(lines[i])
    ensures PriceTimesQuantitySum(lines) == SelectedTotal(lines)
  {
    if lines != [] {
      SumOfSelectedSubtotals(lines[..|lines| - 1]);
    }
  }

  /** Over lines priced as `list_cart` prices them, the client's total is the server's. */
  lemma ClientTotalIsServerTotal(lines: seq<CartLine>)
    requires forall i :: 0 <= i < |lines| ==> Priced(lines[i])
    ensures ClientTotal(lines) == SelectedTotal(lines)
  {
    var f := Filter(lines, IsSelected);
    forall i | 0 <= i < |f| ensures f[i].selected && Priced(f[i]) {
      assert f[i] in f;
    }
    SumOfSelectedSubtotals(f);
    SelectedTotalOfSelected(lines);
  }

  /** Recomputing the total of a cart as `list_cart` returns it changes nothing. */
  lemma RecalculateKeepsServerCart(cart: CartResponse)
    requires forall i :: 0 <= i < |cart.items| ==> Priced(cart.items[i])
    requires cart.totalAmount == SelectedTotal(cart.items)
    ensures RecalculateTotal(cart) == cart
  {
    ClientTotalIsServerTotal(cart.items);
  }

  /** The line `updateItem` shows for the edited entry: each field the client set, the rest as before. */
  function Edited(l: CartLine, itemId: int, quantity: Option<int>, selected: Option<bool>): CartLine {
    if l.id != itemId then l
    else l.(quantity := if quantity.Some? then quantity.value else l.quantity,
            selected := if selected.Some? then selected.value else l.selected)
  }

  /** `updateItem`'s next state: only the line with that id changes, then the total is recomputed. */
  function UpdateNext(cart: CartResponse, itemId: int, quantity: Option<int>, selected: Option<bool>): (r: CartResponse)
    ensures |r.items| == |cart.items|
    ensures forall i :: 0 <= i < |cart.items| && cart.items[i].id != itemId ==> r.items[i] == cart.items[i]
    ensures forall i :: 0 <= i < |cart.items| && cart.items[i].id == itemId ==>
              var l, n := cart.items[i], r.items[i];
              && n == l.(quantity := n.quantity, selected := n.selected)
              && n.quantity == (if quantity.Some? then quantity.value else l.quantity)
              && n.selected == (if selected.Some? then selected.value else l.selected)
    ensures r.totalAmount == ClientTotal(r.items)
  {
    RecalculateTotal(cart.(items := seq(|cart.items|, i requires 0 <= i < |cart.items| =>
                                          Edited(cart.items[i], itemId, quantity, selected))))
  }

  function NotId(itemId: int): CartLine -> bool {
    (l: CartLine) => l.id != itemId
  }

  function NotSelected(l: CartLine): bool { !l.selected }

  /** `deleteItem`'s next state: every line but those with that id, in order, with the total recomputed. */
  function DeleteNext(cart: CartResponse, itemId: int): (r: CartResponse)
    ensures forall l :: l in r.items <==> l in cart.items && l.id != itemId
    ensures r.items == Filter(cart.items, NotId(itemId))
    ensures r.totalAmount == ClientTotal(r.items)
  {
    RecalculateTotal(cart.(items := Filter(cart.items, NotId(itemId))))
  }

  /** `checkout`'s next state: the unselected lines, whose total is 0. */
  function CheckoutNext(cart: CartResponse): (r: CartResponse)
    ensures forall l :: l in r.items <==> l in cart.items && !l.selected
    ensures r.items == Filter(cart.items, NotSelected)
    ensures r.totalAmount == 0
  {
    var kept := Filter(cart.items, NotSelected);
    assert Filter(kept, IsSelected) == [] by {
      NoneSelected(kept);
    }
    RecalculateTotal(cart.(items := kept))
  }

  lemma {:induction false} NoneSelected(lines: seq<CartLine>)
    requires forall l :: l in lines ==> !l.selected
    ensures Filter(lines, IsSelected) == []
  {
    if lines != [] {
      var init, last := lines[..|lines| - 1], lines[|lines| - 1];
      assert lines == init + [last];
      FilterSnoc(init, last, IsSelected);
      NoneSelected(init);
    }
  }
}

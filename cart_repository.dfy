/**
 * backend/app/repositories/cart_repository.py: cart rows looked up by owner and
 * product or by id, the owner's listings, inserts and deletes.
 */
module CartRepository {
  import opened Entities
  import opened Errors
  import opened Database
  import opened Seqs

  /** Rows owned by `userId`. */
  function OwnedBy(userId: int): CartItem -> bool {
    (c: CartItem) => c.userId == userId
  }

  /** Rows owned by `userId` and ticked for checkout. */
  function SelectedBy(userId: int): CartItem -> bool {
    (c: CartItem) => c.userId == userId && c.selected
  }

  /** The row that records `productId` in the cart of `userId`. */
  function Pair(userId: int, productId: int): CartItem -> bool {
    (c: CartItem) => c.userId == userId && c.productId == productId
  }

  /** The row with primary key `itemId`, provided `userId` owns it. */
  function OwnItem(userId: int, itemId: int): CartItem -> bool {
    (c: CartItem) => c.id == itemId && c.userId == userId
  }

  /** Every row except the one with primary key `itemId`. */
  function Other(itemId: int): CartItem -> bool {
    (c: CartItem) => c.id != itemId
  }

  /** The first row in table order that satisfies `p`, as `scalar()` returns it. */
  function FirstWhere(cart: seq<CartItem>, p: CartItem -> bool): (r: Option<CartItem>)
    ensures r.None? <==> forall i :: 0 <= i < |cart| ==> !p(cart[i])
    ensures r.Some? ==> r.value in cart && p(r.value)
  {
    if cart == [] then None
    else if p(cart[0]) then Some(cart[0])
    else
      var r := FirstWhere(cart[1..], p);
      assert forall i :: 1 <= i < |cart| ==> cart[i] == cart[1..][i - 1];
      r
  }

  /** `get_item`. */
  function GetItem(t: Tables, userId: int, productId: int): (r: Option<CartItem>)
    ensures r.None? <==> forall c :: c in t.cart ==> !(c.userId == userId && c.productId == productId)
    ensures r.Some? ==> r.value in t.cart && r.value.userId == userId && r.value.productId == productId
  {
    FirstWhere(t.cart, Pair(userId, productId))
  }

  /** `get_item_by_id`: a row of another user is not found. */
  function GetItemById(t: Tables, userId: int, itemId: int): (r: Option<CartItem>)
    ensures r.None? <==> forall c :: c in t.cart ==> !(c.id == itemId && c.userId == userId)
    ensures r.Some? ==> r.value in t.cart && r.value.id == itemId && r.value.userId == userId
  {
    FirstWhere(t.cart, OwnItem(userId, itemId))
  }

  /** `list_items`: the user's rows, newest first. */
  function ListItems(t: Tables, userId: int): (r: seq<CartItem>)
    ensures multiset(r) == multiset(Filter(t.cart, OwnedBy(userId)))
    ensures forall c :: c in r <==> c in t.cart && c.userId == userId
    ensures SortedBy(r, CartCreatedAt, true)
  {
    SortBy(Filter(t.cart, OwnedBy(userId)), CartCreatedAt, true)
  }

  /** `list_selected`: the user's ticked rows, in table order. */
  function ListSelected(t: Tables, userId: int): (r: seq<CartItem>)
    ensures forall c :: c in r <==> c in t.cart && c.userId == userId && c.selected
    ensures |r| <= |t.cart|
  {
    Filter(t.cart, SelectedBy(userId))
  }

  /** `create`: the flush assigns the next primary key and stamps `created_at`. */
  function Insert(t: Tables, item: CartItem): (r: (Tables, CartItem))
    ensures r.1 == item.(id := t.nextId, createdAt := t.clock)
    ensures r.0.cart == t.cart + [r.1]
    ensures r.0.nextId == t.nextId + 1 && r.0.clock == t.clock + 1
    ensures r.0.users == t.users && r.0.products == t.products && r.0.purchases == t.purchases
  {
    var row := item.(id := t.nextId, createdAt := t.clock);
    (t.(cart := t.cart + [row], nextId := t.nextId + 1, clock := t.clock + 1), row)
  }

  /** `delete`: the row with that primary key leaves the table; the others keep their order. */
  function Remove(t: Tables, itemId: int): (r: Tables)
    ensures forall c :: c in r.cart <==> c in t.cart && c.id != itemId
    ensures r.cart == Filter(t.cart, Other(itemId))
    ensures r == t.(cart := r.cart)
  {
    t.(cart := Filter(t.cart, Other(itemId)))
  }

  /** The rows with `item`'s primary key replaced by `item`. */
  function Replaced(cart: seq<CartItem>, item: CartItem): (r: seq<CartItem>)
    ensures |r| == |cart|
    ensures forall i :: 0 <= i < |cart| ==> r[i] == if cart[i].id == item.id then item else cart[i]
  {
    seq(|cart|, i requires 0 <= i < |cart| => if cart[i].id == item.id then item else cart[i])
  }

  /** Flushing an edited row: the row with the same primary key takes the new values. */
  function Save(t: Tables, item: CartItem): (r: Tables)
    ensures r.cart == Replaced(t.cart, item)
    ensures r == t.(cart := r.cart)
  {
    t.(cart := Replaced(t.cart, item))
  }

  /**
   * After the row a lookup found is edited and flushed, the same lookup finds the
   * edited row, provided the edit keeps it matching.
   */
  lemma {:induction false} LookupAfterSave(cart: seq<CartItem>, p: CartItem -> bool, c: CartItem, item: CartItem)
    requires FirstWhere(cart, p) == Some(c) && c.id == item.id && p(item)
    ensures FirstWhere(Replaced(cart, item), p) == Some(item)
  {
    var r := Replaced(cart, item);
    if cart[0].id == item.id {
      assert r[0] == item;
    } else {
      assert !p(cart[0]);
      assert r[0] == cart[0];
      assert r[1..] == Replaced(cart[1..], item);
      LookupAfterSave(cart[1..], p, c, item);
    }
  }

  /** A product enters a user's cart once: after an insert for a pair that had no row, `get_item` finds the new row. */
  lemma InsertThenGetItem(t: Tables, userId: int, productId: int)
    requires GetItem(t, userId, productId).None?
    ensures var (t1, row) := Insert(t, NewCartItem(userId, productId));
            GetItem(t1, userId, productId) == Some(row)
  {
    var (t1, row) := Insert(t, NewCartItem(userId, productId));
    FirstWhereAppend(t.cart, row, Pair(userId, productId));
  }

  lemma {:induction false} FirstWhereAppend(cart: seq<CartItem>, x: CartItem, p: CartItem -> bool)
    requires forall i :: 0 <= i < |cart| ==> !p(cart[i])
    requires p(x)
    ensures FirstWhere(cart + [x], p) == Some(x)
  {
    if cart == [] {
    } else {
      assert (cart + [x])[1..] == cart[1..] + [x];
      FirstWhereAppend(cart[1..], x, p);
    }
  }

  method Create(db: Session, item: CartItem) returns (r: CartItem)
    modifies db
    ensures (db.Snapshot(), r) == Insert(old(db.Snapshot()), item)
  {
    r := item.(id := db.nextId, createdAt := db.clock);
    db.cart := db.cart + [r];
    db.nextId := db.nextId + 1;
    db.clock := db.clock + 1;
  }

  method Delete(db: Session, item: CartItem)
    modifies db
    ensures db.Snapshot() == Remove(old(db.Snapshot()), item.id)
  {
    db.cart := Filter(db.cart, Other(item.id));
  }

  method Update(db: Session, item: CartItem)
    modifies db
    ensures db.Snapshot() == Save(old(db.Snapshot()), item)
  {
    db.cart := Replaced(db.cart, item);
  }
}

/**
 * backend/app/services/cart_service.py: adding listings to a cart, editing and
 * removing cart rows. A secondhand listing is a single unit, so every cart row
 * has quantity 1.
 */
module CartService {
  import opened Entities
  import opened Errors
  import opened Database
  import PR = ProductRepository
  import opened CartRepository

  /** The validated `CartItemCreate` payload. */
  datatype CartItemCreate = CartItemCreate(productId: int, quantity: Quantity)

  /** The validated `CartItemUpdate` payload; `Some` marks a field the client set. */
  datatype CartItemUpdate = CartItemUpdate(quantity: Option<Quantity>, selected: Option<bool>)

  /**
   * `add`: 404 for an unknown listing, 400 for one that is not available or is the
   * caller's own; otherwise the (user, listing) row is created or reset to quantity 1
   * and selected. The requested quantity is not used.
   */
  function AddOutcome(t: Tables, userId: int, payload: CartItemCreate): (r: Result<(Tables, CartItem)>)
    ensures payload.productId !in t.products ==> r == Err(ServiceError(404, "Product not found"))
    ensures payload.productId in t.products ==> var p := t.products[payload.productId];
              && (!PR.Available(p) ==> r == Err(ServiceError(400, "Product is not available")))
              && (PR.Available(p) && p.sellerId == userId ==> r == Err(ServiceError(400, "Cannot add your own product")))
              && (PR.Available(p) && p.sellerId != userId ==> r.Ok?)
    ensures r.Ok? ==> var (t1, c) := r.value;
              && t1.products == t.products && t1.purchases == t.purchases && t1.users == t.users
              && c.userId == userId && c.productId == payload.productId && c.quantity == 1 && c.selected
              && GetItem(t1, userId, payload.productId) == Some(c)
    ensures r.Ok? ==> r.value.0 == if GetItem(t, userId, payload.productId).Some?
                                   then Save(t, r.value.1)
                                   else Insert(t, NewCartItem(userId, payload.productId)).0
  {
    match PR.GetById(t, payload.productId)
    case None => Err(ServiceError(404, "Product not found"))
    case Some(p) =>
      if !PR.Available(p) then Err(ServiceError(400, "Product is not available"))
      else if p.sellerId == userId then Err(ServiceError(400, "Cannot add your own product"))
      else
        match GetItem(t, userId, payload.productId)
        case Some(c) =>
          var row := c.(quantity := 1, selected := true);
          var t1 := Save(t, row);
          LookupAfterSave(t.cart, Pair(userId, payload.productId), c, row);
          Ok((t1, row))
        case None =>
          var (t1, row) := Insert(t, NewCartItem(userId, payload.productId));
          InsertThenGetItem(t, userId, payload.productId);
          Ok((t1, row))
  }

  /** Adding the same listing again changes nothing: a listing sits in a cart at most once. */
  lemma AddTwiceIsAddOnce(t: Tables, userId: int, payload: CartItemCreate, again: CartItemCreate)
    requires forall c :: c in t.cart ==> c.id < t.nextId
    requires AddOutcome(t, userId, payload).Ok? && again.productId == payload.productId
    ensures var (t1, c) := AddOutcome(t, userId, payload).value;
            AddOutcome(t1, userId, again) == Ok((t1, c))
  {
    var (t1, c) := AddOutcome(t, userId, payload).value;
    assert forall x :: x in t1.cart && x.id == c.id ==> x == c;
    assert Replaced(t1.cart, c) == t1.cart;
  }

  /** `list`: the caller's rows, newest first. */
  function ListOutcome(t: Tables, userId: int): (r: seq<CartItem>)
    ensures forall c :: c in r <==> c in t.cart && c.userId == userId
    ensures Seqs.SortedBy(r, CartCreatedAt, true)
  {
    ListItems(t, userId)
  }

  /**
   * `update`: 404 unless the caller owns the row; a quantity other than 1 is refused
   * before anything is set; otherwise each field the client set is stored.
   */
  function UpdateOutcome(t: Tables, userId: int, itemId: int, payload: CartItemUpdate): (r: Result<(Tables, CartItem)>)
    ensures r.Ok? <==> GetItemById(t, userId, itemId).Some? && (payload.quantity.None? || payload.quantity.value == 1)
    ensures GetItemById(t, userId, itemId).None? ==> r == Err(ServiceError(404, "Cart item not found"))
    ensures GetItemById(t, userId, itemId).Some? && payload.quantity.Some? && payload.quantity.value != 1 ==>
              r == Err(ServiceError(400, "Secondhand item quantity must be 1"))
    ensures r.Ok? ==> var (t1, c) := r.value; var old_ := GetItemById(t, userId, itemId).value;
              && c == old_.(quantity := if payload.quantity.Some? then 1 else old_.quantity,
                            selected := if payload.selected.Some? then payload.selected.value else old_.selected)
              && t1.products == t.products && t1.purchases == t.purchases && t1.users == t.users
              && GetItemById(t1, userId, itemId) == Some(c)
              && t1 == Save(t, c)
  {
    match GetItemById(t, userId, itemId)
    case None => Err(ServiceError(404, "Cart item not found"))
    case Some(item) =>
      if payload.quantity.Some? && payload.quantity.value != 1 then
        Err(ServiceError(400, "Secondhand item quantity must be 1"))
      else
        var row := item.(quantity := if payload.quantity.Some? then payload.quantity.value else item.quantity,
                         selected := if payload.selected.Some? then payload.selected.value else item.selected);
        LookupAfterSave(t.cart, OwnItem(userId, itemId), item, row);
        Ok((Save(t, row), row))
  }

  /** `delete`: 404 unless the caller owns the row; otherwise the row is gone. */
  function DeleteOutcome(t: Tables, userId: int, itemId: int): (r: Result<(Tables, ())>)
    ensures r.Err? <==> GetItemById(t, userId, itemId).None?
    ensures r.Err? ==> r.error == ServiceError(404, "Cart item not found")
    ensures r.Ok? ==> var t1 := r.value.0;
              && t1 == Remove(t, itemId)
              && (forall c :: c in t1.cart ==> c.id != itemId)
              && GetItemById(t1, userId, itemId).None?
  {
    match GetItemById(t, userId, itemId)
    case None => Err(ServiceError(404, "Cart item not found"))
    case Some(item) => Ok((Remove(t, item.id), ()))
  }

  // ---------------------------------------------------------------- methods on the session

  method Add(db: Session, userId: int, payload: CartItemCreate) returns (r: Result<CartItem>)
    modifies db
    ensures db.Snapshot() == After(old(db.Snapshot()), AddOutcome(old(db.Snapshot()), userId, payload))
    ensures r == Returned(AddOutcome(old(db.Snapshot()), userId, payload))
  {
    var product := PR.GetById(db.Snapshot(), payload.productId);
    if product.None? {
      return Err(ServiceError(404, "Product not found"));
    }
    if product.value.status != OnSale || product.value.isBlinded {
      return Err(ServiceError(400, "Product is not available"));
    }
    if product.value.sellerId == userId {
      return Err(ServiceError(400, "Cannot add your own product"));
    }
    var item := GetItem(db.Snapshot(), userId, payload.productId);
    var row;
    if item.Some? {
      row := item.value.(quantity := 1, selected := true);
      CartRepository.Update(db, row);
    } else {
      row := Create(db, NewCartItem(userId, payload.productId));
    }
    r := Ok(row);
  }

  method Update(db: Session, userId: int, itemId: int, payload: CartItemUpdate) returns (r: Result<CartItem>)
    modifies db
    ensures db.Snapshot() == After(old(db.Snapshot()), UpdateOutcome(old(db.Snapshot()), userId, itemId, payload))
    ensures r == Returned(UpdateOutcome(old(db.Snapshot()), userId, itemId, payload))
  {
    var item := GetItemById(db.Snapshot(), userId, itemId);
    if item.None? {
      return Err(ServiceError(404, "Cart item not found"));
    }
    var row := item.value;
    if payload.quantity.Some? {
      if payload.quantity.value != 1 {
        return Err(ServiceError(400, "Secondhand item quantity must be 1"));
      }
      row := row.(quantity := payload.quantity.value);
    }
    if payload.selected.Some? {
      row := row.(selected := payload.selected.value);
    }
    CartRepository.Update(db, row);
    r := Ok(row);
  }

  method Delete(db: Session, userId: int, itemId: int) returns (r: Result<()>)
    modifies db
    ensures db.Snapshot() == After(old(db.Snapshot()), DeleteOutcome(old(db.Snapshot()), userId, itemId))
    ensures r == Returned(DeleteOutcome(old(db.Snapshot()), userId, itemId))
  {
    var item := GetItemById(db.Snapshot(), userId, itemId);
    if item.None? {
      return Err(ServiceError(404, "Cart item not found"));
    }
    CartRepository.Delete(db, item.value);
    r := Ok(());
  }
}

/**
 * backend/app/services/product_service.py: create, read, update, delete and
 * moderate listings, with the ownership and SOLD checks in the source's order.
 */
module ProductService {
  import opened Entities
  import opened Errors
  import opened Database
  import PR = ProductRepository

  /** The service's own limit on a listing's images. */
  const MaxImages := 5

  /** The validated `ProductCreate` payload. */
  datatype ProductCreate = ProductCreate(
    title: string,
    price: Price,
    description: string,
    category: Category,
    condition: Condition,
    imageUrls: seq<string>)

  /** The validated `ProductUpdate` payload; `Some` marks a field the client set. */
  datatype ProductUpdate = ProductUpdate(
    title: Option<string>,
    price: Option<Price>,
    description: Option<string>,
    category: Option<Category>,
    condition: Option<Condition>,
    status: Option<ProductStatus>,
    imageUrls: Option<seq<string>>)

  /** One `setattr(product, key, value)` of the update loop. */
  datatype Assignment =
    | SetTitle(title: string)
    | SetPrice(price: int)
    | SetDescription(description: string)
    | SetCategory(category: Category)
    | SetCondition(condition: Condition)
    | SetStatus(status: ProductStatus)

  function Assign(p: Product, a: Assignment): Product {
    match a
    case SetTitle(v) => p.(title := v)
    case SetPrice(v) => p.(price := v)
    case SetDescription(v) => p.(description := v)
    case SetCategory(v) => p.(category := v)
    case SetCondition(v) => p.(condition := v)
    case SetStatus(v) => p.(status := v)
  }

  /** The assignments applied in order, as the update loop does. */
  function AssignAll(p: Product, data: seq<Assignment>): Product
    decreases |data|
  {
    if data == [] then p else AssignAll(Assign(p, data[0]), data[1..])
  }

  /** Puts the assignment of one field in front of `rest` when the client set that field. */
  function Then(a: Option<Assignment>, rest: seq<Assignment>): seq<Assignment> {
    if a.Some? then [a.value] + rest else rest
  }

  /** The assignment for the `k`-th field of the payload in declaration order, if the client set it. */
  function Slot(u: ProductUpdate, k: nat): Option<Assignment> {
    if k == 0 then (if u.title.Some? then Some(SetTitle(u.title.value)) else None)
    else if k == 1 then (if u.price.Some? then Some(SetPrice(u.price.value)) else None)
    else if k == 2 then (if u.description.Some? then Some(SetDescription(u.description.value)) else None)
    else if k == 3 then (if u.category.Some? then Some(SetCategory(u.category.value)) else None)
    else if k == 4 then (if u.condition.Some? then Some(SetCondition(u.condition.value)) else None)
    else if k == 5 then (if u.status.Some? then Some(SetStatus(u.status.value)) else None)
    else None
  }

  /** `model_dump(exclude_unset=True)` without `image_urls`: the set fields in declaration order. */
  function Dump(u: ProductUpdate): (data: seq<Assignment>)
    ensures |data| <= 6
  {
    Then(Slot(u, 0), Then(Slot(u, 1), Then(Slot(u, 2), Then(Slot(u, 3), Then(Slot(u, 4), Then(Slot(u, 5), []))))))
  }

  /**
   * What an update does to the row's columns, field by field: each field the client
   * set takes the new value, and nothing else (owner, moderation flags, images) moves.
   */
  function ApplyUpdate(p: Product, u: ProductUpdate): (r: Product)
    ensures r.id == p.id && r.sellerId == p.sellerId && r.createdAt == p.createdAt
    ensures r.isBlinded == p.isBlinded && r.blindReason == p.blindReason && r.images == p.images
    ensures u.title.Some? ==> r.title == u.title.value
    ensures u.title.None? ==> r.title == p.title
    ensures u.price.Some? ==> r.price == u.price.value
    ensures u.price.None? ==> r.price == p.price
    ensures u.description.Some? ==> r.description == u.description.value
    ensures u.description.None? ==> r.description == p.description
    ensures u.category.Some? ==> r.category == u.category.value
    ensures u.category.None? ==> r.category == p.category
    ensures u.condition.Some? ==> r.condition == u.condition.value
    ensures u.condition.None? ==> r.condition == p.condition
    ensures u.status.Some? ==> r.status == u.status.value
    ensures u.status.None? ==> r.status == p.status
  {
    p.(title := if u.title.Some? then u.title.value else p.title,
       price := if u.price.Some? then u.price.value else p.price,
       description := if u.description.Some? then u.description.value else p.description,
       category := if u.category.Some? then u.category.value else p.category,
       condition := if u.condition.Some? then u.condition.value else p.condition,
       status := if u.status.Some? then u.status.value else p.status)
  }

  /** Replaying an optional assignment and then the rest. */
  lemma AssignThen(p: Product, a: Option<Assignment>, q: Product, rest: seq<Assignment>)
    requires q == if a.Some? then Assign(p, a.value) else p
    ensures AssignAll(p, Then(a, rest)) == AssignAll(q, rest)
  {
    if a.Some? {
      assert ([a.value] + rest)[1..] == rest;
    }
  }

  /** Replaying the title, price and description assignments, then `rest`. */
  lemma ReplayListing(p: Product, u: ProductUpdate, rest: seq<Assignment>)
    ensures AssignAll(p, Then(Slot(u, 0), Then(Slot(u, 1), Then(Slot(u, 2), rest))))
         == AssignAll(p.(title := if u.title.Some? then u.title.value else p.title,
                         price := if u.price.Some? then u.price.value else p.price,
                         description := if u.description.Some? then u.description.value else p.description), rest)
  {
    var q1 := p.(title := if u.title.Some? then u.title.value else p.title);
    var q2 := q1.(price := if u.price.Some? then u.price.value else q1.price);
    var q3 := q2.(description := if u.description.Some? then u.description.value else q2.description);
    AssignThen(p, Slot(u, 0), q1, Then(Slot(u, 1), Then(Slot(u, 2), rest)));
    AssignThen(q1, Slot(u, 1), q2, Then(Slot(u, 2), rest));
    AssignThen(q2, Slot(u, 2), q3, rest);
  }

  /** Replaying the category, condition and status assignments. */
  lemma ReplayState(p: Product, u: ProductUpdate)
    ensures AssignAll(p, Then(Slot(u, 3), Then(Slot(u, 4), Then(Slot(u, 5), []))))
         == p.(category := if u.category.Some? then u.category.value else p.category,
               condition := if u.condition.Some? then u.condition.value else p.condition,
               status := if u.status.Some? then u.status.value else p.status)
  {
    var q1 := p.(category := if u.category.Some? then u.category.value else p.category);
    var q2 := q1.(condition := if u.condition.Some? then u.condition.value else q1.condition);
    var q3 := q2.(status := if u.status.Some? then u.status.value else q2.status);
    AssignThen(p, Slot(u, 3), q1, Then(Slot(u, 4), Then(Slot(u, 5), [])));
    AssignThen(q1, Slot(u, 4), q2, Then(Slot(u, 5), []));
    AssignThen(q2, Slot(u, 5), q3, []);
    assert AssignAll(q3, []) == q3;
  }

  /** Replaying the dumped payload with `setattr` gives exactly the field-by-field update. */
  lemma DumpReplaysUpdate(p: Product, u: ProductUpdate)
    ensures AssignAll(p, Dump(u)) == ApplyUpdate(p, u)
  {
    var rest := Then(Slot(u, 3), Then(Slot(u, 4), Then(Slot(u, 5), [])));
    ReplayListing(p, u, rest);
    var q := p.(title := if u.title.Some? then u.title.value else p.title,
                price := if u.price.Some? then u.price.value else p.price,
                description := if u.description.Some? then u.description.value else p.description);
    ReplayState(q, u);
  }

  // ---------------------------------------------------------------- outcomes

  /** `create`. */
  function CreateOutcome(t: Tables, sellerId: int, payload: ProductCreate): (r: Result<(Tables, Product)>)
    ensures r.Err? <==> |payload.imageUrls| > MaxImages
    ensures r.Err? ==> r.error == ServiceError(400, "At most 5 images are allowed")
    ensures r.Ok? ==> var (t1, p) := r.value;
              && p.id == t.nextId && p.id !in t.products && t1.products == t.products[p.id := p]
              && p.sellerId == sellerId && p.status == OnSale && !p.isBlinded && p.blindReason == None
              && p.price == payload.price && p.title == payload.title && p.images == payload.imageUrls
              && p.description == payload.description && p.category == payload.category
              && p.condition == payload.condition && p.createdAt == t.clock
              && t1.cart == t.cart && t1.purchases == t.purchases && t1.users == t.users
              && t1.nextId == t.nextId + 1 && t1.clock == t.clock + 1
    requires forall k :: k in t.products ==> k < t.nextId
  {
    if |payload.imageUrls| > MaxImages then Err(ServiceError(400, "At most 5 images are allowed"))
    else
      var (t1, row) := PR.Insert(t, NewProduct(sellerId, payload.title, payload.price, payload.description,
                                               payload.category, payload.condition));
      var p := row.(images := payload.imageUrls);
      Ok((t1.(products := t1.products[p.id := p]), p))
  }

  /** `get`. */
  function GetOutcome(t: Tables, productId: int): (r: Result<Product>)
    ensures r.Err? <==> productId !in t.products
    ensures r.Err? ==> r.error == ServiceError(404, "Product not found")
    ensures r.Ok? ==> r.value == t.products[productId]
  {
    match PR.GetById(t, productId)
    case None => Err(ServiceError(404, "Product not found"))
    case Some(p) => Ok(p)
  }

  /** `update`: 404, then 403 for a non-seller, then 400 for a SOLD row, then the too-many-images 400. */
  function UpdateOutcome(t: Tables, userId: int, productId: int, payload: ProductUpdate): (r: Result<(Tables, Product)>)
    ensures productId !in t.products ==> r == Err(ServiceError(404, "Product not found"))
    ensures productId in t.products ==> var p := t.products[productId];
              && (p.sellerId != userId ==> r == Err(ServiceError(403, "Only seller can update this product")))
              && (p.sellerId == userId && p.status == Sold ==> r == Err(ServiceError(400, "Sold product cannot be updated")))
              && (p.sellerId == userId && p.status != Sold && payload.imageUrls.Some? && |payload.imageUrls.value| > MaxImages ==>
                    r == Err(ServiceError(400, "At most 5 images are allowed")))
    ensures r.Ok? <==> productId in t.products && t.products[productId].sellerId == userId
                       && t.products[productId].status != Sold
                       && (payload.imageUrls.None? || |payload.imageUrls.value| <= MaxImages)
    ensures r.Ok? ==> var (t1, q) := r.value; var p := t.products[productId];
              && p.sellerId == userId && p.status != Sold
              && t1 == t.(products := t.products[productId := q])
              && q == ApplyUpdate(p, payload).(images := if payload.imageUrls.Some? then payload.imageUrls.value else p.images)
  {
    match GetOutcome(t, productId)
    case Err(e) => Err(e)
    case Ok(p) =>
      if p.sellerId != userId then Err(ServiceError(403, "Only seller can update this product"))
      else if p.status == Sold then Err(ServiceError(400, "Sold product cannot be updated"))
      else if payload.imageUrls.Some? && |payload.imageUrls.value| > MaxImages then
        Err(ServiceError(400, "At most 5 images are allowed"))
      else
        var q := ApplyUpdate(p, payload).(images := if payload.imageUrls.Some? then payload.imageUrls.value else p.images);
        Ok((t.(products := t.products[productId := q]), q))
  }

  /** `delete`: the row and its images go; cart rows that point at it stay. */
  function DeleteOutcome(t: Tables, userId: int, productId: int): (r: Result<(Tables, ())>)
    ensures r.Err? <==> productId !in t.products || t.products[productId].sellerId != userId || t.products[productId].status == Sold
    ensures r.Ok? ==> r.value.0 == t.(products := t.products - {productId})
    ensures productId in t.products && t.products[productId].sellerId != userId ==>
              r == Err(ServiceError(403, "Only seller can delete this product"))
    ensures productId !in t.products ==> r == Err(ServiceError(404, "Product not found"))
    ensures productId in t.products && t.products[productId].sellerId == userId && t.products[productId].status == Sold ==>
              r == Err(ServiceError(400, "Sold product cannot be deleted"))
  {
    match GetOutcome(t, productId)
    case Err(e) => Err(e)
    case Ok(p) =>
      if p.sellerId != userId then Err(ServiceError(403, "Only seller can delete this product"))
      else if p.status == Sold then Err(ServiceError(400, "Sold product cannot be deleted"))
      else Ok((t.(products := t.products - {productId}), ()))
  }

  /** Once deleted, a listing is not found any more. */
  lemma DeletedListingIsGone(t: Tables, userId: int, productId: int)
    requires DeleteOutcome(t, userId, productId).Ok?
    ensures GetOutcome(DeleteOutcome(t, userId, productId).value.0, productId) == Err(ServiceError(404, "Product not found"))
  {
  }

  /** `blind`: an admin hides a listing and records why. */
  function BlindOutcome(t: Tables, productId: int, reason: string): (r: Result<(Tables, Product)>)
    ensures r.Err? <==> productId !in t.products
    ensures r.Err? ==> r.error == ServiceError(404, "Product not found")
    ensures r.Ok? ==> var (t1, q) := r.value;
              && q == t.products[productId].(isBlinded := true, blindReason := Some(reason))
              && t1 == t.(products := t.products[productId := q])
  {
    match GetOutcome(t, productId)
    case Err(e) => Err(e)
    case Ok(p) =>
      var q := p.(isBlinded := true, blindReason := Some(reason));
      Ok((t.(products := t.products[productId := q]), q))
  }

  /** `unblind`: the listing is visible again and the reason is cleared. */
  function UnblindOutcome(t: Tables, productId: int): (r: Result<(Tables, Product)>)
    ensures r.Err? <==> productId !in t.products
    ensures r.Err? ==> r.error == ServiceError(404, "Product not found")
    ensures r.Ok? ==> var (t1, q) := r.value;
              && q == t.products[productId].(isBlinded := false, blindReason := None)
              && t1 == t.(products := t.products[productId := q])
  {
    match GetOutcome(t, productId)
    case Err(e) => Err(e)
    case Ok(p) =>
      var q := p.(isBlinded := false, blindReason := None);
      Ok((t.(products := t.products[productId := q]), q))
  }

  /** Unblinding undoes blinding: a visible listing comes back exactly as it was. */
  lemma UnblindUndoesBlind(t: Tables, productId: int, reason: string)
    requires productId in t.products && !t.products[productId].isBlinded && t.products[productId].blindReason == None
    ensures BlindOutcome(t, productId, reason).Ok?
    ensures UnblindOutcome(BlindOutcome(t, productId, reason).value.0, productId).value.0 == t
  {
    var t1 := BlindOutcome(t, productId, reason).value.0;
    var t2 := UnblindOutcome(t1, productId).value.0;
    assert t2.products == t.products;
  }

  /** A seller's update never touches moderation: it cannot unblind a listing nor edit a SOLD one. */
  lemma UpdateKeepsModeration(t: Tables, userId: int, productId: int, payload: ProductUpdate)
    requires UpdateOutcome(t, userId, productId, payload).Ok?
    ensures var q := UpdateOutcome(t, userId, productId, payload).value.1;
            && t.products[productId].status != Sold
            && q.isBlinded == t.products[productId].isBlinded
            && q.blindReason == t.products[productId].blindReason
            && q.sellerId == userId
  {
  }

  // ---------------------------------------------------------------- methods on the session

  method Create(db: Session, sellerId: int, payload: ProductCreate) returns (r: Result<Product>)
    requires forall k :: k in db.products ==> k < db.nextId
    modifies db
    ensures db.Snapshot() == After(old(db.Snapshot()), CreateOutcome(old(db.Snapshot()), sellerId, payload))
    ensures r == Returned(CreateOutcome(old(db.Snapshot()), sellerId, payload))
  {
    if |payload.imageUrls| > MaxImages {
      return Err(ServiceError(400, "At most 5 images are allowed"));
    }
    var p := PR.Create(db, NewProduct(sellerId, payload.title, payload.price, payload.description,
                                      payload.category, payload.condition));
    p := PR.ReplaceImages(p, payload.imageUrls);
    db.products := db.products[p.id := p];
    r := Ok(p);
  }

  method Update(db: Session, userId: int, productId: int, payload: ProductUpdate) returns (r: Result<Product>)
    modifies db
    ensures db.Snapshot() == After(old(db.Snapshot()), UpdateOutcome(old(db.Snapshot()), userId, productId, payload))
    ensures r == Returned(UpdateOutcome(old(db.Snapshot()), userId, productId, payload))
  {
    var got := GetOutcome(db.Snapshot(), productId);
    if got.Err? {
      return Err(got.error);
    }
    var product := got.value;
    if product.sellerId != userId {
      return Err(ServiceError(403, "Only seller can update this product"));
    }
    if product.status == Sold {
      return Err(ServiceError(400, "Sold product cannot be updated"));
    }
    var data := Dump(payload);
    for i := 0 to |data|
      invariant AssignAll(product, data[i..]) == AssignAll(got.value, data)
    {
      assert data[i..][1..] == data[i + 1..];
      product := Assign(product, data[i]);
    }
    DumpReplaysUpdate(got.value, payload);
    if payload.imageUrls.Some? {
      if |payload.imageUrls.value| > MaxImages {
        return Err(ServiceError(400, "At most 5 images are allowed"));
      }
      product := PR.ReplaceImages(product, payload.imageUrls.value);
    }
    db.products := db.products[productId := product];
    r := Ok(product);
  }

  method Delete(db: Session, userId: int, productId: int) returns (r: Result<()>)
    modifies db
    ensures db.Snapshot() == After(old(db.Snapshot()), DeleteOutcome(old(db.Snapshot()), userId, productId))
    ensures r == Returned(DeleteOutcome(old(db.Snapshot()), userId, productId))
  {
    var got := GetOutcome(db.Snapshot(), productId);
    if got.Err? {
      return Err(got.error);
    }
    if got.value.sellerId != userId {
      return Err(ServiceError(403, "Only seller can delete this product"));
    }
    if got.value.status == Sold {
      return Err(ServiceError(400, "Sold product cannot be deleted"));
    }
    db.products := db.products - {productId};
    r := Ok(());
  }

  method Blind(db: Session, productId: int, reason: string) returns (r: Result<Product>)
    modifies db
    ensures db.Snapshot() == After(old(db.Snapshot()), BlindOutcome(old(db.Snapshot()), productId, reason))
    ensures r == Returned(BlindOutcome(old(db.Snapshot()), productId, reason))
  {
    var got := GetOutcome(db.Snapshot(), productId);
    if got.Err? {
      return Err(got.error);
    }
    var p := got.value.(isBlinded := true, blindReason := Some(reason));
    db.products := db.products[productId := p];
    r := Ok(p);
  }

  method Unblind(db: Session, productId: int) returns (r: Result<Product>)
    modifies db
    ensures db.Snapshot() == After(old(db.Snapshot()), UnblindOutcome(old(db.Snapshot()), productId))
    ensures r == Returned(UnblindOutcome(old(db.Snapshot()), productId))
  {
    var got := GetOutcome(db.Snapshot(), productId);
    if got.Err? {
      return Err(got.error);
    }
    var p := got.value.(isBlinded := false, blindReason := None);
    db.products := db.products[productId := p];
    r := Ok(p);
  }
}

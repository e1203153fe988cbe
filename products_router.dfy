/**
 * backend/app/routers/products.py: the listing endpoints. Blinded listings are
 * listed and shown to admins only; summaries carry the first image as thumbnail.
 */
module ProductsRouter {
  import opened Entities
  import opened Errors
  import opened Database
  import PR = ProductRepository
  import PS = ProductService
  import AuthService

  datatype ProductSummary = ProductSummary(
    id: int,
    title: string,
    price: int,
    category: Category,
    condition: Condition,
    status: ProductStatus,
    isBlinded: bool,
    sellerNickname: string,
    thumbnailUrl: Option<string>,
    createdAt: nat)

  datatype ProductDetail = ProductDetail(
    id: int,
    title: string,
    price: int,
    description: string,
    category: Category,
    condition: Condition,
    status: ProductStatus,
    isBlinded: bool,
    blindReason: Option<string>,
    sellerId: int,
    sellerNickname: string,
    imageUrls: seq<string>,
    createdAt: nat)

  datatype ProductListResponse = ProductListResponse(total: int, page: int, pageSize: int, items: seq<ProductSummary>)

  /** `item.seller`: the account the listing's `seller_id` names. */
  function Seller(t: Tables, p: Product): (r: Option<User>)
    ensures r.Some? ==> r.value in t.users && r.value.id == p.sellerId
    ensures r.None? <==> forall u :: u in t.users ==> u.id != p.sellerId
  {
    AuthService.FindUser(t.users, AuthService.WithId(p.sellerId))
  }

  /** `to_summary`: the listing's own columns, the seller's nickname and the first image, if any. */
  function ToSummary(p: Product, seller: User): (s: ProductSummary)
    ensures s.id == p.id && s.title == p.title && s.price == p.price && s.status == p.status
    ensures s.category == p.category && s.condition == p.condition && s.createdAt == p.createdAt
    ensures s.isBlinded == p.isBlinded && s.sellerNickname == seller.nickname
    ensures s.thumbnailUrl.None? <==> p.images == []
    ensures s.thumbnailUrl.Some? ==> s.thumbnailUrl.value == p.images[0]
  {
    ProductSummary(p.id, p.title, p.price, p.category, p.condition, p.status, p.isBlinded, seller.nickname,
                   if p.images != [] then Some(p.images[0]) else None, p.createdAt)
  }

  /** `to_detail`: every column, and every image URL in order. */
  function ToDetail(p: Product, seller: User): (d: ProductDetail)
    ensures d.id == p.id && d.sellerId == p.sellerId && d.sellerNickname == seller.nickname
    ensures d.title == p.title && d.price == p.price && d.description == p.description
    ensures d.category == p.category && d.condition == p.condition && d.createdAt == p.createdAt
    ensures d.status == p.status && d.isBlinded == p.isBlinded && d.blindReason == p.blindReason
    ensures d.imageUrls == p.images
  {
    ProductDetail(p.id, p.title, p.price, p.description, p.category, p.condition, p.status, p.isBlinded,
                  p.blindReason, p.sellerId, seller.nickname, p.images, p.createdAt)
  }

  /** The signed-in caller is an administrator; an anonymous caller is not. This is `include_blinded`. */
  predicate IsAdmin(caller: Option<User>) {
    caller.Some? && caller.value.role == Admin
  }

  /** A service result as a router returns it: the detail view, or the ServiceError re-raised. */
  function Present(t: Tables, r: Result<Product>): (out: Reply<ProductDetail>)
    ensures out.Raised? <==> r.Err?
    ensures r.Err? ==> out == Raised(ReRaise(r.error))
    ensures out.Crashed? <==> r.Ok? && Seller(t, r.value).None?
    ensures out.Answer? ==> out.value.id == r.value.id && out.value.imageUrls == r.value.images
                            && out.value.sellerNickname == Seller(t, r.value).value.nickname
    ensures out.Answer? ==> out.value == ToDetail(r.value, Seller(t, r.value).value)
  {
    match r
    case Err(e) => Raised(ReRaise(e))
    case Ok(p) =>
      match Seller(t, p)
      case None => Crashed
      case Some(u) => Answer(ToDetail(p, u))
  }

  /** Every listing in `rows` has a seller account. */
  predicate SellersKnown(t: Tables, rows: seq<Product>) {
    forall i :: 0 <= i < |rows| ==> Seller(t, rows[i]).Some?
  }

  /** The summaries of `rows`, in order. */
  function Summaries(t: Tables, rows: seq<Product>): (items: seq<ProductSummary>)
    requires SellersKnown(t, rows)
    ensures |items| == |rows|
    ensures forall i :: 0 <= i < |rows| ==> items[i] == ToSummary(rows[i], Seller(t, rows[i]).value)
  {
    if rows == [] then [] else [ToSummary(rows[0], Seller(t, rows[0]).value)] + Summaries(t, rows[1..])
  }

  /**
   * `list_products`: one page of the matching listings as summaries, with blinded
   * listings included exactly when the caller is an admin.
   */
  function ListProducts(t: Tables, page: int, pageSize: int, keyword: Option<string>, category: Option<Category>,
                        sort: string, caller: Option<User>): (r: Reply<ProductListResponse>)
    requires page >= 1 && 1 <= pageSize <= 50
    ensures !r.Raised?
    ensures var (total, rows) := PR.List(t, page, pageSize, keyword, category, sort, IsAdmin(caller));
      && (r.Crashed? <==> exists i :: 0 <= i < |rows| && Seller(t, rows[i]).None?)
      && (r.Answer? ==>
            && r.value.total == total && r.value.page == page && r.value.pageSize == pageSize
            && |r.value.items| == |rows|
            && forall i :: 0 <= i < |rows| ==> r.value.items[i] == ToSummary(rows[i], Seller(t, rows[i]).value))
  {
    var (total, rows) := PR.List(t, page, pageSize, keyword, category, sort, IsAdmin(caller));
    if SellersKnown(t, rows) then Answer(ProductListResponse(total, page, pageSize, Summaries(t, rows)))
    else Crashed
  }

  /** Anonymous and non-admin callers are never shown a blinded listing. */
  lemma ListHidesBlinded(t: Tables, page: int, pageSize: int, keyword: Option<string>, category: Option<Category>,
                         sort: string, caller: Option<User>)
    requires page >= 1 && 1 <= pageSize <= 50
    requires !IsAdmin(caller)
    ensures var r := ListProducts(t, page, pageSize, keyword, category, sort, caller);
            r.Answer? ==> forall s :: s in r.value.items ==> !s.isBlinded
  {
    var r := ListProducts(t, page, pageSize, keyword, category, sort, caller);
    var rows := PR.List(t, page, pageSize, keyword, category, sort, false).1;
    if r.Answer? {
      forall s | s in r.value.items ensures !s.isBlinded {
        var i :| 0 <= i < |r.value.items| && r.value.items[i] == s;
        assert rows[i] in rows;
        assert PR.Matches(keyword, category, false)(rows[i]);
      }
    }
  }

  /** `get_product`: 404 for a missing listing, 403 for a blinded one unless the caller is an admin. */
  function GetProduct(t: Tables, productId: int, caller: Option<User>): (r: Reply<ProductDetail>)
    ensures productId !in t.products ==> r == Raised(HttpException(404, JString("Product not found")))
    ensures productId in t.products && t.products[productId].isBlinded && !IsAdmin(caller) ==>
              r == Raised(HttpException(403, JString("Blinded product")))
    ensures r.Answer? <==> productId in t.products && (!t.products[productId].isBlinded || IsAdmin(caller))
                           && Seller(t, t.products[productId]).Some?
    ensures r.Answer? ==> r.value == ToDetail(t.products[productId], Seller(t, t.products[productId]).value)
  {
    match PS.GetOutcome(t, productId)
    case Err(e) => Raised(ReRaise(e))
    case Ok(p) =>
      if p.isBlinded && !IsAdmin(caller) then Raised(HttpException(403, JString("Blinded product")))
      else Present(t, Ok(p))
  }

  /** An admin sees a blinded listing that everybody else is refused. */
  lemma BlindedVisibleToAdminOnly(t: Tables, productId: int, caller: Option<User>, admin: User)
    requires productId in t.products && t.products[productId].isBlinded
    requires Seller(t, t.products[productId]).Some? && admin.role == Admin
    ensures GetProduct(t, productId, Some(admin)).Answer?
    ensures !IsAdmin(caller) ==> GetProduct(t, productId, caller).exc.statusCode == 403
  {
  }

  function ProductDeleted(u: ()): string { "Product deleted" }

  /** `create_product`. */
  method CreateProduct(db: Session, sellerId: int, payload: PS.ProductCreate) returns (r: Reply<ProductDetail>)
    requires forall k :: k in db.products ==> k < db.nextId
    modifies db
    ensures db.Snapshot() == After(old(db.Snapshot()), PS.CreateOutcome(old(db.Snapshot()), sellerId, payload))
    ensures r == Present(db.Snapshot(), Returned(PS.CreateOutcome(old(db.Snapshot()), sellerId, payload)))
  {
    var res := PS.Create(db, sellerId, payload);
    r := Present(db.Snapshot(), res);
  }

  /** `update_product`. */
  method UpdateProduct(db: Session, userId: int, productId: int, payload: PS.ProductUpdate) returns (r: Reply<ProductDetail>)
    modifies db
    ensures db.Snapshot() == After(old(db.Snapshot()), PS.UpdateOutcome(old(db.Snapshot()), userId, productId, payload))
    ensures r == Present(db.Snapshot(), Returned(PS.UpdateOutcome(old(db.Snapshot()), userId, productId, payload)))
  {
    var res := PS.Update(db, userId, productId, payload);
    r := Present(db.Snapshot(), res);
  }

  /** `delete_product`. */
  method DeleteProduct(db: Session, userId: int, productId: int) returns (r: Reply<string>)
    modifies db
    ensures db.Snapshot() == After(old(db.Snapshot()), PS.DeleteOutcome(old(db.Snapshot()), userId, productId))
    ensures r == Guard(Returned(PS.DeleteOutcome(old(db.Snapshot()), userId, productId)), ProductDeleted)
  {
    var res := PS.Delete(db, userId, productId);
    r := Guard(res, ProductDeleted);
  }
}

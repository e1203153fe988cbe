/**
 * Rows of the marketplace's tables, their enumerations and column defaults
 * (backend/app/models/entities.py, backend/app/models/enums.py).
 * Timestamps are readings of an abstract counter; `updated_at` is not modelled.
 */
module Entities {

  datatype Option<T> = None | Some(value: T)

  datatype ProductStatus = OnSale | Reserved | Sold
  datatype Category = Electronics | Clothes | Home | Books | Etc
  datatype Condition = New | Used

  /** `UserRole.USER` is `Member` here, so as not to clash with the `User` row. */
  datatype UserRole = Member | Admin

  /** Prices accepted by the product payloads (`price >= 1`). */
  type Price = x: int | x >= 1 witness 1

  /** Quantities accepted by the cart payloads (1 to 99). */
  type Quantity = q: int | 1 <= q <= 99 witness 1

  datatype User = User(id: int, email: string, nickname: string, passwordHash: string, role: UserRole)

  /** A listing; `images` are its ProductImage rows' URLs, owned by the product and deleted with it. */
  datatype Product = Product(
    id: int,
    sellerId: int,
    title: string,
    price: int,
    description: string,
    category: Category,
    condition: Condition,
    status: ProductStatus,
    isBlinded: bool,
    blindReason: Option<string>,
    createdAt: nat,
    images: seq<string>)

  datatype CartItem = CartItem(id: int, userId: int, productId: int, quantity: int, selected: bool, createdAt: nat)

  datatype Purchase = Purchase(
    id: int,
    buyerId: int,
    sellerId: int,
    productId: int,
    quantity: int,
    amount: int,
    purchasedAt: nat)

  /** A product row built from the listing's own columns; every other column takes its default. */
  function NewProduct(sellerId: int, title: string, price: int, description: string,
                      category: Category, condition: Condition): (p: Product)
    ensures p.status == OnSale && !p.isBlinded && p.blindReason == None && p.images == []
    ensures p.sellerId == sellerId && p.price == price && p.title == title && p.description == description
    ensures p.category == category && p.condition == condition
  {
    Product(0, sellerId, title, price, description, category, condition, OnSale, false, None, 0, [])
  }

  /** A cart row for (user, product); quantity and selection take their defaults. */
  function NewCartItem(userId: int, productId: int): (c: CartItem)
    ensures c.userId == userId && c.productId == productId
    ensures c.quantity == 1 && c.selected
  {
    CartItem(0, userId, productId, 1, true, 0)
  }

  /** A ledger row; every sale is of one unit. */
  function NewPurchase(buyerId: int, sellerId: int, productId: int, amount: int): (p: Purchase)
    ensures p.buyerId == buyerId && p.sellerId == sellerId && p.productId == productId
    ensures p.quantity == 1 && p.amount == amount
  {
    Purchase(0, buyerId, sellerId, productId, 1, amount, 0)
  }

  function ProductCreatedAt(p: Product): int { p.createdAt }
  function ProductPrice(p: Product): int { p.price }
  function CartCreatedAt(c: CartItem): int { c.createdAt }
  function PurchasedAt(p: Purchase): int { p.purchasedAt }
}

/** backend/app/repositories/purchase_repository.py: the purchase ledger. */
module PurchaseRepository {
  import opened Entities
  import opened Database
  import opened Seqs

  function BoughtBy(buyerId: int): Purchase -> bool {
    (p: Purchase) => p.buyerId == buyerId
  }

  function SoldBy(sellerId: int): Purchase -> bool {
    (p: Purchase) => p.sellerId == sellerId
  }

  /** `create`: the flush assigns the next primary key and stamps `purchased_at`; the ledger only grows. */
  function Append(t: Tables, p: Purchase): (r: (Tables, Purchase))
    ensures r.1 == p.(id := t.nextId, purchasedAt := t.clock)
    ensures r.0.purchases == t.purchases + [r.1]
    ensures r.0.nextId == t.nextId + 1 && r.0.clock == t.clock + 1
    ensures r.0.users == t.users && r.0.products == t.products && r.0.cart == t.cart
  {
    var row := p.(id := t.nextId, purchasedAt := t.clock);
    (t.(purchases := t.purchases + [row], nextId := t.nextId + 1, clock := t.clock + 1), row)
  }

  method Create(db: Session, p: Purchase) returns (r: Purchase)
    modifies db
    ensures (db.Snapshot(), r) == Append(old(db.Snapshot()), p)
  {
    r := p.(id := db.nextId, purchasedAt := db.clock);
    db.purchases := db.purchases + [r];
    db.nextId := db.nextId + 1;
    db.clock := db.clock + 1;
  }

  /** `list_by_buyer`: the buyer's purchases, newest first. */
  function ListByBuyer(t: Tables, buyerId: int): (r: seq<Purchase>)
    ensures multiset(r) == multiset(Filter(t.purchases, BoughtBy(buyerId)))
    ensures forall p :: p in r <==> p in t.purchases && p.buyerId == buyerId
    ensures SortedBy(r, PurchasedAt, true)
  {
    SortBy(Filter(t.purchases, BoughtBy(buyerId)), PurchasedAt, true)
  }

  /** `list_by_seller`: the seller's sales, newest first. */
  function ListBySeller(t: Tables, sellerId: int): (r: seq<Purchase>)
    ensures multiset(r) == multiset(Filter(t.purchases, SoldBy(sellerId)))
    ensures forall p :: p in r <==> p in t.purchases && p.sellerId == sellerId
    ensures SortedBy(r, PurchasedAt, true)
  {
    SortBy(Filter(t.purchases, SoldBy(sellerId)), PurchasedAt, true)
  }
}

/**
 * backend/app/repositories/product_repository.py: lookups, the listing query,
 * inserts, image replacement and the atomic "mark sold" gate.
 */
module ProductRepository {
  import opened Entities
  import opened Errors
  import opened Database
  import opened Seqs

  /** `get_by_id`. */
  function GetById(t: Tables, productId: int): (r: Option<Product>)
    ensures r.Some? <==> productId in t.products
    ensures r.Some? ==> r.value == t.products[productId]
  {
    if productId in t.products then Some(t.products[productId]) else None
  }

  /** A listing that can still be bought or put in a cart: on sale and not hidden by moderation. */
  predicate Available(p: Product) {
    p.status == OnSale && !p.isBlinded
  }

  /**
   * `mark_sold_if_available`: one conditional UPDATE that sets SOLD only where the
   * row is ON_SALE and not blinded, reporting whether a row changed.
   */
  function TryMarkSold(t: Tables, productId: int): (r: (Tables, bool))
    ensures r.1 <==> productId in t.products && Available(t.products[productId])
    ensures r.1 ==> r.0.products == t.products[productId := t.products[productId].(status := Sold)]
    ensures !r.1 ==> r.0 == t
    ensures r.0 == t.(products := r.0.products)
  {
    if productId in t.products && t.products[productId].status == OnSale && !t.products[productId].isBlinded then
      (t.(products := t.products[productId := t.products[productId].(status := Sold)]), true)
    else
      (t, false)
  }

  method MarkSoldIfAvailable(db: Session, productId: int) returns (changed: bool)
    modifies db
    ensures (db.Snapshot(), changed) == TryMarkSold(old(db.Snapshot()), productId)
  {
    changed := false;
    if productId in db.products {
      var row := db.products[productId];
      if row.status == OnSale && !row.isBlinded {
        db.products := db.products[productId := row.(status := Sold)];
        changed := true;
      }
    }
  }

  /** Once the gate has fired for a product, firing it again changes nothing and reports false. */
  lemma GateFiresOnce(t: Tables, productId: int)
    ensures var (t1, _) := TryMarkSold(t, productId);
            TryMarkSold(t1, productId) == (t1, false)
  {
  }

  /** `create`: the insert assigns the next primary key and stamps `created_at`. */
  function Insert(t: Tables, p: Product): (r: (Tables, Product))
    ensures r.1 == p.(id := t.nextId, createdAt := t.clock)
    ensures r.0.products == t.products[t.nextId := r.1]
    ensures r.0.nextId == t.nextId + 1 && r.0.clock == t.clock + 1
    ensures r.0.users == t.users && r.0.cart == t.cart && r.0.purchases == t.purchases
  {
    var row := p.(id := t.nextId, createdAt := t.clock);
    (t.(products := t.products[row.id := row], nextId := t.nextId + 1, clock := t.clock + 1), row)
  }

  method Create(db: Session, p: Product) returns (r: Product)
    modifies db
    ensures (db.Snapshot(), r) == Insert(old(db.Snapshot()), p)
  {
    r := p.(id := db.nextId, createdAt := db.clock);
    db.products := db.products[r.id := r];
    db.nextId := db.nextId + 1;
    db.clock := db.clock + 1;
  }

  /** `replace_images`: clears the product's images, then appends one per URL. */
  method ReplaceImages(p: Product, imageUrls: seq<string>) returns (r: Product)
    ensures r.images == imageUrls
    ensures r == p.(images := r.images)
  {
    r := p.(images := []);
    for i := 0 to |imageUrls|
      invariant r == p.(images := imageUrls[..i])
    {
      r := r.(images := r.images + [imageUrls[i]]);
    }
  }

  // ---------------------------------------------------------------- listing

  /** The primary keys of `m` in `[lo, hi)`, ascending. */
  function KeysBetween(m: map<int, Product>, lo: int, hi: int): (ks: seq<int>)
    ensures forall i :: 0 <= i < |ks| ==> lo <= ks[i] < hi && ks[i] in m
    ensures forall i, j :: 0 <= i < j < |ks| ==> ks[i] < ks[j]
    ensures forall k :: lo <= k < hi && k in m ==> k in ks
    decreases hi - lo
  {
    if lo >= hi then []
    else if lo in m then [lo] + KeysBetween(m, lo + 1, hi)
    else KeysBetween(m, lo + 1, hi)
  }

  /** The stored rows under the keys `ks`, in the order of `ks`. */
  function RowsAt(m: map<int, Product>, ks: seq<int>): (rows: seq<Product>)
    requires forall i :: 0 <= i < |ks| ==> ks[i] in m
    ensures |rows| == |ks|
    ensures forall i :: 0 <= i < |ks| ==> rows[i] == m[ks[i]]
    ensures forall p :: p in rows ==> p in m.Values
  {
    if ks == [] then []
    else
      assert m[ks[0]] in m.Values;
      [m[ks[0]]] + RowsAt(m, ks[1..])
  }

  /** A key listed in `ks` has its row in `RowsAt(m, ks)`. */
  lemma RowsAtCovers(m: map<int, Product>, ks: seq<int>, k: int)
    requires forall i :: 0 <= i < |ks| ==> ks[i] in m
    requires k in ks
    ensures m[k] in RowsAt(m, ks)
  {
    var i :| 0 <= i < |ks| && ks[i] == k;
    assert RowsAt(m, ks)[i] == m[k];
  }

  /** The rows of the products table in primary-key order. */
  function Rows(t: Tables): (rows: seq<Product>)
    ensures forall k :: 0 <= k < t.nextId && k in t.products ==> t.products[k] in rows
    ensures forall p :: p in rows ==> p in t.products.Values
  {
    var ks := KeysBetween(t.products, 0, t.nextId);
    forall k | 0 <= k < t.nextId && k in t.products
      ensures t.products[k] in RowsAt(t.products, ks)
    {
      RowsAtCovers(t.products, ks, k);
    }
    RowsAt(t.products, ks)
  }

  /** ASCII case folding, as `lower()` does in the database. */
  function Lower(c: char): char {
    if 'A' <= c <= 'Z' then (c as int + 32) as char else c
  }

  function LowerAll(s: string): (r: string)
    ensures |r| == |s|
    ensures forall i :: 0 <= i < |s| ==> r[i] == Lower(s[i])
  {
    if s == [] then [] else [Lower(s[0])] + LowerAll(s[1..])
  }

  predicate OccursAt(needle: string, hay: string, i: int) {
    0 <= i <= |hay| - |needle| && hay[i..i + |needle|] == needle
  }

  predicate IsSubstring(needle: string, hay: string) {
    exists i :: 0 <= i <= |hay| && OccursAt(needle, hay, i)
  }

  /** `text ILIKE '%keyword%'`. */
  predicate ContainsCI(text: string, keyword: string) {
    IsSubstring(LowerAll(keyword), LowerAll(text))
  }

  /** `keyword` occurs in `text` at position `i` once both are folded to lower case. */
  predicate FoldedAt(keyword: string, text: string, i: int) {
    0 <= i <= |text| - |keyword| && LowerAll(text[i..i + |keyword|]) == LowerAll(keyword)
  }

  /** Folding a text and then taking a slice is taking the slice and then folding it. */
  lemma FoldSlice(text: string, i: int, j: int)
    requires 0 <= i <= j <= |text|
    ensures LowerAll(text)[i..j] == LowerAll(text[i..j])
  {
    var whole, part := LowerAll(text), LowerAll(text[i..j]);
    assert |whole[i..j]| == |part|;
    forall k | 0 <= k < j - i
      ensures whole[i..j][k] == part[k]
    {
      assert whole[i + k] == Lower(text[i + k]);
      assert part[k] == Lower(text[i..j][k]);
    }
  }

  /** The case-insensitive match finds a keyword exactly when it occurs in the text up to letter case. */
  lemma KeywordMatchIgnoresCase(text: string, keyword: string)
    ensures ContainsCI(text, keyword) <==> exists i :: FoldedAt(keyword, text, i)
  {
    if ContainsCI(text, keyword) {
      var i :| 0 <= i <= |LowerAll(text)| && OccursAt(LowerAll(keyword), LowerAll(text), i);
      FoldSlice(text, i, i + |keyword|);
      assert FoldedAt(keyword, text, i);
    }
    if i :| FoldedAt(keyword, text, i) {
      FoldSlice(text, i, i + |keyword|);
      assert OccursAt(LowerAll(keyword), LowerAll(text), i);
    }
  }

  /** The WHERE clause of `list`: keyword, category and visibility filters. An empty keyword filters nothing. */
  function Matches(keyword: Option<string>, category: Option<Category>, includeBlinded: bool): Product -> bool {
    (p: Product) =>
      && (keyword.None? || keyword.value == "" || ContainsCI(p.title, keyword.value) || ContainsCI(p.description, keyword.value))
      && (category.None? || p.category == category.value)
      && (includeBlinded || !p.isBlinded)
  }

  /** The ORDER BY of `list`: price ascending, price descending, or newest first for any other `sort`. */
  function Ordered(rows: seq<Product>, sort: string): (r: seq<Product>)
    ensures forall p :: p in r <==> p in rows
  {
    if sort == "price_asc" then SortBy(rows, ProductPrice, false)
    else if sort == "price_desc" then SortBy(rows, ProductPrice, true)
    else SortBy(rows, ProductCreatedAt, true)
  }

  /** The number of rows skipped before page `page`. */
  function Offset(page: int, pageSize: int): (offset: int)
    requires page >= 1 && pageSize >= 1
    ensures offset >= 0
  {
    (page - 1) * pageSize
  }

  /** OFFSET (page - 1) * pageSize LIMIT pageSize. */
  function Page(s: seq<Product>, page: int, pageSize: int): (r: seq<Product>)
    requires page >= 1 && pageSize >= 1
    ensures |r| <= pageSize
    ensures var offset := Offset(page, pageSize);
            && (offset < |s| ==> |r| == if |s| - offset < pageSize then |s| - offset else pageSize)
            && (offset >= |s| ==> r == [])
            && forall i :: 0 <= i < |r| ==> offset + i < |s| && r[i] == s[offset + i]
  {
    var offset := Offset(page, pageSize);
    if offset >= |s| then []
    else s[offset..if offset + pageSize <= |s| then offset + pageSize else |s|]
  }

  lemma PageWithin(s: seq<Product>, page: int, pageSize: int)
    requires page >= 1 && pageSize >= 1
    ensures forall p :: p in Page(s, page, pageSize) ==> p in s
  {
    var r := Page(s, page, pageSize);
    forall p | p in r ensures p in s {
      var i :| 0 <= i < |r| && r[i] == p;
      assert s[Offset(page, pageSize) + i] == p;
    }
  }

  lemma PageKeepsOrder(s: seq<Product>, page: int, pageSize: int, key: Product -> int, desc: bool)
    requires page >= 1 && pageSize >= 1
    ensures SortedBy(s, key, desc) ==> SortedBy(Page(s, page, pageSize), key, desc)
  {
    if SortedBy(s, key, desc) {
      var r := Page(s, page, pageSize);
      var offset := Offset(page, pageSize);
      forall i, j | 0 <= i < j < |r| ensures InOrder(key(r[i]), key(r[j]), desc) {
        assert r[i] == s[offset + i] && r[j] == s[offset + j];
      }
    }
  }

  /** Every row on a page of the ordered matching rows is stored and matches. */
  lemma PageOfMatching(t: Tables, m: Product -> bool, sort: string, page: int, pageSize: int)
    requires page >= 1 && pageSize >= 1
    ensures forall p :: p in Page(Ordered(Filter(Rows(t), m), sort), page, pageSize) ==> p in t.products.Values && m(p)
  {
    var matching := Filter(Rows(t), m);
    PageWithin(Ordered(matching, sort), page, pageSize);
    assert forall p :: p in matching ==> p in t.products.Values && m(p);
  }

  /** `list`: the total number of matching rows and one page of them in the requested order. */
  function List(t: Tables, page: int, pageSize: int, keyword: Option<string>, category: Option<Category>,
                sort: string, includeBlinded: bool): (r: (int, seq<Product>))
    requires page >= 1 && pageSize >= 1
    ensures r.0 == |Filter(Rows(t), Matches(keyword, category, includeBlinded))|
    ensures r.1 == Page(Ordered(Filter(Rows(t), Matches(keyword, category, includeBlinded)), sort), page, pageSize)
    ensures |r.1| <= pageSize
    ensures forall p :: p in r.1 ==> p in t.products.Values && Matches(keyword, category, includeBlinded)(p)
  {
    var rows := Rows(t);
    var m := Matches(keyword, category, includeBlinded);
    var matching := Filter(rows, m);
    var ordered := Ordered(matching, sort);
    var items := Page(ordered, page, pageSize);
    PageOfMatching(t, m, sort, page, pageSize);
    (|matching|, items)
  }

  /** The listed rows satisfy each filter that was given. */
  lemma ListFilters(t: Tables, page: int, pageSize: int, keyword: Option<string>, category: Option<Category>,
                    sort: string, includeBlinded: bool)
    requires page >= 1 && pageSize >= 1
    ensures var items := List(t, page, pageSize, keyword, category, sort, includeBlinded).1;
            && (!includeBlinded ==> forall p :: p in items ==> !p.isBlinded)
            && (category.Some? ==> forall p :: p in items ==> p.category == category.value)
            && (keyword.Some? && keyword.value != "" ==>
                  forall p :: p in items ==> ContainsCI(p.title, keyword.value) || ContainsCI(p.description, keyword.value))
  {
    var items := List(t, page, pageSize, keyword, category, sort, includeBlinded).1;
    forall p | p in items
      ensures Matches(keyword, category, includeBlinded)(p)
    {
    }
  }

  /** The listed page is in the requested order: price ascending, price descending, otherwise newest first. */
  lemma ListOrder(t: Tables, page: int, pageSize: int, keyword: Option<string>, category: Option<Category>,
                  sort: string, includeBlinded: bool)
    requires page >= 1 && pageSize >= 1
    ensures var items := List(t, page, pageSize, keyword, category, sort, includeBlinded).1;
            && (sort == "price_asc" ==> SortedBy(items, ProductPrice, false))
            && (sort == "price_desc" ==> SortedBy(items, ProductPrice, true))
            && (sort != "price_asc" && sort != "price_desc" ==> SortedBy(items, ProductCreatedAt, true))
  {
    var ordered := Ordered(Filter(Rows(t), Matches(keyword, category, includeBlinded)), sort);
    if sort == "price_asc" {
      PageKeepsOrder(ordered, page, pageSize, ProductPrice, false);
    } else if sort == "price_desc" {
      PageKeepsOrder(ordered, page, pageSize, ProductPrice, true);
    } else {
      PageKeepsOrder(ordered, page, pageSize, ProductCreatedAt, true);
    }
  }

  /** Every matching row shows up on exactly the page its position in the ordering says. */
  lemma PageOfPosition(s: seq<Product>, k: int, pageSize: int)
    requires 0 <= k < |s| && pageSize >= 1
    ensures var page := k / pageSize + 1;
            k % pageSize < |Page(s, page, pageSize)| && Page(s, page, pageSize)[k % pageSize] == s[k]
  {
    var page := k / pageSize + 1;
    assert (page - 1) * pageSize + k % pageSize == k;
  }
}

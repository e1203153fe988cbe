# Secondhand marketplace checkout engine in Dafny

This project models the checkout engine of a secondhand marketplace. The backend is a FastAPI and SQLAlchemy service; the web client is written in Next.js. Members list listings, put them in carts and buy them either one at a time ("buy now") or in a batch (checkout of the selected cart rows). Admins can hide ("blind") listings. Every listing is a single unit, so it can be sold at most once.

All tables live in one value, `Database.Tables`: users, products (a map keyed by id), cart rows, purchases, one primary-key counter and a clock counter. `Database.Session` holds the same tables as mutable fields. Each service operation has two forms:

- a pure outcome function, which returns either the new tables with the result or the `ServiceError` it raises (and then the tables are unchanged);
- a method on the session, proved to produce exactly that outcome.

On top of these, `Invariants` proves properties of any sequence of whole operations starting from an empty database:

- at most one purchase per listing;
- SOLD is final;
- the ledger is append-only;
- at most one cart row per (user, listing).

Modules follow the source files:

- `Entities`: `models/entities.py` and `enums.py`
- `Errors`: `core/errors.py`
- `ProductRepository`, `CartRepository`, `PurchaseRepository`: the repositories
- `ProductService`, `CartService`, `PurchaseService`, `AuthService`: the services
- `CartRouter`, `ProductsRouter`: the routers
- `CartPage`, `SellPage`: the two web pages
- `Seqs` (filter, sort, distinct keys) and `Database` are shared support modules.

## Model

| member | source | states |
|---|---|---|
| Entities.NewProduct | backend/app/models/entities.py:33-54 | a new listing is ON_SALE, not blinded, has no blind reason and no images; the columns given are stored |
| Entities.NewCartItem | backend/app/models/entities.py:67-76 | a new cart row has quantity 1 and is selected |
| Entities.NewPurchase | backend/app/models/entities.py:81-90 | a purchase records buyer, seller, listing and amount, with quantity 1 |
| Errors.ErrorCodeFromStatus | backend/app/core/errors.py:10-23 | 400, 401, 403, 404, 409 and 422 get their own codes; a status of 500 or more gives INTERNAL_SERVER_ERROR; any other status gives ERROR (both directions); each named code reads back as its status |
| Errors.StatusForCode | backend/app/core/errors.py:10-22 | reading a code back only ever gives a status that has a name |
| Errors.NamedCodesDistinct | backend/app/core/errors.py:10-22 | two different named statuses never share a code |
| Errors.BuildErrorBody | backend/app/core/errors.py:26-43 | success is false; message, details and path pass through unchanged; an explicit non-empty code wins, otherwise the code derived from the status is used |
| Errors.ServiceErrorResponse | backend/app/core/errors.py:46-52 | a ServiceError answers with its own status, its message and no details |
| Errors.HttpErrorResponse | backend/app/core/errors.py:55-64 | a string detail becomes the message with null details; any other detail gives "Request failed" and becomes the details |
| Errors.ValidationErrorResponse | backend/app/core/errors.py:67-75 | always 422, code VALIDATION_ERROR, message "Validation failed", the errors as details |
| Errors.InternalErrorResponse | backend/app/core/errors.py:78-85 | always 500, code INTERNAL_SERVER_ERROR, message "Internal server error" |
| Errors.ReRaise | backend/app/routers/cart.py:24-25 | the router's HTTPException carries the ServiceError's status, with its message as the detail |
| Errors.ReRaisedErrorKeepsEnvelope | backend/app/routers/products.py:64-65 | a re-raised ServiceError yields the very response the ServiceError handler would have built |
| Errors.Guard | backend/app/routers/cart.py:20-25 | a router call raises exactly when the service raised, with the same status and the same response envelope for every path; otherwise it answers with the service's value |
| Database.Session.constructor | backend/app/models/entities.py:20-90 | a fresh session holds empty tables |
| ProductRepository.GetById | backend/app/repositories/product_repository.py:20-25 | finds the listing with that id, or nothing when there is none |
| ProductRepository.TryMarkSold | backend/app/repositories/product_repository.py:87-97 | fires exactly when the listing exists, is ON_SALE and is not blinded; it then changes only that listing's status, to SOLD; otherwise nothing changes |
| ProductRepository.MarkSoldIfAvailable | backend/app/repositories/product_repository.py:87-97 | the session's conditional UPDATE has exactly the effect and the answer of `TryMarkSold` |
| ProductRepository.GateFiresOnce | backend/app/repositories/product_repository.py:91-97 | a second use of the gate on the same listing reports false and changes nothing |
| ProductRepository.Insert | backend/app/repositories/product_repository.py:14-18 | the insert takes the next key and the clock; the other tables stay as they were |
| ProductRepository.Create | backend/app/repositories/product_repository.py:14-18 | the session insert has exactly the effect of `Insert` |
| ProductRepository.ReplaceImages | backend/app/repositories/product_repository.py:82-85 | after the clear-and-append loop the images are exactly the given URLs, in order, and no other column changes |
| ProductRepository.Rows | backend/app/repositories/product_repository.py:69-79 | every stored listing under a key below the key counter is scanned, and every scanned row is a stored listing |
| ProductRepository.LowerAll | backend/app/repositories/product_repository.py:46-52 | case folding keeps the length and folds each character on its own |
| ProductRepository.KeywordMatchIgnoresCase | backend/app/repositories/product_repository.py:46-52 | the case-insensitive match finds a keyword exactly when, at some position, the text's slice of the keyword's length equals the keyword once both are folded to lower case (both directions) |
| ProductRepository.Page | backend/app/repositories/product_repository.py:72-73 | the page is the slice that starts at (page - 1) × page_size; it holds at most page_size rows and is empty past the end |
| ProductRepository.PageWithin | backend/app/repositories/product_repository.py:72-73 | every row on a page comes from the ordered result |
| ProductRepository.PageKeepsOrder | backend/app/repositories/product_repository.py:58-73 | a page of a sorted result is itself sorted |
| ProductRepository.List | backend/app/repositories/product_repository.py:35-80 | the total counts every matching listing, whatever the page; the items are the requested page of the matching rows in the requested order; every listed row is stored and matches |
| ProductRepository.ListFilters | backend/app/repositories/product_repository.py:46-56 | without include_blinded no blinded listing is returned; a category filter is equality; a non-empty keyword occurs in the title or the description, ignoring case |
| ProductRepository.ListOrder | backend/app/repositories/product_repository.py:58-62 | price_asc gives nondecreasing prices; price_desc gives nonincreasing prices; any other sort is newest first |
| ProductRepository.PageOfPosition | backend/app/repositories/product_repository.py:72-73 | the row at position k of the ordered result is on page k / page_size + 1, at index k mod page_size |
| CartRepository.FirstWhere | backend/app/repositories/cart_repository.py:11-21 | finds nothing exactly when no row matches; otherwise finds a matching row of the table |
| CartRepository.GetItem | backend/app/repositories/cart_repository.py:11-14 | finds the user's row for that listing, or nothing exactly when there is none |
| CartRepository.GetItemById | backend/app/repositories/cart_repository.py:16-21 | finds the row with that id only if the user owns it; a row of another user is not found |
| CartRepository.ListItems | backend/app/repositories/cart_repository.py:23-31 | exactly the user's rows, each as often as stored, newest first |
| CartRepository.ListSelected | backend/app/repositories/cart_repository.py:33-40 | exactly the user's selected rows, and no more rows than the table holds |
| CartRepository.Insert | backend/app/repositories/cart_repository.py:42-46 | the new row is appended with the next key and the clock; the other tables stay as they were |
| CartRepository.Remove | backend/app/repositories/cart_repository.py:48-50 | the row with that id leaves; every other row stays |
| CartRepository.Replaced | backend/app/repositories/cart_repository.py:48-50 | the row with the edited row's id takes its new values; the others stay in place |
| CartRepository.LookupAfterSave | backend/app/services/cart_service.py:52-57 | after an edit is flushed, the lookup that found the row finds the edited row |
| CartRepository.InsertThenGetItem | backend/app/services/cart_service.py:29-39 | after inserting a (user, listing) row that was missing, `get_item` finds the new row |
| CartRepository.FirstWhereAppend | backend/app/repositories/cart_repository.py:42-46 | an appended row is found when no earlier row matches |
| CartRepository.Create | backend/app/repositories/cart_repository.py:42-46 | the session insert has exactly the effect of `Insert` |
| CartRepository.Delete | backend/app/repositories/cart_repository.py:48-50 | the session delete has exactly the effect of `Remove` |
| CartRepository.Update | backend/app/services/cart_service.py:53-56 | flushing an edited row stores it in place of the row with its id |
| PurchaseRepository.Append | backend/app/repositories/purchase_repository.py:11-15 | the ledger grows by exactly one record; the earlier records, listings, cart and users are unchanged |
| PurchaseRepository.Create | backend/app/repositories/purchase_repository.py:11-15 | the session insert has exactly the effect of `Append` |
| PurchaseRepository.ListByBuyer | backend/app/repositories/purchase_repository.py:17-25 | exactly the buyer's records, newest first |
| PurchaseRepository.ListBySeller | backend/app/repositories/purchase_repository.py:27-35 | exactly the seller's records, newest first |
| ProductService.ApplyUpdate | backend/app/services/product_service.py:65-68 | each of title, price, description, category, condition and status takes the payload's value when the payload sets it and keeps its old value otherwise; id, seller, creation time, moderation fields and images stay |
| ProductService.DumpReplaysUpdate | backend/app/services/product_service.py:65-68 | running the `setattr` loop over the payload's set fields gives `ApplyUpdate` |
| ProductService.ReplayListing | backend/app/services/product_service.py:65-68 | replaying the title, price and description assignments, then the rest of the loop, equals the rest of the loop run on the row with those three columns set |
| ProductService.ReplayState | backend/app/services/product_service.py:65-68 | replaying the category, condition and status assignments sets exactly those three columns, each to the payload's value when the payload sets it |
| ProductService.AssignThen | backend/app/services/product_service.py:67-68 | an optional assignment followed by the rest is the rest applied to the assigned listing |
| ProductService.CreateOutcome | backend/app/services/product_service.py:15-31 | more than 5 image URLs gives 400 and nothing else does; a created listing has a fresh key, belongs to the caller, is ON_SALE and not blinded; its title, price, description, category, condition and images are the payload's; it is stamped with the clock, which advances by one; the other tables stay |
| ProductService.GetOutcome | backend/app/services/product_service.py:52-56 | a missing id gives 404; otherwise the stored listing |
| ProductService.UpdateOutcome | backend/app/services/product_service.py:58-76 | 404, then 403 for a non-seller, then 400 for SOLD, then 400 for more than 5 image URLs; succeeds in every other case. On success only that listing changes: it becomes `ApplyUpdate` of the payload, with the new images if they were given |
| ProductService.DeleteOutcome | backend/app/services/product_service.py:78-85 | fails exactly when the listing is missing (404), not the caller's (403) or SOLD (400); on success only that listing is removed |
| ProductService.DeletedListingIsGone | backend/app/services/product_service.py:78-85 | after a delete, getting the listing gives 404 |
| ProductService.BlindOutcome | backend/app/services/product_service.py:87-93 | a missing listing gives 404 "Product not found", and nothing else fails; otherwise it becomes blinded with the reason and nothing else changes |
| ProductService.UnblindOutcome | backend/app/services/product_service.py:95-101 | a missing listing gives 404 "Product not found", and nothing else fails; otherwise it becomes visible, the reason is cleared and nothing else changes |
| ProductService.UnblindUndoesBlind | backend/app/services/product_service.py:87-101 | blinding and then unblinding a visible listing restores the tables exactly |
| ProductService.UpdateKeepsModeration | backend/app/services/product_service.py:58-76 | a successful update was by the seller on an unsold listing and leaves the blind flag and reason as they were |
| ProductService.Create | backend/app/services/product_service.py:15-31 | the session method has exactly the outcome of `CreateOutcome` |
| ProductService.Update | backend/app/services/product_service.py:58-76 | the session method, with its `setattr` loop, has exactly the outcome of `UpdateOutcome` |
| ProductService.Delete | backend/app/services/product_service.py:78-85 | the session method has exactly the outcome of `DeleteOutcome` |
| ProductService.Blind | backend/app/services/product_service.py:87-93 | the session method has exactly the outcome of `BlindOutcome` |
| ProductService.Unblind | backend/app/services/product_service.py:95-101 | the session method has exactly the outcome of `UnblindOutcome` |
| CartService.AddOutcome | backend/app/services/cart_service.py:16-39 | 404 for a missing listing; 400 for one that is not available; 400 for the caller's own; succeeds in every other case. On success the caller's row for the listing has quantity 1 and is selected, and it is the row `get_item` finds; an existing row is edited in place and a missing one is appended with a fresh key, and no other row, listing, purchase or account changes |
| CartService.AddTwiceIsAddOnce | backend/app/services/cart_service.py:25-28 | adding the same listing again changes nothing and gives back the same row |
| CartService.ListOutcome | backend/app/services/cart_service.py:41-42 | exactly the caller's rows, newest first |
| CartService.UpdateOutcome | backend/app/services/cart_service.py:44-57 | 404 unless the caller owns the row; a quantity other than 1 gives 400 and sets nothing; it succeeds exactly when the caller owns the row and the quantity is absent or 1. On success each field set in the payload is stored, the others keep their values, and only that row changes |
| CartService.DeleteOutcome | backend/app/services/cart_service.py:59-64 | 404 exactly when the caller owns no row with that id; otherwise that row, and only that row, is gone |
| CartService.Add | backend/app/services/cart_service.py:16-39 | the session method has exactly the outcome of `AddOutcome` |
| CartService.Update | backend/app/services/cart_service.py:44-57 | the session method has exactly the outcome of `UpdateOutcome` |
| CartService.Delete | backend/app/services/cart_service.py:59-64 | the session method has exactly the outcome of `DeleteOutcome` |
| PurchaseService.DropFromCart | backend/app/services/purchase_service.py:38-40 | the buyer's row for the listing is deleted if present; nothing else changes |
| PurchaseService.BuyNowOutcome | backend/app/services/purchase_service.py:17-43 | 404, then 400 for blinded, then 400 for own, then 409 when the gate refuses; succeeds exactly when the listing is available and not the buyer's. On success: one purchase at the price read before the gate, quantity 1; the listing is SOLD; the buyer's cart row is dropped; nothing else changes |
| PurchaseService.SecondBuyerConflicts | backend/app/services/purchase_service.py:26-27 | after a successful buy now, another buyer gets 409 |
| PurchaseService.CheckoutItem | backend/app/services/purchase_service.py:51-70 | one loop pass buys exactly when the row's listing exists, is available and is not the buyer's; a skipped row changes nothing; a bought row gives a purchase, a SOLD listing and a deleted cart row |
| PurchaseService.NothingBoughtNothingChanged | backend/app/services/purchase_service.py:72-73 | a checkout pass that buys nothing leaves the tables unchanged |
| PurchaseService.BuySelectedOutcome | backend/app/services/purchase_service.py:45-76 | no selected rows gives 400 "No selected cart items"; no purchasable row gives 400 "No purchasable selected items"; it succeeds exactly when some row is selected and the loop bought at least one of them, and then commits the loop's tables and returns its purchases |
| PurchaseService.CheckoutSettles | backend/app/services/purchase_service.py:50-76 | over rows naming distinct listings: exactly the rows eligible at the start are bought, in order, at their initial prices; exactly their listings become SOLD and their cart rows go; the ledger grows by exactly these purchases |
| PurchaseService.SettledStep | backend/app/services/purchase_service.py:51-70 | one more loop pass keeps that description true |
| PurchaseService.SettledSkip | backend/app/services/purchase_service.py:53-59 | a skipped row keeps the description true |
| PurchaseService.SettledBuy | backend/app/services/purchase_service.py:61-70 | a bought row keeps the description true |
| PurchaseService.ReceiptsBuy | backend/app/services/purchase_service.py:61-68 | the next purchase is the receipt for the bought row |
| PurchaseService.MarkedBuy | backend/app/services/purchase_service.py:58 | the gate marks exactly the bought listing |
| PurchaseService.ClearedBuy | backend/app/services/purchase_service.py:69 | the delete removes exactly the bought row |
| PurchaseService.CheckoutStep | backend/app/services/purchase_service.py:51-70 | one pass of the loop on the session has exactly the effect and the result of `CheckoutItem` |
| PurchaseService.CheckoutLoop | backend/app/services/purchase_service.py:50-70 | the loop on the session has exactly the effect and the purchases of `Checkout` |
| PurchaseService.BuyNow | backend/app/services/purchase_service.py:17-43 | the session method has exactly the outcome of `BuyNowOutcome` |
| PurchaseService.BuySelectedCartItems | backend/app/services/purchase_service.py:45-76 | the session method's loop stages the passes and commits all or nothing, with exactly the outcome of `BuySelectedOutcome` |
| AuthService.FindUser | backend/app/services/auth_service.py:23-25 | finds nothing exactly when no account matches; otherwise an account that matches |
| AuthService.SignupOutcome | backend/app/services/auth_service.py:22-36 | 409 for a taken email, checked first; then 409 for a taken nickname; succeeds exactly when both are free. The new account is USER, stores the password's hash and is appended |
| AuthService.Signup | backend/app/services/auth_service.py:22-36 | the session method has exactly the outcome of `SignupOutcome` |
| AuthService.IssueTokens | backend/app/services/auth_service.py:55-58 | both tokens name the same account, one as access and one as refresh |
| AuthService.LoginOutcome | backend/app/services/auth_service.py:38-42 | an unknown email and a wrong password both give the same 401; otherwise tokens for that account |
| AuthService.RefreshOutcome | backend/app/services/auth_service.py:44-53 | a token that does not decode as a refresh token gives 401; one naming no account gives 401 "User not found"; it succeeds exactly when the token decodes as a refresh token and names an existing account, and then returns fresh tokens for that account |
| AuthService.FindUserAppend | backend/app/services/auth_service.py:34 | an appended account is found when no earlier account matches |
| AuthService.SignupThenLogin | backend/app/services/auth_service.py:22-42 | with token creation working as intended, whoever signs up can log in with the same email and password |
| AuthService.RefreshRoundTrip | backend/app/services/auth_service.py:44-58 | a refresh token from `issue_tokens` gives fresh tokens for the same account; an access token is refused with 401 |
| AuthService.IssueTokensAsWritten | backend/app/core/security.py:28-31 | creating the token pair raises exactly when the settings declare no refresh-token lifetime; otherwise both tokens name the account |
| AuthService.LoginAsWritten | backend/app/routers/auth.py:32-41 | login as written: the 401 is re-raised exactly when `login` raises it; correct credentials give the generic 500 exactly when no refresh lifetime is declared; otherwise the body is the access token with type "bearer" and no refresh token |
| AuthService.SignupThenLoginCrashes | backend/app/core/config.py:4-16 | with the settings as declared, whoever signs up and logs in with the same email and password gets the generic 500 |
| CartRouter.SelectedTotalOfSelected | backend/app/routers/cart.py:33-36 | unselected rows add nothing to the total |
| CartRouter.NothingSelectedTotalsZero | backend/app/routers/cart.py:32-36 | with nothing selected the total is 0 |
| CartRouter.LineOf | backend/app/routers/cart.py:34-47 | a line carries the row's id, listing, quantity and selection, the listing's live title, status and price, and a subtotal of quantity × price |
| CartRouter.BuildLines | backend/app/routers/cart.py:31-49 | the loop gives one line per row, in order, and a total that sums the selected subtotals; a row whose listing is gone ends in the 500 and nothing else does |
| CartRouter.ListCart | backend/app/routers/cart.py:28-49 | the caller's rows, newest first, each as its line; the total sums the selected subtotals; the 500 exactly when a row's listing is gone; never raises |
| CartRouter.AddToCart | backend/app/routers/cart.py:14-25 | the service's effect; the new row's id, or its error re-raised |
| CartRouter.UpdateCartItem | backend/app/routers/cart.py:52-64 | the service's effect; "Cart updated", or its error re-raised |
| CartRouter.DeleteCartItem | backend/app/routers/cart.py:67-78 | the service's effect; "Cart item deleted", or its error re-raised |
| ProductsRouter.Seller | backend/app/routers/products.py:30 | the account named by the listing's seller id, or nothing exactly when there is none |
| ProductsRouter.ToSummary | backend/app/routers/products.py:21-33 | the listing's own columns and the seller's nickname; the thumbnail is the first image, and it is absent exactly when there are no images |
| ProductsRouter.ToDetail | backend/app/routers/products.py:36-52 | every column of the listing, the seller's nickname, and every image URL in order |
| ProductsRouter.Present | backend/app/routers/products.py:62-65 | a service error is re-raised unchanged; a result becomes exactly `ToDetail` of the listing and its seller, or the 500 when its seller is missing |
| ProductsRouter.Summaries | backend/app/routers/products.py:92 | one summary per listed row, in order |
| ProductsRouter.ListProducts | backend/app/routers/products.py:68-93 | never raises; the list is the repository's total and page, queried with include_blinded exactly for admins, each row as a summary |
| ProductsRouter.ListHidesBlinded | backend/app/routers/products.py:79 | anonymous and non-admin callers are never shown a blinded listing |
| ProductsRouter.GetProduct | backend/app/routers/products.py:96-111 | 404 for a missing listing; 403 for a blinded listing unless the caller is an admin; otherwise its detail |
| ProductsRouter.BlindedVisibleToAdminOnly | backend/app/routers/products.py:105-108 | an admin gets a blinded listing that every other caller is refused with 403 |
| ProductsRouter.CreateProduct | backend/app/routers/products.py:55-65 | the service's effect; the created listing's detail, or its error re-raised |
| ProductsRouter.UpdateProduct | backend/app/routers/products.py:114-125 | the service's effect; the updated listing's detail, or its error re-raised |
| ProductsRouter.DeleteProduct | backend/app/routers/products.py:128-139 | the service's effect; "Product deleted", or its error re-raised |
| CartPage.RecalculateTotal | frontend/app/cart/page.tsx:8-13 | the lines are unchanged and the total is price × quantity over the selected lines |
| CartPage.ClientTotalIsServerTotal | frontend/app/cart/page.tsx:8-13 | over lines priced as the backend prices them, the client's total is the backend's total |
| CartPage.SumOfSelectedSubtotals | frontend/app/cart/page.tsx:9-11 | over selected, priced lines, the price × quantity fold equals the sum of the subtotals |
| CartPage.RecalculateKeepsServerCart | frontend/app/cart/page.tsx:8-13 | recomputing the total of a cart as the backend returned it changes nothing |
| CartPage.UpdateNext | frontend/app/cart/page.tsx:42-52 | only lines with that id change; a field the client omitted keeps its old value; the total is recomputed |
| CartPage.DeleteNext | frontend/app/cart/page.tsx:70-73 | exactly the lines without that id remain, in order; the total is recomputed |
| CartPage.CheckoutNext | frontend/app/cart/page.tsx:90-94 | exactly the unselected lines remain, in their order, and the total is 0 |
| CartPage.NoneSelected | frontend/app/cart/page.tsx:10 | a cart without selected lines has nothing to add up |
| SellPage.SplitLines | frontend/app/sell/page.tsx:28 | the pieces contain no line feed and, joined with line feeds, give back the text |
| SellPage.SkipSpaces | frontend/app/sell/page.tsx:29 | skips exactly the leading white space |
| SellPage.SkipSpacesBack | frontend/app/sell/page.tsx:29 | skips exactly the trailing white space |
| SellPage.Trim | frontend/app/sell/page.tsx:29 | the result is a stretch of the line that neither starts nor ends with white space; everything cut off around it is white space |
| SellPage.TrimmedLines | frontend/app/sell/page.tsx:28-29 | one trimmed line per piece, in order |
| SellPage.ImageUrls | frontend/app/sell/page.tsx:27-31 | at most 5 URLs, each non-empty and trimmed; they are the first of the non-blank trimmed lines, in order; all of them when there are at most 5, otherwise exactly 5 |
| SellPage.UrlsComeFromLines | frontend/app/sell/page.tsx:27-31 | every URL sent is the trimmed form of a line of the text box |
| Invariants.SaveKeepsValid | backend/app/models/entities.py:67-76 | editing a row's quantity or selection keeps the cart keys unique |
| Invariants.RemoveKeepsValid | backend/app/repositories/cart_repository.py:48-50 | deleting a cart row keeps every invariant |
| Invariants.InsertKeepsValid | backend/app/models/entities.py:69 | inserting a row for a missing (user, listing) pair keeps both cart keys unique |
| Invariants.SaleKeepsValid | backend/app/services/purchase_service.py:26-36 | marking an unsold listing SOLD and recording its purchase keeps one purchase per listing |
| Invariants.BuyNowKeepsValid | backend/app/services/purchase_service.py:17-43 | buy now keeps every invariant |
| Invariants.CheckoutItemKeepsValid | backend/app/services/purchase_service.py:51-70 | a checkout pass keeps every invariant |
| Invariants.CheckoutKeepsValid | backend/app/services/purchase_service.py:45-76 | the checkout loop keeps every invariant |
| Invariants.ProductOpKeepsValid | backend/app/services/product_service.py:15-101 | a listing operation that leaves SOLD listings alone keeps every invariant |
| Invariants.CreateKeepsValid | backend/app/services/product_service.py:15-31 | listing a product keeps every invariant and the history |
| Invariants.ListingUpdateKeepsValid | backend/app/services/product_service.py:58-76 | editing a listing keeps every invariant and the history, since a SOLD listing cannot be edited |
| Invariants.ListingDeleteKeepsValid | backend/app/services/product_service.py:78-85 | deleting a listing keeps every invariant and the history, since a SOLD listing cannot be deleted |
| Invariants.ModerationKeepsValid | backend/app/services/product_service.py:87-101 | blinding and unblinding keep every invariant and the history |
| Invariants.SignupKeepsValid | backend/app/services/auth_service.py:22-36 | signing up keeps every invariant and the history |
| Invariants.AddKeepsValid | backend/app/services/cart_service.py:16-39 | adding to the cart keeps every invariant |
| Invariants.CartUpdateKeepsValid | backend/app/services/cart_service.py:44-57 | editing a cart row keeps every invariant |
| Invariants.Apply | backend/app/models/entities.py:67-94 | every service call from a valid state leads to a valid state; it never rewrites the ledger or takes a listing out of SOLD |
| Invariants.Run | backend/app/models/entities.py:67-94 | any sequence of calls from a valid state stays valid |
| Invariants.CheckoutKeepsHistory | backend/app/services/purchase_service.py:45-76 | the checkout loop only appends to the ledger and keeps SOLD listings SOLD |
| Invariants.RunKeepsHistory | backend/app/services/product_service.py:82-83 | the same holds over any sequence of calls |
| Invariants.AtMostOneSalePerListing | backend/app/repositories/product_repository.py:87-97 | from an empty database, whatever calls are made, no listing is bought twice |
| Invariants.LaterBuyersConflict | backend/app/services/purchase_service.py:26-27 | once a listing is SOLD, every later buy now on it fails, whatever happened in between; a buyer who is not the seller gets 409 unless the listing was blinded since |
| Invariants.OneWinner | backend/tests/test_requirements_unittest.py:290-320 | among any number of buy-now attempts on one listing at most one succeeds, and none once it is SOLD |
| Invariants.BuyNowClearsCart | backend/app/services/purchase_service.py:38-40 | after a successful buy now the buyer's cart holds no row for the listing |
| Invariants.PurchaseInBothHistories | backend/tests/test_requirements_unittest.py:225-236 | the purchase shows up in the buyer's history and in the seller's |
| Invariants.SelectedCheckoutSettles | backend/app/services/purchase_service.py:45-76 | in a valid state the selected rows name distinct listings, so a checkout of them has exactly the effect `CheckoutSettles` describes |
| Seqs.Filter | backend/app/repositories/cart_repository.py:23-40 | keeps exactly the matching elements, never more copies of one than the input has |
| Seqs.FilterDistinct | backend/app/models/entities.py:69 | filtering cannot create duplicate keys |
| Seqs.SortBy | backend/app/repositories/cart_repository.py:29 | the result is sorted on the key and is a permutation of the input |

## Left out

- Concurrency. The thread-pool test and the unused row lock `get_for_update` (backend/app/repositories/product_repository.py:27-33) are not modelled. Each service call is one atomic step. The one-sale guarantee is proved over any sequence of whole calls, not over interleaved statements.
- Session mechanics: flush, refresh, commit, rollback and `selectinload`. A call either produces its new tables or raises with the tables unchanged. The batch checkout commits all its passes or none.
- A failed update discards its in-memory `setattr` changes because the request ends without a commit. The model simply leaves the tables unchanged on every error.
- Clock values are an abstract counter. `updated_at` and the error envelope's `timestamp` are not modelled.
- AuthService.IssueTokens: the intended token creation is modelled. As written, `create_refresh_token` (backend/app/core/security.py:28-31) reads `settings.jwt_refresh_expire_minutes`, which `Settings` (backend/app/core/config.py:4-16) does not declare, so `issue_tokens` raises on every call and every login with correct credentials and every refresh with a valid token ends in the generic 500. `AuthService.LoginOutcome`, `RefreshOutcome`, `SignupThenLogin` and `RefreshRoundTrip` assume the intended behaviour; `AuthService.LoginAsWritten` models the code as written (see Findings).
- AuthService.LoginAsWritten: the answer is the `TokenResponse` body (backend/app/schemas/auth.py:17-19), which declares the access token and the token type only, so the refresh token that backend/app/routers/auth.py:37 passes is dropped, although the web client reads one (frontend/app/login/page.tsx:19-26, frontend/lib/api.ts:90-94). The intended members (`LoginOutcome`, `RefreshOutcome`) return the pair. The member assumes the router module imports, which as written it does not.
- Password hashing, token signing and expiry are function parameters (`hash`, `verify`, `encode`, `decode`). `decode` stands for `decode_token` with its `typ` check. Settings, OAuth2 token extraction and the `get_current_user` dependencies are not modelled; routers receive the caller as a parameter.
- Not modelled:
  - the application startup (CORS and admin seeding);
  - the purchases and admin routers, which only forward to the services;
  - the auth router beyond `AuthService.LoginAsWritten`: as written it does not import, because backend/app/routers/auth.py:9 imports `RefreshRequest`, which backend/app/schemas/auth.py does not define, so the application stops at backend/app/main.py:15 (see Findings);
  - `UserRepository`, whose lookups are the first-match searches of `AuthService`.
- PurchaseService `my_purchases` and `my_sales` return `PurchaseRepository.ListByBuyer` and `ListBySeller` unchanged, so they have no member of their own. ProductService `list` is `ProductRepository.List`.
- Pydantic field bounds are types or parameters, not checks:
  - price at least 1 (`Price`);
  - quantity 1 to 99 (`Quantity`);
  - the query's page at least 1 and page size 1 to 50.
  The title and description length limits are not modelled. The schema's own limit of 5 image URLs is not modelled; the service's own check is.
- ProductService.UpdateOutcome: `Option` fields mean "set" or "unset". An explicit `null` for a non-nullable column is not modelled.
- ProductRepository.ContainsCI: keyword matching is a literal substring test with ASCII case folding. The SQL LIKE wildcards `%` and `_` inside a keyword, and case folding beyond ASCII, are not modelled.
- ProductRepository.Rows: the scan covers the keys below the shared key counter. Every stored key is below it in any reachable state (`Invariants.Valid`).
- All tables share one primary-key counter. Keys are fresh but not consecutive per table as SQLite's are. The id columns (backend/app/models/entities.py:23,36,60,71,84) have no AUTOINCREMENT, so SQLite gives a new row one more than the largest key present and reuses the key of a deleted newest row; the model never reuses a key. Together with the dangling cart rows below, this changes behaviour: when the newest listing sits in a cart and its seller deletes it, the next listing created takes its key, so in the source that cart row now names the new listing, `list_cart` shows it and `buy_selected_cart_items` buys it, while in the model `CartRouter.ListCart` answers the generic 500 and `PurchaseService.CheckoutItem` skips the row (400 "No purchasable selected items" if it is the only selected row).
- ProductRepository.Ordered: rows with equal sort keys may come back in any order from SQL. The model fixes one order.
- CartRepository.ListSelected: the query has no ORDER BY, so the database chooses the order in which checkout visits the selected rows and so the order of the purchases and their keys. The model fixes table order. `PurchaseService.CheckoutSettles` holds for any order of rows with distinct listings, so which rows are bought, at what prices, and what is marked SOLD and cleared do not depend on it.
- A deleted listing leaves the cart rows that point at it (the foreign key is not enforced). Listing that cart then fails on the missing product. `CartRouter.ListCart` models this as the generic 500, and `ProductsRouter` does the same for a listing whose seller is missing.
- CartService.AddOutcome and CartService.UpdateOutcome return the row as written rather than as re-read by `get_item_by_id`. The two are the same because ids are unique (`Invariants.Valid`).
- ProductService.CreateOutcome and ProductService.Create require that every stored key is below the counter. A database's auto-increment guarantees this, and `Invariants.Valid` maintains it.
- Web client:
  - restoring the previous cart after a failed request is only `setCart(previous)`, and is not modelled;
  - fetch, retry on 401, local storage and rendering are not modelled;
  - `Number(price)` and `toLocaleString` are floating point and locale formatting, and are not modelled;
  - the admin, login, signup and my-page screens are not modelled.
- CartPage.UpdateNext: like the page, it does not recompute the edited line's `subtotal`; only the total is recomputed.
- Some test assertions contradict the code, which is modelled instead:
  - a cart quantity of 2, which the service rejects;
  - an amount of twice the price, where a purchase records the unit price;
  - the login response decoded as a token pair.

## Findings

| source | as written | input that shows it | evidently intended | confidence | as-written member | corrected member |
|---|---|---|---|---|---|---|
| backend/app/core/security.py:28-31 | `create_refresh_token` falls back to `settings.jwt_refresh_expire_minutes`, which `Settings` (backend/app/core/config.py:4-16) does not declare, so `issue_tokens` raises AttributeError and, once the auth router imports, login and refresh answer the generic 500. Two more faults sit in front of it and beside it: backend/app/routers/auth.py:9 imports `RefreshRequest`, which backend/app/schemas/auth.py does not define, so the application does not start (backend/app/main.py:15); and `TokenResponse` (backend/app/schemas/auth.py:17-19) has no refresh-token field, so even a working `issue_tokens` would not send the refresh token to the client | sign up, then log in with the same email and password | a declared refresh-token lifetime, a defined `RefreshRequest` and a refresh-token field in `TokenResponse`, so that correct credentials get an access and a refresh token | high, not executed | AuthService.LoginAsWritten, AuthService.SignupThenLoginCrashes | AuthService.LoginOutcome, AuthService.SignupThenLogin |

# Cart line-item engine of an e-commerce backend

This project models the shopping-cart core of an Express/Mongoose store
backend in Dafny, and proves properties of that model.

- **Cart document** (`CartModel`). Line items carry a product reference, snapshots of the name, image and price, an optional size and colour, and a quantity.
  - `totalPrice` and `totalItems` are derived fields. The pre-save hook recomputes them on every save.
  - The schema requires every item quantity to be at least 1. The ODM checks that before the hook runs, so a save that fails validation changes nothing and the route answers 500.
  - The collection of persisted carts is a class `CartStore`. It keeps a map from document id to document and an id generator. Its invariant is that every persisted cart is consistent.
- **Line-item edits** (`CartItems`). Items are identified by the triple key (product, size, colour). Comparison is strict equality, so an absent size matches only an absent size.
  - `FindIndex` is `findIndex`.
  - `AddLine` is the step shared by add and by each merge iteration: increment the first match, or append.
  - `MergeItems` folds that step over the guest items.
  - `UpdateLine` splices out or overwrites the first match.
  - `RemoveKey` is the filter.
- **Route handlers** (`CartRoutes`). These are merge, get, add, update and remove, as imperative methods over a `Cart` object loaded from, or created for, the store. They edit `cart.items` in place the way the routes do, then call `Save`.
  - The decoded bearer token is an `Option<UserId>` parameter.
  - The product collection is a map parameter.
  - `findOne` by owner returns some cart of that owner. Nothing makes owners unique, so which one is left open.
- **Catalog queries** (`ProductRoutes`), as pure functions returning records:
  - the listing filter and sort records;
  - the similar-products query;
  - the checks made before a product is created.

Prices are whole numbers of cents. Every id is an opaque string, except cart ids, which are natural numbers.

Merging a cart id that is the user's own cart is not excluded by the route. When the cart the lookup settles on is the guest cart itself, the contract of `CartRoutes.Merge` says that the store ends without that cart, while the reply still carries the merged cart, which is no longer stored.

With neither a token nor a guest id, the update and remove routes query `findOne({ guestId: undefined })`. The database driver sends `undefined` as `null` by default, and `guestId: null` matches every cart without a guest id, that is, every user cart. The model follows that reading (`CartModel.OwnerFilter.NoGuestId`). So the contracts of `CartRoutes.Update` and `CartRoutes.Remove` say that such an anonymous request edits some user's cart, and answers 404 only when no user cart exists.

## Model

| member | source | states |
|---|---|---|
| CartModel.SumPrice | models/Cart.js:71-74 | Σ price×quantity over the items, the reference the pre-save loop is proved equal to |
| CartModel.SumQty | models/Cart.js:71-74 | Σ quantity over the items, the reference the pre-save loop is proved equal to |
| CartModel.Matches | routes/CartRoutes.js:174-176 | which owners a `findOne` filter matches: exactly the named owner, or, for an undefined guest id sent as `null`, every user |
| CartModel.Item.KeyOf | routes/CartRoutes.js:50-53 | the (product, size, colour) triple that the route's `===` tests compare together; a line matches a request exactly when the triples are equal |
| CartModel.QuantitiesValid | models/Cart.js:27-32 | the schema's `min: 1` on every item quantity |
| CartModel.Consistent | models/Cart.js:67-80 | the invariant of a saved cart: valid quantities and both totals equal to the sums over its items |
| CartModel.Recomputed | models/Cart.js:67-80 | recomputing keeps the owner and items and sets `totalPrice` to Σ price×quantity and `totalItems` to Σ quantity |
| CartModel.RecomputedIdempotent | models/Cart.js:68-77 | the recomputed totals depend on the items only (old totals are overwritten); recomputing twice equals once; the result is consistent iff all quantities are ≥ 1 |
| CartModel.TotalItemsAtLeastLines | models/Cart.js:27-32 | with every quantity ≥ 1, `totalItems` is at least the number of lines |
| CartModel.SumQtyAppend | models/Cart.js:71-74 | the quantity sum over a concatenation is the sum of the parts |
| CartModel.SumPriceAppend | models/Cart.js:71-74 | the price sum over a concatenation is the sum of the parts |
| CartModel.Cart.constructor | models/Cart.js:49-57 | a new cart has no items and both totals at their default 0 |
| CartModel.Cart.RecomputeTotals | models/Cart.js:67-80 | the forEach accumulation leaves the items unchanged and writes exactly `Recomputed` of the old document |
| CartModel.Cart.Save | models/Cart.js:27-80 | save succeeds iff every quantity is ≥ 1; on success the totals are recomputed, the cart is consistent and is stored under its id; on failure neither cart nor collection changes; the store invariant is kept |
| CartModel.Cart.Load | routes/CartRoutes.js:39 | a cart object loaded from the collection holds exactly the stored document |
| CartModel.CartStore.NewId | routes/CartRoutes.js:42-45 | a new cart gets an id no persisted cart has; documents unchanged |
| CartModel.CartStore.FindById | routes/CartRoutes.js:34-37 | finds the document iff the id is in use |
| CartModel.CartStore.FindOne | routes/CartRoutes.js:39 | returns a cart matching the owner filter, or none exactly when no cart matches |
| CartModel.CartStore.Delete | routes/CartRoutes.js:64 | removes exactly that id; the invariant is kept |
| CartItems.FindIndex | routes/CartRoutes.js:49-54 | -1 iff no item has the key; otherwise the index of the first item with the key |
| CartItems.AddLine | routes/CartRoutes.js:139-153 | the add step as a function: the first item with the line's key gains the line's quantity, else the line is appended; the lemmas below state its effect |
| CartItems.AddLineEffect | routes/CartRoutes.js:139-153 | with the key present, only the first match changes, its quantity grown by the requested amount; otherwise the line is appended; every other item is unchanged |
| CartItems.AddLineQty | routes/CartRoutes.js:139-153 | total units grow by the added quantity; per key, only the added key's units grow |
| CartItems.AddLineKeys | routes/CartRoutes.js:139-153 | the keys afterwards are the old keys plus the added one |
| CartItems.AddLineUnique | routes/CartRoutes.js:139-153 | an add keeps keys unique |
| CartItems.AddLineValid | routes/CartRoutes.js:139-155 | after an add every quantity is ≥ 1 iff the affected line's new quantity is ≥ 1 |
| CartItems.AddLineTwice | routes/CartRoutes.js:132-141 | adding the same variant again increments the existing line and adds no new one |
| CartItems.MergeItems | routes/CartRoutes.js:48-61 | the merge loop as a left fold of `AddLine` over the guest items in order |
| CartItems.MergeQty | routes/CartRoutes.js:48-61 | merge conserves quantity, in total and per key: user units plus guest units |
| CartItems.MergeKeepsUserItems | routes/CartRoutes.js:48-61 | no user item is removed; user items keep their position and every field but the quantity |
| CartItems.MergeUserItemQty | routes/CartRoutes.js:49-57 | a user item gains all guest units of its key iff it is the first user item with that key, otherwise nothing |
| CartItems.MergeAppended | routes/CartRoutes.js:56-60 | every line after the user items is a guest item pushed unchanged apart from its quantity: same snapshot as the first guest item with its key, a key the user cart lacks, in the order those keys first occur in the guest cart |
| CartItems.FindIndexSnoc | routes/CartRoutes.js:49-54 | pushing an item keeps the first index of every key already present; a key new to the list is found at the pushed position |
| CartItems.MergeKeys | routes/CartRoutes.js:48-61 | a key is in the merged cart iff it is in the user cart or the guest cart |
| CartItems.MergeUnique | routes/CartRoutes.js:49-60 | merge keeps user keys unique, even when the guest cart has duplicate keys |
| CartItems.MergeValid | routes/CartRoutes.js:48-63 | merging valid carts gives valid quantities, so the save after a merge never fails validation |
| CartItems.UpdateLine | routes/CartRoutes.js:187-195 | the update step as a function: none when the key is absent, else the first match spliced out (quantity ≤ 0) or its quantity overwritten |
| CartItems.UpdateMissing | routes/CartRoutes.js:180-189 | update finds nothing to change iff no item has the key |
| CartItems.UpdateRemoves | routes/CartRoutes.js:191-192 | a quantity ≤ 0 splices out exactly the first match, keeping order; units drop by its quantity, other keys unchanged; with unique keys the key is gone |
| CartItems.UpdateSets | routes/CartRoutes.js:193-194 | a positive quantity overwrites the first match's quantity; every other item is unchanged |
| CartItems.UpdatePreserves | routes/CartRoutes.js:191-197 | update keeps keys unique and quantities valid |
| CartItems.RemoveKey | routes/CartRoutes.js:222-229 | the filter keeping the items whose key differs; it never lengthens the list |
| CartItems.RemoveKeyMembers | routes/CartRoutes.js:222-229 | an item survives removal iff it was present and has a different key |
| CartItems.RemoveKeyConcat | routes/CartRoutes.js:222-229 | removal is a filter: it distributes over concatenation, so the kept items stay in order |
| CartItems.RemoveKeyAbsent | routes/CartRoutes.js:222-229 | removing an absent key leaves the list unchanged |
| CartItems.RemoveKeyIdempotent | routes/CartRoutes.js:222-229 | after removal the key is absent; removing twice equals removing once |
| CartItems.RemoveKeyQty | routes/CartRoutes.js:222-229 | removal drops all units of that key and no others |
| CartItems.RemoveKeyPreserves | routes/CartRoutes.js:222-231 | removal keeps keys unique and quantities valid |
| CartRoutes.EffectivePrice | routes/CartRoutes.js:148 | the snapshot price: the discount price when it is truthy (present and non-zero), else the list price |
| CartRoutes.DisplayImage | routes/CartRoutes.js:147 | the snapshot image: the first image when present and non-empty, else the image field when truthy, else "" |
| CartRoutes.NewLine | routes/CartRoutes.js:144-152 | the pushed line: request product id, product name, display image, effective price, requested size, colour and quantity |
| CartRoutes.AddOwner | routes/CartRoutes.js:119-129 | the add route's owner: the token's user, else a truthy guest id, else none (the 400 case) |
| CartRoutes.LookupFilter | routes/CartRoutes.js:174-176 | the update and remove routes' filter: the token's user whenever the token decodes, else the guest id as given, else an undefined guest id |
| CartRoutes.RequestedQuantity | routes/CartRoutes.js:108 | the add quantity, 1 when the body leaves it out |
| CartRoutes.RequestLine | routes/CartRoutes.js:144-152 | the line an add request would push: `NewLine` of the requested product, size, colour and quantity |
| CartRoutes.FirstAddTotals | routes/CartRoutes.js:144-152 | one unit added to an empty cart gives one line at the effective price (discount price if truthy, else list price), so the cart total is that price |
| CartRoutes.AddItem | routes/CartRoutes.js:132-153 | the in-place findIndex-then-increment-or-push leaves exactly `AddLine` of the old items and the totals untouched |
| CartRoutes.FindOrCreate | routes/CartRoutes.js:119-129 | an existing cart of the owner, or a new empty one with an unused id when the owner has none |
| CartRoutes.Merge | routes/CartRoutes.js:27-74 | 400 without a guest cart id and 404 for an unknown one, both leaving the store unchanged; otherwise the user's cart (created if missing) holds the guest items merged in, is saved consistent, and the guest cart is deleted |
| CartRoutes.GetCart | routes/CartRoutes.js:77-103 | the token's user's cart if it exists; else the guest cart if a guest id is given and it exists; else an empty list; the store is untouched |
| CartRoutes.Add | routes/CartRoutes.js:106-166 | 404 for an unknown product and 400 with neither token nor guest id, store untouched; otherwise the resolved cart's items become `AddLine` of its old items with the snapshot line, saved consistent, or a 500 with nothing saved exactly when the new quantity is < 1 |
| CartRoutes.Update | routes/CartRoutes.js:169-208 | 404 "Cart not found" iff no cart matches the lookup filter (with neither token nor guest id: iff no user cart exists), then 404 "Item not found" when the key is absent, store untouched; otherwise the saved items are `UpdateLine` of the old ones; with a token the user's cart is used, never the guest cart |
| CartRoutes.Remove | routes/CartRoutes.js:211-242 | 404 iff no cart matches the lookup filter (with neither token nor guest id: iff no user cart exists); with a token the user's cart is used; store untouched; otherwise the saved items are `RemoveKey` of the old ones |
| ProductRoutes.Split | routes/productRoutes.js:32-33 | `split(",")` gives at least one piece and no piece contains a comma |
| ProductRoutes.Join | routes/productRoutes.js:32-33 | `join(",")`, the inverse the split is proved against |
| ProductRoutes.JoinSplit | routes/productRoutes.js:32-33 | re-joining the split pieces with "," gives the parameter back |
| ProductRoutes.SplitJoin | routes/productRoutes.js:32-33 | splitting comma-free pieces joined by "," gives the pieces back |
| ProductRoutes.IfTruthy | routes/productRoutes.js:34-36 | a parameter is copied verbatim iff it is a non-empty string |
| ProductRoutes.BuildFilter | routes/productRoutes.js:31-41 | size and colour filters iff their parameter is non-empty; category, brand and gender copied verbatim iff non-empty; a price range iff a bound is given, `$gte` only from minPrice and `$lte` only from maxPrice |
| ProductRoutes.FilterValueSets | routes/productRoutes.js:32-33 | the size and colour value sets are the comma pieces of their parameter, and they join back to it |
| ProductRoutes.BuildSort | routes/productRoutes.js:43-48 | price_asc gives price 1, price_desc gives price -1, latest gives createdAt -1, anything else or nothing gives the empty sort; never both keys |
| ProductRoutes.BuildSimilar | routes/productRoutes.js:103-116 | excludes the product's id, same category, gender and brand only when truthy on the product, limit 8 |
| ProductRoutes.RequiredPresent | routes/productRoutes.js:10 | name, description, price, sku and category are all truthy; a price of 0 counts as missing |
| ProductRoutes.SkuTaken | routes/productRoutes.js:13-14 | some product in the catalog already has the SKU |
| ProductRoutes.CheckCreate | routes/productRoutes.js:9-16 | passes iff all five required fields are truthy (price 0 counts as missing) and the SKU is unused; otherwise the exact 400 message, missing fields checked first |

## Left out

- Token decoding and the `protect` middleware: these are JWT library calls. The decoded user is a parameter, `Option<UserId>` for the cart routes and a plain `UserId` for merge.
- `populate`, `console.log` and response formatting: these are database joins and presentation. A reply carries the saved cart document.
- Database evaluation of the filter, sort and limit records, and `Number(...)` parsing: the model builds the records only. Numeric parameters arrive as parsed integers.
- Floating-point prices and totals: prices are integer cents.
- Non-numeric or missing quantities in request bodies, such as a string quantity that `+=` would concatenate, or an absent update quantity: request quantities are integers. An absent add quantity defaults to 1.
- Invalid document ids that make the ODM throw a cast error (a 500): ids are taken as well-formed.
- CartRoutes.Update and CartRoutes.Remove: with neither a token nor a guest id, the lookup follows the driver's default of sending `undefined` as `null`, so it matches user carts only. A driver set to drop undefined keys would send `{}`, which matches any cart; the model does not cover that setting.
- Product ids are taken in their canonical lower-case form. The source stores `product._id` on a new line but matches on the raw request string. An upper-case spelling of an existing id would pass the product lookup, never match a stored line, and push a second line with the same stored key. The model, which stores the request id, cannot produce that duplicate.
- Request fields are strings or absent: size, colour and guest id in cart bodies, and the listing query parameters. JSON `null` and repeated query keys, which give arrays, are not modelled. For key matching this means the model cannot tell an explicit `size: null` from an absent size. The source compares them with `===` and finds them different: an add with `size: null` against a line with no size pushes a second line, which the ODM stores with `size: null`, and a later request without a size never matches that line. Merge splits such lines in the same way. A repeated `size` or `color` query key makes `.split` throw, so the listing route answers 500, while `ProductRoutes.BuildFilter` always returns a filter.
- Carts with neither a user nor a guest id are left out. The schema permits them, but the routes never create one, so an owner is always exactly one of the two.
- The ODM's `required` checks on item fields other than the quantity are left out. Every line the routes build carries a product, name and price, and the types make those fields mandatory.
- The timestamps and the id indexes on the cart schema are bookkeeping that no modelled operation reads.
- Atomicity, concurrent writes to one cart, and a crash between the merge's save and its delete are concurrency and I/O concerns.
- CartRoutes.Merge: the contract states the final collection (user cart saved, guest cart deleted) but not that the save happens before the delete. The method body performs them in that order.
- CartRoutes.GetCart and CartModel.CartStore.FindOne: when several carts share an owner, the contract does not say which one `findOne` returns, because that depends on the database.
- The rest of the repository is thin handling around single lookups: the user, order, admin, upload and subscriber routes, the server bootstrap and the seeder. It is not part of this model.

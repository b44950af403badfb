/** The cart route handlers: merge a guest cart into a user cart, read the
    active cart, add, update and remove line items. Each handler resolves
    the owner's cart, edits its item list in place and saves it; the
    decoded bearer token is an optional user id given as a parameter. */
module CartRoutes {
  import opened Common
  import opened Catalog
  import opened CartModel
  import opened CartItems

  /** A handler's answer. `Ok` carries the id and the saved document of
      the cart it worked on. */
  datatype Reply = Ok(id: CartId, cart: CartDoc) | EmptyCart | Error(status: nat, message: string)

  /** Stands for the message of the 500 answer a failed schema validation
      produces; the ODM's actual message names the failing path and value
      after this prefix. */
  const ValidationFailed := "Cart validation failed"

  /** Some cart matches the owner filter. */
  ghost predicate HasMatch(docs: map<CartId, CartDoc>, f: OwnerFilter) {
    exists id :: id in docs && Matches(f, docs[id].owner)
  }

  /** `cid` is a cart "find or create" may settle on: a cart of the owner,
      or, when the owner has none, an id not in use. */
  ghost predicate Resolved(docs: map<CartId, CartDoc>, owner: Owner, cid: CartId) {
    if cid in docs then docs[cid].owner == owner
    else forall id :: id in docs ==> docs[id].owner != owner
  }

  /** The items of the cart with that id, none for a cart not yet saved. */
  function ItemsAt(docs: map<CartId, CartDoc>, cid: CartId): seq<Item> {
    if cid in docs then docs[cid].items else []
  }

  /** The owner the add route works for: the token's user, else a truthy
      guest id, else none (a 400). */
  function AddOwner(decoded: Option<UserId>, guestId: Option<string>): Option<Owner> {
    if decoded.Some? then Some(User(decoded.value))
    else if Truthy(guestId) then Some(Guest(guestId.value))
    else None
  }

  /** The filter the update and remove routes look up with: the token's
      user whenever the token decodes, else the guest id as given, and with
      neither, `{ guestId: undefined }`. */
  function LookupFilter(decoded: Option<UserId>, guestId: Option<string>): OwnerFilter {
    if decoded.Some? then OwnedBy(User(decoded.value))
    else if guestId.Some? then OwnedBy(Guest(guestId.value))
    else NoGuestId
  }

  /** The price a new line snapshots: the discount price when truthy. */
  function EffectivePrice(p: Product): int {
    if TruthyNum(p.discountPrice) then p.discountPrice.value else p.price
  }

  /** The image a new line snapshots: the first image, else the single
      image field, else the empty string. */
  function DisplayImage(p: Product): string {
    if |p.images| > 0 && p.images[0] != "" then p.images[0]
    else if Truthy(p.image) then p.image.value
    else ""
  }

  /** The line the add route appends for a variant not yet in the cart. */
  function NewLine(id: ProductId, p: Product, size: Option<string>, color: Option<string>, quantity: int): Item {
    Item(id, p.name, Some(DisplayImage(p)), EffectivePrice(p), size, color, quantity)
  }

  /** A first add of one unit to an empty cart: one line priced at the
      effective price, so the cart total is that price and it counts 1. */
  lemma FirstAddTotals(id: ProductId, p: Product, size: Option<string>, color: Option<string>)
    ensures var items := AddLine([], NewLine(id, p, size, color, 1));
      && |items| == 1 && items[0].price == EffectivePrice(p)
      && SumPrice(items) == EffectivePrice(p) && SumQty(items) == 1
  {
    var items := AddLine([], NewLine(id, p, size, color, 1));
    assert items[..0] == [];
  }

  /** The owner's cart if there is one (which, among several, is left
      open), otherwise a new empty cart with a fresh id, not yet saved. */
  method FindOrCreate(store: CartStore, owner: Owner) returns (cart: Cart)
    requires store.Valid()
    modifies store
    ensures store.Valid() && store.docs == old(store.docs)
    ensures fresh(cart) && cart.owner == owner && cart.id < store.nextId
    ensures Resolved(store.docs, owner, cart.id)
    ensures cart.items == ItemsAt(store.docs, cart.id) && QuantitiesValid(cart.items)
  {
    var found := store.FindOne(OwnedBy(owner));
    if found.Some? {
      cart := new Cart.Load(found.value, store.docs[found.value]);
    } else {
      var id := store.NewId();
      cart := new Cart(id, owner);
    }
  }

  /** The in-place step shared by add and each merge iteration: the first
      line with the same key grows by the line's quantity, or the line is
      pushed. */
  method AddItem(cart: Cart, line: Item)
    modifies cart
    ensures cart.items == AddLine(old(cart.items), line)
    ensures cart.totalPrice == old(cart.totalPrice) && cart.totalItems == old(cart.totalItems)
  {
    var existing := FindIndex(cart.items, line.KeyOf());
    if existing > -1 {
      cart.items := cart.items[existing := cart.items[existing].(
        quantity := cart.items[existing].quantity + line.quantity)];
    } else {
      cart.items := cart.items + [line];
    }
  }

  /** POST /merge: fold the guest cart's items into the signed-in user's
      cart, save it, then delete the guest cart. */
  method Merge(store: CartStore, user: UserId, guestCartId: Option<CartId>) returns (reply: Reply)
    requires store.Valid()
    modifies store
    ensures store.Valid()
    ensures guestCartId.None? ==>
      reply == Error(400, "Guest cart ID is required") && store.docs == old(store.docs)
    ensures guestCartId.Some? && guestCartId.value !in old(store.docs) ==>
      reply == Error(404, "Guest cart not found") && store.docs == old(store.docs)
    ensures guestCartId.Some? && guestCartId.value in old(store.docs) ==>
      && reply.Ok?
      && Resolved(old(store.docs), User(user), reply.id)
      && reply.cart.owner == User(user)
      && reply.cart.items == MergeItems(ItemsAt(old(store.docs), reply.id), old(store.docs)[guestCartId.value].items)
      && Consistent(reply.cart)
      && store.docs == old(store.docs)[reply.id := reply.cart] - {guestCartId.value}
  {
    if guestCartId.None? {
      return Error(400, "Guest cart ID is required");
    }
    var guestCart := store.FindById(guestCartId.value);
    if guestCart.None? {
      return Error(404, "Guest cart not found");
    }
    var guestItems := guestCart.value.items;
    var userCart := FindOrCreate(store, User(user));
    ghost var start := userCart.items;

    var i := 0;
    while i < |guestItems|
      invariant 0 <= i <= |guestItems|
      invariant userCart.items == MergeItems(start, guestItems[..i])
      modifies userCart
    {
      AddItem(userCart, guestItems[i]);
      assert guestItems[..i + 1][..i] == guestItems[..i];
      i := i + 1;
    }
    assert guestItems[..i] == guestItems;

    MergeValid(start, guestItems);
    var saved := userCart.Save(store);
    store.Delete(guestCartId.value);
    reply := Ok(userCart.id, userCart.Doc());
  }

  /** GET /: the token's user's cart when there is one, else the guest
      cart when a guest id is given, else an empty item list. */
  method GetCart(store: CartStore, decoded: Option<UserId>, guestId: Option<string>) returns (reply: Reply)
    ensures reply.Ok? || reply == EmptyCart
    ensures reply.Ok? ==> reply.id in store.docs && reply.cart == store.docs[reply.id]
    ensures decoded.Some? && HasMatch(store.docs, OwnedBy(User(decoded.value))) ==>
      reply.Ok? && reply.cart.owner == User(decoded.value)
    ensures !(decoded.Some? && HasMatch(store.docs, OwnedBy(User(decoded.value)))) ==>
      if Truthy(guestId) && HasMatch(store.docs, OwnedBy(Guest(guestId.value)))
      then reply.Ok? && reply.cart.owner == Guest(guestId.value)
      else reply == EmptyCart
  {
    var found: Option<CartId> := None;
    if decoded.Some? {
      found := store.FindOne(OwnedBy(User(decoded.value)));
    }
    if found.None? && Truthy(guestId) {
      found := store.FindOne(OwnedBy(Guest(guestId.value)));
    }
    if found.None? {
      return EmptyCart;
    }
    reply := Ok(found.value, store.docs[found.value]);
  }

  /** The add route's body fields; an absent quantity means 1. */
  datatype AddRequest = AddRequest(
    productId: ProductId,
    quantity: Option<int>,
    size: Option<string>,
    color: Option<string>,
    guestId: Option<string>)

  function RequestedQuantity(q: Option<int>): int {
    if q.Some? then q.value else 1
  }

  /** The line an add request contributes, for a product in the catalog. */
  function RequestLine(catalog: map<ProductId, Product>, req: AddRequest): Item
    requires req.productId in catalog
  {
    NewLine(req.productId, catalog[req.productId], req.size, req.color, RequestedQuantity(req.quantity))
  }

  /** POST /add: check the product, find or create the owner's cart, then
      increment the matching line or append a snapshot line, and save. */
  method Add(store: CartStore, catalog: map<ProductId, Product>, decoded: Option<UserId>, req: AddRequest)
    returns (reply: Reply)
    requires store.Valid()
    modifies store
    ensures store.Valid()
    ensures req.productId !in catalog ==> reply == Error(404, "Product not found")
    ensures req.productId in catalog && AddOwner(decoded, req.guestId).None? ==>
      reply == Error(400, "Guest ID is required")
    ensures reply.Error? ==> store.docs == old(store.docs)
    ensures req.productId in catalog && AddOwner(decoded, req.guestId).Some? ==>
      var owner, line := AddOwner(decoded, req.guestId).value, RequestLine(catalog, req);
      && (reply.Ok? || reply == Error(500, ValidationFailed))
      && (reply.Ok? ==>
            && Resolved(old(store.docs), owner, reply.id)
            && reply.cart.owner == owner
            && reply.cart.items == AddLine(ItemsAt(old(store.docs), reply.id), line)
            && Consistent(reply.cart)
            && store.docs == old(store.docs)[reply.id := reply.cart])
      && (reply.Error? ==> exists cid ::
            Resolved(old(store.docs), owner, cid) && !QuantitiesValid(AddLine(ItemsAt(old(store.docs), cid), line)))
      && (line.quantity >= 1 ==> reply.Ok?)
  {
    if req.productId !in catalog {
      return Error(404, "Product not found");
    }
    var product := catalog[req.productId];
    var quantity := RequestedQuantity(req.quantity);

    var cart: Cart;
    if decoded.Some? {
      cart := FindOrCreate(store, User(decoded.value));
    } else {
      if !Truthy(req.guestId) {
        return Error(400, "Guest ID is required");
      }
      cart := FindOrCreate(store, Guest(req.guestId.value));
    }
    ghost var before := cart.items;
    var line := NewLine(req.productId, product, req.size, req.color, quantity);
    AddItem(cart, line);
    AddLineValid(before, line);

    var saved := cart.Save(store);
    if !saved {
      assert Resolved(old(store.docs), cart.owner, cart.id);
      return Error(500, ValidationFailed);
    }
    reply := Ok(cart.id, cart.Doc());
  }

  /** The update route's body fields. */
  datatype UpdateRequest = UpdateRequest(
    productId: ProductId,
    quantity: int,
    size: Option<string>,
    color: Option<string>,
    guestId: Option<string>)

  /** PUT /update: in the owner's cart, splice out the first matching line
      (quantity at most 0) or overwrite its quantity, and save. */
  method Update(store: CartStore, decoded: Option<UserId>, req: UpdateRequest) returns (reply: Reply)
    requires store.Valid()
    modifies store
    ensures store.Valid()
    ensures reply.Ok? || reply == Error(404, "Cart not found") || reply == Error(404, "Item not found")
    ensures reply.Error? ==> store.docs == old(store.docs)
    ensures reply == Error(404, "Cart not found") <==>
      !HasMatch(old(store.docs), LookupFilter(decoded, req.guestId))
    ensures reply == Error(404, "Item not found") ==>
      exists cid ::
        && cid in old(store.docs) && Matches(LookupFilter(decoded, req.guestId), old(store.docs)[cid].owner)
        && !HasKey(old(store.docs)[cid].items, Key(req.productId, req.size, req.color))
    ensures reply.Ok? ==>
      && Matches(LookupFilter(decoded, req.guestId), reply.cart.owner)
      && (decoded.Some? ==> reply.cart.owner == User(decoded.value))
      && reply.id in old(store.docs) && old(store.docs)[reply.id].owner == reply.cart.owner
      && UpdateLine(old(store.docs)[reply.id].items, Key(req.productId, req.size, req.color), req.quantity)
           == Some(reply.cart.items)
      && Consistent(reply.cart)
      && store.docs == old(store.docs)[reply.id := reply.cart]
  {
    var found := store.FindOne(LookupFilter(decoded, req.guestId));
    if found.None? {
      return Error(404, "Cart not found");
    }
    var cart := new Cart.Load(found.value, store.docs[found.value]);
    var key := Key(req.productId, req.size, req.color);
    ghost var before := cart.items;

    var index := FindIndex(cart.items, key);
    if index == -1 {
      return Error(404, "Item not found");
    }
    if req.quantity <= 0 {
      cart.items := cart.items[..index] + cart.items[index + 1..];
    } else {
      cart.items := cart.items[index := cart.items[index].(quantity := req.quantity)];
    }
    UpdatePreserves(before, key, req.quantity);

    var saved := cart.Save(store);
    reply := Ok(cart.id, cart.Doc());
  }

  /** The remove route's body fields. */
  datatype RemoveRequest = RemoveRequest(
    productId: ProductId,
    size: Option<string>,
    color: Option<string>,
    guestId: Option<string>)

  /** DELETE /remove: drop every line with the key from the owner's cart,
      and save. */
  method Remove(store: CartStore, decoded: Option<UserId>, req: RemoveRequest) returns (reply: Reply)
    requires store.Valid()
    modifies store
    ensures store.Valid()
    ensures reply.Ok? || reply == Error(404, "Cart not found")
    ensures reply.Error? ==> store.docs == old(store.docs)
    ensures reply.Error? <==> !HasMatch(old(store.docs), LookupFilter(decoded, req.guestId))
    ensures reply.Ok? ==>
      && Matches(LookupFilter(decoded, req.guestId), reply.cart.owner)
      && (decoded.Some? ==> reply.cart.owner == User(decoded.value))
      && reply.id in old(store.docs) && old(store.docs)[reply.id].owner == reply.cart.owner
      && reply.cart.items == RemoveKey(old(store.docs)[reply.id].items, Key(req.productId, req.size, req.color))
      && Consistent(reply.cart)
      && store.docs == old(store.docs)[reply.id := reply.cart]
  {
    var found := store.FindOne(LookupFilter(decoded, req.guestId));
    if found.None? {
      return Error(404, "Cart not found");
    }
    var cart := new Cart.Load(found.value, store.docs[found.value]);
    var key := Key(req.productId, req.size, req.color);
    RemoveKeyPreserves(cart.items, key);
    cart.items := RemoveKey(cart.items, key);

    var saved := cart.Save(store);
    reply := Ok(cart.id, cart.Doc());
  }
}

/** The cart document: line items, the two derived totals, the schema's
    quantity constraint and the pre-save hook that recomputes the totals,
    plus the collection of persisted carts. */
module CartModel {
  import opened Common

  type CartId = nat

  /** The triple key that identifies a purchasable variant. An absent size
      or colour is a value of its own, equal only to another absent one. */
  datatype Key = Key(product: ProductId, size: Option<string>, color: Option<string>)

  /** A line item: a product reference, a snapshot of its display name,
      image and price taken when it was added, the variant and a quantity.
      Prices are whole cents. */
  datatype Item = Item(
    product: ProductId,
    name: string,
    image: Option<string>,
    price: int,
    size: Option<string>,
    color: Option<string>,
    quantity: int)
  {
    function KeyOf(): Key {
      Key(product, size, color)
    }
  }

  /** Who a cart belongs to: a signed-in user or a client-generated guest id. */
  datatype Owner = User(id: UserId) | Guest(guestId: string)

  /** The owner part of a `findOne` filter: one owner, or a guest id left
      undefined, which the database driver sends as `guestId: null` and
      which therefore matches every cart that has no guest id. */
  datatype OwnerFilter = OwnedBy(owner: Owner) | NoGuestId

  predicate Matches(f: OwnerFilter, o: Owner) {
    match f
    case OwnedBy(owner) => o == owner
    case NoGuestId => o.User?
  }

  /** A cart as it is persisted. */
  datatype CartDoc = CartDoc(owner: Owner, items: seq<Item>, totalPrice: int, totalItems: int)

  /** Sum of price x quantity over the items. */
  function SumPrice(items: seq<Item>): int {
    if items == [] then 0
    else SumPrice(items[..|items| - 1]) + items[|items| - 1].price * items[|items| - 1].quantity
  }

  /** Sum of the quantities of the items. */
  function SumQty(items: seq<Item>): int {
    if items == [] then 0
    else SumQty(items[..|items| - 1]) + items[|items| - 1].quantity
  }

  /** The schema's `min: 1` on every item quantity. */
  predicate QuantitiesValid(items: seq<Item>) {
    forall i :: 0 <= i < |items| ==> items[i].quantity >= 1
  }

  /** What every persisted cart satisfies: valid quantities and totals that
      agree with its items. */
  predicate Consistent(d: CartDoc) {
    QuantitiesValid(d.items) && d.totalPrice == SumPrice(d.items) && d.totalItems == SumQty(d.items)
  }

  /** The document with its totals recomputed from its items. */
  function Recomputed(d: CartDoc): (r: CartDoc)
    ensures r.owner == d.owner && r.items == d.items
    ensures r.totalPrice == SumPrice(d.items) && r.totalItems == SumQty(d.items)
  {
    d.(totalPrice := SumPrice(d.items), totalItems := SumQty(d.items))
  }

  /** Recomputing overwrites the old totals: the result depends on the items
      only, so recomputing twice is recomputing once, and it makes the
      document consistent exactly when its quantities are valid. */
  lemma RecomputedIdempotent(d: CartDoc, e: CartDoc)
    requires d.owner == e.owner && d.items == e.items
    ensures Recomputed(d) == Recomputed(e)
    ensures Recomputed(Recomputed(d)) == Recomputed(d)
    ensures Consistent(Recomputed(d)) <==> QuantitiesValid(d.items)
  {
  }

  lemma {:induction false} SumQtyAppend(a: seq<Item>, b: seq<Item>)
    ensures SumQty(a + b) == SumQty(a) + SumQty(b)
    decreases |b|
  {
    if b == [] {
      assert a + b == a;
    } else {
      var n := |b| - 1;
      assert (a + b)[..|a + b| - 1] == a + b[..n];
      SumQtyAppend(a, b[..n]);
    }
  }

  lemma {:induction false} SumPriceAppend(a: seq<Item>, b: seq<Item>)
    ensures SumPrice(a + b) == SumPrice(a) + SumPrice(b)
    decreases |b|
  {
    if b == [] {
      assert a + b == a;
    } else {
      var n := |b| - 1;
      assert (a + b)[..|a + b| - 1] == a + b[..n];
      SumPriceAppend(a, b[..n]);
    }
  }

  /** Replacing one item changes the quantity sum by the difference. */
  lemma SumQtyUpdate(s: seq<Item>, i: nat, x: Item)
    requires i < |s|
    ensures SumQty(s[i := x]) == SumQty(s) - s[i].quantity + x.quantity
  {
    assert s == s[..i] + [s[i]] + s[i + 1..];
    assert s[i := x] == s[..i] + [x] + s[i + 1..];
    SumQtyAppend(s[..i] + [s[i]], s[i + 1..]);
    SumQtyAppend(s[..i] + [x], s[i + 1..]);
    SumQtyAppend(s[..i], [s[i]]);
    SumQtyAppend(s[..i], [x]);
  }

  /** Dropping one item lowers the quantity sum by its quantity. */
  lemma SumQtyRemoveAt(s: seq<Item>, i: nat)
    requires i < |s|
    ensures SumQty(s[..i] + s[i + 1..]) == SumQty(s) - s[i].quantity
  {
    var head, q := s[..i + 1], s[i + 1..];
    assert s == head + q;
    assert head[..|head| - 1] == s[..i] && head[|head| - 1] == s[i];
    assert SumQty(head) == SumQty(s[..i]) + s[i].quantity;
    SumQtyAppend(head, q);
    SumQtyAppend(s[..i], q);
  }

  /** Since every persisted quantity is at least 1, a cart counts at least
      as many units as it has lines. */
  lemma {:induction false} TotalItemsAtLeastLines(items: seq<Item>)
    requires QuantitiesValid(items)
    ensures SumQty(items) >= |items|
    decreases |items|
  {
    if items != [] {
      TotalItemsAtLeastLines(items[..|items| - 1]);
    }
  }

  /** A cart object loaded from, or about to be written to, the collection. */
  class Cart {
    const id: CartId
    const owner: Owner
    var items: seq<Item>
    var totalPrice: int
    var totalItems: int

    /** A new cart: no items, and both totals at their schema default 0. */
    constructor (id: CartId, owner: Owner)
      ensures this.id == id && this.owner == owner
      ensures items == [] && totalPrice == 0 && totalItems == 0
    {
      this.id := id;
      this.owner := owner;
      items := [];
      totalPrice := 0;
      totalItems := 0;
    }

    /** A cart object holding a persisted document. */
    constructor Load(id: CartId, doc: CartDoc)
      ensures this.id == id && Doc() == doc
    {
      this.id := id;
      owner := doc.owner;
      items := doc.items;
      totalPrice := doc.totalPrice;
      totalItems := doc.totalItems;
    }

    function Doc(): CartDoc
      reads this
    {
      CartDoc(owner, items, totalPrice, totalItems)
    }

    /** The pre-save hook: one pass over the items accumulating the price
        total and the unit count, then both totals are overwritten. */
    method RecomputeTotals()
      modifies this
      ensures Doc() == Recomputed(old(Doc()))
    {
      var total, count := 0, 0;
      var i := 0;
      while i < |items|
        invariant 0 <= i <= |items|
        invariant total == SumPrice(items[..i]) && count == SumQty(items[..i])
      {
        assert items[..i + 1][..i] == items[..i];
        total := total + items[i].price * items[i].quantity;
        count := count + items[i].quantity;
        i := i + 1;
      }
      assert items[..i] == items;
      totalPrice := total;
      totalItems := count;
    }

    /** Saving: the schema is validated first; only a cart whose every
        quantity is at least 1 gets its totals recomputed and is written to
        the collection under its id. A rejected save changes nothing. */
    method Save(store: CartStore) returns (ok: bool)
      requires store.Valid() && id < store.nextId
      modifies this, store
      ensures store.Valid() && store.nextId == old(store.nextId)
      ensures ok == QuantitiesValid(items)
      ensures ok ==> Doc() == Recomputed(old(Doc())) && Consistent(Doc())
      ensures ok ==> store.docs == old(store.docs)[id := Doc()]
      ensures !ok ==> Doc() == old(Doc()) && store.docs == old(store.docs)
    {
      ok := forall i :: 0 <= i < |items| ==> items[i].quantity >= 1;
      if ok {
        RecomputeTotals();
        store.docs := store.docs[id := Doc()];
      }
    }
  }

  /** The cart collection, keyed by document id. `nextId` stands for the
      id generator: it is above every id in use. */
  class CartStore {
    var docs: map<CartId, CartDoc>
    var nextId: CartId

    ghost predicate Valid()
      reads this
    {
      forall id :: id in docs ==> id < nextId && Consistent(docs[id])
    }

    /** The empty collection, a starting state in which the invariant holds. */
    constructor ()
      ensures Valid() && docs == map[]
    {
      docs := map[];
      nextId := 0;
    }

    /** A fresh document id, unused by any cart. */
    method NewId() returns (id: CartId)
      requires Valid()
      modifies this
      ensures Valid() && docs == old(docs)
      ensures id !in docs && id < nextId
    {
      id := nextId;
      nextId := nextId + 1;
    }

    /** Lookup by document id. */
    method FindById(id: CartId) returns (r: Option<CartDoc>)
      ensures r.Some? <==> id in docs
      ensures r.Some? ==> r.value == docs[id]
    {
      r := if id in docs then Some(docs[id]) else None;
    }

    /** Lookup by owner filter: some matching cart, if there is one. No
        index makes owners unique, so which one is left open. */
    method FindOne(f: OwnerFilter) returns (r: Option<CartId>)
      ensures r.Some? ==> r.value in docs && Matches(f, docs[r.value].owner)
      ensures r.None? ==> forall id :: id in docs ==> !Matches(f, docs[id].owner)
    {
      if exists id :: id in docs && Matches(f, docs[id].owner) {
        var id :| id in docs && Matches(f, docs[id].owner);
        r := Some(id);
      } else {
        r := None;
      }
    }

    /** Deletion by document id; deleting an absent id does nothing. */
    method Delete(id: CartId)
      requires Valid()
      modifies this
      ensures Valid() && nextId == old(nextId)
      ensures docs == old(docs) - {id}
    {
      docs := docs - {id};
    }
  }
}

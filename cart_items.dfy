/** The line-item edits the cart routes perform, as functions on the item
    list: find by triple key, add (shared by add-to-cart and merge), update,
    remove and merge, with what each promises. */
module CartItems {
  import opened Common
  import opened CartModel

  /** Some item carries the key. */
  predicate HasKey(items: seq<Item>, key: Key) {
    exists j :: 0 <= j < |items| && items[j].KeyOf() == key
  }

  /** No two items carry the same triple key. */
  predicate UniqueKeys(items: seq<Item>) {
    forall i, j :: 0 <= i < j < |items| ==> items[i].KeyOf() != items[j].KeyOf()
  }

  /** Two items agree on everything but their quantity. */
  predicate SameLine(a: Item, b: Item) {
    a.product == b.product && a.name == b.name && a.image == b.image &&
    a.price == b.price && a.size == b.size && a.color == b.color
  }

  /** Total quantity held under one key. */
  function QtyOfKey(items: seq<Item>, key: Key): int {
    if items == [] then 0
    else
      var last := items[|items| - 1];
      QtyOfKey(items[..|items| - 1], key) + (if last.KeyOf() == key then last.quantity else 0)
  }

  /** The index of the first item with the key, or -1 when there is none. */
  function FindIndex(items: seq<Item>, key: Key): (r: int)
    ensures -1 <= r < |items|
    ensures r == -1 <==> !HasKey(items, key)
    ensures r >= 0 ==> items[r].KeyOf() == key
    ensures r >= 0 ==> forall j :: 0 <= j < r ==> items[j].KeyOf() != key
  {
    if items == [] then -1
    else if items[0].KeyOf() == key then 0
    else
      var r := FindIndex(items[1..], key);
      assert forall j :: 1 <= j < |items| ==> items[j] == items[1..][j - 1];
      if r == -1 then -1 else r + 1
  }

  // ---------------------------------------------------------------------
  // Facts about QtyOfKey
  // ---------------------------------------------------------------------

  lemma {:induction false} QtyOfKeyAppend(a: seq<Item>, b: seq<Item>, key: Key)
    ensures QtyOfKey(a + b, key) == QtyOfKey(a, key) + QtyOfKey(b, key)
    decreases |b|
  {
    if b == [] {
      assert a + b == a;
    } else {
      assert (a + b)[..|a + b| - 1] == a + b[..|b| - 1];
      QtyOfKeyAppend(a, b[..|b| - 1], key);
    }
  }

  lemma QtyOfKeySingle(x: Item, key: Key)
    ensures QtyOfKey([x], key) == if x.KeyOf() == key then x.quantity else 0
  {
    assert [x][..0] == [];
  }

  lemma QtyOfKeyUpdate(s: seq<Item>, i: nat, x: Item, key: Key)
    requires i < |s|
    ensures QtyOfKey(s[i := x], key) == QtyOfKey(s, key)
      - (if s[i].KeyOf() == key then s[i].quantity else 0)
      + (if x.KeyOf() == key then x.quantity else 0)
  {
    assert s == s[..i] + [s[i]] + s[i + 1..];
    assert s[i := x] == s[..i] + [x] + s[i + 1..];
    QtyOfKeyAppend(s[..i] + [s[i]], s[i + 1..], key);
    QtyOfKeyAppend(s[..i] + [x], s[i + 1..], key);
    QtyOfKeyAppend(s[..i], [s[i]], key);
    QtyOfKeyAppend(s[..i], [x], key);
    QtyOfKeySingle(s[i], key);
    QtyOfKeySingle(x, key);
  }

  lemma QtyOfKeyRemoveAt(s: seq<Item>, i: nat, key: Key)
    requires i < |s|
    ensures QtyOfKey(s[..i] + s[i + 1..], key)
      == QtyOfKey(s, key) - (if s[i].KeyOf() == key then s[i].quantity else 0)
  {
    assert s == s[..i] + [s[i]] + s[i + 1..];
    QtyOfKeyAppend(s[..i] + [s[i]], s[i + 1..], key);
    QtyOfKeyAppend(s[..i], [s[i]], key);
    QtyOfKeyAppend(s[..i], s[i + 1..], key);
    QtyOfKeySingle(s[i], key);
  }

  /** A key that no item carries holds nothing. */
  lemma {:induction false} QtyOfKeyAbsent(s: seq<Item>, key: Key)
    requires !HasKey(s, key)
    ensures QtyOfKey(s, key) == 0
    decreases |s|
  {
    if s != [] {
      var p := s[..|s| - 1];
      assert forall j :: 0 <= j < |p| ==> p[j] == s[j];
      QtyOfKeyAbsent(p, key);
    }
  }

  /** With unique keys, the quantity held under an item's key is that
      item's own quantity. */
  lemma {:induction false} QtyOfKeyUnique(s: seq<Item>, i: nat)
    requires UniqueKeys(s) && i < |s|
    ensures QtyOfKey(s, s[i].KeyOf()) == s[i].quantity
  {
    var key := s[i].KeyOf();
    assert s == s[..i] + [s[i]] + s[i + 1..];
    QtyOfKeyAppend(s[..i] + [s[i]], s[i + 1..], key);
    QtyOfKeyAppend(s[..i], [s[i]], key);
    QtyOfKeySingle(s[i], key);
    assert forall j :: 0 <= j < i ==> s[..i][j] == s[j];
    QtyOfKeyAbsent(s[..i], key);
    var t := s[i + 1..];
    assert forall j :: 0 <= j < |t| ==> t[j] == s[i + 1 + j];
    QtyOfKeyAbsent(t, key);
  }

  // ---------------------------------------------------------------------
  // Add one line: add-to-cart, and one step of the merge
  // ---------------------------------------------------------------------

  /** If an item with the line's key exists, the first such item gains the
      line's quantity; otherwise the line itself is appended. */
  function AddLine(items: seq<Item>, line: Item): seq<Item> {
    var i := FindIndex(items, line.KeyOf());
    if i > -1 then items[i := items[i].(quantity := items[i].quantity + line.quantity)]
    else items + [line]
  }

  /** What adding a line does to the list: the first item with the key
      grows by the line's quantity, or exactly one item (the line) is
      appended; every existing item keeps its place and its snapshot, and
      every item with another key is untouched. */
  lemma AddLineEffect(items: seq<Item>, line: Item)
    ensures var r, k := AddLine(items, line), line.KeyOf();
      && |r| == |items| + (if HasKey(items, k) then 0 else 1)
      && (forall j :: 0 <= j < |items| ==> SameLine(r[j], items[j]))
      && (forall j :: 0 <= j < |items| && items[j].KeyOf() != k ==> r[j] == items[j])
      && (HasKey(items, k) ==>
            var i := FindIndex(items, k);
            r[i].quantity == items[i].quantity + line.quantity &&
            forall j :: 0 <= j < |items| && j != i ==> r[j] == items[j])
      && (!HasKey(items, k) ==> r == items + [line])
  {
  }

  /** Adding a line adds its quantity to the cart's unit count and to the
      units held under its key, and leaves every other key's units alone. */
  lemma AddLineQty(items: seq<Item>, line: Item)
    ensures SumQty(AddLine(items, line)) == SumQty(items) + line.quantity
    ensures forall k ::
      QtyOfKey(AddLine(items, line), k) == QtyOfKey(items, k) + (if k == line.KeyOf() then line.quantity else 0)
  {
    var i := FindIndex(items, line.KeyOf());
    if i > -1 {
      IncrementQty(items, i, line);
      assert AddLine(items, line) == items[i := items[i].(quantity := items[i].quantity + line.quantity)];
    } else {
      AppendQty(items, line);
      assert AddLine(items, line) == items + [line];
    }
  }

  /** The increment branch of `AddLineQty`. */
  lemma IncrementQty(items: seq<Item>, i: nat, line: Item)
    requires i < |items| && items[i].KeyOf() == line.KeyOf()
    ensures var r := items[i := items[i].(quantity := items[i].quantity + line.quantity)];
      && SumQty(r) == SumQty(items) + line.quantity
      && forall k :: QtyOfKey(r, k) == QtyOfKey(items, k) + (if k == line.KeyOf() then line.quantity else 0)
  {
    var x := items[i].(quantity := items[i].quantity + line.quantity);
    assert x.KeyOf() == items[i].KeyOf();
    SumQtyUpdate(items, i, x);
    forall k
      ensures QtyOfKey(items[i := x], k) == QtyOfKey(items, k) + (if k == line.KeyOf() then line.quantity else 0)
    {
      QtyOfKeyUpdate(items, i, x, k);
    }
  }

  /** The append branch of `AddLineQty`. */
  lemma AppendQty(items: seq<Item>, line: Item)
    ensures SumQty(items + [line]) == SumQty(items) + line.quantity
    ensures forall k :: QtyOfKey(items + [line], k) == QtyOfKey(items, k) + (if k == line.KeyOf() then line.quantity else 0)
  {
    SumQtyAppend(items, [line]);
    assert [line][..0] == [];
    forall k
      ensures QtyOfKey(items + [line], k) == QtyOfKey(items, k) + (if k == line.KeyOf() then line.quantity else 0)
    {
      QtyOfKeyAppend(items, [line], k);
      QtyOfKeySingle(line, k);
    }
  }

  /** The keys present after adding a line are the old ones plus the line's. */
  lemma AddLineKeys(items: seq<Item>, line: Item)
    ensures forall k :: HasKey(AddLine(items, line), k) <==> HasKey(items, k) || k == line.KeyOf()
  {
    var r, key := AddLine(items, line), line.KeyOf();
    AddLineEffect(items, line);
    forall k ensures HasKey(r, k) <==> HasKey(items, k) || k == key {
      if HasKey(r, k) {
        var j :| 0 <= j < |r| && r[j].KeyOf() == k;
        if j < |items| {
          assert items[j].KeyOf() == k;
        }
      }
      if HasKey(items, k) {
        var j :| 0 <= j < |items| && items[j].KeyOf() == k;
        assert r[j].KeyOf() == k;
      }
      if k == key {
        if HasKey(items, key) {
          var i := FindIndex(items, key);
          assert r[i].KeyOf() == k;
        } else {
          assert r[|items|] == line;
        }
      }
    }
  }

  /** Adding a line never creates a second item with the same key. */
  lemma AddLineUnique(items: seq<Item>, line: Item)
    requires UniqueKeys(items)
    ensures UniqueKeys(AddLine(items, line))
  {
    AddLineEffect(items, line);
  }

  /** Adding a line keeps every quantity at least 1 exactly when the
      resulting quantity of the affected item is at least 1. */
  lemma AddLineValid(items: seq<Item>, line: Item)
    requires QuantitiesValid(items)
    ensures QuantitiesValid(AddLine(items, line)) <==>
      if HasKey(items, line.KeyOf())
      then items[FindIndex(items, line.KeyOf())].quantity + line.quantity >= 1
      else line.quantity >= 1
  {
    AddLineEffect(items, line);
    var r := AddLine(items, line);
    if !HasKey(items, line.KeyOf()) {
      assert r[|items|] == line;
    }
  }

  /** Adding the same variant twice increments the one item, never a
      duplicate: the second add leaves the length as the first left it. */
  lemma AddLineTwice(items: seq<Item>, first: Item, second: Item)
    requires first.KeyOf() == second.KeyOf()
    ensures |AddLine(AddLine(items, first), second)| == |AddLine(items, first)|
    ensures var s := AddLine(items, first);
      var i := FindIndex(s, first.KeyOf());
      0 <= i && AddLine(s, second)[i].quantity == s[i].quantity + second.quantity
  {
    AddLineKeys(items, first);
    var s := AddLine(items, first);
    assert HasKey(s, first.KeyOf());
    AddLineEffect(s, second);
  }

  // ---------------------------------------------------------------------
  // Merge a guest cart's items into a user cart's items
  // ---------------------------------------------------------------------

  /** The guest items folded into the user items one at a time, in order. */
  function MergeItems(user: seq<Item>, guest: seq<Item>): seq<Item>
    decreases |guest|
  {
    if guest == [] then user
    else AddLine(MergeItems(user, guest[..|guest| - 1]), guest[|guest| - 1])
  }

  /** Merging conserves units: overall, and key by key. */
  lemma {:induction false} MergeQty(user: seq<Item>, guest: seq<Item>)
    ensures SumQty(MergeItems(user, guest)) == SumQty(user) + SumQty(guest)
    ensures forall k :: QtyOfKey(MergeItems(user, guest), k) == QtyOfKey(user, k) + QtyOfKey(guest, k)
    decreases |guest|
  {
    if guest != [] {
      var p, g := guest[..|guest| - 1], guest[|guest| - 1];
      MergeQty(user, p);
      AddLineQty(MergeItems(user, p), g);
    }
  }

  /** Merging removes no user item and moves none: the user items stay in
      front, in order, with their snapshots; new items only follow them. */
  lemma {:induction false} MergeKeepsUserItems(user: seq<Item>, guest: seq<Item>)
    ensures |MergeItems(user, guest)| >= |user|
    ensures forall i :: 0 <= i < |user| ==> SameLine(MergeItems(user, guest)[i], user[i])
    decreases |guest|
  {
    if guest != [] {
      var p := guest[..|guest| - 1];
      MergeKeepsUserItems(user, p);
      AddLineEffect(MergeItems(user, p), guest[|guest| - 1]);
    }
  }

  /** The first index is the one before which no item has the key. */
  lemma FindIndexAt(items: seq<Item>, key: Key, i: nat)
    requires i < |items| && items[i].KeyOf() == key
    requires forall j :: 0 <= j < i ==> items[j].KeyOf() != key
    ensures FindIndex(items, key) == i
  {
  }

  /** One merge step seen from a position whose key is that of the user
      item there: it gains the line's quantity exactly when the line has
      that key and the user item is the first one with it. */
  lemma AddLineAtUserItem(s: seq<Item>, user: seq<Item>, line: Item, i: nat)
    requires i < |user| <= |s|
    requires forall j :: 0 <= j < |user| ==> s[j].KeyOf() == user[j].KeyOf()
    ensures AddLine(s, line)[i].quantity == s[i].quantity +
      (if line.KeyOf() == user[i].KeyOf() && FindIndex(user, user[i].KeyOf()) == i then line.quantity else 0)
  {
    var key := line.KeyOf();
    var m := FindIndex(s, key);
    var f := FindIndex(user, user[i].KeyOf());
    if m == i {
      FindIndexAt(user, key, i);
    } else if key == user[i].KeyOf() && f == i {
      FindIndexAt(s, key, i);
    }
  }

  /** The matching rule seen from a user item: the first user item with a
      key receives every guest unit of that key; a later user item with
      the same key receives none. */
  lemma {:induction false} MergeUserItemQty(user: seq<Item>, guest: seq<Item>, i: nat)
    requires i < |user|
    ensures i < |MergeItems(user, guest)|
    ensures MergeItems(user, guest)[i].quantity == user[i].quantity +
      (if FindIndex(user, user[i].KeyOf()) == i then QtyOfKey(guest, user[i].KeyOf()) else 0)
    decreases |guest|
  {
    MergeKeepsUserItems(user, guest);
    if guest != [] {
      var p, g := guest[..|guest| - 1], guest[|guest| - 1];
      MergeUserItemQty(user, p, i);
      MergeKeepsUserItems(user, p);
      AddLineAtUserItem(MergeItems(user, p), user, g, i);
    }
  }

  lemma HasKeySnoc(p: seq<Item>, g: Item)
    ensures forall k :: HasKey(p + [g], k) <==> HasKey(p, k) || g.KeyOf() == k
  {
    var s := p + [g];
    assert forall j :: 0 <= j < |p| ==> s[j] == p[j];
    assert s[|p|] == g;
  }

  /** The keys in the merged list are those of the user items and of the
      guest items. */
  lemma {:induction false} MergeKeys(user: seq<Item>, guest: seq<Item>)
    ensures forall k :: HasKey(MergeItems(user, guest), k) <==> HasKey(user, k) || HasKey(guest, k)
    decreases |guest|
  {
    if guest != [] {
      var p, g := guest[..|guest| - 1], guest[|guest| - 1];
      MergeKeys(user, p);
      AddLineKeys(MergeItems(user, p), g);
      assert guest == p + [g];
      HasKeySnoc(p, g);
    }
  }

  /** Appending one item leaves the first index of every key already
      present alone; a key seen first in the new item is found there. */
  lemma FindIndexSnoc(p: seq<Item>, x: Item, k: Key)
    ensures FindIndex(p + [x], k) ==
      if HasKey(p, k) then FindIndex(p, k) else if x.KeyOf() == k then |p| else -1
  {
    var s := p + [x];
    assert forall j :: 0 <= j < |p| ==> s[j] == p[j];
    if HasKey(p, k) {
      FindIndexAt(s, k, FindIndex(p, k));
    } else if x.KeyOf() == k {
      FindIndexAt(s, k, |p|);
    } else {
      HasKeySnoc(p, x);
    }
  }

  /** Position `j` of a merged list holds a guest line pushed unchanged:
      its key is not among the user items, and its snapshot is that of the
      first guest item with the key. */
  predicate AppendedFromGuest(m: seq<Item>, user: seq<Item>, guest: seq<Item>, j: int)
    requires 0 <= j < |m|
  {
    var g := FindIndex(guest, m[j].KeyOf());
    0 <= g && SameLine(m[j], guest[g]) && !HasKey(user, m[j].KeyOf())
  }

  /** Pushed guest lines, in order: the lines of `m` after the user items
      are `AppendedFromGuest`, with increasing first guest indices. */
  predicate AppendedInOrder(m: seq<Item>, user: seq<Item>, guest: seq<Item>) {
    && (forall j :: |user| <= j < |m| ==> AppendedFromGuest(m, user, guest, j))
    && (forall j1, j2 :: |user| <= j1 < j2 < |m| ==>
          FindIndex(guest, m[j1].KeyOf()) < FindIndex(guest, m[j2].KeyOf()))
  }

  /** A line already pushed stays pushed, with the same first guest index,
      when one more guest item is folded in. */
  lemma AppendedKept(user: seq<Item>, p: seq<Item>, x: Item, before: seq<Item>, after: seq<Item>, j: nat)
    requires |user| <= j < |before| <= |after|
    requires AppendedFromGuest(before, user, p, j) && SameLine(after[j], before[j])
    ensures FindIndex(p + [x], after[j].KeyOf()) == FindIndex(p, before[j].KeyOf())
    ensures AppendedFromGuest(after, user, p + [x], j)
  {
    var k := before[j].KeyOf();
    assert after[j].KeyOf() == k;
    FindIndexSnoc(p, x, k);
    assert (p + [x])[FindIndex(p, k)] == p[FindIndex(p, k)];
  }

  /** A fold step that increments a line keeps the pushed lines. */
  lemma AppendedIncrement(user: seq<Item>, p: seq<Item>, x: Item, before: seq<Item>)
    requires |user| <= |before| && HasKey(before, x.KeyOf())
    requires AppendedInOrder(before, user, p)
    ensures AppendedInOrder(AddLine(before, x), user, p + [x])
  {
    var i := FindIndex(before, x.KeyOf());
    var after := before[i := before[i].(quantity := before[i].quantity + x.quantity)];
    assert AddLine(before, x) == after;
    forall j | |user| <= j < |after|
      ensures FindIndex(p + [x], after[j].KeyOf()) == FindIndex(p, before[j].KeyOf())
      ensures AppendedFromGuest(after, user, p + [x], j)
    {
      AppendedKept(user, p, x, before, after, j);
    }
  }

  /** A fold step that pushes a guest item with a new key keeps the
      pushed lines and adds one after them. */
  lemma AppendedPush(user: seq<Item>, p: seq<Item>, x: Item, before: seq<Item>)
    requires |user| <= |before|
    requires !HasKey(user, x.KeyOf()) && !HasKey(p, x.KeyOf())
    requires AppendedInOrder(before, user, p)
    ensures AppendedInOrder(before + [x], user, p + [x])
  {
    var after, guest := before + [x], p + [x];
    forall j | |user| <= j < |before|
      ensures FindIndex(guest, after[j].KeyOf()) == FindIndex(p, before[j].KeyOf()) < |p|
      ensures AppendedFromGuest(after, user, guest, j)
    {
      AppendedKept(user, p, x, before, after, j);
    }
    FindIndexSnoc(p, x, x.KeyOf());
    assert after[|before|] == x && guest[|p|] == x;
    assert FindIndex(guest, after[|before|].KeyOf()) == |p|;
    assert AppendedFromGuest(after, user, guest, |before|);
    forall j1, j2 | |user| <= j1 < j2 < |after|
      ensures FindIndex(guest, after[j1].KeyOf()) < FindIndex(guest, after[j2].KeyOf())
    {
      if j2 < |before| {
        assert FindIndex(p, before[j1].KeyOf()) < FindIndex(p, before[j2].KeyOf());
      }
    }
  }

  /** One fold step keeps the pushed lines pushed and in order. */
  lemma AppendedStep(user: seq<Item>, p: seq<Item>, x: Item, before: seq<Item>)
    requires |user| <= |before|
    requires forall k :: HasKey(before, k) <==> HasKey(user, k) || HasKey(p, k)
    requires AppendedInOrder(before, user, p)
    ensures AppendedInOrder(AddLine(before, x), user, p + [x])
  {
    if HasKey(before, x.KeyOf()) {
      AppendedIncrement(user, p, x, before);
    } else {
      assert AddLine(before, x) == before + [x];
      AppendedPush(user, p, x, before);
    }
  }

  /** The other half of the matching rule: every line after the user items
      is a guest item with a key the user cart lacks, pushed unchanged
      apart from the quantity, and these lines follow the order in which
      their keys first occur among the guest items. */
  lemma {:induction false} MergeAppended(user: seq<Item>, guest: seq<Item>)
    ensures AppendedInOrder(MergeItems(user, guest), user, guest)
    decreases |guest|
  {
    if guest != [] {
      var p, x := guest[..|guest| - 1], guest[|guest| - 1];
      assert guest == p + [x];
      MergeAppended(user, p);
      MergeKeepsUserItems(user, p);
      MergeKeys(user, p);
      AppendedStep(user, p, x, MergeItems(user, p));
    }
  }

  /** A user list without duplicate keys stays without them, even when
      the guest list repeats a key: the first copy is appended, and the
      later ones then match it. */
  lemma {:induction false} MergeUnique(user: seq<Item>, guest: seq<Item>)
    requires UniqueKeys(user)
    ensures UniqueKeys(MergeItems(user, guest))
    decreases |guest|
  {
    if guest != [] {
      MergeUnique(user, guest[..|guest| - 1]);
      AddLineUnique(MergeItems(user, guest[..|guest| - 1]), guest[|guest| - 1]);
    }
  }

  /** Merging two valid item lists gives a valid one. */
  lemma {:induction false} MergeValid(user: seq<Item>, guest: seq<Item>)
    requires QuantitiesValid(user) && QuantitiesValid(guest)
    ensures QuantitiesValid(MergeItems(user, guest))
    decreases |guest|
  {
    if guest != [] {
      var p, g := guest[..|guest| - 1], guest[|guest| - 1];
      assert QuantitiesValid(p) by {
        assert forall j :: 0 <= j < |p| ==> p[j] == guest[j];
      }
      MergeValid(user, p);
      AddLineValid(MergeItems(user, p), g);
    }
  }

  // ---------------------------------------------------------------------
  // Update one line's quantity
  // ---------------------------------------------------------------------

  /** None when no item has the key; otherwise the first such item is
      spliced out (quantity at most 0) or gets the quantity. */
  function UpdateLine(items: seq<Item>, key: Key, quantity: int): Option<seq<Item>> {
    var i := FindIndex(items, key);
    if i == -1 then None
    else if quantity <= 0 then Some(items[..i] + items[i + 1..])
    else Some(items[i := items[i].(quantity := quantity)])
  }

  /** The update fails exactly when no item has the key. */
  lemma UpdateMissing(items: seq<Item>, key: Key, quantity: int)
    ensures UpdateLine(items, key, quantity).None? <==> !HasKey(items, key)
  {
  }

  /** A quantity of at most 0 removes exactly the first item with the key:
      one item fewer, its units gone from the totals, every other key's
      units unchanged, the other items in their order; with unique keys the
      key is then absent. */
  lemma UpdateRemoves(items: seq<Item>, key: Key, quantity: int)
    requires HasKey(items, key) && quantity <= 0
    ensures var i := FindIndex(items, key);
      var r := UpdateLine(items, key, quantity);
      && r.Some? && |r.value| == |items| - 1
      && (forall j :: 0 <= j < i ==> r.value[j] == items[j])
      && (forall j :: i < j < |items| ==> r.value[j - 1] == items[j])
      && SumQty(r.value) == SumQty(items) - items[i].quantity
      && QtyOfKey(r.value, key) == QtyOfKey(items, key) - items[i].quantity
      && (forall k :: k != key ==> QtyOfKey(r.value, k) == QtyOfKey(items, k))
      && (UniqueKeys(items) ==> !HasKey(r.value, key))
  {
    var i := FindIndex(items, key);
    var r := items[..i] + items[i + 1..];
    assert UpdateLine(items, key, quantity) == Some(r);
    RemoveAtFacts(items, i);
    if UniqueKeys(items) {
      forall j | 0 <= j < |r| ensures r[j].KeyOf() != key {
        if j < i {
          assert r[j] == items[j];
        } else {
          assert r[j] == items[j + 1];
        }
      }
    }
  }

  /** Splicing out one item: the others keep their order, and the item's
      units leave the totals and its key's total. */
  lemma RemoveAtFacts(s: seq<Item>, i: nat)
    requires i < |s|
    ensures var r := s[..i] + s[i + 1..];
      && |r| == |s| - 1
      && (forall j :: 0 <= j < i ==> r[j] == s[j])
      && (forall j :: i < j < |s| ==> r[j - 1] == s[j])
      && SumQty(r) == SumQty(s) - s[i].quantity
      && (forall k :: QtyOfKey(r, k) == QtyOfKey(s, k) - (if s[i].KeyOf() == k then s[i].quantity else 0))
  {
    SumQtyRemoveAt(s, i);
    forall k ensures QtyOfKey(s[..i] + s[i + 1..], k) == QtyOfKey(s, k) - (if s[i].KeyOf() == k then s[i].quantity else 0) {
      QtyOfKeyRemoveAt(s, i, k);
    }
  }

  /** A positive quantity overwrites the first matching item's quantity and
      nothing else; with unique keys the key then holds exactly that many
      units. */
  lemma UpdateSets(items: seq<Item>, key: Key, quantity: int)
    requires HasKey(items, key) && quantity > 0
    ensures var i := FindIndex(items, key);
      var r := UpdateLine(items, key, quantity);
      && r.Some? && |r.value| == |items|
      && SameLine(r.value[i], items[i]) && r.value[i].quantity == quantity
      && (forall j :: 0 <= j < |items| && j != i ==> r.value[j] == items[j])
      && SumQty(r.value) == SumQty(items) - items[i].quantity + quantity
      && (UniqueKeys(items) ==> QtyOfKey(r.value, key) == quantity)
  {
    var i := FindIndex(items, key);
    var r := items[i := items[i].(quantity := quantity)];
    SumQtyUpdate(items, i, r[i]);
    if UniqueKeys(items) {
      assert UniqueKeys(r);
      QtyOfKeyUnique(r, i);
    }
  }

  /** Updating keeps keys unique and keeps every quantity at least 1. */
  lemma UpdatePreserves(items: seq<Item>, key: Key, quantity: int)
    requires UpdateLine(items, key, quantity).Some?
    ensures UniqueKeys(items) ==> UniqueKeys(UpdateLine(items, key, quantity).value)
    ensures QuantitiesValid(items) ==> QuantitiesValid(UpdateLine(items, key, quantity).value)
  {
    var i := FindIndex(items, key);
    if quantity <= 0 {
      var r := items[..i] + items[i + 1..];
      assert forall j :: 0 <= j < |r| ==> r[j] == items[if j < i then j else j + 1];
    }
  }

  // ---------------------------------------------------------------------
  // Remove every line with a key
  // ---------------------------------------------------------------------

  /** The items whose key differs, in their order. */
  function RemoveKey(items: seq<Item>, key: Key): (r: seq<Item>)
    ensures |r| <= |items|
  {
    if items == [] then []
    else
      var last := items[|items| - 1];
      RemoveKey(items[..|items| - 1], key) + (if last.KeyOf() == key then [] else [last])
  }

  /** An item survives removal exactly when it was there and its key
      differs. */
  lemma {:induction false} RemoveKeyMembers(items: seq<Item>, key: Key)
    ensures forall x :: x in RemoveKey(items, key) <==> x in items && x.KeyOf() != key
    decreases |items|
  {
    if items != [] {
      var p, last := items[..|items| - 1], items[|items| - 1];
      RemoveKeyMembers(p, key);
      assert items == p + [last];
    }
  }

  /** Filtering distributes over concatenation: it keeps the relative order
      of what it keeps. */
  lemma {:induction false} RemoveKeyConcat(a: seq<Item>, b: seq<Item>, key: Key)
    ensures RemoveKey(a + b, key) == RemoveKey(a, key) + RemoveKey(b, key)
    decreases |b|
  {
    if b == [] {
      assert a + b == a;
    } else {
      var p := b[..|b| - 1];
      assert (a + b)[..|a + b| - 1] == a + p;
      RemoveKeyConcat(a, p, key);
    }
  }

  /** Removing an absent key leaves the list as it was. */
  lemma {:induction false} RemoveKeyAbsent(items: seq<Item>, key: Key)
    requires !HasKey(items, key)
    ensures RemoveKey(items, key) == items
    decreases |items|
  {
    if items != [] {
      var p, last := items[..|items| - 1], items[|items| - 1];
      assert forall j :: 0 <= j < |p| ==> p[j] == items[j];
      RemoveKeyAbsent(p, key);
      assert last.KeyOf() != key;
      assert items == p + [last];
    }
  }

  /** After removal no item has the key, and removing again changes
      nothing. */
  lemma RemoveKeyIdempotent(items: seq<Item>, key: Key)
    ensures !HasKey(RemoveKey(items, key), key)
    ensures RemoveKey(RemoveKey(items, key), key) == RemoveKey(items, key)
  {
    var r := RemoveKey(items, key);
    RemoveKeyMembers(items, key);
    forall j | 0 <= j < |r| ensures r[j].KeyOf() != key {
      assert r[j] in r;
    }
    RemoveKeyAbsent(r, key);
  }

  /** Removal drops exactly the key's units: the unit count falls by them,
      the key holds none afterwards, and every other key keeps its units. */
  lemma {:induction false} RemoveKeyQty(items: seq<Item>, key: Key)
    ensures SumQty(RemoveKey(items, key)) == SumQty(items) - QtyOfKey(items, key)
    ensures forall k :: QtyOfKey(RemoveKey(items, key), k) == if k == key then 0 else QtyOfKey(items, k)
    decreases |items|
  {
    if items != [] {
      var p, last := items[..|items| - 1], items[|items| - 1];
      var t := if last.KeyOf() == key then [] else [last];
      RemoveKeyQty(p, key);
      SumQtyAppend(RemoveKey(p, key), t);
      assert [last][..0] == [];
      forall k ensures QtyOfKey(RemoveKey(items, key), k) == if k == key then 0 else QtyOfKey(items, k) {
        QtyOfKeyAppend(RemoveKey(p, key), t, k);
        QtyOfKeySingle(last, k);
      }
    }
  }

  /** Removal keeps keys unique and quantities valid. */
  lemma {:induction false} RemoveKeyPreserves(items: seq<Item>, key: Key)
    ensures UniqueKeys(items) ==> UniqueKeys(RemoveKey(items, key))
    ensures QuantitiesValid(items) ==> QuantitiesValid(RemoveKey(items, key))
    decreases |items|
  {
    var r := RemoveKey(items, key);
    RemoveKeyMembers(items, key);
    if QuantitiesValid(items) {
      forall j | 0 <= j < |r| ensures r[j].quantity >= 1 {
        assert r[j] in r;
      }
    }
    if items != [] && UniqueKeys(items) {
      var p, last := items[..|items| - 1], items[|items| - 1];
      assert UniqueKeys(p);
      RemoveKeyPreserves(p, key);
      var rp := RemoveKey(p, key);
      RemoveKeyMembers(p, key);
      if last.KeyOf() != key {
        forall j | 0 <= j < |rp| ensures rp[j].KeyOf() != last.KeyOf() {
          assert rp[j] in p;
        }
      }
    }
  }
}

/** The persisted shopping-cart store: an ordered list of cart lines keyed
    by variant id, with additive merge on `addItem`, exact replacement on
    `updateQuantity` (removal below 1), `removeItem`, `clearCart`, and the
    two folds `selectItemCount` and `selectSubtotal`.

    Each action of the store replaces `items` by a `find`/`map`/`filter`
    of the old list; those are the pure functions `WithAdded`,
    `WithoutVariant` and `WithUpdated`, and the class `ShoppingCartStore`
    assigns them. The lemmas relate them to the cart read as a map from
    variant id to line (`Find`), to the two folds, and to the invariants
    "variant ids are unique" and "every quantity is at least 1". */
module CartStore {
  import opened Common

  /** One line of the cart: a variant, its quantity and a display snapshot. */
  datatype CartItem = CartItem(
    variantId: int,
    productId: int,
    productName: string,
    variantSize: string,
    price: int,
    quantity: int,
    imageUrl: string,
    storeId: Option<int>)

  /** What `addItem` is given: a line without its quantity. */
  datatype NewItem = NewItem(
    variantId: int,
    productId: int,
    productName: string,
    variantSize: string,
    price: int,
    imageUrl: string,
    storeId: Option<int>)

  /** The snapshot part of a line. */
  function Snapshot(line: CartItem): NewItem {
    NewItem(line.variantId, line.productId, line.productName, line.variantSize,
            line.price, line.imageUrl, line.storeId)
  }

  /** `{ ...item, quantity }`. */
  function WithQuantity(item: NewItem, quantity: int): (line: CartItem)
    ensures Snapshot(line) == item && line.quantity == quantity
  {
    CartItem(item.variantId, item.productId, item.productName, item.variantSize,
             item.price, quantity, item.imageUrl, item.storeId)
  }

  function Quantity(line: CartItem): int {
    line.quantity
  }

  function LineTotal(line: CartItem): int {
    line.price * line.quantity
  }

  /** `items.find((i) => i.variantId === id)` finds something. */
  predicate HasVariant(items: seq<CartItem>, id: int) {
    exists i | 0 <= i < |items| :: items[i].variantId == id
  }

  ghost predicate UniqueIds(items: seq<CartItem>) {
    forall i, j | 0 <= i < j < |items| :: items[i].variantId != items[j].variantId
  }

  ghost predicate AllPositive(items: seq<CartItem>) {
    forall i | 0 <= i < |items| :: items[i].quantity >= 1
  }

  /** The `map` of `addItem`: the matching line gains `quantity`. */
  function AddToLine(items: seq<CartItem>, id: int, quantity: int): seq<CartItem> {
    seq(|items|, i requires 0 <= i < |items| =>
      if items[i].variantId == id then items[i].(quantity := items[i].quantity + quantity)
      else items[i])
  }

  /** The `map` of `updateQuantity`: the matching line takes `quantity`. */
  function SetLineQuantity(items: seq<CartItem>, id: int, quantity: int): seq<CartItem> {
    seq(|items|, i requires 0 <= i < |items| =>
      if items[i].variantId == id then items[i].(quantity := quantity) else items[i])
  }

  /** The `filter` of `removeItem`. */
  function WithoutVariant(items: seq<CartItem>, id: int): seq<CartItem> {
    Filter(items, (line: CartItem) => line.variantId != id)
  }

  /** The list `addItem(item, quantity)` leaves behind. */
  function WithAdded(items: seq<CartItem>, item: NewItem, quantity: int := 1): seq<CartItem> {
    if HasVariant(items, item.variantId) then AddToLine(items, item.variantId, quantity)
    else items + [WithQuantity(item, quantity)]
  }

  /** The list `updateQuantity(id, quantity)` leaves behind. */
  function WithUpdated(items: seq<CartItem>, id: int, quantity: int): seq<CartItem> {
    if quantity < 1 then WithoutVariant(items, id) else SetLineQuantity(items, id, quantity)
  }

  /** `selectItemCount`. */
  function SelectItemCount(items: seq<CartItem>): int {
    SumOf(items, Quantity)
  }

  /** `selectSubtotal`. */
  function SelectSubtotal(items: seq<CartItem>): int {
    SumOf(items, LineTotal)
  }

  /** `items.find((i) => i.variantId === id)`: the first line with that id.
      Read for every id, it is the cart as a map from variant id to line. */
  function Find(items: seq<CartItem>, id: int): (r: Option<CartItem>)
    ensures r.Some? <==> HasVariant(items, id)
    ensures r.Some? ==> r.value in items && r.value.variantId == id
  {
    if items == [] then None
    else match Find(items[..|items| - 1], id)
      case Some(line) => Some(line)
      case None =>
        if items[|items| - 1].variantId == id then Some(items[|items| - 1]) else None
  }

  /** The first match of a list with one line appended. */
  lemma FindAppend(items: seq<CartItem>, line: CartItem, id: int)
    ensures Find(items + [line], id) ==
      if Find(items, id).Some? then Find(items, id)
      else if line.variantId == id then Some(line) else None
  {
    assert (items + [line])[..|items|] == items;
  }

  /** With unique ids the line `find` returns is the one at the id's position. */
  lemma {:induction false} FindUnique(items: seq<CartItem>, k: int)
    requires UniqueIds(items) && 0 <= k < |items|
    ensures Find(items, items[k].variantId) == Some(items[k])
  {
    var n := |items| - 1;
    if k < n {
      FindUnique(items[..n], k);
    } else {
      assert !HasVariant(items[..n], items[k].variantId);
    }
  }

  // ---------------------------------------------------------------------
  // addItem

  /** Adding a variant already in the cart changes only that line's
      quantity, by exactly `quantity`; the length, the order and every
      other field (the first-seen price among them) are kept. */
  lemma AddExisting(items: seq<CartItem>, item: NewItem, quantity: int, k: int)
    requires 0 <= k < |items| && items[k].variantId == item.variantId
    ensures |WithAdded(items, item, quantity)| == |items|
    ensures WithAdded(items, item, quantity)[k] == items[k].(quantity := items[k].quantity + quantity)
    ensures WithAdded(items, item, quantity)[k].price == items[k].price
    ensures forall i | 0 <= i < |items| && items[i].variantId != item.variantId ::
      WithAdded(items, item, quantity)[i] == items[i]
  {
  }

  /** Adding a new variant appends `{ ...item, quantity }` and keeps the earlier lines. */
  lemma AddNew(items: seq<CartItem>, item: NewItem, quantity: int)
    requires !HasVariant(items, item.variantId)
    ensures |WithAdded(items, item, quantity)| == |items| + 1
    ensures WithAdded(items, item, quantity)[..|items|] == items
    ensures WithAdded(items, item, quantity)[|items|] == WithQuantity(item, quantity)
  {
  }

  /** Adding `quantity` of a known variant raises the count by `quantity`
      and the subtotal by that line's (first-seen) price times `quantity`. */
  lemma AddExistingTotals(items: seq<CartItem>, item: NewItem, quantity: int, k: int)
    requires UniqueIds(items)
    requires 0 <= k < |items| && items[k].variantId == item.variantId
    ensures SelectItemCount(WithAdded(items, item, quantity)) == SelectItemCount(items) + quantity
    ensures SelectSubtotal(WithAdded(items, item, quantity)) == SelectSubtotal(items) + items[k].price * quantity
  {
    var r := WithAdded(items, item, quantity);
    assert forall i | 0 <= i < |items| && i != k :: r[i] == items[i];
    SumOfChangeAt(items, r, Quantity, k);
    SumOfChangeAt(items, r, LineTotal, k);
    assert LineTotal(r[k]) == items[k].price * (items[k].quantity + quantity);
  }

  /** Adding a new variant raises the count by `quantity` and the subtotal
      by the new price times `quantity`. */
  lemma AddNewTotals(items: seq<CartItem>, item: NewItem, quantity: int)
    requires !HasVariant(items, item.variantId)
    ensures SelectItemCount(WithAdded(items, item, quantity)) == SelectItemCount(items) + quantity
    ensures SelectSubtotal(WithAdded(items, item, quantity)) == SelectSubtotal(items) + item.price * quantity
  {
    var r := WithAdded(items, item, quantity);
    assert r[..|r| - 1] == items;
  }

  /** `addItem` keeps variant ids unique. */
  lemma AddKeepsUnique(items: seq<CartItem>, item: NewItem, quantity: int)
    requires UniqueIds(items)
    ensures UniqueIds(WithAdded(items, item, quantity))
  {
  }

  /** `addItem` keeps every quantity at least 1 when it is given at least 1. */
  lemma AddKeepsPositive(items: seq<CartItem>, item: NewItem, quantity: int)
    requires AllPositive(items) && quantity >= 1
    ensures AllPositive(WithAdded(items, item, quantity))
  {
  }

  /** Looked up by id, `addItem` increases the entry of its variant, or
      inserts `{ ...item, quantity }` when there is none; every other id
      reads as before. */
  lemma FindAfterAdd(items: seq<CartItem>, item: NewItem, quantity: int, id: int)
    ensures Find(WithAdded(items, item, quantity), id) ==
      if id != item.variantId then Find(items, id)
      else match Find(items, id)
        case Some(line) => Some(line.(quantity := line.quantity + quantity))
        case None => Some(WithQuantity(item, quantity))
  {
    if HasVariant(items, item.variantId) {
      FindAddToLine(items, item.variantId, quantity, id);
    } else {
      FindAppend(items, WithQuantity(item, quantity), id);
    }
  }

  lemma {:induction false} FindAddToLine(items: seq<CartItem>, x: int, quantity: int, id: int)
    ensures Find(AddToLine(items, x, quantity), id) ==
      if id != x then Find(items, id)
      else match Find(items, id)
        case Some(line) => Some(line.(quantity := line.quantity + quantity))
        case None => None
  {
    if items != [] {
      var n := |items| - 1;
      var r := AddToLine(items, x, quantity);
      assert r[..n] == AddToLine(items[..n], x, quantity);
      assert items == items[..n] + [items[n]] && r == r[..n] + [r[n]];
      FindAppend(items[..n], items[n], id);
      FindAppend(r[..n], r[n], id);
      FindAddToLine(items[..n], x, quantity, id);
    }
  }

  /** Repeated additions of one variant to a cart without it leave one line
      whose quantity is the sum of the quantities passed. */
  lemma {:induction false} RepeatedAdds(items: seq<CartItem>, item: NewItem, qs: seq<int>)
    requires !HasVariant(items, item.variantId) && qs != []
    ensures |AddAll(items, item, qs)| == |items| + 1
    ensures AddAll(items, item, qs)[..|items|] == items
    ensures AddAll(items, item, qs)[|items|] == WithQuantity(item, Sum(qs))
  {
    var n := |qs| - 1;
    if n == 0 {
      assert AddAll(items, item, qs) == WithAdded(items, item, qs[0]);
    } else {
      RepeatedAdds(items, item, qs[..n]);
      var before := AddAll(items, item, qs[..n]);
      assert before[|items|].variantId == item.variantId;
      assert AddAll(items, item, qs) == WithAdded(before, item, qs[n]);
      assert qs[..n] + [qs[n]] == qs;
      SumSplitLast(qs);
    }
  }

  /** `addItem(item, q)` for each `q` in turn. */
  function AddAll(items: seq<CartItem>, item: NewItem, qs: seq<int>): seq<CartItem> {
    if qs == [] then items else WithAdded(AddAll(items, item, qs[..|qs| - 1]), item, qs[|qs| - 1])
  }

  function Sum(qs: seq<int>): int {
    if qs == [] then 0 else qs[0] + Sum(qs[1..])
  }

  lemma {:induction false} SumSplitLast(qs: seq<int>)
    requires qs != []
    ensures Sum(qs) == Sum(qs[..|qs| - 1]) + qs[|qs| - 1]
  {
    if |qs| > 1 {
      SumSplitLast(qs[1..]);
      assert qs[1..][..|qs| - 2] == qs[..|qs| - 1][1..];
    }
  }

  /** Into an empty cart: one unit of a 1000-peso variant, then two more of
      the same variant, give one line of three units and a subtotal of 3000. */
  lemma AddScenario(item: NewItem)
    requires item.price == 1000
    ensures var three := WithAdded(WithAdded([], item), item, 2);
      && |three| == 1 && three[0].quantity == 3
      && SelectItemCount(three) == 3 && SelectSubtotal(three) == 3000
  {
    var one := WithAdded([], item);
    assert one == [WithQuantity(item, 1)];
    AddNewTotals([], item, 1);
    AddExistingTotals(one, item, 2, 0);
  }

  // ---------------------------------------------------------------------
  // removeItem

  /** `removeItem(id)` drops exactly the lines with that id and keeps the
      others in their order. */
  lemma RemoveSpec(items: seq<CartItem>, id: int)
    ensures !HasVariant(WithoutVariant(items, id), id)
    ensures forall line :: line in WithoutVariant(items, id) <==> line in items && line.variantId != id
    ensures IsSubsequence(WithoutVariant(items, id), items)
  {
    var keep := (line: CartItem) => line.variantId != id;
    FilterSound(items, keep);
    FilterIsSubsequence(items, keep);
    forall line ensures line in WithoutVariant(items, id) <==> line in items && line.variantId != id {
      FilterMembership(items, keep, line);
    }
  }

  /** Removing an absent id changes nothing; so removing twice is removing once. */
  lemma RemoveAbsent(items: seq<CartItem>, id: int)
    requires !HasVariant(items, id)
    ensures WithoutVariant(items, id) == items
  {
    FilterAllKept(items, (line: CartItem) => line.variantId != id);
  }

  lemma RemoveIdempotent(items: seq<CartItem>, id: int)
    ensures WithoutVariant(WithoutVariant(items, id), id) == WithoutVariant(items, id)
  {
    RemoveSpec(items, id);
    RemoveAbsent(WithoutVariant(items, id), id);
  }

  /** Removing a present line lowers the count and the subtotal by exactly that line. */
  lemma RemoveTotals(items: seq<CartItem>, k: int)
    requires UniqueIds(items) && 0 <= k < |items|
    ensures SelectItemCount(WithoutVariant(items, items[k].variantId)) == SelectItemCount(items) - items[k].quantity
    ensures SelectSubtotal(WithoutVariant(items, items[k].variantId)) == SelectSubtotal(items) - LineTotal(items[k])
  {
    var id := items[k].variantId;
    var keep := (line: CartItem) => line.variantId != id;
    var pre, mid, post := items[..k], [items[k]], items[k + 1..];
    assert items == pre + mid + post;
    FilterAppend(pre + mid, post, keep);
    FilterAppend(pre, mid, keep);
    assert !HasVariant(pre, id) && !HasVariant(post, id);
    RemoveAbsent(pre, id);
    RemoveAbsent(post, id);
    assert Filter(mid, keep) == [];
    assert WithoutVariant(items, id) == pre + post;
    SumOfAppend(pre + mid, post, Quantity);
    SumOfAppend(pre, mid, Quantity);
    SumOfAppend(pre, post, Quantity);
    SumOfAppend(pre + mid, post, LineTotal);
    SumOfAppend(pre, mid, LineTotal);
    SumOfAppend(pre, post, LineTotal);
    assert SumOf(mid, Quantity) == items[k].quantity by { assert mid[..0] == []; }
    assert SumOf(mid, LineTotal) == LineTotal(items[k]) by { assert mid[..0] == []; }
  }

  /** `removeItem` keeps ids unique and quantities positive. */
  lemma RemoveKeepsInvariants(items: seq<CartItem>, id: int)
    ensures UniqueIds(items) ==> UniqueIds(WithoutVariant(items, id))
    ensures AllPositive(items) ==> AllPositive(WithoutVariant(items, id))
  {
    var keep := (line: CartItem) => line.variantId != id;
    var emb := FilterEmbedding(items, keep);
  }

  /** Looked up by id, `removeItem` deletes its id and nothing else. */
  lemma {:induction false} FindAfterRemove(items: seq<CartItem>, x: int, id: int)
    ensures Find(WithoutVariant(items, x), id) == if id == x then None else Find(items, id)
  {
    if items != [] {
      var n := |items| - 1;
      FindAfterRemove(items[..n], x, id);
      var keep := (line: CartItem) => line.variantId != x;
      var tail := if keep(items[n]) then [items[n]] else [];
      assert WithoutVariant(items, x) == WithoutVariant(items[..n], x) + tail;
      if tail != [] {
        FindAppend(WithoutVariant(items[..n], x), items[n], id);
      } else {
        assert WithoutVariant(items, x) == WithoutVariant(items[..n], x);
      }
    }
  }

  // ---------------------------------------------------------------------
  // updateQuantity

  /** `updateQuantity(id, q)` below 1 is exactly `removeItem(id)`; with
      `q >= 1` it sets that line's quantity to exactly `q`, nothing else
      changes, and an absent id changes nothing. */
  lemma UpdateSpec(items: seq<CartItem>, id: int, quantity: int)
    ensures quantity < 1 ==> WithUpdated(items, id, quantity) == WithoutVariant(items, id)
    ensures quantity >= 1 ==> |WithUpdated(items, id, quantity)| == |items|
    ensures quantity >= 1 ==> forall i | 0 <= i < |items| && items[i].variantId == id ::
      WithUpdated(items, id, quantity)[i] == items[i].(quantity := quantity)
    ensures quantity >= 1 ==> forall i | 0 <= i < |items| && items[i].variantId != id ::
      WithUpdated(items, id, quantity)[i] == items[i]
    ensures quantity >= 1 && !HasVariant(items, id) ==> WithUpdated(items, id, quantity) == items
  {
  }

  /** `updateQuantity` keeps ids unique, and keeps every quantity at least 1
      whatever quantity it is given. */
  lemma UpdateKeepsInvariants(items: seq<CartItem>, id: int, quantity: int)
    ensures UniqueIds(items) ==> UniqueIds(WithUpdated(items, id, quantity))
    ensures AllPositive(items) ==> AllPositive(WithUpdated(items, id, quantity))
  {
    RemoveKeepsInvariants(items, id);
  }

  /** Looked up by id, `updateQuantity` deletes its id below 1 and
      otherwise replaces the quantity of an existing entry (an absent id
      stays absent); every other id reads as before. */
  lemma FindAfterUpdate(items: seq<CartItem>, x: int, quantity: int, id: int)
    ensures Find(WithUpdated(items, x, quantity), id) ==
      if id != x then Find(items, id)
      else if quantity < 1 then None
      else match Find(items, id)
        case Some(line) => Some(line.(quantity := quantity))
        case None => None
  {
    if quantity < 1 {
      FindAfterRemove(items, x, id);
    } else {
      FindSetLine(items, x, quantity, id);
    }
  }

  lemma {:induction false} FindSetLine(items: seq<CartItem>, x: int, quantity: int, id: int)
    ensures Find(SetLineQuantity(items, x, quantity), id) ==
      if id != x then Find(items, id)
      else match Find(items, id)
        case Some(line) => Some(line.(quantity := quantity))
        case None => None
  {
    if items != [] {
      var n := |items| - 1;
      assert SetLineQuantity(items, x, quantity)[..n] == SetLineQuantity(items[..n], x, quantity);
      FindSetLine(items[..n], x, quantity, id);
    }
  }

  /** Updating a present line to `q >= 1` moves the count and the subtotal
      by the change in that line alone. */
  lemma UpdateTotals(items: seq<CartItem>, k: int, quantity: int)
    requires UniqueIds(items) && 0 <= k < |items| && quantity >= 1
    ensures SelectItemCount(WithUpdated(items, items[k].variantId, quantity)) ==
      SelectItemCount(items) - items[k].quantity + quantity
    ensures SelectSubtotal(WithUpdated(items, items[k].variantId, quantity)) ==
      SelectSubtotal(items) - LineTotal(items[k]) + items[k].price * quantity
  {
    var r := WithUpdated(items, items[k].variantId, quantity);
    assert forall i | 0 <= i < |items| && i != k :: r[i] == items[i];
    SumOfChangeAt(items, r, Quantity, k);
    SumOfChangeAt(items, r, LineTotal, k);
  }

  // ---------------------------------------------------------------------
  // The store

  /** The store object: `items` is the only field, and the only one persisted. */
  class ShoppingCartStore {
    var items: seq<CartItem>

    /** Both invariants of the cart. */
    ghost predicate Valid()
      reads this
    {
      UniqueIds(items) && AllPositive(items)
    }

    constructor ()
      ensures items == [] && Valid()
    {
      items := [];
    }

    method AddItem(item: NewItem, quantity: int := 1)
      modifies this
      ensures items == WithAdded(old(items), item, quantity)
      ensures old(Valid()) && quantity >= 1 ==> Valid()
    {
      if UniqueIds(items) {
        AddKeepsUnique(items, item, quantity);
      }
      if quantity >= 1 && AllPositive(items) {
        AddKeepsPositive(items, item, quantity);
      }
      items := WithAdded(items, item, quantity);
    }

    method RemoveItem(variantId: int)
      modifies this
      ensures items == WithoutVariant(old(items), variantId)
      ensures old(Valid()) ==> Valid()
    {
      RemoveKeepsInvariants(items, variantId);
      items := WithoutVariant(items, variantId);
    }

    method UpdateQuantity(variantId: int, quantity: int)
      modifies this
      ensures quantity < 1 ==> items == WithoutVariant(old(items), variantId)
      ensures items == WithUpdated(old(items), variantId, quantity)
      ensures old(Valid()) ==> Valid()
    {
      UpdateKeepsInvariants(items, variantId, quantity);
      if quantity < 1 {
        items := WithoutVariant(items, variantId);
        return;
      }
      items := SetLineQuantity(items, variantId, quantity);
    }

    method ClearCart()
      modifies this
      ensures items == [] && Valid()
    {
      items := [];
    }
  }
}

/** The cart drawer of the header. It keeps its own local list of lines
    (seeded with three sample lines, independent of the cart store), lets
    the buttons move a quantity by ±1 clamped at 1, removes lines, and shows
    the subtotal, the amount still missing for free shipping and the
    shipping label. Its total is the subtotal: no shipping is added. */
module CartDrawer {
  import opened Common

  const FreeShippingThreshold: int := 50000
  /** The cost the shipping label shows below the threshold. */
  const LabelShippingCost: int := 8000

  /** The drawer's own line type; `id` is a string here. */
  datatype DrawerItem = DrawerItem(
    id: string,
    name: string,
    price: int,
    image: string,
    quantity: int,
    variant: Option<string>)

  ghost predicate AllPositive(items: seq<DrawerItem>) {
    forall i | 0 <= i < |items| :: items[i].quantity >= 1
  }

  ghost predicate UniqueIds(items: seq<DrawerItem>) {
    forall i, j | 0 <= i < j < |items| :: items[i].id != items[j].id
  }

  /** The three lines the drawer starts with. */
  function SampleItems(): seq<DrawerItem> {
    [ DrawerItem("1", "Kit reparación profunda", 22500, "/product.jpeg", 1, Some("Cabello seco")),
      DrawerItem("2", "Serum facial hidratante", 45000, "/product.jpeg", 2, Some("30 ml")),
      DrawerItem("3", "Champú nutritivo", 18000, "/product.jpeg", 1, Some("250 ml")) ]
  }

  /** The `map` of `updateQuantity(id, delta)`. */
  function ChangeQuantity(items: seq<DrawerItem>, id: string, delta: int): seq<DrawerItem> {
    seq(|items|, i requires 0 <= i < |items| =>
      if items[i].id == id then items[i].(quantity := Max(1, items[i].quantity + delta))
      else items[i])
  }

  /** The `filter` of `removeItem(id)`. */
  function WithoutId(items: seq<DrawerItem>, id: string): seq<DrawerItem> {
    Filter(items, (item: DrawerItem) => item.id != id)
  }

  function LineTotal(item: DrawerItem): int {
    item.price * item.quantity
  }

  /** `items.reduce((sum, item) => sum + item.price * item.quantity, 0)`. */
  function Subtotal(items: seq<DrawerItem>): int {
    SumOf(items, LineTotal)
  }

  /** `total = subtotal`. */
  function Total(items: seq<DrawerItem>): int {
    Subtotal(items)
  }

  /** `Math.max(FREE_SHIPPING_THRESHOLD - subtotal, 0)`. */
  function RemainingForFreeShipping(subtotal: int): (r: int)
    ensures r >= 0
    ensures r == 0 <==> subtotal >= FreeShippingThreshold
    ensures r > 0 ==> subtotal + r == FreeShippingThreshold
  {
    Max(FreeShippingThreshold - subtotal, 0)
  }

  datatype ShippingLabel = Gratis | Amount(cost: int)

  /** `remainingForFreeShipping === 0 ? "Gratis" : format(8000)`. */
  function ShippingLabelFor(remaining: int): (l: ShippingLabel)
    ensures l.Gratis? <==> remaining == 0
    ensures l.Amount? ==> l.cost == LabelShippingCost
  {
    if remaining == 0 then Gratis else Amount(LabelShippingCost)
  }

  /** The label is "Gratis" exactly when the subtotal reaches the threshold. */
  lemma LabelFromSubtotal(subtotal: int)
    ensures ShippingLabelFor(RemainingForFreeShipping(subtotal)).Gratis? <==> subtotal >= FreeShippingThreshold
  {
  }

  /** `updateQuantity(id, delta)` sets the matching line to `max(1, q + delta)`;
      it never removes a line, never leaves a quantity below 1 on the lines
      it touches, and keeps every other line and the order. */
  lemma ChangeSpec(items: seq<DrawerItem>, id: string, delta: int)
    ensures |ChangeQuantity(items, id, delta)| == |items|
    ensures forall i | 0 <= i < |items| :: ChangeQuantity(items, id, delta)[i].id == items[i].id
    ensures forall i | 0 <= i < |items| && items[i].id == id ::
      ChangeQuantity(items, id, delta)[i] == items[i].(quantity := Max(1, items[i].quantity + delta))
      && ChangeQuantity(items, id, delta)[i].quantity >= 1
    ensures forall i | 0 <= i < |items| && items[i].id != id :: ChangeQuantity(items, id, delta)[i] == items[i]
    ensures AllPositive(items) ==> AllPositive(ChangeQuantity(items, id, delta))
    ensures UniqueIds(items) ==> UniqueIds(ChangeQuantity(items, id, delta))
  {
  }

  /** With unique ids, moving line `k` by `delta` moves the subtotal by its
      price times the clamped change. */
  lemma ChangeSubtotal(items: seq<DrawerItem>, k: int, delta: int)
    requires UniqueIds(items) && 0 <= k < |items|
    ensures Subtotal(ChangeQuantity(items, items[k].id, delta)) ==
      Subtotal(items) + items[k].price * (Max(1, items[k].quantity + delta) - items[k].quantity)
  {
    var p, q, q' := items[k].price, items[k].quantity, Max(1, items[k].quantity + delta);
    assert p * q' - p * q == p * (q' - q);
    var r := ChangeQuantity(items, items[k].id, delta);
    assert LineTotal(r[k]) == p * q';
    assert forall i | 0 <= i < |items| && i != k :: r[i] == items[i];
    SumOfChangeAt(items, r, LineTotal, k);
  }

  /** `removeItem(id)` drops exactly the lines with that id and keeps the
      rest in their order. */
  lemma RemoveSpec(items: seq<DrawerItem>, id: string)
    ensures forall item :: item in WithoutId(items, id) <==> item in items && item.id != id
    ensures IsSubsequence(WithoutId(items, id), items)
    ensures AllPositive(items) ==> AllPositive(WithoutId(items, id))
    ensures UniqueIds(items) ==> UniqueIds(WithoutId(items, id))
  {
    var keep := (item: DrawerItem) => item.id != id;
    var idx := FilterEmbedding(items, keep);
    FilterIsSubsequence(items, keep);
    forall item ensures item in WithoutId(items, id) <==> item in items && item.id != id {
      FilterMembership(items, keep, item);
    }
  }

  /** The sample lines add up to 130500, which already ships free. */
  lemma SampleTotals()
    ensures Subtotal(SampleItems()) == 130500
    ensures Total(SampleItems()) == 130500
    ensures RemainingForFreeShipping(Subtotal(SampleItems())) == 0
  {
    var s := SampleItems();
    assert s[..2][..1][..0] == [];
    assert s[..2][..1] == s[..1];
    assert SumOf(s[..1], LineTotal) == 22500;
    assert SumOf(s[..2], LineTotal) == 22500 + 90000;
  }

  /** The drawer's state: the `items` array of its `useState`. */
  class DrawerCart {
    var items: seq<DrawerItem>

    ghost predicate Valid()
      reads this
    {
      AllPositive(items) && UniqueIds(items)
    }

    constructor ()
      ensures items == SampleItems() && Valid()
    {
      items := SampleItems();
    }

    method UpdateQuantity(id: string, delta: int)
      modifies this
      ensures items == ChangeQuantity(old(items), id, delta)
      ensures old(Valid()) ==> Valid()
    {
      ChangeSpec(items, id, delta);
      items := ChangeQuantity(items, id, delta);
    }

    method RemoveItem(id: string)
      modifies this
      ensures items == WithoutId(old(items), id)
      ensures old(Valid()) ==> Valid()
    {
      RemoveSpec(items, id);
      items := WithoutId(items, id);
    }
  }
}

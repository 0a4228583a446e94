/** The cart page: the fixed free-shipping rule and total over the store's
    subtotal, the choice between the empty view and the summary, and the
    minus / plus buttons of each line, which only forward to the store's
    `updateQuantity`. */
module CartPage {
  import opened Common
  import opened CartStore

  const FreeShippingThreshold: int := 50000
  const ShippingCost: int := 8000

  /** `subtotal >= FREE_SHIPPING_THRESHOLD ? 0 : SHIPPING_COST`. */
  function ShippingCostFor(subtotal: int): (r: int)
    ensures r == 0 <==> subtotal >= FreeShippingThreshold
    ensures r != 0 ==> r == ShippingCost
  {
    if subtotal >= FreeShippingThreshold then 0 else ShippingCost
  }

  /** `subtotal + shippingCost`. */
  function Total(subtotal: int): (r: int)
    ensures subtotal <= r <= subtotal + ShippingCost
    ensures r == subtotal <==> subtotal >= FreeShippingThreshold
    ensures subtotal < FreeShippingThreshold ==> r == subtotal + ShippingCost
  {
    subtotal + ShippingCostFor(subtotal)
  }

  /** The two examples of the rule: 40000 pays shipping, 60000 does not. */
  lemma TotalExamples()
    ensures Total(40000) == 48000 && Total(60000) == 60000
  {
  }

  /** How the "Envío" row reads. */
  datatype ShippingLabel = Gratis | Amount(cost: int)

  function ShippingLabelFor(shippingCost: int): (l: ShippingLabel)
    ensures l.Gratis? <==> shippingCost == 0
    ensures l.Amount? ==> l.cost == shippingCost
  {
    if shippingCost == 0 then Gratis else Amount(shippingCost)
  }

  /** What the page renders. */
  datatype View =
    | EmptyView
    | Summary(subtotal: int, shipping: ShippingLabel, total: int)

  function Render(items: seq<CartItem>): (v: View)
    ensures v.EmptyView? <==> items == []
    ensures v.Summary? ==> v.subtotal == SelectSubtotal(items)
    ensures v.Summary? ==> (v.shipping.Gratis? <==> v.subtotal >= FreeShippingThreshold)
    ensures v.Summary? && v.shipping.Amount? ==> v.total == v.subtotal + v.shipping.cost
    ensures v.Summary? && v.shipping.Gratis? ==> v.total == v.subtotal
  {
    if items == [] then EmptyView
    else
      var subtotal := SelectSubtotal(items);
      Summary(subtotal, ShippingLabelFor(ShippingCostFor(subtotal)), Total(subtotal))
  }

  /** The minus button of a line: `updateQuantity(variantId, quantity - 1)`. */
  function Decrement(items: seq<CartItem>, line: CartItem): seq<CartItem> {
    WithUpdated(items, line.variantId, line.quantity - 1)
  }

  /** The plus button of a line: `updateQuantity(variantId, quantity + 1)`. */
  function Increment(items: seq<CartItem>, line: CartItem): seq<CartItem> {
    WithUpdated(items, line.variantId, line.quantity + 1)
  }

  /** Minus on a line holding one unit removes the line, and lowers the
      subtotal by its price. */
  lemma DecrementLastUnit(items: seq<CartItem>, k: int)
    requires UniqueIds(items) && 0 <= k < |items| && items[k].quantity == 1
    ensures Decrement(items, items[k]) == WithoutVariant(items, items[k].variantId)
    ensures !HasVariant(Decrement(items, items[k]), items[k].variantId)
    ensures |Decrement(items, items[k])| == |items| - 1
    ensures SelectSubtotal(Decrement(items, items[k])) == SelectSubtotal(items) - items[k].price
  {
    RemoveSpec(items, items[k].variantId);
    RemoveTotals(items, k);
    RemoveLength(items, k);
  }

  /** Removing a present line of a cart with unique ids shortens it by one. */
  lemma RemoveLength(items: seq<CartItem>, k: int)
    requires UniqueIds(items) && 0 <= k < |items|
    ensures |WithoutVariant(items, items[k].variantId)| == |items| - 1
  {
    var id := items[k].variantId;
    var keep := (line: CartItem) => line.variantId != id;
    var pre, mid, post := items[..k], [items[k]], items[k + 1..];
    assert items == pre + mid + post;
    FilterAppend(pre + mid, post, keep);
    FilterAppend(pre, mid, keep);
    assert !HasVariant(pre, id) && !HasVariant(post, id);
    RemoveAbsent(pre, id);
    RemoveAbsent(post, id);
    assert Filter(mid, keep) == [];
  }

  /** Plus raises that line's quantity by exactly one and the subtotal by
      its price; every other line is kept. */
  lemma IncrementAddsOne(items: seq<CartItem>, k: int)
    requires UniqueIds(items) && 0 <= k < |items| && items[k].quantity >= 0
    ensures |Increment(items, items[k])| == |items|
    ensures Increment(items, items[k])[k] == items[k].(quantity := items[k].quantity + 1)
    ensures forall i | 0 <= i < |items| && i != k :: Increment(items, items[k])[i] == items[i]
    ensures SelectSubtotal(Increment(items, items[k])) == SelectSubtotal(items) + items[k].price
  {
    UpdateSpec(items, items[k].variantId, items[k].quantity + 1);
    UpdateTotals(items, k, items[k].quantity + 1);
  }
}

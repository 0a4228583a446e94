/** The shipping-configuration lookup used by the cart: a store id that is
    missing or 0 gives the defaults without asking the server; otherwise the
    server's answer is used field by field, each missing field replaced by
    its own default, and any failure gives the defaults.

    The request itself is not modelled: `fetch` is the answer the server
    would give for each store id. */
module ShippingConfigService {
  import opened Common

  const DefaultFreeShippingThreshold: int := 50000
  const DefaultShippingCost: int := 8000

  /** The two numbers every caller receives. */
  datatype ShippingConfig = ShippingConfig(freeShippingThreshold: int, shippingCost: int)

  /** What the request for one store id ends in: a response that is not OK,
      a thrown failure (network or JSON), or an OK body whose two fields may
      each be null. */
  datatype FetchOutcome =
    | NotOk
    | Failed
    | Ok(freeShippingThreshold: Option<int>, shippingCost: Option<int>)

  /** `getDefaults`. */
  function GetDefaults(): (c: ShippingConfig)
    ensures c.freeShippingThreshold == 50000 && c.shippingCost == 8000
  {
    ShippingConfig(DefaultFreeShippingThreshold, DefaultShippingCost)
  }

  /** The request is made exactly when the store id is truthy. */
  predicate Queries(storeId: Option<int>) {
    storeId.Some? && storeId.value != 0
  }

  /** `getShippingConfig(storeId)`. */
  function GetShippingConfig(storeId: Option<int>, fetch: int -> FetchOutcome): ShippingConfig {
    if !Queries(storeId) then GetDefaults()
    else match fetch(storeId.value)
      case NotOk => GetDefaults()
      case Failed => GetDefaults()
      case Ok(threshold, cost) =>
        ShippingConfig(threshold.GetOr(DefaultFreeShippingThreshold), cost.GetOr(DefaultShippingCost))
  }

  /** Without a usable store id the defaults come back and the server's
      answer plays no part: any two servers give the same result. */
  lemma NoStoreNoFetch(storeId: Option<int>, fetch: int -> FetchOutcome, other: int -> FetchOutcome)
    requires !Queries(storeId)
    ensures GetShippingConfig(storeId, fetch) == GetDefaults()
    ensures GetShippingConfig(storeId, fetch) == GetShippingConfig(storeId, other)
  {
  }

  /** A response that is not OK, or any thrown failure, gives the defaults. */
  lemma FailureGivesDefaults(storeId: Option<int>, fetch: int -> FetchOutcome)
    requires Queries(storeId) && !fetch(storeId.value).Ok?
    ensures GetShippingConfig(storeId, fetch) == GetDefaults()
  {
  }

  /** Each field is coalesced on its own: a value the server gives is
      returned as it is, a null one is replaced by that field's default,
      and neither field depends on the other. */
  lemma FieldsCoalescedIndependently(storeId: Option<int>, fetch: int -> FetchOutcome, other: int -> FetchOutcome)
    requires Queries(storeId) && fetch(storeId.value).Ok?
    ensures var o, c := fetch(storeId.value), GetShippingConfig(storeId, fetch);
      && (o.freeShippingThreshold.Some? ==> c.freeShippingThreshold == o.freeShippingThreshold.value)
      && (o.freeShippingThreshold.None? ==> c.freeShippingThreshold == DefaultFreeShippingThreshold)
      && (o.shippingCost.Some? ==> c.shippingCost == o.shippingCost.value)
      && (o.shippingCost.None? ==> c.shippingCost == DefaultShippingCost)
    ensures other(storeId.value).Ok? && other(storeId.value).freeShippingThreshold == fetch(storeId.value).freeShippingThreshold ==>
      GetShippingConfig(storeId, other).freeShippingThreshold == GetShippingConfig(storeId, fetch).freeShippingThreshold
    ensures other(storeId.value).Ok? && other(storeId.value).shippingCost == fetch(storeId.value).shippingCost ==>
      GetShippingConfig(storeId, other).shippingCost == GetShippingConfig(storeId, fetch).shippingCost
  {
  }

  /** A server value of 0 is kept: `??` replaces only null. */
  lemma ZeroThresholdKept(storeId: Option<int>, fetch: int -> FetchOutcome)
    requires Queries(storeId) && fetch(storeId.value) == Ok(Some(0), None)
    ensures GetShippingConfig(storeId, fetch) == ShippingConfig(0, 8000)
  {
  }
}

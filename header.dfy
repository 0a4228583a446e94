/** The free-shipping threshold the header banner announces. */
module Header {
  import opened Common

  const DefaultBannerThreshold: int := 50000

  /** The shipping-config prop the layout passes down. */
  datatype ShippingConfigProp = ShippingConfigProp(freeShippingThreshold: int, shippingCost: int)

  /** `(typeof prop === "number" && prop > 0 ? prop : shippingConfig?.freeShippingThreshold) ?? 50000`;
      `None` stands for a prop that is null or not given. */
  function ThresholdForBanner(freeShippingThreshold: Option<int>, shippingConfig: Option<ShippingConfigProp>): (t: int)
    ensures freeShippingThreshold.Some? && freeShippingThreshold.value > 0 ==> t == freeShippingThreshold.value
    ensures !(freeShippingThreshold.Some? && freeShippingThreshold.value > 0) && shippingConfig.Some? ==>
      t == shippingConfig.value.freeShippingThreshold
    ensures !(freeShippingThreshold.Some? && freeShippingThreshold.value > 0) && shippingConfig.None? ==>
      t == DefaultBannerThreshold
  {
    var chosen :=
      if freeShippingThreshold.Some? && freeShippingThreshold.value > 0 then freeShippingThreshold
      else if shippingConfig.Some? then Some(shippingConfig.value.freeShippingThreshold)
      else None;
    chosen.GetOr(DefaultBannerThreshold)
  }

  /** A config threshold of 0 reaches the banner: only a missing value is defaulted. */
  lemma ZeroConfigThresholdKept(cost: int)
    ensures ThresholdForBanner(None, Some(ShippingConfigProp(0, cost))) == 0
    ensures ThresholdForBanner(Some(0), Some(ShippingConfigProp(0, cost))) == 0
  {
  }

  /** A positive prop wins over the config. */
  lemma PropWins(p: int, config: Option<ShippingConfigProp>)
    requires p > 0
    ensures ThresholdForBanner(Some(p), config) == p
  {
  }
}

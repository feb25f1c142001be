/** BTCPriceTracker.calculate_percentage_change over exact reals. */
module Metrics {
  import opened Wrappers

  /**
   * None when either price is None; otherwise `(new - old) / old * 100`. The
   * source divides without a guard, so callers must not pass a zero old
   * price (the page only calls it with truthy prices).
   */
  function PercentChange(oldPrice: Option<real>, newPrice: Option<real>): (r: Option<real>)
    requires oldPrice.Some? && newPrice.Some? ==> oldPrice.value != 0.0
    ensures r.None? <==> oldPrice.None? || newPrice.None?
    // Inverse: applying the change to the old price gives the new price back.
    ensures r.Some? ==> oldPrice.value * (1.0 + r.value / 100.0) == newPrice.value
    ensures r.Some? ==> (r.value == 0.0 <==> newPrice.value == oldPrice.value)
  {
    if oldPrice.None? || newPrice.None? then None
    else
      var o, n := oldPrice.value, newPrice.value;
      Some((n - o) / o * 100.0)
  }

  /** For a positive old price the sign of the change is the direction of the move. */
  lemma PercentChangeSign(oldPrice: real, newPrice: real)
    requires oldPrice > 0.0
    ensures var r := PercentChange(Some(oldPrice), Some(newPrice)).value;
      && (r > 0.0 <==> newPrice > oldPrice)
      && (r < 0.0 <==> newPrice < oldPrice)
  {
  }
}

/**
 * The pricing and shipping calculator (lib/calculations.ts), in whole cents.
 */
module Pricing {
  import opened Types

  /** The fixed price floor, $29.99. */
  const MinSellingPrice: Cents := 2999
  /** The price cap, $99.99. */
  const MaxPrice: Cents := 9999
  /** The markup applied to total cost. */
  const Markup := 3

  datatype PricingResult = PricingResult(
    totalCost: Cents,
    minSellingPrice: Cents,
    recommendedPrice: Cents,
    profitPerSale: Cents,
    profitMarginPercent: Ratio,
    isCostTooHigh: bool)

  /**
   * `Math.ceil(c) - 0.01` on a dollar amount of `c` cents: the whole dollar
   * at or above `c`, less one cent. The result is the one price ending in .99
   * that lies in [c - 1, c + 99).
   */
  function CeilDollarLessCent(c: Cents): (r: Cents)
    ensures r % 100 == 99
    ensures c - 1 <= r < c + 99
  {
    var dollars := (c + 99) / 100;
    assert c <= dollars * 100 < c + 100;
    dollars * 100 - 1
  }

  /** At most one price ending in .99 lies in a window of 100 cents. */
  lemma NinetyNineUnique(c: Cents, x: Cents, y: Cents)
    requires x % 100 == 99 && y % 100 == 99
    requires c - 1 <= x < c + 99 && c - 1 <= y < c + 99
    ensures x == y
  {
    assert (x - y) % 100 == 0;
    assert -100 < x - y < 100;
  }

  /** The rounding step never lands above the cap once the price is capped. */
  lemma RecapNeverFires(c: Cents)
    requires c <= MaxPrice
    ensures CeilDollarLessCent(c) <= MaxPrice
  {
  }

  /**
   * What calculatePricing promises about its result for the three cost
   * inputs: the total, the fixed floor, a recommended price in
   * [29.99, 99.99] ending in .99 that is the floor below a 3x candidate of
   * at most 29.99, the cap above a candidate beyond 99.99, and otherwise the
   * candidate rounded up to a whole dollar less one cent; profit and margin
   * follow from it, and the cost-too-high flag says the candidate exceeds the cap.
   */
  predicate PricingContract(productCost: Cents, shippingCost: Cents, lastMileFee: Cents, r: PricingResult) {
    var candidate := Markup * r.totalCost;
    && r.totalCost == productCost + shippingCost + lastMileFee
    && r.minSellingPrice == MinSellingPrice
    && MinSellingPrice <= r.recommendedPrice <= MaxPrice
    && r.recommendedPrice % 100 == 99
    && (candidate <= MinSellingPrice ==> r.recommendedPrice == MinSellingPrice)
    && (candidate > MaxPrice ==> r.recommendedPrice == MaxPrice)
    && (MinSellingPrice < candidate <= MaxPrice ==> candidate - 1 <= r.recommendedPrice < candidate + 99)
    && r.profitPerSale == r.recommendedPrice - r.totalCost
    && r.profitMarginPercent == Ratio(100 * r.profitPerSale, r.recommendedPrice)
    && (r.isCostTooHigh <==> candidate > MaxPrice)
  }

  /** calculatePricing: markup, floor, cap, round to .99, re-cap; then profit and margin. */
  method CalculatePricing(productCost: Cents, shippingCost: Cents, lastMileFee: Cents) returns (r: PricingResult)
    ensures PricingContract(productCost, shippingCost, lastMileFee, r)
  {
    var totalCost := productCost + shippingCost + lastMileFee;
    var minSellingPrice := MinSellingPrice;

    var recommendedPrice := totalCost * Markup;
    if recommendedPrice < minSellingPrice {
      recommendedPrice := minSellingPrice;
    }
    if recommendedPrice > MaxPrice {
      recommendedPrice := MaxPrice;
    }
    ghost var clamped := recommendedPrice;
    recommendedPrice := CeilDollarLessCent(recommendedPrice);
    RecapNeverFires(clamped);
    if recommendedPrice > MaxPrice {
      recommendedPrice := MaxPrice;
    }

    var profitPerSale := recommendedPrice - totalCost;
    var profitMarginPercent := Ratio(100 * profitPerSale, recommendedPrice);
    r := PricingResult(totalCost, minSellingPrice, recommendedPrice, profitPerSale,
                       profitMarginPercent, totalCost * Markup > MaxPrice);
  }

  /** The contract determines the result: equal inputs give equal results. */
  lemma PricingDeterministic(p: Cents, s: Cents, l: Cents, r1: PricingResult, r2: PricingResult)
    requires PricingContract(p, s, l, r1) && PricingContract(p, s, l, r2)
    ensures r1 == r2
  {
    var candidate := Markup * r1.totalCost;
    if MinSellingPrice < candidate <= MaxPrice {
      NinetyNineUnique(candidate, r1.recommendedPrice, r2.recommendedPrice);
    }
  }

  /** Zero cost: price 29.99, profit 29.99, margin exactly 100 percent. */
  lemma ZeroCost(r: PricingResult)
    requires PricingContract(0, 0, 0, r)
    ensures r.recommendedPrice == 2999 && r.profitPerSale == 2999
    ensures r.profitMarginPercent.num == 100 * r.profitMarginPercent.den
    ensures !r.isCostTooHigh
  {
  }

  /**
   * A whole-dollar candidate drops one cent: cost $10 + $5 gives 44.99 and
   * profit 29.99, below the 3x markup of 45.00 though no cap applied.
   */
  lemma WholeDollarCandidate(r: PricingResult)
    requires PricingContract(1000, 500, 0, r)
    ensures r.totalCost == 1500 && r.recommendedPrice == 4499 && r.profitPerSale == 2999
    ensures r.recommendedPrice < Markup * r.totalCost
  {
    NinetyNineUnique(4500, r.recommendedPrice, 4499);
  }

  /** A $40 cost is capped at 99.99 and flagged as too costly. */
  lemma CappedCost(r: PricingResult)
    requires PricingContract(4000, 0, 0, r)
    ensures r.recommendedPrice == 9999 && r.isCostTooHigh
  {
  }

  /** Whenever the cost-too-high flag is raised the price sits at the cap. */
  lemma CostTooHighMeansCapped(p: Cents, s: Cents, l: Cents, r: PricingResult)
    requires PricingContract(p, s, l, r)
    ensures r.isCostTooHigh ==> r.recommendedPrice == MaxPrice
  {
  }

  /** calculateShipping's window: the two ranges added end to end. */
  datatype ShippingWindow = ShippingWindow(min: int, max: int)

  /** calculateShipping: processing and delivery days added componentwise. */
  function CalculateShipping(processingMin: int, processingMax: int, deliveryMin: int, deliveryMax: int): (w: ShippingWindow)
    ensures w.max - w.min == (processingMax - processingMin) + (deliveryMax - deliveryMin)
    ensures processingMin <= processingMax && deliveryMin <= deliveryMax ==> w.min <= w.max
  {
    ShippingWindow(processingMin + deliveryMin, processingMax + deliveryMax)
  }
}

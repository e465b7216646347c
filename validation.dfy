/**
 * The admission validator (lib/validation.ts): eight named checks, of which
 * five block admission with a reason code pushed in a fixed order.
 */
module Validation {
  import opened Types

  /** The fields validateProduct receives. */
  datatype ValidationInput = ValidationInput(
    usWarehouse: bool,
    totalDaysMax: int,
    minSellingPrice: Cents,
    inventoryCount: int,
    recommendedPrice: Cents,
    totalCost: Cents)

  datatype Checks = Checks(
    usWarehouse: bool,
    shippingTime: bool,
    minPrice: bool,
    maxPrice: bool,
    inventory: bool,
    markup: bool,
    sweetSpot: bool,
    lowMargin: bool)

  datatype ValidationResult = ValidationResult(passed: bool, reasons: seq<Reason>, checks: Checks)

  const MaxShippingDays := 12
  const MinPriceBound: Cents := 2999
  const MaxPriceBound: Cents := 9999
  const MinInventory := 50
  const MarkupFactor := 3
  const SweetSpotLow: Cents := 2900
  const SweetSpotHigh: Cents := 3900
  const LowMarginPercent := 60

  /** (recommended - cost) / recommended * 100, as an exact quotient. */
  function MarginPercent(recommendedPrice: Cents, totalCost: Cents): Ratio {
    Ratio(100 * (recommendedPrice - totalCost), recommendedPrice)
  }

  /**
   * The `checks` record. The sweet spot lies under the price ceiling; a
   * positive price of at least three times the cost never reads as a low
   * margin; a zero price reads as a low margin exactly when the cost is
   * positive (the quotient is -Infinity then, NaN or +Infinity otherwise).
   */
  function EvaluateChecks(d: ValidationInput): (c: Checks)
    ensures c.sweetSpot ==> c.maxPrice
    ensures d.recommendedPrice > 0 && c.markup ==> !c.lowMargin
    ensures d.recommendedPrice == 0 ==> (c.lowMargin <==> d.totalCost > 0)
  {
    Checks(
      usWarehouse := d.usWarehouse,
      shippingTime := d.totalDaysMax <= MaxShippingDays,
      minPrice := d.recommendedPrice >= MinPriceBound,
      maxPrice := d.recommendedPrice <= MaxPriceBound,
      inventory := d.inventoryCount >= MinInventory,
      markup := d.recommendedPrice >= d.totalCost * MarkupFactor,
      sweetSpot := SweetSpotLow <= d.recommendedPrice <= SweetSpotHigh,
      lowMargin := Below(MarginPercent(d.recommendedPrice, d.totalCost), LowMarginPercent))
  }

  /** The validator's input rebuilt from a stored product. */
  function InputOf(p: Product): ValidationInput {
    ValidationInput(p.usWarehouse, p.totalDaysMax, p.minSellingPrice, p.inventoryCount, p.recommendedPrice, p.totalCost)
  }

  /** The blocking reasons in the order the validator considers them. */
  const BlockingOrder: seq<Reason> := [NoUsWarehouse, ShippingTooSlow, PriceTooLow, PriceTooHigh, LowInventory]

  /** The position of a reason in BlockingOrder. */
  function Rank(r: Reason): (k: nat)
    ensures k < |BlockingOrder| && BlockingOrder[k] == r
  {
    match r
    case NoUsWarehouse => 0
    case ShippingTooSlow => 1
    case PriceTooLow => 2
    case PriceTooHigh => 3
    case LowInventory => 4
  }

  /** The check whose failure raises reason `r`. */
  function Guard(c: Checks, r: Reason): bool {
    match r
    case NoUsWarehouse => c.usWarehouse
    case ShippingTooSlow => c.shippingTime
    case PriceTooLow => c.minPrice
    case PriceTooHigh => c.maxPrice
    case LowInventory => c.inventory
  }

  /** The reasons of `rs` whose guard fails, keeping their order. */
  function Failing(c: Checks, rs: seq<Reason>): seq<Reason> {
    if rs == [] then []
    else (if Guard(c, rs[0]) then [] else [rs[0]]) + Failing(c, rs[1..])
  }

  /** Filtering keeps exactly the reasons whose guard fails, and never lengthens the list. */
  lemma {:induction false} FailingMembers(c: Checks, rs: seq<Reason>)
    ensures forall r :: r in Failing(c, rs) <==> r in rs && !Guard(c, r)
    ensures |Failing(c, rs)| <= |rs|
  {
    if rs != [] {
      FailingMembers(c, rs[1..]);
      assert rs == [rs[0]] + rs[1..];
    }
  }

  /** The reason list the validator must produce for the checks `c`. */
  function ExpectedReasons(c: Checks): seq<Reason> {
    Failing(c, BlockingOrder)
  }

  /** The one-element contribution of reason `r`: itself when its guard fails. */
  function Raised(c: Checks, r: Reason): seq<Reason> {
    if Guard(c, r) then [] else [r]
  }

  /** ExpectedReasons written out reason by reason. */
  lemma ExpectedReasonsUnrolled(c: Checks)
    ensures ExpectedReasons(c) ==
      Raised(c, NoUsWarehouse) + Raised(c, ShippingTooSlow) + Raised(c, PriceTooLow)
      + Raised(c, PriceTooHigh) + Raised(c, LowInventory)
  {
    var s4 := [LowInventory];
    var s3 := [PriceTooHigh] + s4;
    var s2 := [PriceTooLow] + s3;
    var s1 := [ShippingTooSlow] + s2;
    assert BlockingOrder == [NoUsWarehouse] + s1;
    assert s4[1..] == [] && s3[1..] == s4 && s2[1..] == s3 && s1[1..] == s2;
    assert ([NoUsWarehouse] + s1)[1..] == s1;
    assert Failing(c, s4) == Raised(c, LowInventory);
    assert Failing(c, s3) == Raised(c, PriceTooHigh) + Failing(c, s4);
    assert Failing(c, s2) == Raised(c, PriceTooLow) + Failing(c, s3);
    assert Failing(c, s1) == Raised(c, ShippingTooSlow) + Failing(c, s2);
  }

  /** validateProduct: compute the checks, push each failing blocking reason in turn. */
  method ValidateProduct(d: ValidationInput) returns (r: ValidationResult)
    ensures r.checks == EvaluateChecks(d)
    ensures r.reasons == ExpectedReasons(r.checks)
    ensures r.passed <==> r.reasons == []
  {
    var checks := EvaluateChecks(d);
    var reasons: seq<Reason> := [];
    if !checks.usWarehouse { reasons := reasons + [NoUsWarehouse]; }
    if !checks.shippingTime { reasons := reasons + [ShippingTooSlow]; }
    if !checks.minPrice { reasons := reasons + [PriceTooLow]; }
    if !checks.maxPrice { reasons := reasons + [PriceTooHigh]; }
    if !checks.inventory { reasons := reasons + [LowInventory]; }
    ExpectedReasonsUnrolled(checks);
    r := ValidationResult(|reasons| == 0, reasons, checks);
  }

  /** A list whose ranks strictly increase: it is in BlockingOrder order, without repeats. */
  predicate InBlockingOrder(rs: seq<Reason>) {
    forall i, j :: 0 <= i < j < |rs| ==> Rank(rs[i]) < Rank(rs[j])
  }

  /** Filtering keeps a list in blocking order. */
  lemma {:induction false} FailingKeepsOrder(c: Checks, rs: seq<Reason>)
    requires InBlockingOrder(rs)
    ensures InBlockingOrder(Failing(c, rs))
  {
    if rs != [] {
      assert InBlockingOrder(rs[1..]) by {
        forall i, j | 0 <= i < j < |rs[1..]| ensures Rank(rs[1..][i]) < Rank(rs[1..][j]) {
          assert rs[1..][i] == rs[i + 1] && rs[1..][j] == rs[j + 1];
        }
      }
      FailingKeepsOrder(c, rs[1..]);
      var tail := Failing(c, rs[1..]);
      FailingMembers(c, rs[1..]);
      forall k | 0 <= k < |tail| ensures Rank(rs[0]) < Rank(tail[k]) {
        assert tail[k] in rs[1..];
        var m :| 0 <= m < |rs[1..]| && rs[1..][m] == tail[k];
        assert rs[m + 1] == tail[k];
      }
    }
  }

  /**
   * The reasons are exactly the failing blocking checks, in the order
   * noUsWarehouse, shippingTooSlow, priceTooLow, priceTooHigh, lowInventory,
   * without repeats and at most five of them.
   */
  lemma ReasonsAreOrderedFailures(c: Checks)
    ensures forall r :: r in ExpectedReasons(c) <==> !Guard(c, r)
    ensures InBlockingOrder(ExpectedReasons(c))
    ensures forall i, j :: 0 <= i < j < |ExpectedReasons(c)| ==> ExpectedReasons(c)[i] != ExpectedReasons(c)[j]
    ensures |ExpectedReasons(c)| <= 5
  {
    forall r ensures r in BlockingOrder {
      assert BlockingOrder[Rank(r)] == r;
    }
    FailingMembers(c, BlockingOrder);
    FailingKeepsOrder(c, BlockingOrder);
  }

  /** Passing means every one of the five blocking checks holds. */
  lemma PassedIffBlockingChecksHold(c: Checks)
    ensures ExpectedReasons(c) == [] <==>
      c.usWarehouse && c.shippingTime && c.minPrice && c.maxPrice && c.inventory
  {
    ReasonsAreOrderedFailures(c);
    if ExpectedReasons(c) != [] {
      assert ExpectedReasons(c)[0] in ExpectedReasons(c);
    } else {
      assert NoUsWarehouse !in ExpectedReasons(c);
      assert ShippingTooSlow !in ExpectedReasons(c);
      assert PriceTooLow !in ExpectedReasons(c);
      assert PriceTooHigh !in ExpectedReasons(c);
      assert LowInventory !in ExpectedReasons(c);
    }
  }

  /** Filtering by two checks records that agree on every guard gives the same list. */
  lemma {:induction false} FailingOnlyReadsGuards(c1: Checks, c2: Checks, rs: seq<Reason>)
    requires forall r :: Guard(c1, r) == Guard(c2, r)
    ensures Failing(c1, rs) == Failing(c2, rs)
  {
    if rs != [] {
      FailingOnlyReadsGuards(c1, c2, rs[1..]);
    }
  }

  /** The markup, sweet-spot and low-margin checks never add a reason, whatever their value. */
  lemma AdvisoryChecksNeverBlock(c: Checks, markup: bool, sweetSpot: bool, lowMargin: bool)
    ensures ExpectedReasons(c) == ExpectedReasons(c.(markup := markup, sweetSpot := sweetSpot, lowMargin := lowMargin))
  {
    FailingOnlyReadsGuards(c, c.(markup := markup, sweetSpot := sweetSpot, lowMargin := lowMargin), BlockingOrder);
  }

  /** min_selling_price is never read. */
  lemma IgnoresMinSellingPrice(d: ValidationInput, m: Cents)
    ensures EvaluateChecks(d) == EvaluateChecks(d.(minSellingPrice := m))
  {
  }

  /** For a positive price, low margin is the integer comparison 100 (price - cost) < 60 price. */
  lemma LowMarginForPositivePrice(d: ValidationInput)
    requires d.recommendedPrice > 0
    ensures EvaluateChecks(d).lowMargin <==>
      100 * (d.recommendedPrice - d.totalCost) < LowMarginPercent * d.recommendedPrice
  {
  }

  /** Without a US warehouse and with every other blocking check passing, the one reason is noUsWarehouse. */
  lemma OnlyWarehouseMissing(d: ValidationInput)
    requires !d.usWarehouse && d.totalDaysMax <= MaxShippingDays && d.inventoryCount >= MinInventory
    requires MinPriceBound <= d.recommendedPrice <= MaxPriceBound
    ensures ExpectedReasons(EvaluateChecks(d)) == [NoUsWarehouse]
  {
    ExpectedReasonsUnrolled(EvaluateChecks(d));
  }
}

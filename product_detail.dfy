/**
 * The product page (components/ProductDetailClient.tsx): the status badge
 * colour, the four validation rows, the AI panel and the rejection block.
 * The sweet-spot and low-margin flags are the card's (module Kanban).
 */
module ProductDetail {
  import opened Wrappers
  import opened Types
  import opened Pricing
  import opened Validation

  /** The badge colours. */
  datatype Tone = Success | Error | Warning

  /** The status badge: success for approved, error for rejected, warning otherwise. */
  function StatusColor(s: Status): (t: Tone)
    ensures t == Success <==> s == Approved
    ensures t == Error <==> s == Rejected
    ensures t == Warning <==> s == Review
  {
    match s
    case Approved => Success
    case Rejected => Error
    case Review => Warning
  }

  /** The badge tells the three statuses apart. */
  lemma StatusColorDistinguishes(s1: Status, s2: Status)
    ensures StatusColor(s1) == StatusColor(s2) <==> s1 == s2
  {
  }

  /** The page's four validation rows, each passed or failed. */
  datatype Rows = Rows(warehouse: bool, shipping: bool, price: bool, inventory: bool)

  /**
   * The rows: a US warehouse, twelve days' shipping at most, a minimum
   * selling price from $25 to $100 and fifty units or more. The warehouse,
   * shipping and inventory rows are the validator's blocking checks on the
   * record.
   */
  function CheckRows(p: Product): (rows: Rows)
    ensures var c := EvaluateChecks(InputOf(p));
      rows.warehouse == c.usWarehouse && rows.shipping == c.shippingTime && rows.inventory == c.inventory
  {
    Rows(p.usWarehouse, p.totalDaysMax <= 12, p.minSellingPrice >= 2500 && p.minSellingPrice <= 10000,
         p.inventoryCount >= 50)
  }

  /**
   * The price row reads the minimum selling price, not the recommended
   * price: it passes for every record priced by the calculator, whatever the
   * recommended price, so it can pass where the validator's minimum-price
   * check fails.
   */
  lemma PriceRowIgnoresRecommendedPrice(p: Product, price: Cents)
    requires p.minSellingPrice == MinSellingPrice
    ensures CheckRows(p).price && CheckRows(p.(recommendedPrice := price)).price
    ensures price < MinPriceBound ==> !EvaluateChecks(InputOf(p.(recommendedPrice := price))).minPrice
  {
  }

  /**
   * On a record priced by the calculator the price row and the validator's
   * two price checks all pass.
   */
  lemma PriceRowAgreesOnCalculatorPrices(p: Product)
    requires p.minSellingPrice == MinSellingPrice && MinSellingPrice <= p.recommendedPrice <= MaxPrice
    ensures var c := EvaluateChecks(InputOf(p));
      CheckRows(p).price && c.minPrice && c.maxPrice
  {
  }

  /**
   * The AI panel: shown only with stored scores; a missing overall score
   * reads 0, a missing recommendation REVIEW, missing explanations ''.
   */
  function AiPanel(p: Product): (a: Option<Analysis>)
    ensures a.Some? <==> p.aiScores.Some?
  {
    match p.aiScores
    case None => None
    case Some(scores) =>
      Some(Analysis(scores, p.aiOverallScore.GetOr(0), p.aiRecommendation.GetOr(REVIEW),
                    p.aiExplanationEn.GetOr(""), p.aiExplanationKh.GetOr("")))
  }

  /** A record holding every part of an analysis shows exactly that analysis. */
  lemma AiPanelShowsStoredAnalysis(p: Product, an: Analysis)
    requires p.aiScores == Some(an.scores) && p.aiOverallScore == Some(an.overallScore)
    requires p.aiRecommendation == Some(an.recommendation)
    requires p.aiExplanationEn == Some(an.explanationEn) && p.aiExplanationKh == Some(an.explanationKh)
    ensures AiPanel(p) == Some(an)
  {
  }

  /**
   * With scores stored, each missing part falls back on its own: the
   * overall score to 0, the recommendation to REVIEW, each explanation to ''.
   */
  lemma AiPanelDefaults(p: Product)
    requires p.aiScores.Some?
    ensures AiPanel(p).Some? && AiPanel(p).value.scores == p.aiScores.value
    ensures p.aiOverallScore.None? ==> AiPanel(p).value.overallScore == 0
    ensures p.aiRecommendation.None? ==> AiPanel(p).value.recommendation == REVIEW
    ensures p.aiExplanationEn.None? ==> AiPanel(p).value.explanationEn == ""
    ensures p.aiExplanationKh.None? ==> AiPanel(p).value.explanationKh == ""
  {
  }

  /**
   * The rejection block, shown for a non-empty reason list. For a record
   * whose reasons are the validator's verdict on its own fields, priced
   * within the calculator's range, it appears exactly when the warehouse,
   * shipping or inventory row fails.
   */
  function ShowRejectionReasons(p: Product): (shown: bool)
    ensures
      && p.rejectionReasons == ExpectedReasons(EvaluateChecks(InputOf(p)))
      && MinSellingPrice <= p.recommendedPrice <= MaxPrice
      ==> var rows := CheckRows(p);
          (shown <==> !(rows.warehouse && rows.shipping && rows.inventory))
  {
    PassedIffBlockingChecksHold(EvaluateChecks(InputOf(p)));
    |p.rejectionReasons| > 0
  }
}

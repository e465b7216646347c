/**
 * The entities of the product-vetting pipeline, after lib/types.ts.
 * Money is held in whole cents; the margin percent, a float in the source, is
 * held as the exact quotient it is computed from.
 */
module Types {
  import opened Wrappers

  /** An amount of money in whole cents (dollars with two decimals in the source). */
  type Cents = int

  /** The exact quotient num / den; the source computes it in floating point. */
  datatype Ratio = Ratio(num: int, den: int)

  /**
   * `num / den < bound` as JavaScript evaluates it: for den == 0 the quotient
   * is -Infinity (num < 0), NaN (num == 0) or +Infinity (num > 0), and only
   * -Infinity compares below a finite bound.
   */
  predicate Below(r: Ratio, bound: int) {
    if r.den > 0 then r.num < bound * r.den
    else if r.den < 0 then r.num > bound * r.den
    else r.num < 0
  }

  /** A product's lifecycle status: 'approved' | 'rejected' | 'review'. */
  datatype Status = Approved | Rejected | Review

  /**
   * The AI recommendation as it arrives in the parsed response; any text other
   * than the three expected words is kept as Unrecognised.
   */
  datatype Recommendation = APPROVE | REVIEW | REJECT | Unrecognised(text: string)

  /** The five brand-fit sub-scores, each meant to be 1-10. */
  datatype AIScores = AIScores(cozy: int, minimalist: int, homeRelevance: int, quality: int, yearRound: int)

  /** A parsed brand-fit analysis returned by the AI collaborator. */
  datatype Analysis = Analysis(
    scores: AIScores,
    overallScore: int,
    recommendation: Recommendation,
    explanationEn: string,
    explanationKh: string)

  /** The blocking validation failures, by their reason codes. */
  datatype Reason = NoUsWarehouse | ShippingTooSlow | PriceTooLow | PriceTooHigh | LowInventory

  /** What the submitter types into the form (ProductFormData). */
  datatype FormData = FormData(
    cjUrl: string,
    name: string,
    category: string,
    productCost: Cents,
    shippingCost: Cents,
    lastMileFee: Cents,
    processingDaysMin: int,
    processingDaysMax: int,
    deliveryDaysMin: int,
    deliveryDaysMax: int,
    usWarehouse: bool,
    chineseInventory: bool,
    inventoryCount: int,
    images: seq<string>,
    notes: string,
    submittedBy: string)

  /** What the form hands to persistence (ProductSubmitPayload). */
  datatype SubmitPayload = SubmitPayload(
    form: FormData,
    totalCost: Cents,
    minSellingPrice: Cents,
    recommendedPrice: Cents,
    profitPerSale: Cents,
    profitMarginPercent: Ratio,
    totalDaysMax: int,
    validationPassed: bool,
    rejectionReasons: seq<Reason>,
    status: Status,
    aiScores: Option<AIScores>,
    aiOverallScore: Option<int>,
    aiRecommendation: Option<Recommendation>,
    aiExplanationEn: Option<string>,
    aiExplanationKh: Option<string>)

  /**
   * A stored product as the pages read it (Product). `notes` is optional
   * because an empty note is stored as null.
   */
  datatype Product = Product(
    id: string,
    cjUrl: string,
    name: string,
    category: string,
    productCost: Cents,
    shippingCost: Cents,
    lastMileFee: Cents,
    totalCost: Cents,
    minSellingPrice: Cents,
    recommendedPrice: Cents,
    profitPerSale: Cents,
    profitMarginPercent: Ratio,
    processingDaysMin: int,
    processingDaysMax: int,
    deliveryDaysMin: int,
    deliveryDaysMax: int,
    totalDaysMax: int,
    usWarehouse: bool,
    chineseInventory: bool,
    inventoryCount: int,
    images: seq<string>,
    notes: Option<string>,
    submittedBy: string,
    submittedAt: int,
    validationPassed: bool,
    rejectionReasons: seq<Reason>,
    status: Status,
    aiScores: Option<AIScores>,
    aiOverallScore: Option<int>,
    aiRecommendation: Option<Recommendation>,
    aiExplanationEn: Option<string>,
    aiExplanationKh: Option<string>)

  /** The summary of an existing product that a duplicate verdict points at. */
  datatype ExistingProduct = ExistingProduct(id: string, name: string, submittedBy: string, submittedAt: int)

  datatype DuplicateKind = Exact | Similar

  /** DuplicateCheckResult: `kind` None is the source's `type: null`. */
  datatype DuplicateCheckResult = DuplicateCheckResult(
    isDuplicate: bool,
    kind: Option<DuplicateKind>,
    existingProduct: Option<ExistingProduct>)

  /** The status counts of the dashboard (DashboardStats without the recent list). */
  datatype DashboardStats = DashboardStats(total: nat, approved: nat, rejected: nat, review: nat)
}

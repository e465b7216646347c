/**
 * The submission form (components/ProductForm.tsx): the effect that prices
 * and validates the form whenever it changes, the duplicate check, the
 * "continue anyway" dismissal and the gated submit handler. The product table
 * and the AI collaborator are parameters; persistence and navigation are left out.
 */
module Submission {
  import opened Wrappers
  import opened Types
  import opened Pricing
  import opened Validation
  import opened Duplicates

  /** The form's Calculations: the pricing result and the shipping window's ends. */
  datatype Calculations = Calculations(pricing: PricingResult, totalDaysMin: int, totalDaysMax: int)

  /** What the AI collaborator is asked about a product. */
  datatype AiRequest = AiRequest(name: string, category: string, recommendedPrice: Cents, images: seq<string>)

  /** The image list sent to the AI when the form has no images. */
  const AiImagePlaceholder := "placeholder"
  /** The image stored with a product submitted without images. */
  const StoredImagePlaceholder := "https://placehold.co/400"

  /** How one press of the submit button ends. */
  datatype SubmitOutcome =
    | BlockedExactDuplicate
    | BlockedSimilarPending
    | BlockedValidationFailed
    | BlockedNoCalculations
    | Submitted(payload: SubmitPayload)

  /** The duplicateCheck state of the form. */
  datatype DuplicateCheckState = DuplicateCheckState(checking: bool, result: Option<DuplicateCheckResult>, dismissed: bool)

  /** The form as it first renders. */
  const InitialForm := FormData("", "", "other", 0, 0, 0, 1, 3, 3, 8, false, false, 0, [], "", "")
  /** No duplicate check has run. */
  const IdleCheck := DuplicateCheckState(false, None, false)

  /**
   * The validator's input, built from the form and its calculations: the
   * warehouse flag and stock come from the form, the rest from the calculations.
   */
  function ValidationInputOf(form: FormData, calcs: Calculations): (d: ValidationInput)
    ensures d.usWarehouse == form.usWarehouse && d.inventoryCount == form.inventoryCount
    ensures d.totalDaysMax == calcs.totalDaysMax && d.minSellingPrice == calcs.pricing.minSellingPrice
    ensures d.recommendedPrice == calcs.pricing.recommendedPrice && d.totalCost == calcs.pricing.totalCost
  {
    ValidationInput(form.usWarehouse, calcs.totalDaysMax, calcs.pricing.minSellingPrice,
                    form.inventoryCount, calcs.pricing.recommendedPrice, calcs.pricing.totalCost)
  }

  /**
   * What the effect leaves behind for `form`: the pricing of its three costs,
   * the shipping window of its day ranges, and the validator's verdict on them.
   */
  predicate Evaluated(form: FormData, calcs: Calculations, v: ValidationResult) {
    var window := CalculateShipping(form.processingDaysMin, form.processingDaysMax,
                                    form.deliveryDaysMin, form.deliveryDaysMax);
    && PricingContract(form.productCost, form.shippingCost, form.lastMileFee, calcs.pricing)
    && calcs.totalDaysMin == window.min && calcs.totalDaysMax == window.max
    && v.checks == EvaluateChecks(ValidationInputOf(form, calcs))
    && v.reasons == ExpectedReasons(v.checks)
    && (v.passed <==> v.reasons == [])
  }

  /**
   * On the form's own calculations the price checks never fail, since the
   * recommended price is clamped to [29.99, 99.99]: the verdict depends only
   * on the warehouse, the shipping window and the inventory.
   */
  lemma PriceNeverBlocks(form: FormData, calcs: Calculations, v: ValidationResult)
    requires Evaluated(form, calcs, v)
    ensures PriceTooLow !in v.reasons && PriceTooHigh !in v.reasons
    ensures v.passed <==>
      form.usWarehouse && calcs.totalDaysMax <= MaxShippingDays && form.inventoryCount >= MinInventory
  {
    ReasonsAreOrderedFailures(v.checks);
    PassedIffBlockingChecksHold(v.checks);
  }

  /** The effect's results are determined by the form. */
  lemma EvaluatedDeterministic(form: FormData, c1: Calculations, v1: ValidationResult, c2: Calculations, v2: ValidationResult)
    requires Evaluated(form, c1, v1) && Evaluated(form, c2, v2)
    ensures c1 == c2 && v1 == v2
  {
    PricingDeterministic(form.productCost, form.shippingCost, form.lastMileFee, c1.pricing, c2.pricing);
  }

  /** The effect: price the costs, add up the shipping window, validate. */
  method Evaluate(form: FormData) returns (calcs: Calculations, v: ValidationResult)
    ensures Evaluated(form, calcs, v)
  {
    var pricing := CalculatePricing(form.productCost, form.shippingCost, form.lastMileFee);
    var window := CalculateShipping(form.processingDaysMin, form.processingDaysMax,
                                    form.deliveryDaysMin, form.deliveryDaysMax);
    calcs := Calculations(pricing, window.min, window.max);
    v := ValidateProduct(ValidationInputOf(form, calcs));
  }

  /** checkForDuplicates' verdict: no lookup without both an URL and a name. */
  function DuplicateVerdict(form: FormData, store: Option<seq<StoreRow>>): (r: Option<DuplicateCheckResult>)
    ensures r.None? <==> form.cjUrl == [] || form.name == []
  {
    if form.cjUrl == [] || form.name == [] then None
    else Some(CheckDuplicate(form.cjUrl, form.name, store))
  }

  /** The images list, or a one-element placeholder list when it is empty. */
  function ImagesOr(images: seq<string>, placeholder: string): (r: seq<string>)
    ensures |r| >= 1
    ensures images != [] ==> r == images
    ensures images == [] ==> r == [placeholder]
  {
    if |images| > 0 then images else [placeholder]
  }

  /**
   * The request handed to the AI collaborator: the form's name and category,
   * the recommended price, and the form's images or, without any, the
   * placeholder alone.
   */
  function AiRequestFor(form: FormData, calcs: Calculations): (r: AiRequest)
    ensures r.name == form.name && r.category == form.category
    ensures r.recommendedPrice == calcs.pricing.recommendedPrice
    ensures form.images != [] ==> r.images == form.images
    ensures form.images == [] ==> r.images == [AiImagePlaceholder]
  {
    AiRequest(form.name, form.category, calcs.pricing.recommendedPrice, ImagesOr(form.images, AiImagePlaceholder))
  }

  /** The final status: the AI's approve or reject, otherwise review. */
  function FinalStatus(ai: Option<Analysis>): (s: Status)
    ensures s == Approved <==> ai.Some? && ai.value.recommendation == APPROVE
    ensures s == Rejected <==> ai.Some? && ai.value.recommendation == REJECT
  {
    match ai
    case None => Review
    case Some(a) =>
      if a.recommendation == APPROVE then Approved
      else if a.recommendation == REJECT then Rejected
      else Review
  }

  /** The payload handed to persistence. */
  function AssemblePayload(form: FormData, calcs: Calculations, v: ValidationResult, ai: Option<Analysis>): (p: SubmitPayload)
    ensures |p.form.images| >= 1
    ensures form.images != [] ==> p.form.images == form.images
    ensures form.images == [] ==> p.form.images == [StoredImagePlaceholder]
    ensures p.form == form.(images := p.form.images)
    ensures p.totalCost == calcs.pricing.totalCost && p.minSellingPrice == calcs.pricing.minSellingPrice
    ensures p.recommendedPrice == calcs.pricing.recommendedPrice && p.profitPerSale == calcs.pricing.profitPerSale
    ensures p.profitMarginPercent == calcs.pricing.profitMarginPercent && p.totalDaysMax == calcs.totalDaysMax
    ensures p.validationPassed == v.passed && p.rejectionReasons == v.reasons
    ensures p.status == FinalStatus(ai)
    ensures ai.None? ==>
      && p.aiScores.None? && p.aiOverallScore.None? && p.aiRecommendation.None?
      && p.aiExplanationEn.None? && p.aiExplanationKh.None?
    ensures ai.Some? ==>
      && p.aiScores == Some(ai.value.scores) && p.aiOverallScore == Some(ai.value.overallScore)
      && p.aiRecommendation == Some(ai.value.recommendation)
      && p.aiExplanationEn == Some(ai.value.explanationEn)
      && p.aiExplanationKh == Some(ai.value.explanationKh)
  {
    SubmitPayload(
      form.(images := ImagesOr(form.images, StoredImagePlaceholder)),
      calcs.pricing.totalCost,
      calcs.pricing.minSellingPrice,
      calcs.pricing.recommendedPrice,
      calcs.pricing.profitPerSale,
      calcs.pricing.profitMarginPercent,
      calcs.totalDaysMax,
      v.passed,
      v.reasons,
      FinalStatus(ai),
      if ai.Some? then Some(ai.value.scores) else None,
      if ai.Some? then Some(ai.value.overallScore) else None,
      if ai.Some? then Some(ai.value.recommendation) else None,
      if ai.Some? then Some(ai.value.explanationEn) else None,
      if ai.Some? then Some(ai.value.explanationKh) else None)
  }

  /**
   * How handleSubmit ends, for the form, the dismissal flag as the handler
   * saw it when it started, the product table, the effect's last results and
   * the AI collaborator (None: no key, an error or an unparsable answer).
   */
  function SubmitDecision(form: FormData, dismissed: bool, store: Option<seq<StoreRow>>,
                          validation: Option<ValidationResult>, calculations: Option<Calculations>,
                          analyze: AiRequest -> Option<Analysis>): (o: SubmitOutcome)
    ensures o.Submitted? ==> validation.Some? && validation.value.passed && calculations.Some?
    ensures o.Submitted? ==> o.payload.validationPassed && |o.payload.form.images| >= 1
  {
    var dup := DuplicateVerdict(form, store);
    if dup.Some? && dup.value.isDuplicate && dup.value.kind == Some(Exact) then BlockedExactDuplicate
    else if dup.Some? && dup.value.kind == Some(Similar) && !dismissed then BlockedSimilarPending
    else if validation.None? || !validation.value.passed then BlockedValidationFailed
    else if calculations.None? then BlockedNoCalculations
    else
      var ai := analyze(AiRequestFor(form, calculations.value));
      Submitted(AssemblePayload(form, calculations.value, validation.value, ai))
  }

  /** The decision once both duplicate gates are passed. */
  function PastDuplicateGates(form: FormData, validation: Option<ValidationResult>, calculations: Option<Calculations>,
                              analyze: AiRequest -> Option<Analysis>): SubmitOutcome
  {
    SubmitDecision(form, false, None, validation, calculations, analyze)
  }

  /**
   * A stored product with the same URL blocks the submission whatever the
   * dismissal flag, the validation verdict or the AI would say.
   */
  lemma ExactDuplicateAlwaysBlocks(form: FormData, dismissed: bool, rows: seq<StoreRow>, k: nat,
                                   validation: Option<ValidationResult>, calculations: Option<Calculations>,
                                   analyze: AiRequest -> Option<Analysis>)
    requires form.cjUrl != [] && form.name != []
    requires k < |rows| && rows[k].cjUrl == form.cjUrl
    ensures SubmitDecision(form, dismissed, Some(rows), validation, calculations, analyze) == BlockedExactDuplicate
  {
    var isUrl := (row: StoreRow) => row.cjUrl == form.cjUrl;
    assert isUrl(rows[k]);
  }

  /**
   * A similar product blocks the submission until it is dismissed; once
   * dismissed, the decision is the one made past the duplicate gates.
   */
  lemma SimilarBlocksUntilDismissed(form: FormData, dismissed: bool, rows: seq<StoreRow>, k: nat,
                                    validation: Option<ValidationResult>, calculations: Option<Calculations>,
                                    analyze: AiRequest -> Option<Analysis>)
    requires form.cjUrl != [] && form.name != []
    requires forall j :: 0 <= j < |rows| ==> rows[j].cjUrl != form.cjUrl
    requires k < |rows| && SharesTerm(rows[k], SearchTerms(form.name))
    ensures SubmitDecision(form, dismissed, Some(rows), validation, calculations, analyze) ==
      if dismissed then PastDuplicateGates(form, validation, calculations, analyze) else BlockedSimilarPending
  {
    SimilarIsFirstSharingRow(form.cjUrl, form.name, rows);
    var isUrl := (row: StoreRow) => row.cjUrl == form.cjUrl;
    assert FindFirst(rows, isUrl).None?;
  }

  /**
   * A form without an URL or a name, or a table whose query fails, never
   * meets a duplicate gate.
   */
  lemma NoLookupNoGate(form: FormData, dismissed: bool, store: Option<seq<StoreRow>>,
                       validation: Option<ValidationResult>, calculations: Option<Calculations>,
                       analyze: AiRequest -> Option<Analysis>)
    requires form.cjUrl == [] || form.name == [] || store.None?
    ensures SubmitDecision(form, dismissed, store, validation, calculations, analyze) ==
      PastDuplicateGates(form, validation, calculations, analyze)
  {
  }

  /**
   * A lookup that finds neither the URL nor a similar name leaves the
   * decision to the gates past the duplicate check.
   */
  lemma NoMatchNoGate(form: FormData, dismissed: bool, rows: seq<StoreRow>,
                      validation: Option<ValidationResult>, calculations: Option<Calculations>,
                      analyze: AiRequest -> Option<Analysis>)
    requires CheckDuplicate(form.cjUrl, form.name, Some(rows)) == NoDuplicate
    ensures SubmitDecision(form, dismissed, Some(rows), validation, calculations, analyze) ==
      PastDuplicateGates(form, validation, calculations, analyze)
  {
  }

  /**
   * With no duplicate, the submission goes through exactly when the
   * validation verdict passed and the calculations exist.
   */
  lemma SubmittedIffValidated(form: FormData, validation: Option<ValidationResult>, calculations: Option<Calculations>,
                              analyze: AiRequest -> Option<Analysis>)
    ensures PastDuplicateGates(form, validation, calculations, analyze).Submitted? <==>
      validation.Some? && validation.value.passed && calculations.Some?
  {
  }

  /**
   * A submission made from the effect's results for the form carries no
   * rejection reasons, ships from a US warehouse within twelve days, has
   * fifty units or more in stock and a price in [29.99, 99.99] ending in .99;
   * it is approved only on the AI's APPROVE, and it keeps the form's fields
   * apart from the image list.
   */
  lemma SubmittedPayloadIsSound(form: FormData, dismissed: bool, store: Option<seq<StoreRow>>,
                                calcs: Calculations, v: ValidationResult,
                                analyze: AiRequest -> Option<Analysis>)
    requires Evaluated(form, calcs, v)
    ensures var o := SubmitDecision(form, dismissed, store, Some(v), Some(calcs), analyze);
      o.Submitted? ==>
        && o.payload.rejectionReasons == []
        && o.payload.form.usWarehouse && o.payload.totalDaysMax <= MaxShippingDays
        && o.payload.form.inventoryCount >= MinInventory
        && MinSellingPrice <= o.payload.recommendedPrice <= MaxPrice
        && o.payload.recommendedPrice % 100 == 99
        && o.payload.form == form.(images := o.payload.form.images)
        && (o.payload.status == Approved <==>
              var ai := analyze(AiRequestFor(form, calcs)); ai.Some? && ai.value.recommendation == APPROVE)
  {
    PriceNeverBlocks(form, calcs, v);
  }

  /** The form component's state. */
  class ProductForm {
    var form: FormData
    var calculations: Option<Calculations>
    var validation: Option<ValidationResult>
    var duplicateCheck: DuplicateCheckState
    var loading: bool

    /** The effect's results, when present, are those of the current form. */
    predicate Valid()
      reads this
    {
      match (calculations, validation)
      case (Some(c), Some(v)) => Evaluated(form, c, v)
      case (None, None) => true
      case _ => false
    }

    /** The first render: the initial form, nothing computed, no check run. */
    constructor ()
      ensures Valid()
      ensures form == InitialForm && calculations.None? && validation.None?
      ensures duplicateCheck == IdleCheck && !loading
    {
      calculations := None;
      validation := None;
      duplicateCheck := IdleCheck;
      loading := false;
      form := InitialForm;
      new;
      assert calculations.None? && validation.None?;
    }

    /** The effect run after the form changed. */
    method Recompute()
      modifies this
      ensures Valid() && calculations.Some?
      ensures form == old(form) && duplicateCheck == old(duplicateCheck) && loading == old(loading)
    {
      var calcs, v := Evaluate(form);
      calculations := Some(calcs);
      validation := Some(v);
    }

    /** An edit of the form followed by the effect it triggers. */
    method Edit(f: FormData)
      modifies this
      ensures Valid() && calculations.Some?
      ensures form == f && duplicateCheck == old(duplicateCheck) && loading == old(loading)
    {
      form := f;
      Recompute();
    }

    /** "Continue anyway": dismiss the similar-product warning. */
    method ContinueAnyway()
      modifies this
      ensures duplicateCheck == old(duplicateCheck).(dismissed := true)
      ensures form == old(form) && calculations == old(calculations) && validation == old(validation)
      ensures loading == old(loading)
      ensures old(Valid()) ==> Valid()
    {
      duplicateCheck := duplicateCheck.(dismissed := true);
    }

    /**
     * checkForDuplicates: nothing without an URL and a name; otherwise the
     * verdict is recorded and the dismissal is cleared.
     */
    method CheckForDuplicates(store: Option<seq<StoreRow>>) returns (r: Option<DuplicateCheckResult>)
      modifies this
      ensures r == DuplicateVerdict(old(form), store)
      ensures r.None? ==> duplicateCheck == old(duplicateCheck)
      ensures r.Some? ==> duplicateCheck == DuplicateCheckState(false, r, false)
      ensures form == old(form) && calculations == old(calculations) && validation == old(validation)
      ensures loading == old(loading)
      ensures old(Valid()) ==> Valid()
    {
      if form.cjUrl == [] || form.name == [] {
        return None;
      }
      duplicateCheck := DuplicateCheckState(true, None, false);
      var result := CheckDuplicate(form.cjUrl, form.name, store);
      duplicateCheck := DuplicateCheckState(false, Some(result), false);
      r := Some(result);
    }

    /**
     * handleSubmit: duplicate gates, validation gate, calculations gate, the
     * AI call and the payload. The dismissal flag is the one of the render the
     * handler belongs to, read before the duplicate check clears it.
     */
    method HandleSubmit(store: Option<seq<StoreRow>>, analyze: AiRequest -> Option<Analysis>) returns (o: SubmitOutcome)
      modifies this
      ensures o == SubmitDecision(old(form), old(duplicateCheck.dismissed), store, old(validation), old(calculations), analyze)
      ensures !loading
      ensures var dup := DuplicateVerdict(old(form), store);
        duplicateCheck == if dup.Some? then DuplicateCheckState(false, dup, false) else old(duplicateCheck)
      ensures form == old(form) && calculations == old(calculations) && validation == old(validation)
      ensures old(Valid()) ==> Valid()
    {
      var dismissed := duplicateCheck.dismissed;
      loading := true;
      var dupResult := CheckForDuplicates(store);
      if dupResult.Some? && dupResult.value.isDuplicate && dupResult.value.kind == Some(Exact) {
        loading := false;
        return BlockedExactDuplicate;
      }
      if dupResult.Some? && dupResult.value.kind == Some(Similar) && !dismissed {
        loading := false;
        return BlockedSimilarPending;
      }
      if validation.None? || !validation.value.passed {
        loading := false;
        return BlockedValidationFailed;
      }
      if calculations.None? {
        loading := false;
        return BlockedNoCalculations;
      }
      var ai := analyze(AiRequestFor(form, calculations.value));
      var payload := AssemblePayload(form, calculations.value, validation.value, ai);
      o := Submitted(payload);
      loading := false;
    }
  }
}

# Product-vetting pipeline, modelled in Dafny

This project models the decision logic of a small dropshipping tool. The team
uses it to vet candidate products before they enter the catalog. The model
covers these parts:

- **Pricing and shipping calculator** (`Pricing`): a 3x markup on total cost,
  clamped to $29.99 to $99.99, rounded to a price ending in .99, then profit,
  margin and a cost-too-high flag. Shipping adds two day ranges.
- **Admission validator** (`Validation`): eight named checks. Five of them
  block admission and push reason codes in a fixed order.
- **Duplicate detector** (`Duplicates`): an exact URL match first. Failing
  that, a "similar" match is the first stored product whose lower-cased name
  contains one of the first three words (longer than three characters) of the
  new name.
- **Submission form** (`Submission`):
  - the effect that re-prices and re-validates the form on every change;
  - the duplicate check and the "continue anyway" dismissal;
  - the submit handler's chain of gates: exact duplicate, undismissed similar
    product, validation, calculations;
  - the AI call, the final status and the payload handed to persistence.
- **Rules the pages derive**:
  - the pipeline board's status columns, export records, card flags and
    quick actions (`Kanban`);
  - the dashboard's approval rate and ring offset (`Dashboard`);
  - the product page's badge colour, check rows, AI panel and rejection
    block (`ProductDetail`);
  - the language provider: stored-language snapshot, toggle, `setLanguage`,
    and `t`, a path walk over a tree of string tables (`Language`).

Money is held in whole cents. The margin percent is held as the exact
quotient `Ratio(num, den)` that the source computes in floating point.
`Types.Below` compares that quotient with a bound the way JavaScript does,
including a zero denominator. The product table, the AI collaborator and the
browser's stored-language slot are inputs:

- the table is `Option<seq<StoreRow>>`, where `None` is a failed query;
- the AI collaborator is a function `AiRequest -> Option<Analysis>`, where
  `None` covers a missing key, an error and an unparsable answer;
- the stored-language slot is `hasWindow` plus `saved`.

The submit handler checks for duplicates (components/ProductForm.tsx:116-130)
before it consults validation (components/ProductForm.tsx:132-138).

The language provider is mounted while the page hydrates, so its language
state starts from the server snapshot, Khmer, whatever language is stored
(components/LanguageToggle.tsx:23, 32-38). A stored English preference stays
in storage but is not restored on load.

Files:

- `wrappers.dfy`: the `Option` type.
- `strings.dfy`: lower-casing, split/join and substring search.
- `types.dfy`: the entities of `lib/types.ts`.
- `pricing.dfy`, `validation.dfy`, `duplicates.dfy`, `submission.dfy`,
  `kanban.dfy`, `dashboard.dfy`, `product_detail.dfy`, `language.dfy`: one
  per core file.

## Model

| member | source | states |
|---|---|---|
| Strings.Lower | lib/database.ts:60 | Lower-casing keeps the length and maps each character on its own, ASCII letters to lower case. |
| Strings.Split | lib/database.ts:60 | Splitting on a separator always yields at least one piece. |
| Strings.JoinSplit | lib/database.ts:60 | Joining the pieces with the separator gives back the original text. |
| Strings.SplitPiecesLackSeparator | lib/database.ts:60 | No piece contains the separator. |
| Strings.SplitWithoutSeparator | components/LanguageToggle.tsx:52-53 | A text without the separator splits into itself alone. |
| Strings.SplitAtSeparator | lib/database.ts:60 | Splitting `a + sep + b` gives the pieces of `a` followed by the pieces of `b`. |
| Strings.ContainsAt | lib/database.ts:63 | `includes` holds exactly when the needle occurs at some position of the text. |
| Pricing.CeilDollarLessCent | lib/calculations.ts:23 | Rounding up to a whole dollar less one cent gives a price ending in .99 within [c - 1, c + 99) cents. |
| Pricing.NinetyNineUnique | lib/calculations.ts:23 | Only one price ending in .99 lies in such a window, so the rounding has a single answer. |
| Pricing.RecapNeverFires | lib/calculations.ts:17-28 | Once the price is capped at 99.99, rounding never takes it above the cap, so the second cap never fires. |
| Pricing.CalculatePricing | lib/calculations.ts:1-40 | Total is the sum of the three costs. Floor is 29.99. The price lies in [29.99, 99.99] and ends in .99: the floor below a 3x candidate up to 29.99, the cap above one beyond 99.99, else within a cent below to 99 cents above the candidate. Profit is price less cost, margin is 100 profit / price. The cost-too-high flag holds iff 3x cost exceeds 99.99. |
| Pricing.PricingDeterministic | lib/calculations.ts:6-39 | The pricing contract determines the result: two results for the same costs are equal. |
| Pricing.ZeroCost | lib/calculations.ts:10-31 | Zero cost gives price 29.99, profit 29.99, margin exactly 100 and no cost-too-high flag. |
| Pricing.WholeDollarCandidate | lib/calculations.ts:10-30 | A total of $15 gives 44.99 and profit 29.99, one cent below the uncapped 3x markup. |
| Pricing.CappedCost | lib/calculations.ts:18-39 | A total of $40 gives 99.99 and raises the cost-too-high flag. |
| Pricing.CostTooHighMeansCapped | lib/calculations.ts:18-39 | Whenever the cost-too-high flag is raised the price is 99.99. |
| Pricing.CalculateShipping | lib/calculations.ts:43-53 | The window's width is the sum of the two ranges' widths, so min <= max whenever both ranges are ordered. |
| Validation.EvaluateChecks | lib/validation.ts:27-36 | The sweet spot lies under the price ceiling. A positive price of at least three times the cost is never a low margin. A zero price is a low margin iff the cost is positive. |
| Validation.FailingMembers | lib/validation.ts:40-44 | Filtering keeps exactly the reasons whose check fails and never lengthens the list. |
| Validation.ExpectedReasonsUnrolled | lib/validation.ts:38-44 | The expected reason list is the five conditional pushes in their source order. |
| Validation.ValidateProduct | lib/validation.ts:16-77 | The checks are the eight named comparisons. The reasons are the failing blocking checks in blocking order. `passed` holds iff there are no reasons. |
| Validation.FailingKeepsOrder | lib/validation.ts:40-44 | Filtering a list in blocking order leaves it in blocking order. |
| Validation.ReasonsAreOrderedFailures | lib/validation.ts:38-44 | A reason is present iff its check fails. Reasons follow the order noUsWarehouse, shippingTooSlow, priceTooLow, priceTooHigh, lowInventory, never repeat, and number at most five. |
| Validation.PassedIffBlockingChecksHold | lib/validation.ts:72-76 | No reasons iff the warehouse, shipping, minimum-price, maximum-price and inventory checks all hold. |
| Validation.FailingOnlyReadsGuards | lib/validation.ts:40-44 | The reason list depends only on the five blocking checks. |
| Validation.AdvisoryChecksNeverBlock | lib/validation.ts:33-44 | Whatever the markup, sweet-spot and low-margin checks say, the reasons are the same. |
| Validation.IgnoresMinSellingPrice | lib/validation.ts:16-36 | The checks never read the minimum selling price. |
| Validation.LowMarginForPositivePrice | lib/validation.ts:24-35 | For a positive price, low margin is the integer test 100 (price - cost) < 60 price. |
| Validation.OnlyWarehouseMissing | lib/validation.ts:28-44 | With no US warehouse and every other blocking check passing, the reasons are exactly [noUsWarehouse]. |
| Duplicates.FindFirst | lib/database.ts:61-64 | The index found is of an element that satisfies the test, with none before it; without one, no element satisfies it. |
| Duplicates.SearchTerms | lib/database.ts:60 | The name gives one to three search terms. |
| Duplicates.CheckDuplicate | lib/database.ts:39-79 | `isDuplicate` holds iff the verdict is exact. The verdict has a kind iff it names a stored product. A failed query gives the no-duplicate verdict. |
| Duplicates.ExactMatchShortCircuits | lib/database.ts:42-53 | With a stored product at the same URL, the verdict is exact and names the first such product, whatever the name. |
| Duplicates.SimilarIsFirstSharingRow | lib/database.ts:55-74 | Without a URL match, the verdict is similar iff some stored name shares a long term. It then names the first such product and is not a duplicate; otherwise it is the no-duplicate verdict. |
| Duplicates.ShortTermsNeverMatch | lib/database.ts:60-64 | Terms of three characters or fewer, empty pieces included, never make a product similar. |
| Duplicates.TermsIgnoreTail | lib/database.ts:60 | Once the name has three pieces, text after a further space does not change the terms. |
| Duplicates.TailNeverMatters | lib/database.ts:60-72 | A word after the third never changes the verdict. |
| Duplicates.TwoWordTerms | lib/database.ts:60 | A two-word name yields its two lower-cased words as the terms. |
| Duplicates.OneSharingRow | lib/database.ts:61-72 | One stored product at another URL that shares a term is reported as similar. |
| Duplicates.CeramicDiffuserExample | lib/database.ts:39-74 | "Ceramic Diffuser" is similar to a stored "Ceramic Candle Diffuser Set" at another URL. |
| Submission.ValidationInputOf | components/ProductForm.tsx:70-77 | The validator reads the warehouse flag and stock from the form, and the maximum days, minimum and recommended price and total cost from the calculations. |
| Submission.Evaluate | components/ProductForm.tsx:54-80 | The effect prices the form's costs, adds its day ranges and validates the form's warehouse, inventory and those results. |
| Submission.PriceNeverBlocks | components/ProductForm.tsx:54-80 | On the form's own calculations priceTooLow and priceTooHigh never appear. The verdict passes iff US warehouse, shipping max <= 12 and inventory >= 50. |
| Submission.EvaluatedDeterministic | components/ProductForm.tsx:54-80 | The effect's calculations and verdict are determined by the form. |
| Submission.DuplicateVerdict | components/ProductForm.tsx:99-109 | There is no lookup, and no verdict, iff the URL or the name is empty. |
| Submission.AiRequestFor | components/ProductForm.tsx:151-156 | The AI receives the form's name and category, the recommended price, and the form's images, or the placeholder alone when there are none. |
| Submission.ImagesOr | components/ProductForm.tsx:184 | The image list is never empty: the form's images, or the single placeholder when there are none. |
| Submission.FinalStatus | components/ProductForm.tsx:162-169 | Approved iff the AI recommends APPROVE, rejected iff it recommends REJECT, review otherwise, including no AI result. |
| Submission.AssemblePayload | components/ProductForm.tsx:171-190 | The payload keeps the form's images, or holds the stored placeholder alone when there are none, and keeps every other form field. Its cost, minimum and recommended price, profit, margin and maximum days are the calculations'. It carries the verdict's `passed` and reasons and the final status of the AI result. Without an AI result all five AI fields are empty; with one, each holds that result's part. |
| Submission.SubmitDecision | components/ProductForm.tsx:111-201 | A submission happens only with a passed verdict and calculations present, and its payload says validation passed and has an image. |
| Submission.ExactDuplicateAlwaysBlocks | components/ProductForm.tsx:116-123 | A stored product with the same URL blocks submission, whatever the dismissal, verdict or AI. |
| Submission.SimilarBlocksUntilDismissed | components/ProductForm.tsx:125-130 | A similar product blocks until dismissed. Once dismissed, the outcome is the one past the duplicate gates. |
| Submission.NoLookupNoGate | components/ProductForm.tsx:99-130 | An empty URL or name, or a failed query, never triggers a duplicate gate. |
| Submission.NoMatchNoGate | components/ProductForm.tsx:116-130 | A lookup that finds neither the URL nor a similar name leaves the outcome to the gates past the duplicate check. |
| Submission.SubmittedIffValidated | components/ProductForm.tsx:132-145 | Past the duplicate gates, a submission happens iff the verdict exists and passed and the calculations exist. |
| Submission.SubmittedPayloadIsSound | components/ProductForm.tsx:132-190 | A submission made from the effect's results carries no reasons and ships from a US warehouse within 12 days. It has 50 or more in stock and a price in [29.99, 99.99] ending in .99. It keeps the form's fields apart from the images. It is approved iff the AI said APPROVE. |
| Submission.ProductForm.constructor | components/ProductForm.tsx:28-97 | The first render: the initial form, no calculations or verdict, an idle duplicate check, not loading. |
| Submission.ProductForm.Recompute | components/ProductForm.tsx:54-80 | After the effect, the calculations and verdict are those of the current form; nothing else changes. |
| Submission.ProductForm.Edit | components/ProductForm.tsx:82-90 | After an edit and its effect, the form is the edited one and the results are its own. |
| Submission.ProductForm.ContinueAnyway | components/ProductForm.tsx:279-285 | Continue anyway sets the dismissal and changes nothing else. |
| Submission.ProductForm.CheckForDuplicates | components/ProductForm.tsx:99-109 | Without an URL and a name nothing changes. Otherwise the verdict is recorded, the check is no longer running and the dismissal is cleared. |
| Submission.ProductForm.HandleSubmit | components/ProductForm.tsx:111-201 | The outcome is the submit decision for the form, the dismissal as of the handler's render, the last results and the AI. Loading ends false. Only the duplicate-check state changes, and the state stays consistent. |
| Kanban.Column | components/KanbanBoard.tsx:43-47 | A column holds exactly the products of its status and is no longer than the list. |
| Kanban.ColumnsOf | components/KanbanBoard.tsx:43-47 | The review, approved and rejected columns each hold exactly the products of their status. |
| Kanban.ColumnAppend | components/KanbanBoard.tsx:43-47 | A column of a concatenation is the two parts' columns in order, so the input order is kept. |
| Kanban.ColumnsPartition | components/KanbanBoard.tsx:43-47 | The three columns together hold each product exactly as often as the list does, and their sizes sum to its length. |
| Kanban.ExportProducts | components/KanbanBoard.tsx:14-28 | The export has one entry per product, in the same order. |
| Kanban.ToExportRecord | components/KanbanBoard.tsx:15-28 | An entry carries the price, link, shipping time and margin. Its description is the note, or empty without one. |
| Kanban.CopyForAi | components/KanbanBoard.tsx:175-183 | The copied record is the first seven fields of the export entry. |
| Kanban.IsSweetSpot | components/KanbanBoard.tsx:134 | The sweet-spot badge is the validator's sweet-spot check on the stored record, and never shows above the price ceiling. The product page's flag (components/ProductDetailClient.tsx:21) is the same test. |
| Kanban.IsLowMargin | components/KanbanBoard.tsx:135 | With the stored margin equal to the validator's quotient, the low-margin colour is the validator's low-margin check. The product page's flag (components/ProductDetailClient.tsx:22) is the same test. |
| Kanban.LowMarginAsIntegers | components/KanbanBoard.tsx:135 | For a positive price the low-margin flag is the integer test 100 (price - cost) < 60 price. |
| Kanban.CanQuickApprove | components/KanbanBoard.tsx:257-265 | Quick approve is offered exactly for products under review or rejected. |
| Kanban.CanQuickReject | components/KanbanBoard.tsx:266-275 | Quick reject is offered exactly for products under review or approved. |
| Kanban.QuickActions | components/KanbanBoard.tsx:257-266 | Some quick action is always offered, and both are offered exactly for a product under review. |
| Dashboard.TotalDecided | components/DashboardClient.tsx:12 | The decided count is at least the approved and the rejected counts, and zero only when both are. |
| Dashboard.ApprovalRate | components/DashboardClient.tsx:12-13 | The rate lies in [0, 100]. With decisions made, it is 100 approved / decided rounded half up. |
| Dashboard.RateIsNearest | components/DashboardClient.tsx:13 | No other integer meets the rounding bracket: the rate is the rounded quotient. |
| Dashboard.ReviewIgnored | components/DashboardClient.tsx:12-13 | The review count and the total never move the rate. |
| Dashboard.RateExtremes | components/DashboardClient.tsx:13 | Nothing rejected but something approved gives 100; nothing approved gives 0. |
| Dashboard.RateExamples | components/DashboardClient.tsx:13 | 1 of 3 gives 33, 1 of 2 gives 50, 2 of 3 rounds up to 67. |
| Dashboard.DashOffsetHundredths | components/DashboardClient.tsx:69 | For a rate in [0, 100] the offset lies in [0, 440]: 440 at rate 0 and 0 at rate 100. |
| Dashboard.DashOffsetOnRing | components/DashboardClient.tsx:67-74 | The offset drawn for any dashboard lies on the ring and shrinks as the rate grows. |
| ProductDetail.StatusColor | components/ProductDetailClient.tsx:16-19 | Success iff approved, error iff rejected, warning iff under review. |
| ProductDetail.StatusColorDistinguishes | components/ProductDetailClient.tsx:16-19 | The badge colour tells the three statuses apart. |
| ProductDetail.CheckRows | components/ProductDetailClient.tsx:74-89 | The warehouse, shipping and inventory rows are the validator's blocking checks on the record. |
| ProductDetail.PriceRowIgnoresRecommendedPrice | components/ProductDetailClient.tsx:82-85 | The price row reads the minimum selling price. With it at 29.99 the row passes for every recommended price, including ones the validator rejects. |
| ProductDetail.PriceRowAgreesOnCalculatorPrices | components/ProductDetailClient.tsx:82-85 | On a calculator-priced record the price row and both price checks pass. |
| ProductDetail.AiPanel | components/ProductDetailClient.tsx:57-68 | The AI panel is shown iff scores are stored. |
| ProductDetail.AiPanelShowsStoredAnalysis | components/ProductDetailClient.tsx:57-66 | A record holding every part of an analysis shows exactly that analysis. |
| ProductDetail.AiPanelDefaults | components/ProductDetailClient.tsx:62-65 | With scores stored, each missing part falls back on its own: overall score 0, recommendation REVIEW, empty explanations. |
| ProductDetail.ShowRejectionReasons | components/ProductDetailClient.tsx:92 | For a record whose reasons are the validator's on its own calculator-priced fields, the block shows iff the warehouse, shipping or inventory row fails. |
| Language.GetSnapshot | components/LanguageToggle.tsx:18-22 | The snapshot is English iff there is a window and the stored text is 'en'; otherwise Khmer. |
| Language.GetServerSnapshot | components/LanguageToggle.tsx:18-23 | The server snapshot is what the client snapshot gives without a window, whatever is stored. |
| Language.SnapshotReadsStoredCode | components/LanguageToggle.tsx:18-46 | The snapshot reads back the language that setLanguage stored. |
| Language.Flip | components/LanguageToggle.tsx:87 | The toggle always changes the language and the code it is stored under. |
| Language.FlipInvolution | components/LanguageToggle.tsx:87 | Two presses of the toggle restore the language. |
| Language.Lookup | components/LanguageToggle.tsx:52-59 | The empty path stays where it is; a walk that takes a step starts from a table holding the first segment. |
| Language.LookupAppend | components/LanguageToggle.tsx:52-59 | Walking a path in two legs is walking the first, then the second from where it ended. |
| Language.TextStopsTheWalk | components/LanguageToggle.tsx:55-57 | A string reached before the last segment makes the walk fail. |
| Language.Resolve | components/LanguageToggle.tsx:48-65 | `t` never fails: it returns the key itself or the string that the key's dot-separated path reaches. |
| Language.ResolveIsPathLookup | components/LanguageToggle.tsx:48-65 | Both branches of `t` are one rule: the string the key's path reaches, or the key when the path is missing, hits a string early or ends on a table. |
| Language.KeyBelowTextIsUntranslated | components/LanguageToggle.tsx:54-57 | A dotted key whose leading segments already reach a string translates to the key itself. |
| Language.LanguageProvider.constructor | components/LanguageToggle.tsx:30-38 | The hydrated provider starts in the server snapshot's language, Khmer, so a stored English preference is not restored. |
| Language.LanguageProvider.Translations | components/LanguageToggle.tsx:49 | Lookups use the English table exactly when the language is English, the Khmer table otherwise. |
| Language.LanguageProvider.SetLanguage | components/LanguageToggle.tsx:41-46 | The argument becomes the current language and later lookups use its table. With a window it is stored, and the snapshot reads it back. |
| Language.LanguageProvider.Toggle | components/LanguageToggle.tsx:82-87 | The language becomes the other one and is stored as setLanguage stores it. |
| Language.LanguageProvider.T | components/LanguageToggle.tsx:48-65 | The segment-by-segment loop returns the path lookup's string, or the key. |

## Left out

- Floating point: the calculator rounds its results with `toFixed(2)` and the margin with `toFixed(1)` (lib/calculations.ts:34-38). Those rounded values feed the validator (components/ProductForm.tsx:70-77) and are what the payload saves (components/ProductForm.tsx:174-178). Here money is exact cents, so the two-decimal rounding changes nothing, and the margin is the exact quotient rather than a one-decimal number. IEEE artefacts of the float sums and of `Math.round` on the dashboard are not modelled either.
- Kanban.IsLowMargin: the card and the product page compare the saved one-decimal margin with 60 (components/KanbanBoard.tsx:135, components/ProductDetailClient.tsx:22), while the validator recomputes the unrounded margin (lib/validation.ts:25, 35). Near 60 percent they disagree in the source: a total cost of 40.00 is capped at 99.99 (lib/calculations.ts:18-20), whose exact margin of 59.996 percent the validator calls low, but the saved margin is 60.0 and the card and the product page show no warning; every total from 40.00 to 40.04 disagrees this way. The model saves the exact quotient, so its flag agrees with the validator and this disagreement is not captured.
- `Number(...)` conversions of form fields (components/ProductForm.tsx:56-74): every field is already a number here.
- `toLowerCase` is modelled on ASCII letters only; Unicode case mapping is not.
- Duplicates.SharesTerm: a term's length counts Unicode characters, while the source's `length` counts UTF-16 code units. A term made of characters outside the Basic Multilingual Plane (two emoji, say) is judged shorter here than in the source, so Duplicates.CheckDuplicate can miss a similar match the source reports.
- Persistence: `submitProduct`, the other Prisma queries, `revalidatePath`, and the success or failure of saving a payload (components/ProductForm.tsx:192-199). The model stops at the payload.
- The AI collaborator: lib/gemini.ts and lib/actions.ts are replaced by the `analyze` parameter. A malformed answer that parses as JSON is not modelled; `Analysis` is well-typed.
- React rendering, the router, `alert`, console logging, the clipboard, Blob downloads, reading and writing the browser's storage, and the `storage` event subscription. The stored-language slot is the `saved` field.
- Interleaving of asynchronous work, such as two submissions racing past the exact-URL check. Each handler runs as one sequential pass.
- Submission.ProductForm.Edit: `handleChange` updates one field by its input name. Here it replaces the whole form, so typing and checkbox conversions are not modelled.
- `t` on keys that name inherited JavaScript object properties (such as `constructor`) behaves differently in the source. Here tables are plain maps.
- The translation tables: lib/translations is not part of this model. The provider takes the English and Khmer tables as constructor arguments.
- The quick approve, reject and delete handlers and the copy handler's clipboard write (components/KanbanBoard.tsx:137-193). They are persistence or browser I/O; only which actions are offered is modelled.

/**
 * The pipeline board (components/KanbanBoard.tsx): the three status columns,
 * the JSON export record, the copy-for-AI record, the card flags and the
 * quick actions the card menu offers.
 */
module Kanban {
  import opened Wrappers
  import opened Types
  import opened Validation

  /** The products of `products` with status `s`, in their original order. */
  function Column(products: seq<Product>, s: Status): (col: seq<Product>)
    ensures |col| <= |products|
    ensures forall p :: p in col <==> p in products && p.status == s
  {
    if products == [] then []
    else (if products[0].status == s then [products[0]] else []) + Column(products[1..], s)
  }

  /** Filtering a concatenation filters each part: the column keeps the input's order. */
  lemma {:induction false} ColumnAppend(a: seq<Product>, b: seq<Product>, s: Status)
    ensures Column(a + b, s) == Column(a, s) + Column(b, s)
  {
    if a != [] {
      assert (a + b)[0] == a[0] && (a + b)[1..] == a[1..] + b;
      ColumnAppend(a[1..], b, s);
    } else {
      assert a + b == b;
    }
  }

  /** The board's three columns. */
  datatype Columns = Columns(review: seq<Product>, approved: seq<Product>, rejected: seq<Product>)

  /** The board's columns: each holds exactly the products of its status. */
  function ColumnsOf(products: seq<Product>): (c: Columns)
    ensures forall p :: p in c.review <==> p in products && p.status == Review
    ensures forall p :: p in c.approved <==> p in products && p.status == Approved
    ensures forall p :: p in c.rejected <==> p in products && p.status == Rejected
  {
    Columns(Column(products, Review), Column(products, Approved), Column(products, Rejected))
  }

  /**
   * Every product lands in exactly one column: the columns together hold the
   * products, each as often as the input, and their sizes add up to its length.
   */
  lemma {:induction false} ColumnsPartition(products: seq<Product>)
    ensures var c := ColumnsOf(products);
      && multiset(c.review) + multiset(c.approved) + multiset(c.rejected) == multiset(products)
      && |c.review| + |c.approved| + |c.rejected| == |products|
  {
    if products != [] {
      ColumnsPartition(products[1..]);
      assert products == [products[0]] + products[1..];
    }
  }

  /** One entry of the exported JSON file. */
  datatype ExportRecord = ExportRecord(
    productName: string,
    supplierPrice: Cents,
    shippingCost: Cents,
    sellingPrice: Cents,
    supplierLink: string,
    description: string,
    shippingTimeDays: int,
    category: string,
    inventory: int,
    usWarehouse: bool,
    chineseInventory: bool,
    profitMargin: Ratio)

  /** `notes || ''`: the note, or the empty text when there is none. */
  function Description(notes: Option<string>): string {
    notes.GetOr("")
  }

  /**
   * The export entry of one product: it carries the product's price, link,
   * shipping time and margin, and its description is the note, or empty
   * when the product has none.
   */
  function ToExportRecord(p: Product): (e: ExportRecord)
    ensures e.sellingPrice == p.recommendedPrice && e.shippingTimeDays == p.totalDaysMax
    ensures e.supplierLink == p.cjUrl && e.profitMargin == p.profitMarginPercent
    ensures p.notes.None? ==> e.description == ""
    ensures p.notes.Some? ==> e.description == p.notes.value
  {
    ExportRecord(p.name, p.productCost, p.shippingCost, p.recommendedPrice, p.cjUrl,
                 Description(p.notes), p.totalDaysMax, p.category, p.inventoryCount,
                 p.usWarehouse, p.chineseInventory, p.profitMarginPercent)
  }

  /** The exported list: one entry per product, in the same order. */
  function ExportProducts(products: seq<Product>): (out: seq<ExportRecord>)
    ensures |out| == |products|
    ensures forall i :: 0 <= i < |products| ==> out[i] == ToExportRecord(products[i])
  {
    if products == [] then []
    else [ToExportRecord(products[0])] + ExportProducts(products[1..])
  }

  /** The record copied to the clipboard for an AI assistant. */
  datatype AiCopyRecord = AiCopyRecord(
    productName: string,
    supplierPrice: Cents,
    shippingCost: Cents,
    sellingPrice: Cents,
    supplierLink: string,
    description: string,
    shippingTimeDays: int)

  /** The copied record: the first seven fields of the export entry. */
  function CopyForAi(p: Product): (c: AiCopyRecord)
    ensures var e := ToExportRecord(p);
      c == AiCopyRecord(e.productName, e.supplierPrice, e.shippingCost, e.sellingPrice,
                        e.supplierLink, e.description, e.shippingTimeDays)
  {
    AiCopyRecord(p.name, p.productCost, p.shippingCost, p.recommendedPrice, p.cjUrl,
                 Description(p.notes), p.totalDaysMax)
  }

  /**
   * The card's sweet-spot badge, a price from $29 to $39 inclusive: the
   * validator's advisory sweet-spot check on the stored record, and never
   * above the price ceiling.
   */
  function IsSweetSpot(p: Product): (sweet: bool)
    ensures sweet == EvaluateChecks(InputOf(p)).sweetSpot
    ensures sweet ==> p.recommendedPrice <= MaxPriceBound
  {
    p.recommendedPrice >= 2900 && p.recommendedPrice <= 3900
  }

  /**
   * The card's margin colour, a margin below 60 percent: with the stored
   * margin equal to the validator's quotient, the validator's advisory
   * low-margin check.
   */
  function IsLowMargin(p: Product): (low: bool)
    ensures p.profitMarginPercent == MarginPercent(p.recommendedPrice, p.totalCost) ==>
      low == EvaluateChecks(InputOf(p)).lowMargin
  {
    Below(p.profitMarginPercent, 60)
  }

  /** For a positive price the low-margin flag is the integer test 100 (price - cost) < 60 price. */
  lemma LowMarginAsIntegers(p: Product)
    requires p.profitMarginPercent == Ratio(100 * (p.recommendedPrice - p.totalCost), p.recommendedPrice)
    requires p.recommendedPrice > 0
    ensures IsLowMargin(p) <==> 100 * (p.recommendedPrice - p.totalCost) < 60 * p.recommendedPrice
  {
  }

  /** The menu offers quick approve for a product under review or rejected. */
  function CanQuickApprove(s: Status): (offered: bool)
    ensures offered <==> s == Review || s == Rejected
  {
    s != Approved
  }

  /** The menu offers quick reject for a product under review or approved. */
  function CanQuickReject(s: Status): (offered: bool)
    ensures offered <==> s == Review || s == Approved
  {
    s != Rejected
  }

  /**
   * Some quick action is always offered, and both exactly for products
   * under review.
   */
  lemma QuickActions(s: Status)
    ensures CanQuickApprove(s) || CanQuickReject(s)
    ensures CanQuickApprove(s) && CanQuickReject(s) <==> s == Review
  {
  }
}

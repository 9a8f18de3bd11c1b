/**
 * The order payload as the webhook handler reads it, and the pure transform
 * that turns an order's `line_items` into the per-item image annotations
 * stored on the order (`itemImages` in src/app/api/shopify/webhook/route.ts).
 */
module ItemImages {
  import opened Wrappers

  /** A line item of the order: only the two properties the handler reads. */
  datatype LineItem = LineItem(title: Option<string>, variantTitle: Option<string>)

  /**
   * An order as `JSON.parse` yields it. `id` is the text that a template
   * literal renders for `order.id` (None when the property is absent);
   * `lineItems` is None when `line_items` is missing or not an array.
   */
  datatype Order = Order(id: Option<string>, lineItems: Option<seq<LineItem>>)

  /** The `product` descriptor of one annotation. */
  datatype Product = Product(title: Option<string>, variant: string)

  /** One annotation: `{ item_number, product: { title, variant }, image_url }`. */
  datatype ItemImage = ItemImage(itemNumber: nat, product: Product, imageUrl: string)

  /** The placeholder image URL every annotation carries. */
  const HardcodedImage: string :=
    "https://imagedelivery.net/lEHX3YUcvfDIImhkEJ2s3Q/generated-0b55469101668a1c0a543df650cec0a57e582c256a3acf6f9513c6cce104b05c-v1/public"

  /** The variant shown for a line item: `variant_title || "Default"`. */
  function VariantOrDefault(variantTitle: Option<string>): (v: string)
    ensures v != ""
    ensures variantTitle.Some? && variantTitle.value != "" ==> v == variantTitle.value
    ensures variantTitle.None? || variantTitle.value == "" ==> v == "Default"
  {
    match variantTitle
    case Some(t) => if t != "" then t else "Default"
    case None => "Default"
  }

  /** The annotation for one line item at 1-based position `n`. */
  function Annotate(item: LineItem, n: nat): (a: ItemImage)
    ensures a.itemNumber == n
    ensures a.product.title == item.title
    ensures a.product.variant == VariantOrDefault(item.variantTitle) && a.product.variant != ""
    ensures a.imageUrl == HardcodedImage
  {
    ItemImage(n, Product(item.title, VariantOrDefault(item.variantTitle)), HardcodedImage)
  }

  /**
   * The annotations of `items`, numbered from `first` on: the callback of
   * `line_items.map((item, index) => …)` applied element by element.
   */
  function Numbered(items: seq<LineItem>, first: nat): (r: seq<ItemImage>)
    ensures |r| == |items|
    ensures forall i :: 0 <= i < |items| ==> r[i] == Annotate(items[i], first + i)
    decreases |items|
  {
    if items == [] then [] else [Annotate(items[0], first)] + Numbered(items[1..], first + 1)
  }

  /**
   * The annotations of an order's line items: one per item, in the same
   * order, numbered from 1, with the title copied, the variant defaulted
   * and the constant image.
   */
  function ItemImagesOf(items: seq<LineItem>): (r: seq<ItemImage>)
    ensures |r| == |items|
    ensures forall i :: 0 <= i < |items| ==>
      && r[i].itemNumber == i + 1
      && r[i].product.title == items[i].title
      && r[i].product.variant == VariantOrDefault(items[i].variantTitle)
      && r[i].imageUrl == HardcodedImage
  {
    Numbered(items, 1)
  }

  /** The item numbers of a sequence of annotations, in order. */
  function ItemNumbers(r: seq<ItemImage>): seq<nat> {
    seq(|r|, i requires 0 <= i < |r| => r[i].itemNumber)
  }

  /** The numbers `lo`, `lo + 1`, …, `hi - 1`. */
  function Range(lo: nat, hi: nat): (s: seq<nat>)
    requires lo <= hi
    ensures |s| == hi - lo
    ensures forall i :: 0 <= i < |s| ==> s[i] == lo + i
    decreases hi - lo
  {
    if lo == hi then [] else [lo] + Range(lo + 1, hi)
  }

  /** n line items are numbered exactly 1, 2, …, n, in input order. */
  lemma ItemNumbersAreOneToN(items: seq<LineItem>)
    ensures ItemNumbers(ItemImagesOf(items)) == Range(1, |items| + 1)
  {
  }

  /** The product titles of a sequence of annotations, in order. */
  function AnnotationTitles(r: seq<ItemImage>): seq<Option<string>> {
    seq(|r|, i requires 0 <= i < |r| => r[i].product.title)
  }

  /** The titles of a sequence of line items, in order. */
  function LineItemTitles(items: seq<LineItem>): seq<Option<string>> {
    seq(|items|, i requires 0 <= i < |items| => items[i].title)
  }

  /** The titles of the annotations are the titles of the line items, in order. */
  lemma TitlesCopied(items: seq<LineItem>)
    ensures AnnotationTitles(ItemImagesOf(items)) == LineItemTitles(items)
  {
  }

  /** An annotation says "Default" exactly when its item's variant title is absent, empty or itself "Default". */
  lemma VariantDefaultIff(items: seq<LineItem>, i: nat)
    requires i < |items|
    ensures ItemImagesOf(items)[i].product.variant == "Default"
        <==> items[i].variantTitle.None? || items[i].variantTitle.value in {"", "Default"}
  {
  }

  /** All annotations carry the same image URL. */
  lemma SameImageEverywhere(items: seq<LineItem>, i: nat, j: nat)
    requires i < |items| && j < |items|
    ensures ItemImagesOf(items)[i].imageUrl == ItemImagesOf(items)[j].imageUrl == HardcodedImage
  {
  }

  /**
   * The transform works item by item, with no reordering, merging or
   * dropping: the annotations of `a + b` are those of `a` followed by those
   * of `b` numbered on from `first + |a|`. It follows from the per-index
   * contract of `Numbered` by sequence extensionality.
   */
  lemma NumberedAppend(a: seq<LineItem>, b: seq<LineItem>, first: nat)
    ensures Numbered(a + b, first) == Numbered(a, first) + Numbered(b, first + |a|)
  {
    var whole, parts := Numbered(a + b, first), Numbered(a, first) + Numbered(b, first + |a|);
    forall i | 0 <= i < |whole| ensures whole[i] == parts[i] {
      if i < |a| { assert (a + b)[i] == a[i]; } else { assert (a + b)[i] == b[i - |a|]; }
    }
  }

  /** Appending line items only appends annotations: earlier ones are unchanged. */
  lemma ItemImagesAppend(a: seq<LineItem>, b: seq<LineItem>)
    ensures ItemImagesOf(a + b) == ItemImagesOf(a) + Numbered(b, |a| + 1)
  {
    NumberedAppend(a, b, 1);
  }
}

/** The barcode lookup page: the product record it reads, the soy
    classifier, the collapse of every failed lookup to "no product", and
    the six pieces of view state that the form's handlers update. */
module BarcodePage {
  import opened Wrappers
  import opened JsString

  // ---------------------------------------------------------------------
  // Product record
  // ---------------------------------------------------------------------

  /** A loosely typed JSON field, as seen by a `typeof v === "string"` test. */
  datatype Val = Str(text: string) | NonStr | Absent

  /** The four field names the page reads. */
  const NamedFields := {"product_name", "brands", "allergens", "ingredients_text"}

  /** The record's remaining fields, keyed by names other than the four;
      a field that is absent has no key. */
  type OtherFields = m: map<string, Val> | NamedFields !! m.Keys && forall k :: k in m ==> !m[k].Absent?
    witness map[]

  /** A product record of the open food data service. Only four fields are
      read by name; every other field is carried along unexamined. */
  datatype Product = Product(
    productName: Val,                // product_name
    brands: Val,                     // brands
    allergens: Option<string>,       // allergens (absent or null: None)
    ingredientsText: Option<string>, // ingredients_text (absent or null: None)
    otherFields: OtherFields)

  /** `product.allergens?.toLowerCase() || ""` */
  function AllergensLower(p: Product): string {
    Lower(p.allergens.GetOr(""))
  }

  /** `product.ingredients_text?.toLowerCase() || ""` */
  function IngredientsLower(p: Product): string {
    Lower(p.ingredientsText.GetOr(""))
  }

  /** `productContainsSoy`: the lower-cased allergens mention "soybeans" or
      the lower-cased ingredients mention "soy". */
  function ProductContainsSoy(p: Product): (r: bool)
    ensures r <==> Contains(AllergensLower(p), "soybeans") || Contains(IngredientsLower(p), "soy")
  {
    Includes(AllergensLower(p), "soybeans") || Includes(IngredientsLower(p), "soy")
  }

  // ---------------------------------------------------------------------
  // Lookup
  // ---------------------------------------------------------------------

  const ProductApi := "https://world.openfoodfacts.net/api/v2/product/"

  /** The URL requested for a barcode; the barcode is inserted verbatim. */
  function ProductUrl(barcode: string): (url: string)
    ensures |url| == |ProductApi| + |barcode|
    ensures StartsWith(url, ProductApi) && url[|ProductApi|..] == barcode
  {
    ProductApi + barcode
  }

  /** The parsed body of a successful response: `data?.product`, where a
      null body, a missing field or a falsy value are all `None`. */
  datatype Body = Unparseable | Parsed(product: Option<Product>)

  /** What the outbound request produced: a transport exception, or an
      HTTP status with a body. */
  datatype Response = TransportError | Answered(status: int, body: Body)

  /** The Fetch API's `res.ok`: a status in the range 200-299. */
  predicate IsOk(status: int) {
    200 <= status <= 299
  }

  /** `fetchProductByBarcode`, given what the request produced: an empty
      barcode, a transport exception, a non-ok status, an unparseable
      body and a body without a product all become `None`. */
  function FetchProductByBarcode(barcode: string, res: Response): Option<Product> {
    if barcode == [] then None
    else match res
      case TransportError => None
      case Answered(status, body) =>
        if !IsOk(status) then None
        else match body
          case Unparseable => None
          case Parsed(product) => product
  }

  // ---------------------------------------------------------------------
  // View state
  // ---------------------------------------------------------------------

  const UnknownProduct := "Unknown Product"
  const UnknownBrand := "Unknown Brand"
  const NotFoundMessage := "❌ Product not found."
  const NotFoundColor := "#ffe0e0"
  const SoyMessage := "🚫 DON'T EAT THIS."
  const SoyColor := "pink"
  const NoSoyMessage := "✅ YOU'RE GOOD."
  const NoSoyColor := "lightgreen"
  const InitialColor := "white"

  /** The six `useState` fields of the page. */
  datatype ViewState = ViewState(
    barcode: string,
    product: Option<Product>,
    productName: Option<string>,
    brandName: Option<string>,
    resultMessage: Option<string>,
    bgColor: string)

  /** The `useState` initial values. */
  const InitialView := ViewState("", None, None, None, None, InitialColor)

  /** The name shown for a found product. */
  function DisplayName(p: Product): string {
    if p.productName.Str? then p.productName.text else UnknownProduct
  }

  /** The brand shown for a found product. */
  function DisplayBrand(p: Product): string {
    if p.brands.Str? then p.brands.text else UnknownBrand
  }

  /** `handleInputChange`: the input's value becomes the barcode. */
  function InputChanged(s: ViewState, value: string): ViewState {
    s.(barcode := value)
  }

  /** `handleSubmit`, with `found` the result of looking up the trimmed
      barcode (consulted only when that barcode is not empty). */
  function Submitted(s: ViewState, found: Option<Product>): ViewState {
    if Trim(s.barcode) == [] then s
    else match found
      case None =>
        s.(resultMessage := Some(NotFoundMessage), bgColor := NotFoundColor,
           product := None, productName := None, brandName := None)
      case Some(p) =>
        var containsSoy := ProductContainsSoy(p);
        s.(productName := Some(DisplayName(p)), brandName := Some(DisplayBrand(p)),
           resultMessage := Some(if containsSoy then SoyMessage else NoSoyMessage),
           bgColor := if containsSoy then SoyColor else NoSoyColor,
           product := Some(p))
  }

  /** `handleClear`: every field back to its initial value. */
  function Cleared(s: ViewState): ViewState {
    InitialView
  }

  /** The page component with its six state fields. Each handler runs to
      completion before the next one starts. */
  class SoyChecker {
    var barcode: string
    var product: Option<Product>
    var productName: Option<string>
    var brandName: Option<string>
    var resultMessage: Option<string>
    var bgColor: string

    function State(): ViewState
      reads this
    {
      ViewState(barcode, product, productName, brandName, resultMessage, bgColor)
    }

    constructor ()
      ensures State() == InitialView
    {
      barcode := "";
      product := None;
      productName := None;
      brandName := None;
      resultMessage := None;
      bgColor := InitialColor;
    }

    /** `handleInputChange`. */
    method HandleInputChange(value: string)
      modifies this
      ensures State() == InputChanged(old(State()), value)
    {
      barcode := value;
    }

    /** `handleSubmit`. `response` stands for what the network answered;
        `request` is the URL fetched, or `None` when a blank barcode stops
        the submission before any request is made. */
    method HandleSubmit(response: Response) returns (request: Option<string>)
      modifies this
      ensures request == if Trim(old(barcode)) == [] then None else Some(ProductUrl(Trim(old(barcode))))
      ensures State() == Submitted(old(State()), FetchProductByBarcode(Trim(old(barcode)), response))
    {
      var trimmedBarcode := Trim(barcode);
      if trimmedBarcode == [] {
        return None;
      }
      request := Some(ProductUrl(trimmedBarcode));
      var fetchedProduct := FetchProductByBarcode(trimmedBarcode, response);
      if fetchedProduct.None? {
        resultMessage := Some(NotFoundMessage);
        bgColor := NotFoundColor;
        product := None;
        productName := None;
        brandName := None;
        return;
      }
      var p := fetchedProduct.value;
      productName := Some(DisplayName(p));
      brandName := Some(DisplayBrand(p));
      var containsSoy := ProductContainsSoy(p);
      resultMessage := Some(if containsSoy then SoyMessage else NoSoyMessage);
      bgColor := if containsSoy then SoyColor else NoSoyColor;
      product := Some(p);
    }

    /** `handleClear`. */
    method HandleClear()
      modifies this
      ensures State() == Cleared(old(State()))
    {
      barcode := "";
      product := None;
      productName := None;
      brandName := None;
      resultMessage := None;
      bgColor := InitialColor;
    }
  }
}

# Soy checker barcode page, modelled in Dafny

The page `app/barcode/page.tsx` lets a user type a UPC barcode. It looks the
product up in the Open Food Facts API and says whether the record mentions
soy. This project models its logic:

- **The soy classifier** `productContainsSoy` (`BarcodePage.ProductContainsSoy`).
  It lower-cases the `allergens` and `ingredients_text` fields, with a
  missing field read as `""`. It flags the product when the allergens
  contain `"soybeans"` or the ingredients contain `"soy"`. The
  `String.prototype` operations it uses (`toLowerCase`, `includes`, and
  the `trim` used by the submit handler) are modelled in module `JsString`.
  `includes` has two definitions there: a reference one (`Contains`, an
  occurrence at some index) and a left-to-right search (`Includes`). They
  are proved to agree.
- **The lookup** `fetchProductByBarcode` (`BarcodePage.FetchProductByBarcode`).
  The network answer is a parameter (`Response`): a transport error, or an
  HTTP status with a body that either fails to parse or is parsed with or
  without a `product`. Every failure collapses to `None`, as in the source.
- **The page's six `useState` fields** (`barcode`, `product`,
  `productName`, `brandName`, `resultMessage`, `bgColor`). They are the
  fields of class `BarcodePage.SoyChecker`. Its methods `HandleInputChange`,
  `HandleSubmit` and `HandleClear` follow the handlers statement by
  statement. Each method's `ensures` ties the new state to a pure transition
  function on a `ViewState` value (`InputChanged`, `Submitted`, `Cleared`).
  `HandleSubmit` also returns the URL it would request, or `None` when a
  blank barcode stops it before any request.
- **Properties** (module `BarcodeProperties`):
  - the classifier's behaviour, including case-insensitivity and the
    scenarios of barcode 041390001019;
  - the effect of each handler on every field;
  - an invariant saying the displayed name, brand, message and colour are
    always exactly what the current product and the last lookup's outcome
    dictate (`Consistent`, `ViewOf`), kept by every sequence of events from
    the initial state.

In `handleSubmit` a blank barcode returns before anything is set, so the
state stays as it was (`SubmitBlankIsNoOp`).

Assumptions about JavaScript strings:
- `toLowerCase` is modelled on ASCII letters only. Every other character is
  kept as is.
- Characters are Unicode scalar values, not UTF-16 code units. The patterns
  `"soy"` and `"soybeans"` are ASCII, and no surrogate pair contains an
  ASCII unit, so matching gives the same answer either way.
- `trim` removes the ECMAScript WhiteSpace and LineTerminator code points:
  TAB, LF, VT, FF, CR, the Unicode space separators, U+2028, U+2029 and
  U+FEFF.

## Model

| member | source | states |
|---|---|---|
| `BarcodePage.ProductContainsSoy` | app/barcode/page.tsx:24-28 | the result is true exactly when the lower-cased allergens (missing read as "") contain "soybeans" or the lower-cased ingredients (missing read as "") contain "soy" |
| `JsString.Includes` | app/barcode/page.tsx:27 | the left-to-right search used for `includes` is true exactly when the pattern occurs in the text at some index |
| `JsString.LowerChar` | app/barcode/page.tsx:25-26 | lower-casing one character never yields an ASCII capital; capitals move 32 code points up to their small letter; other characters are unchanged |
| `JsString.Lower` | app/barcode/page.tsx:25-26 | no contract of its own; it applies `LowerChar` at every index, and `LowerEqualIff` and `LowerIdempotent` state its behaviour |
| `JsString.LowerEqualIff` | app/barcode/page.tsx:25-26 | two strings lower-case to the same string exactly when one is the other with some ASCII letters re-cased |
| `JsString.LowerCharEqualIff` | app/barcode/page.tsx:25-26 | two characters lower-case alike exactly when they are equal or the capital and small form of one ASCII letter |
| `JsString.LowerIdempotent` | app/barcode/page.tsx:25-26 | lower-casing an already lower-cased string changes nothing |
| `JsString.LeadingWhiteSpace` | app/barcode/page.tsx:50 | the count of leading characters trim removes: all of them are white space and the next character, if any, is not |
| `JsString.TrailingWhiteSpaceStart` | app/barcode/page.tsx:50 | where the trailing white space begins: everything after it is white space and the character before it, if any, is not |
| `JsString.Trim` | app/barcode/page.tsx:50 | the trimmed barcode is no longer than the input and neither starts nor ends with white space |
| `JsString.TrimUnique` | app/barcode/page.tsx:50 | the trimmed string is the one slice of the input that has only white space around it and no white space at either end |
| `JsString.TrimEmptyIff` | app/barcode/page.tsx:50-51 | the trimmed barcode is empty exactly when the input is all white space (the case where submit returns early) |
| `BarcodeProperties.NoTextNoSoy` | app/barcode/page.tsx:25-27 | a product whose allergens and ingredients are both absent or empty is not flagged |
| `BarcodeProperties.ClassificationIgnoresCase` | app/barcode/page.tsx:25-26 | re-casing ASCII letters in either field never changes the verdict |
| `BarcodeProperties.IngredientSoyOverridesAllergens` | app/barcode/page.tsx:27 | ingredients containing "soy" flag the product whatever its allergens field holds |
| `BarcodeProperties.AllergensNeedSoybeans` | app/barcode/page.tsx:27 | when the ingredients do not contain "soy", the verdict is exactly whether the allergens contain "soybeans" |
| `BarcodeProperties.SoyAllergenAloneNotFlagged` | app/barcode/page.tsx:27 | allergens "en:soy" contain "soy", yet with no ingredients the product is not flagged |
| `BarcodeProperties.UpperCaseSoybeansFlagged` | app/barcode/page.tsx:25-27 | allergens "EN:SOYBEANS" flag the product |
| `BarcodeProperties.ScenarioAllergenMatch` | app/barcode/page.tsx:24-28 | allergens "en:milk,en:soybeans" with ingredients "sugar, peanuts" are flagged on the allergen match alone, and submitting barcode 041390001019 shows "🚫 DON'T EAT THIS." |
| `BarcodeProperties.ScenarioIngredientMatch` | app/barcode/page.tsx:24-28 | allergens "en:milk" with ingredients "sugar, peanuts, soy lecithin" are flagged on the ingredient match alone |
| `BarcodeProperties.ScenarioNoSoy` | app/barcode/page.tsx:24-28 | allergens "en:milk" with ingredients "sugar, peanuts" are not flagged, and submitting barcode 041390001019 shows "✅ YOU'RE GOOD." |
| `BarcodeProperties.FetchFindsOnlyOnSuccess` | app/barcode/page.tsx:33-45 | a lookup yields a product exactly when the barcode is non-empty, the request went through with a 2xx status and the parsed body holds a product, and then it is that product |
| `BarcodeProperties.FailuresLookAlike` | app/barcode/page.tsx:33-45 | a transport error, a non-ok status, an unparseable body and a body without a product all leave the page in the same state |
| `BarcodePage.FetchProductByBarcode` | app/barcode/page.tsx:30-46 | no contract of its own; `FetchFindsOnlyOnSuccess` and `FailuresLookAlike` state the collapse of every failure to null |
| `BarcodePage.ProductUrl` | app/barcode/page.tsx:35-37 | the request URL is the fixed API prefix followed by the barcode verbatim |
| `BarcodeProperties.ProductUrlInjective` | app/barcode/page.tsx:35-37 | different barcodes give different URL strings |
| `BarcodePage.SoyChecker.constructor` | app/barcode/page.tsx:17-22 | the six fields start as "", null, null, null, null and "white" |
| `BarcodePage.SoyChecker.HandleInputChange` | app/barcode/page.tsx:90-92 | the typed value becomes the barcode; nothing else changes |
| `BarcodePage.SoyChecker.HandleSubmit` | app/barcode/page.tsx:48-79 | a request for the trimmed barcode is made only when it is non-empty, and the new state is the submit transition applied to the result of `fetchProductByBarcode` on that barcode |
| `BarcodePage.SoyChecker.HandleClear` | app/barcode/page.tsx:81-88 | all six fields are back at their initial values |
| `BarcodePage.InputChanged` | app/barcode/page.tsx:90-92 | no contract of its own; `InputChangeOnlyBarcode` states that only the barcode changes, and `HandleInputChange` is proved against it |
| `BarcodePage.Submitted` | app/barcode/page.tsx:48-79 | no contract of its own; `SubmitBlankIsNoOp`, `SubmitNotFound`, `SubmitFound`, `SubmitIdempotent` and `SubmitIsViewOf` state its effect on every field, and `HandleSubmit` is proved against it |
| `BarcodePage.Cleared` | app/barcode/page.tsx:81-88 | no contract of its own; `ClearResets` states it yields the initial state, and `HandleClear` is proved against it |
| `BarcodeProperties.SubmitBlankIsNoOp` | app/barcode/page.tsx:50-51 | submitting an all-white-space barcode leaves all six fields unchanged whatever the lookup would have said |
| `BarcodeProperties.SubmitNotFound` | app/barcode/page.tsx:54-60 | a failed lookup shows "❌ Product not found." on "#ffe0e0", clears product, name and brand, and keeps the barcode |
| `BarcodeProperties.SubmitFound` | app/barcode/page.tsx:63-78 | a found product is stored as is, its name and brand are shown when they are strings and "Unknown Product"/"Unknown Brand" otherwise, and message/colour are "🚫 DON'T EAT THIS."/"pink" when it is flagged and "✅ YOU'RE GOOD."/"lightgreen" when not; the barcode is kept |
| `BarcodeProperties.ScenarioNamelessProduct` | app/barcode/page.tsx:63-73 | a record without name and brand is shown as "Unknown Product"/"Unknown Brand", and its message is still the classifier's: "🚫 DON'T EAT THIS." when flagged, "✅ YOU'RE GOOD." when not |
| `BarcodeProperties.ScenarioBarcodeZeroNotFound` | app/barcode/page.tsx:50-60 | barcode "0" with no product found shows the not-found message and colour and no name or brand |
| `BarcodeProperties.SubmitIdempotent` | app/barcode/page.tsx:48-79 | submitting a second time against the same lookup result gives the same state |
| `BarcodeProperties.InputChangeOnlyBarcode` | app/barcode/page.tsx:90-92 | typing sets the barcode and leaves the other five fields as they were |
| `BarcodeProperties.ClearResets` | app/barcode/page.tsx:81-88 | clearing yields the initial state from any state, so it is idempotent and forgets the prior state |
| `BarcodeProperties.SubmitIsViewOf` | app/barcode/page.tsx:53-78 | a non-blank submission moves to the view derived from the barcode and the lookup's outcome alone |
| `BarcodeProperties.StepKeepsConsistent` | app/barcode/page.tsx:48-92 | each handler keeps the display fields equal to what the product and the outcome dictate |
| `BarcodeProperties.RunKeepsConsistent` | app/barcode/page.tsx:48-92 | any sequence of input, submit and clear events keeps that consistency |
| `BarcodeProperties.ReachableDisplay` | app/barcode/page.tsx:17-92 | every reachable state is consistent: a name and a brand are shown exactly when a product is, and they are that product's display name and brand; message and colour are one of the four fixed pairs (none/"white", not found/"#ffe0e0", "🚫 DON'T EAT THIS."/"pink", "✅ YOU'RE GOOD."/"lightgreen"); with no message or the not-found message no product is shown; a shown product carries the soy pair when flagged and the all-clear pair when not |

## Left out

- `app/page.tsx` is a static landing page with a navigation link and no logic.
- The HTTP request, `await`, the JSON parsing of `res.json()` and the `console.error` log are I/O. What the network answered is a `Response` parameter, and `HandleSubmit` returns the URL it would request.
- JSX rendering, the conditional display of each field and the `JSON.stringify` dump of the product are user interface.
- Overlapping submissions, where a second submit is made before the first lookup resolves, are not modelled. Each handler runs to completion before the next event.
- `e.preventDefault()` and the React hooks runtime are not modelled; the six fields are plain state. React applies one handler's setter calls together, which gives the same end state as applying them in order.
- `JsString.LowerChar`: does not lower-case non-ASCII letters. JavaScript's `toLowerCase` maps every Unicode capital.
- Allergen or ingredient values that are not strings are not modelled, because the record's declared type makes these fields optional strings. In the source a non-null non-string value would make `toLowerCase` throw after the name and brand were already set.
- A `product` field that is truthy but not an object, such as a string, is not modelled. Its parsed body is read either as a product record or as no product.
- Fields other than the four read by name are kept in `otherFields`, but for each only whether it is a string (and which) or not a string is kept; an absent field has no key. Their numbers, objects and arrays are not modelled; the page only displays them.
- `otherFields` cannot hold the keys `product_name`, `brands`, `allergens` or `ingredients_text`, so each record has one value per field.
- `BarcodeProperties.ProductUrlInjective`: is about the URL string only. `fetch` parses that string before sending, so different barcodes such as "123#a" and "123" can still send the same request.

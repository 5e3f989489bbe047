/** What the barcode page promises: the soy classifier's behaviour, the
    effect of each handler on the six state fields, and the invariant that
    ties the displayed name, brand, message and colour to the product and
    the outcome of the last lookup. */
module BarcodeProperties {
  import opened Wrappers
  import opened JsString
  import opened BarcodePage

  // ---------------------------------------------------------------------
  // Soy classification
  // ---------------------------------------------------------------------

  /** With no allergen and no ingredient text (absent or empty), a product
      is not flagged. */
  lemma NoTextNoSoy(p: Product)
    requires p.allergens.GetOr("") == "" && p.ingredientsText.GetOr("") == ""
    ensures !ProductContainsSoy(p)
  {
  }

  /** Changing the letter case of either field never changes the verdict. */
  lemma ClassificationIgnoresCase(p: Product, q: Product)
    requires SameIgnoringCase(p.allergens.GetOr(""), q.allergens.GetOr(""))
    requires SameIgnoringCase(p.ingredientsText.GetOr(""), q.ingredientsText.GetOr(""))
    ensures ProductContainsSoy(p) == ProductContainsSoy(q)
  {
    LowerEqualIff(p.allergens.GetOr(""), q.allergens.GetOr(""));
    LowerEqualIff(p.ingredientsText.GetOr(""), q.ingredientsText.GetOr(""));
  }

  /** Ingredients mentioning "soy" flag the product whatever its allergens. */
  lemma IngredientSoyOverridesAllergens(p: Product, allergens: Option<string>)
    requires Contains(IngredientsLower(p), "soy")
    ensures ProductContainsSoy(p.(allergens := allergens))
  {
  }

  /** When the ingredients do not mention "soy", the allergens decide, and
      only through the whole word "soybeans". */
  lemma AllergensNeedSoybeans(p: Product)
    requires !Contains(IngredientsLower(p), "soy")
    ensures ProductContainsSoy(p) <==> Contains(AllergensLower(p), "soybeans")
  {
  }

  /** An allergen list that says "soy" but not "soybeans" does not on its
      own flag the product. */
  lemma SoyAllergenAloneNotFlagged()
    ensures var p := Product(Absent, Absent, Some("en:soy"), None, map[]);
            Contains(AllergensLower(p), "soy") && !ProductContainsSoy(p)
  {
    var p := Product(Absent, Absent, Some("en:soy"), None, map[]);
    LowerOfLowerCase("en:soy");
    assert OccursAt(AllergensLower(p), "soy", 3);
  }

  /** Upper-case allergen text is matched too. */
  lemma UpperCaseSoybeansFlagged()
    ensures ProductContainsSoy(Product(Absent, Absent, Some("EN:SOYBEANS"), None, map[]))
  {
    var a := "EN:SOYBEANS";
    var l := Lower(a);
    assert forall k :: 0 <= k < 8 ==> l[3 + k] == "soybeans"[k];
    OccursAtIff(l, "soybeans", 3);
  }

  // The classification scenarios of the page, for barcode 041390001019:
  // each holds whatever the record's other fields are.

  /** "en:milk,en:soybeans" declares soybeans. */
  lemma MilkSoybeansDeclaresSoybeans()
    ensures Contains(Lower("en:milk,en:soybeans"), "soybeans")
  {
    var a := "en:milk,en:soybeans";
    assert forall k :: 0 <= k < 8 ==> a[11 + k] == "soybeans"[k];
    OccursAtIff(a, "soybeans", 11);
    LowerOfLowerCase(a);
  }

  /** "en:milk" does not declare soybeans. */
  lemma MilkDeclaresNoSoybeans()
    ensures !Contains(Lower("en:milk"), "soybeans")
  {
    ShortDoesNotContain(Lower("en:milk"), "soybeans");
  }

  /** The "peanuts" in "sugar, peanuts" contain no "soy". */
  lemma SugarPeanutsNoSoy()
    ensures !Contains(Lower("sugar, peanuts"), "soy")
  {
    var s := "sugar, peanuts";
    assert forall j :: 0 <= j < |s| - 1 ==> s[j] != 's' || s[j + 1] != 'o';
    forall i | 0 <= i <= |s| ensures !OccursAt(s, "soy", i) {
      OccursAtIff(s, "soy", i);
      assert "soy"[0] == 's' && "soy"[1] == 'o';
    }
    LowerOfLowerCase(s);
  }

  /** "sugar, peanuts, soy lecithin" mentions soy. */
  lemma SoyLecithinMentionsSoy()
    ensures Contains(Lower("sugar, peanuts, soy lecithin"), "soy")
  {
    var s := "sugar, peanuts, soy lecithin";
    assert forall k :: 0 <= k < 3 ==> s[16 + k] == "soy"[k];
    OccursAtIff(s, "soy", 16);
    LowerOfLowerCase(s);
  }

  /** The example barcode is not blank. */
  lemma BarcodeNotBlank()
    ensures !AllWhiteSpace("041390001019")
  {
    assert "041390001019"[0] == '0';
  }

  /** Soy declared among the allergens flags the product although the
      ingredients do not mention it. */
  lemma ScenarioAllergenMatch(p: Product)
    requires p.allergens == Some("en:milk,en:soybeans")
    requires p.ingredientsText == Some("sugar, peanuts")
    ensures ProductContainsSoy(p)
    ensures !Contains(IngredientsLower(p), "soy")
    ensures Submitted(InitialView.(barcode := "041390001019"), Some(p)).resultMessage
         == Some("🚫 DON'T EAT THIS.")
  {
    MilkSoybeansDeclaresSoybeans();
    SugarPeanutsNoSoy();
    BarcodeNotBlank();
    SubmitFound(InitialView.(barcode := "041390001019"), p);
  }

  /** Soy lecithin among the ingredients flags the product. */
  lemma ScenarioIngredientMatch(p: Product)
    requires p.allergens == Some("en:milk")
    requires p.ingredientsText == Some("sugar, peanuts, soy lecithin")
    ensures ProductContainsSoy(p)
    ensures !Contains(AllergensLower(p), "soybeans")
  {
    SoyLecithinMentionsSoy();
    MilkDeclaresNoSoybeans();
  }

  /** Without soy anywhere the product is not flagged. */
  lemma ScenarioNoSoy(p: Product)
    requires p.allergens == Some("en:milk")
    requires p.ingredientsText == Some("sugar, peanuts")
    ensures !ProductContainsSoy(p)
    ensures Submitted(InitialView.(barcode := "041390001019"), Some(p)).resultMessage
         == Some("✅ YOU'RE GOOD.")
  {
    MilkDeclaresNoSoybeans();
    SugarPeanutsNoSoy();
    BarcodeNotBlank();
    SubmitFound(InitialView.(barcode := "041390001019"), p);
  }

  // ---------------------------------------------------------------------
  // Lookup
  // ---------------------------------------------------------------------

  /** A lookup yields a product exactly when the barcode is not empty, the
      request went through with an ok status and the parsed body holds a
      product; that product is then returned as is. */
  lemma FetchFindsOnlyOnSuccess(barcode: string, res: Response)
    ensures var r := FetchProductByBarcode(barcode, res);
            r.Some? <==> barcode != [] && res.Answered? && IsOk(res.status)
                         && res.body.Parsed? && res.body.product.Some?
    ensures var r := FetchProductByBarcode(barcode, res);
            r.Some? ==> r == res.body.product
  {
  }

  /** The page cannot tell a transport error from an unknown barcode or a
      server error: all of them end in the same state. */
  lemma FailuresLookAlike(s: ViewState, barcode: string, status: int, body: Body)
    requires !IsOk(status) || body == Unparseable || body == Parsed(None)
    ensures Submitted(s, FetchProductByBarcode(barcode, TransportError))
         == Submitted(s, FetchProductByBarcode(barcode, Answered(status, body)))
  {
  }

  /** Different barcodes give different URL strings. */
  lemma ProductUrlInjective(a: string, b: string)
    requires ProductUrl(a) == ProductUrl(b)
    ensures a == b
  {
    assert a == ProductUrl(a)[|ProductApi|..];
  }

  // ---------------------------------------------------------------------
  // Handlers
  // ---------------------------------------------------------------------

  /** Submitting a blank barcode changes nothing and uses no lookup. */
  lemma SubmitBlankIsNoOp(s: ViewState, found: Option<Product>)
    requires AllWhiteSpace(s.barcode)
    ensures Submitted(s, found) == s
  {
    TrimEmptyIff(s.barcode);
  }

  /** A failed lookup shows the not-found message on the warning colour and
      clears the product, its name and its brand; the barcode stays. */
  lemma SubmitNotFound(s: ViewState)
    requires !AllWhiteSpace(s.barcode)
    ensures Submitted(s, None)
         == ViewState(s.barcode, None, None, None, Some(NotFoundMessage), NotFoundColor)
  {
    TrimEmptyIff(s.barcode);
  }

  /** A found product is shown with its name and brand when they are
      strings, or the placeholders otherwise, and with the verdict of the
      soy classifier; the barcode stays. */
  lemma SubmitFound(s: ViewState, p: Product)
    requires !AllWhiteSpace(s.barcode)
    ensures var t := Submitted(s, Some(p));
            && t.barcode == s.barcode
            && t.product == Some(p)
            && t.productName == Some(if p.productName.Str? then p.productName.text else "Unknown Product")
            && t.brandName == Some(if p.brands.Str? then p.brands.text else "Unknown Brand")
            && (ProductContainsSoy(p) ==> t.resultMessage == Some("🚫 DON'T EAT THIS.") && t.bgColor == "pink")
            && (!ProductContainsSoy(p) ==> t.resultMessage == Some("✅ YOU'RE GOOD.") && t.bgColor == "lightgreen")
  {
    TrimEmptyIff(s.barcode);
  }

  /** A record without name and brand is still shown and classified. */
  lemma ScenarioNamelessProduct(s: ViewState, p: Product)
    requires !AllWhiteSpace(s.barcode)
    requires p.productName == Absent && p.brands == Absent
    ensures Submitted(s, Some(p)).productName == Some("Unknown Product")
    ensures Submitted(s, Some(p)).brandName == Some("Unknown Brand")
    ensures Submitted(s, Some(p)).resultMessage
         == Some(if ProductContainsSoy(p) then SoyMessage else NoSoyMessage)
  {
    SubmitFound(s, p);
  }

  /** Barcode "0" with no product found. */
  lemma ScenarioBarcodeZeroNotFound()
    ensures var t := Submitted(InitialView.(barcode := "0"), None);
            t.resultMessage == Some("❌ Product not found.") && t.bgColor == "#ffe0e0"
            && t.productName == None && t.brandName == None
  {
    assert !IsWhiteSpace('0');
    assert "0"[0] == '0';
    SubmitNotFound(InitialView.(barcode := "0"));
  }

  /** Submitting again against the same answer gives the same state. */
  lemma SubmitIdempotent(s: ViewState, found: Option<Product>)
    ensures Submitted(Submitted(s, found), found) == Submitted(s, found)
  {
  }

  /** Typing replaces the barcode and touches nothing else. */
  lemma InputChangeOnlyBarcode(s: ViewState, value: string)
    ensures InputChanged(s, value).barcode == value
    ensures InputChanged(s, value).(barcode := s.barcode) == s
  {
  }

  /** Clearing restores the initial values from any state, so it is
      idempotent and forgets the prior state. */
  lemma ClearResets(s: ViewState, t: ViewState)
    ensures Cleared(s) == ViewState("", None, None, None, None, "white")
    ensures Cleared(Cleared(s)) == Cleared(s)
    ensures Cleared(s) == Cleared(t)
  {
  }

  // ---------------------------------------------------------------------
  // The display is a projection of the product and the outcome
  // ---------------------------------------------------------------------

  /** The outcome of the last lookup. */
  datatype Outcome = Idle | NotFound | Found(p: Product)

  /** The view derived from the barcode and the outcome alone: how the
      name, brand, message and colour ought to look. */
  function ViewOf(barcode: string, o: Outcome): ViewState {
    match o
    case Idle => ViewState(barcode, None, None, None, None, InitialColor)
    case NotFound => ViewState(barcode, None, None, None, Some(NotFoundMessage), NotFoundColor)
    case Found(p) =>
      ViewState(barcode, Some(p), Some(DisplayName(p)), Some(DisplayBrand(p)),
                Some(if ProductContainsSoy(p) then SoyMessage else NoSoyMessage),
                if ProductContainsSoy(p) then SoyColor else NoSoyColor)
  }

  /** The outcome a state records. */
  function OutcomeOf(s: ViewState): Outcome {
    if s.product.Some? then Found(s.product.value)
    else if s.resultMessage.Some? then NotFound
    else Idle
  }

  /** The five display fields are exactly what the product and the outcome
      dictate. */
  predicate Consistent(s: ViewState) {
    s == ViewOf(s.barcode, OutcomeOf(s))
  }

  /** The events the page reacts to. */
  datatype Event = Input(value: string) | Submit(found: Option<Product>) | Clear

  function Step(s: ViewState, e: Event): ViewState {
    match e
    case Input(value) => InputChanged(s, value)
    case Submit(found) => Submitted(s, found)
    case Clear => Cleared(s)
  }

  /** The state after handling `events` in order, one at a time. */
  function Run(s: ViewState, events: seq<Event>): ViewState
    decreases |events|
  {
    if events == [] then s else Run(Step(s, events[0]), events[1..])
  }

  /** A non-blank submission moves to the view of its outcome. */
  lemma SubmitIsViewOf(s: ViewState, found: Option<Product>)
    requires !AllWhiteSpace(s.barcode)
    ensures Submitted(s, found) == ViewOf(s.barcode, if found.None? then NotFound else Found(found.value))
  {
    TrimEmptyIff(s.barcode);
  }

  /** Every handler keeps the display consistent. */
  lemma StepKeepsConsistent(s: ViewState, e: Event)
    requires Consistent(s)
    ensures Consistent(Step(s, e))
  {
    match e
    case Input(value) =>
    case Submit(found) =>
      if !AllWhiteSpace(s.barcode) {
        SubmitIsViewOf(s, found);
      } else {
        SubmitBlankIsNoOp(s, found);
      }
    case Clear =>
  }

  /** Any sequence of events keeps the display consistent. */
  lemma {:induction false} RunKeepsConsistent(s: ViewState, events: seq<Event>)
    requires Consistent(s)
    ensures Consistent(Run(s, events))
    decreases |events|
  {
    if events != [] {
      StepKeepsConsistent(s, events[0]);
      RunKeepsConsistent(Step(s, events[0]), events[1..]);
    }
  }

  /** In every state the page can reach, the display is consistent; a name
      and a brand are shown exactly when a product is, and they are that
      product's; message and colour come in one of the four fixed pairs;
      and a shown product carries the soy pair when it is flagged and the
      all-clear pair when it is not. */
  lemma ReachableDisplay(events: seq<Event>)
    ensures Consistent(Run(InitialView, events))
    ensures var s := Run(InitialView, events);
            && (s.productName.Some? <==> s.product.Some?)
            && (s.brandName.Some? <==> s.product.Some?)
            && (s.resultMessage, s.bgColor) in
                 {(None, InitialColor), (Some(NotFoundMessage), NotFoundColor),
                  (Some(SoyMessage), SoyColor), (Some(NoSoyMessage), NoSoyColor)}
            && (s.resultMessage == None || s.resultMessage == Some(NotFoundMessage) ==> s.product == None)
            && (s.product.Some? ==>
                  && s.productName == Some(DisplayName(s.product.value))
                  && s.brandName == Some(DisplayBrand(s.product.value))
                  && s.resultMessage == Some(if ProductContainsSoy(s.product.value) then SoyMessage else NoSoyMessage)
                  && s.bgColor == (if ProductContainsSoy(s.product.value) then SoyColor else NoSoyColor))
  {
    assert Consistent(InitialView);
    RunKeepsConsistent(InitialView, events);
  }
}

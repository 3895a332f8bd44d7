/**
 * The widget's session: what the click, change and submit handlers do to the
 * selection, the model dropdown, the visible wizard panel, the add-to-cart
 * button's mode, the cart and the checkout modals. Every handler is a pure
 * function from the session before to the session after; a handler that
 * refuses shows an alert and leaves the session as it was.
 */
module App {
  import opened Wrappers
  import opened Catalog
  import opened ModelSearch
  import opened Pricing
  import opened Cart
  import opened Checkout

  /** The visible wizard panel: brand and model, condition and issues, the offer. */
  datatype Step = Select | Condition | Quote

  /** The add-to-cart button: "Add to cart", or "Add more items" after an add. */
  datatype Mode = Idle | More

  /** The blocking messages the handlers can show. */
  datatype Alert = SelectBrandAndModel | CalculateFirst | CompleteAllFields

  /** The `state` object. */
  datatype Selection = Selection(
    brand: Option<string>,
    model: Option<string>,
    condition: string,
    issues: seq<string>,
    offer: Number)

  /** The selection on page load and after "Add more items". */
  const Fresh := Selection(None, None, "excellent", [], Finite(0))

  /**
   * Everything the handlers read or write: the selection, the model dropdown's
   * options (without the "Select model" placeholder), the visible panel, the
   * button mode, the cart, whether the cart drawer is open, and the checkout phase.
   */
  datatype Session = Session(
    sel: Selection,
    options: seq<string>,
    step: Step,
    mode: Mode,
    cart: seq<Item>,
    drawerOpen: bool,
    phase: Phase)

  /** A handler's outcome: the next session, and the alert shown if it refused. */
  datatype Reply = Reply(next: Session, alert: Option<Alert>)

  function Start(): Session {
    Session(Fresh, [], Select, Idle, [], false, Closed)
  }

  /** JavaScript truthiness of a possibly-null string. */
  predicate Truthy(o: Option<string>) {
    o.Some? && |o.value| > 0
  }

  /** The property name JavaScript looks up for a possibly-null key: `null` becomes "null". */
  function Key(o: Option<string>): string {
    if o.Some? then o.value else "null"
  }

  /** The session outside the selection and the dropdown is as it was. */
  predicate SameFlow(s: Session, r: Session) {
    r.step == s.step && r.mode == s.mode && r.cart == s.cart && r.drawerOpen == s.drawerOpen && r.phase == s.phase
  }

  /** A brand `data[brand]` can be read for without failing. */
  predicate KnownBrand(t: Table, brand: Option<string>) {
    Truthy(brand) ==> brand.value in BrandNames(t)
  }

  /** `Object.keys(data[brand])`, the model names of a listed brand in declared order. */
  function ModelsOf(t: Table, brand: string): seq<string>
    requires brand in BrandNames(t)
  {
    ModelNames(Lookup(t, brand).value)
  }

  /**
   * `populateModels`: clears the chosen model and fills the model dropdown
   * with the chosen brand's models, or leaves it empty when no brand is chosen.
   */
  function PopulateModels(t: Table, s: Session): (r: Session)
    requires KnownBrand(t, s.sel.brand)
    ensures r.sel == s.sel.(model := None) && SameFlow(s, r)
    ensures !Truthy(s.sel.brand) ==> r.options == []
    ensures Valid(t) && Truthy(s.sel.brand) ==>
      forall i :: 0 <= i < |t| && t[i].name == s.sel.brand.value ==> r.options == ModelNames(t[i])
  {
    var options := if Truthy(s.sel.brand) then ModelsOf(t, s.sel.brand.value) else [];
    assert Valid(t) && Truthy(s.sel.brand) ==>
      forall i :: 0 <= i < |t| && t[i].name == s.sel.brand.value ==> Lookup(t, t[i].name) == Some(t[i]) by {
      if Valid(t) {
        forall i | 0 <= i < |t| { LookupValid(t, i); }
      }
    }
    s.(sel := s.sel.(model := None), options := options)
  }

  /** A click on a brand pill: the brand is chosen and its models listed. */
  function ClickBrandCard(t: Table, s: Session, brand: string): (r: Session)
    requires brand in BrandNames(t)
    ensures r.sel == s.sel.(brand := Some(brand), model := None) && SameFlow(s, r)
    ensures Valid(t) ==> forall i :: 0 <= i < |t| && t[i].name == brand ==> r.options == ModelNames(t[i])
  {
    PopulateModels(t, s.(sel := s.sel.(brand := Some(brand))))
  }

  /** A change of the brand dropdown; its empty placeholder value means no brand. */
  function ChangeBrand(t: Table, s: Session, value: string): (r: Session)
    requires value == "" || value in BrandNames(t)
    ensures value == "" ==> r.sel == s.sel.(brand := None, model := None) && r.options == []
    ensures value != "" ==> r.sel == s.sel.(brand := Some(value), model := None)
    ensures Valid(t) ==> forall i :: 0 <= i < |t| && t[i].name == value ==> r.options == ModelNames(t[i])
    ensures SameFlow(s, r)
  {
    PopulateModels(t, s.(sel := s.sel.(brand := if value == "" then None else Some(value))))
  }

  /** A change of the model dropdown; its empty placeholder value means no model. */
  function ChangeModel(s: Session, value: string): (r: Session)
    ensures value == "" ==> r.sel.model == None
    ensures value != "" ==> r.sel.model == Some(value)
    ensures r.sel.brand == s.sel.brand && r.sel.condition == s.sel.condition
    ensures r.sel.issues == s.sel.issues && r.sel.offer == s.sel.offer
    ensures r.options == s.options && SameFlow(s, r)
  {
    s.(sel := s.sel.(model := if value == "" then None else Some(value)))
  }

  /**
   * A click on a search result card: brand and model are both chosen and the
   * model dropdown is collapsed to that single model.
   */
  function PickResult(s: Session, p: Pick): (r: Session)
    ensures r.sel.brand == Some(p.brand) && r.sel.model == Some(p.model) && r.options == [p.model]
    ensures r.sel.condition == s.sel.condition && r.sel.issues == s.sel.issues && r.sel.offer == s.sel.offer
    ensures SameFlow(s, r)
  {
    s.(sel := s.sel.(brand := Some(p.brand), model := Some(p.model)), options := [p.model])
  }

  /** "Next" on the first panel: refused unless both a brand and a model are chosen. */
  function ToStep2(s: Session): (r: Reply)
    ensures r.alert.None? <==> Truthy(s.sel.brand) && Truthy(s.sel.model)
    ensures r.alert.Some? ==> r.next == s && r.alert == Some(SelectBrandAndModel)
    ensures r.alert.None? ==> r.next == s.(step := Condition)
  {
    if !Truthy(s.sel.brand) || !Truthy(s.sel.model) then Reply(s, Some(SelectBrandAndModel))
    else Reply(s.(step := Condition), None)
  }

  /** "Back" on the condition panel: always allowed, nothing is cleared. */
  function BackTo1(s: Session): (r: Session)
    ensures r.step == Select && r.sel == s.sel && r.options == s.options
    ensures r.mode == s.mode && r.cart == s.cart && r.drawerOpen == s.drawerOpen && r.phase == s.phase
  {
    s.(step := Select)
  }

  /** "Back" on the offer panel: always allowed, nothing is cleared. */
  function BackTo2(s: Session): (r: Session)
    ensures r.step == Condition && r.sel == s.sel && r.options == s.options
    ensures r.mode == s.mode && r.cart == s.cart && r.drawerOpen == s.drawerOpen && r.phase == s.phase
  {
    s.(step := Condition)
  }

  /**
   * `calculateOffer`: stores the checked condition (default "excellent") and
   * the ticked issues, then reads `data[brand][model]`. When `data[brand]` is
   * undefined that read throws and the handler stops, having changed nothing
   * else. Otherwise the offer is computed (NaN when the model is not listed,
   * a missing model being looked up as "null"), the offer panel shows and the
   * button goes back to "Add to cart".
   */
  function Calculate(t: Table, s: Session, checked: Option<string>, issues: seq<string>): (r: Session)
    ensures r.sel.condition == checked.GetOr("excellent") && r.sel.issues == issues
    ensures r.sel.brand == s.sel.brand && r.sel.model == s.sel.model && r.options == s.options
    ensures r.cart == s.cart && r.drawerOpen == s.drawerOpen && r.phase == s.phase
    ensures Key(s.sel.brand) !in BrandNames(t) ==> r.sel.offer == s.sel.offer && r.step == s.step && r.mode == s.mode
    ensures Key(s.sel.brand) in BrandNames(t) ==>
      && r.step == Quote && r.mode == Idle
      && (r.sel.offer.NaN? <==> Price(t, Key(s.sel.brand), Key(s.sel.model)).None?)
      && (Price(t, Key(s.sel.brand), Key(s.sel.model)).Some? ==>
            r.sel.offer == Finite(Offer(Price(t, Key(s.sel.brand), Key(s.sel.model)).value, r.sel.condition, issues)))
  {
    var condition := checked.GetOr("excellent");
    var read := s.(sel := s.sel.(condition := condition, issues := issues));
    if Key(s.sel.brand) !in BrandNames(t) then read
    else
      var price := Price(t, Key(s.sel.brand), Key(s.sel.model));
      read.(sel := read.sel.(offer := OfferFor(price, condition, issues)), step := Quote, mode := Idle)
  }

  /**
   * The add-to-cart button. In "Add more items" mode it starts over: fresh
   * selection, empty dropdown, first panel, button back to "Add to cart", cart
   * kept. Otherwise it refuses while the offer is 0 or NaN or no model is
   * chosen, and else appends a snapshot of the selection, opens the drawer and
   * switches to "Add more items".
   */
  function AddToCart(s: Session): (r: Reply)
    ensures s.mode == More ==>
      r == Reply(s.(sel := Fresh, options := [], step := Select, mode := Idle), None)
    ensures s.mode == Idle && (!Nonzero(s.sel.offer) || !Truthy(s.sel.model)) ==>
      r == Reply(s, Some(CalculateFirst))
    ensures s.mode == Idle && Nonzero(s.sel.offer) && Truthy(s.sel.model) ==>
      && r.alert.None?
      && r.next.cart == s.cart + [Item(s.sel.brand, s.sel.model.value, s.sel.condition, s.sel.offer.value)]
      && r.next.mode == More && r.next.drawerOpen
      && r.next.sel == s.sel && r.next.options == s.options && r.next.step == s.step && r.next.phase == s.phase
  {
    if s.mode == More then
      Reply(s.(sel := Fresh, options := [], step := Select, mode := Idle), None)
    else if !Nonzero(s.sel.offer) || !Truthy(s.sel.model) then
      Reply(s, Some(CalculateFirst))
    else
      var item := Item(s.sel.brand, s.sel.model.value, s.sel.condition, s.sel.offer.value);
      Reply(s.(cart := s.cart + [item], drawerOpen := true, mode := More), None)
  }

  /** "Checkout": the details form opens. */
  function OpenCheckout(s: Session): (r: Session)
    ensures r.phase == Details && r.sel == s.sel && r.options == s.options
    ensures r.step == s.step && r.mode == s.mode && r.cart == s.cart && r.drawerOpen == s.drawerOpen
  {
    s.(phase := Details)
  }

  /**
   * Closing the details form, the payment choice or the success note (its
   * close button and "Go home" alike): nothing else happens.
   */
  function CloseModal(s: Session): (r: Session)
    ensures r.phase == Closed && r.sel == s.sel && r.options == s.options
    ensures r.step == s.step && r.mode == s.mode && r.cart == s.cart && r.drawerOpen == s.drawerOpen
  {
    s.(phase := Closed)
  }

  /** Submitting the details form: on to the payment choice only if every value is filled. */
  function SubmitDetails(s: Session, values: seq<string>): (r: Reply)
    ensures r.alert.None? <==> forall k :: 0 <= k < |values| ==> Filled(values[k])
    ensures r.alert.None? ==> r.next == s.(phase := Payment)
    ensures r.alert.Some? ==> r.next == s && r.alert == Some(CompleteAllFields)
  {
    if FormComplete(values) then Reply(s.(phase := Payment), None)
    else Reply(s, Some(CompleteAllFields))
  }

  /** Confirming payment: the success note shows and the cart is emptied. */
  function ConfirmPayment(s: Session): (r: Session)
    ensures r.phase == Done && r.cart == []
    ensures Total(r.cart) == 0 && Count(r.cart) == 0
    ensures r.sel == s.sel && r.options == s.options && r.mode == s.mode && r.step == s.step
    ensures r.drawerOpen == s.drawerOpen
  {
    s.(phase := Done, cart := [])
  }
}

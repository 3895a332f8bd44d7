/**
 * The handlers as one transition system: the user's actions as events, the
 * conditions under which the page can deliver each event, and the invariant
 * every reachable session keeps.
 */
module Machine {
  import opened Wrappers
  import opened Seqs
  import opened Catalog
  import opened ModelSearch
  import opened Pricing
  import opened Cart
  import opened Checkout
  import opened App

  datatype Event =
    | BrandCardClicked(brand: string)
    | BrandChanged(value: string)
    | ModelChanged(value: string)
    | ResultClicked(query: string, pick: Pick)
    | NextClicked
    | BackToSelect
    | BackToCondition
    | CalculateClicked(checked: Option<string>, issues: seq<string>)
    | AddToCartClicked
    | CheckoutClicked
    | ModalClosed
    | DetailsSubmitted(values: seq<string>)
    | PaymentConfirmed
    | SuccessDismissed

  /**
   * What the page guarantees about an event: dropdown values come from the
   * dropdown's own options, a result card belongs to the current listing, and
   * each button is on the panel or modal that is showing.
   */
  predicate Enabled(t: Table, s: Session, e: Event) {
    match e
    case BrandCardClicked(b) => b in BrandNames(t)
    case BrandChanged(v) => v == "" || v in BrandNames(t)
    case ModelChanged(v) => v == "" || v in s.options
    case ResultClicked(q, p) => p in Results(t, q)
    case NextClicked => s.step == Select
    case BackToSelect => s.step == Condition
    case BackToCondition => s.step == Quote
    case CalculateClicked(_, _) => s.step == Condition
    case AddToCartClicked => s.step == Quote
    case CheckoutClicked => true
    case ModalClosed => s.phase == Details || s.phase == Payment
    case DetailsSubmitted(_) => s.phase == Details
    case PaymentConfirmed => s.phase == Payment
    case SuccessDismissed => s.phase == Done
  }

  /**
   * The session invariant: a chosen brand is in the table; with no brand the
   * dropdown is empty and no model is chosen; the dropdown lists only models of
   * the chosen brand; a chosen model is one of the dropdown's options; the
   * offer is never negative (though it may be NaN); and every cart price is positive.
   */
  predicate Inv(t: Table, s: Session) {
    && (s.sel.brand.Some? ==> s.sel.brand.value in BrandNames(t))
    && (s.sel.brand.None? ==> s.options == [] && s.sel.model.None?)
    && (s.sel.brand.Some? ==> forall o :: o in s.options ==> o in ModelsOf(t, s.sel.brand.value))
    && (s.sel.model.Some? ==> s.sel.model.value in s.options)
    && (s.sel.offer.Finite? ==> s.sel.offer.value >= 0)
    && (forall k :: 0 <= k < |s.cart| ==> s.cart[k].price > 0)
  }

  /** A chosen model is always a real entry of the chosen brand: `data[brand][model]` exists and is not negative. */
  lemma ChosenModelPriced(t: Table, s: Session)
    requires Valid(t) && Inv(t, s) && s.sel.model.Some?
    ensures s.sel.brand.Some? && Truthy(s.sel.brand) && Truthy(s.sel.model)
    ensures Price(t, s.sel.brand.value, s.sel.model.value).Some?
    ensures Price(t, s.sel.brand.value, s.sel.model.value).value >= 0
  {
    var b := Lookup(t, s.sel.brand.value).value;
    var m := s.sel.model.value;
    assert m in ModelNames(b);
    var j :| 0 <= j < |b.models| && ModelNames(b)[j] == m;
    var i :| 0 <= i < |t| && t[i] == b;
    assert ValidBrand(t[i]);
  }

  /**
   * With a brand chosen, calculating gives NaN exactly when no model is chosen
   * (and the brand has no model literally named "null"). This happens after a
   * brand pill is clicked on the condition panel, which clears the model: the
   * page then shows a NaN offer that the add-to-cart guard refuses.
   */
  lemma CalculateNaNIff(t: Table, s: Session, c: Option<string>, issues: seq<string>)
    requires Valid(t) && Inv(t, s) && s.sel.brand.Some?
    ensures Calculate(t, s, c, issues).sel.offer.NaN? <==>
      s.sel.model.None? && "null" !in ModelsOf(t, s.sel.brand.value)
    ensures Calculate(t, s, c, issues).sel.offer.NaN? ==>
      AddToCart(Calculate(t, s, c, issues)).alert == Some(CalculateFirst)
  {
    if s.sel.model.Some? {
      ChosenModelPriced(t, s);
    } else {
      var b := Lookup(t, s.sel.brand.value).value;
      if "null" in ModelNames(b) {
        var j :| 0 <= j < |b.models| && ModelNames(b)[j] == "null";
        assert b.models[j].name == "null";
      }
    }
  }

  /** One event. */
  function Apply(t: Table, s: Session, e: Event): Session
    requires Valid(t) && Inv(t, s) && Enabled(t, s, e)
  {
    match e
    case BrandCardClicked(b) => ClickBrandCard(t, s, b)
    case BrandChanged(v) => ChangeBrand(t, s, v)
    case ModelChanged(v) => ChangeModel(s, v)
    case ResultClicked(_, p) => PickResult(s, p)
    case NextClicked => ToStep2(s).next
    case BackToSelect => BackTo1(s)
    case BackToCondition => BackTo2(s)
    case CalculateClicked(c, issues) => Calculate(t, s, c, issues)
    case AddToCartClicked => AddToCart(s).next
    case CheckoutClicked => OpenCheckout(s)
    case ModalClosed => CloseModal(s)
    case DetailsSubmitted(values) => SubmitDetails(s, values).next
    case PaymentConfirmed => ConfirmPayment(s)
    case SuccessDismissed => CloseModal(s)
  }

  /** The page as first shown keeps the invariant. */
  lemma StartInv(t: Table)
    ensures Inv(t, Start())
  {
  }

  /** A clicked search result names a real (brand, model) entry, so choosing it keeps the invariant. */
  lemma PickKeepsInv(t: Table, s: Session, q: string, p: Pick)
    requires Valid(t) && Inv(t, s) && p in Results(t, q)
    ensures Inv(t, PickResult(s, p))
    ensures Price(t, p.brand, p.model).Some?
  {
    ResultsArePriced(t, q, p);
    var b := Lookup(t, p.brand).value;
    var j :| 0 <= j < |b.models| && b.models[j].name == p.model;
    assert ModelNames(b)[j] == p.model;
  }

  /** Calculating keeps the invariant, whether it prices the model, yields NaN or throws. */
  lemma CalculateKeepsInv(t: Table, s: Session, c: Option<string>, issues: seq<string>)
    requires Valid(t) && Inv(t, s)
    ensures Inv(t, Calculate(t, s, c, issues))
  {
    var price := Price(t, Key(s.sel.brand), Key(s.sel.model));
    if Key(s.sel.brand) in BrandNames(t) && price.Some? {
      PriceNonNegative(t, Key(s.sel.brand), Key(s.sel.model));
    }
  }

  /** The add-to-cart button keeps the invariant: only a non-zero offer is ever added. */
  lemma AddKeepsInv(t: Table, s: Session)
    requires Valid(t) && Inv(t, s)
    ensures Inv(t, AddToCart(s).next)
  {
    var r := AddToCart(s).next;
    if s.mode == Idle && Nonzero(s.sel.offer) && Truthy(s.sel.model) {
      forall k | 0 <= k < |r.cart| ensures r.cart[k].price > 0 {
        if k < |s.cart| { assert r.cart[k] == s.cart[k]; }
      }
    }
  }

  /** Every enabled event keeps the invariant. */
  lemma ApplyKeepsInv(t: Table, s: Session, e: Event)
    requires Valid(t) && Inv(t, s) && Enabled(t, s, e)
    ensures Inv(t, Apply(t, s, e))
  {
    match e
    case ResultClicked(q, p) =>
      PickKeepsInv(t, s, q, p);
    case CalculateClicked(c, issues) =>
      CalculateKeepsInv(t, s, c, issues);
    case AddToCartClicked =>
      AddKeepsInv(t, s);
    case _ =>
  }

  /** A run of events the page can deliver, one after another. */
  predicate Admissible(t: Table, s: Session, es: seq<Event>)
    requires Valid(t) && Inv(t, s)
    decreases |es|
  {
    |es| == 0 || (Enabled(t, s, es[0]) && (ApplyKeepsInv(t, s, es[0]); Admissible(t, Apply(t, s, es[0]), es[1..])))
  }

  /** The session after a run of events. */
  function Run(t: Table, s: Session, es: seq<Event>): (r: Session)
    requires Valid(t) && Inv(t, s) && Admissible(t, s, es)
    ensures Inv(t, r)
    decreases |es|
  {
    if |es| == 0 then s
    else
      ApplyKeepsInv(t, s, es[0]);
      Run(t, Apply(t, s, es[0]), es[1..])
  }

  /** Every session the page can reach from the start keeps the invariant. */
  lemma ReachableInv(t: Table, es: seq<Event>)
    requires Valid(t) && Admissible(t, Start(), es)
    ensures Inv(t, Run(t, Start(), es))
  {
  }

  /** In a reachable session the cart total is positive exactly when the cart is not empty. */
  lemma ReachableTotal(t: Table, es: seq<Event>)
    requires Valid(t) && Admissible(t, Start(), es)
    ensures var s := Run(t, Start(), es); Total(s.cart) > 0 <==> Count(s.cart) > 0
  {
    var s := Run(t, Start(), es);
    TotalZeroIffEmpty(s.cart);
  }

  /** A successful add grows the cart by one and the total by exactly the offer. */
  lemma AddGrowsCart(s: Session)
    requires s.mode == Idle && Nonzero(s.sel.offer) && Truthy(s.sel.model)
    ensures Count(AddToCart(s).next.cart) == Count(s.cart) + 1
    ensures Total(AddToCart(s).next.cart) == Total(s.cart) + s.sel.offer.value
  {
    TotalAppend(s.cart, Item(s.sel.brand, s.sel.model.value, s.sel.condition, s.sel.offer.value));
  }

  /**
   * Right after a calculation for a model priced at least 1, adding to the
   * cart is never refused: the "offer is 0" guard only ever blocks sessions
   * that have not been priced.
   */
  lemma CalculatedOfferAddable(t: Table, s: Session, c: Option<string>, issues: seq<string>)
    requires Truthy(s.sel.brand) && Truthy(s.sel.model)
    requires Price(t, s.sel.brand.value, s.sel.model.value).Some?
    requires Price(t, s.sel.brand.value, s.sel.model.value).value >= 1
    ensures AddToCart(Calculate(t, s, c, issues)).alert.None?
    ensures AddToCart(Calculate(t, s, c, issues)).next.mode == More
  {
    var base := Price(t, s.sel.brand.value, s.sel.model.value).value;
    OfferPositive(base, c.GetOr("excellent"), issues);
  }

  /**
   * Picking a search result while the offer panel shows does not recompute or
   * clear the offer, so the next add stores the earlier offer under the newly
   * picked brand and model.
   */
  lemma PickAfterQuoteKeepsOffer(s: Session, p: Pick)
    requires s.step == Quote && s.mode == Idle && Nonzero(s.sel.offer) && |p.model| > 0
    ensures AddToCart(PickResult(s, p)).alert.None?
    ensures AddToCart(PickResult(s, p)).next.cart
         == s.cart + [Item(Some(p.brand), p.model, s.sel.condition, s.sel.offer.value)]
  {
  }

  /** Whatever happened before, confirming payment leaves a cart that shows 0 items and a total of 0. */
  lemma PaymentEmptiesCart(t: Table, es: seq<Event>)
    requires Valid(t) && Admissible(t, Start(), es)
    requires Run(t, Start(), es).phase == Payment
    ensures Admissible(t, Start(), es + [PaymentConfirmed])
    ensures Admissible(t, Start(), es + [PaymentConfirmed]) &&
      var s := Run(t, Start(), es + [PaymentConfirmed]);
      s.cart == [] && Total(s.cart) == 0 && Count(s.cart) == 0
  {
    RunSnoc(t, Start(), es, PaymentConfirmed);
  }

  /** Running one more event after a run is applying it to the run's result. */
  lemma {:induction false} RunSnoc(t: Table, s: Session, es: seq<Event>, e: Event)
    requires Valid(t) && Inv(t, s) && Admissible(t, s, es)
    requires Enabled(t, Run(t, s, es), e)
    ensures Admissible(t, s, es + [e])
    ensures Run(t, s, es + [e]) == Apply(t, Run(t, s, es), e)
    decreases |es|
  {
    if |es| == 0 {
      assert es + [e] == [e];
      ApplyKeepsInv(t, s, e);
      assert [e][1..] == [];
    } else {
      ApplyKeepsInv(t, s, es[0]);
      assert (es + [e])[1..] == es[1..] + [e];
      RunSnoc(t, Apply(t, s, es[0]), es[1..], e);
    }
  }
}

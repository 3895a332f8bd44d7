/** Concrete flows through the shipped table. */
module Scenarios {
  import opened Wrappers
  import opened Text
  import opened Catalog
  import opened Pricing
  import opened Cart
  import opened Checkout
  import opened App

  /** The shipped table prices Apple "iPhone 13" at 40000. */
  lemma IPhone13Listed()
    ensures "Apple" in BrandNames(Data())
    ensures Price(Data(), "Apple", "iPhone 13") == Some(40000)
  {
    assert BrandNames(Data())[0] == "Apple";
  }

  /**
   * Apple "iPhone 13", fair, one issue: the offer is 20400, and adding it
   * appends exactly one item of 20400 to the cart.
   */
  lemma IPhone13FairQuote(s: Session)
    requires s.sel.brand == Some("Apple") && s.sel.model == Some("iPhone 13")
    ensures Price(Data(), "Apple", "iPhone 13") == Some(40000)
    ensures Calculate(Data(), s, Some("fair"), ["battery"]).sel.offer == Finite(20400)
    ensures AddToCart(Calculate(Data(), s, Some("fair"), ["battery"])).next.cart
         == s.cart + [Item(Some("Apple"), "iPhone 13", "fair", 20400)]
  {
    IPhone13Listed();
    IPhone13FairWithIssue();
  }

  /** A details form whose date is left blank is refused and nothing changes. */
  lemma BlankDateRefused(s: Session)
    ensures SubmitDetails(s, ["Asha", "9876543210", "12 Hill Road", " "]) == Reply(s, Some(CompleteAllFields))
  {
    BlankValueRejects(["Asha", "9876543210", "12 Hill Road", " "], 3);
  }

  /** A fully filled details form moves on to the payment choice. */
  lemma FilledDetailsAccepted(s: Session)
    ensures SubmitDetails(s, ["Asha", "9876543210", "12 Hill Road", "2025-01-31"]).next.phase == Payment
  {
    NamedFieldFilled("Asha");
    NamedFieldFilled("9876543210");
    NamedFieldFilled("12 Hill Road");
    NamedFieldFilled("2025-01-31");
  }

  /** A value that starts with a character other than white space is filled. */
  lemma NamedFieldFilled(v: string)
    requires |v| > 0 && !IsSpace(v[0])
    ensures Filled(v)
  {
    FilledIff(v);
  }
}

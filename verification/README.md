# Phone trade-in widget — a Dafny model

This project models the logic of `app.js`, a single-page trade-in widget. The
user picks a phone by brand and model, either with the dropdowns and brand pills
or with a free-text model search. The user then states the condition and any
issues and gets an offer, which is the catalog price discounted and rounded once.
The offer can be added to a cart, and the user can check out through a details
form and a payment choice. A separate helper guesses the visitor's phone from the
browser's identification string.

The model has these modules:

- **Text**: JavaScript's `trim` (the full ECMAScript white-space and
  line-terminator set), ASCII lower and upper case, `includes`, and `capitalize`.
- **Seqs**: order-preserving filtering, with a uniqueness theorem.
- **Catalog**: the static price table, as a `Table` parameter with
  `Data()` the shipped six brands.
- **ModelSearch**: the live search.
- **Pricing**: the offer calculator, in exact rationals.
- **Cart**: cart items, the total and the count.
- **Checkout**: form validation.
- **Device**: the device guess.
- **App**: one pure function per click, change or submit handler. A handler maps
  the session before to the session after. A handler that refuses shows an
  `Alert` and returns the session unchanged.
- **Machine**: the handlers as a transition system. It states which events the
  page can deliver in which session (`Enabled`). It proves that an invariant
  holds in every reachable session.
- **Scenarios**: concrete flows through the shipped table.

## Model

| member | source | states |
|---|---|---|
| Catalog.BrandNames | app.js:43 | the brand list is the table's brand names, in declaration order |
| Catalog.ModelNames | app.js:75 | a brand's model list is its model names, in declaration order |
| Catalog.Lookup | app.js:75 | `data[brand]` finds a brand exactly when the name is listed, and returns the first brand with that name |
| Catalog.LookupValid | app.js:24-31 | with distinct brand names, looking up any listed brand's name returns that brand |
| Catalog.PriceIn | app.js:167 | `data[brand][model]` yields a price exactly when the brand lists that model, and the price is the listed one |
| Catalog.BrandPicks | app.js:101 | one (brand, model) pair per model of the brand, in order |
| Catalog.PicksArePriced | app.js:100-102 | a (brand, model) pair is enumerated by the search loops exactly when the table prices it |
| Catalog.PicksDistinct | app.js:100-101 | the search loops never enumerate the same pair twice |
| Catalog.PickBrandListed | app.js:100 | every enumerated pair names a listed brand |
| Catalog.DataValid | app.js:24-31 | the shipped table has distinct non-empty brand and model names, none of them an array index, and no negative price |
| Catalog.ArrayIndexExamples | app.js:24-31 | "10" and "0" are array-index names that `Object.keys` would list first; "010" and "iPhone 12" are not |
| Catalog.ArrayIndexBound | app.js:24-31 | "4294967295" (2^32 - 1) is not an array index |
| Catalog.PriceNonNegative | app.js:167 | on a valid table every price `data[brand][model]` yields is at least 0 |
| Scenarios.IPhone13Listed | app.js:25 | the shipped table prices Apple "iPhone 13" at 40000 |
| Text.Lead | app.js:96 | the count of leading white space that `trim` removes |
| Text.Tail | app.js:96 | the end of the text before the trailing white space that `trim` removes |
| Text.Trim | app.js:96 | the trimmed text is no longer than the input and, if not empty, neither starts nor ends with white space |
| Text.TrimStrips | app.js:96 | the trimmed text is a slice of the input with only white space around it |
| Text.TrimUnique | app.js:96 | any slice with only white space around it and no white space at its ends is the trimmed text |
| Text.TrimEmptyIffBlank | app.js:96 | trimming gives the empty text exactly when the input is all white space |
| Text.TrimPadded | app.js:96 | any white space added before and after the input does not change the trimmed text |
| Text.TrimLowerCommute | app.js:96 | trimming then lower-casing equals lower-casing then trimming |
| Text.LowerStrips | app.js:96 | lower-casing keeps white space around a slice in place |
| Text.LowerKeepsSpace | app.js:96 | lower-casing never turns white space into other text, or the reverse |
| Text.Lower | app.js:96 | `toLowerCase` keeps the length and maps each character on its own |
| Text.LowerIdempotent | app.js:96 | lower-casing twice is lower-casing once |
| Text.ContainsIff | app.js:102 | `includes` holds exactly when the needle occurs at some position |
| Text.ContainsComplete | app.js:102 | an occurrence at any position is found |
| Text.ContainsSound | app.js:102 | a reported match is an occurrence at some position |
| Text.ContainsEmpty | app.js:102 | the empty needle occurs in every text |
| Text.OccursShift | app.js:102 | an occurrence past the first character is an occurrence in the rest of the text |
| Text.Capitalize | app.js:7 | the first character is upper-cased, the rest is unchanged, and the length is kept |
| Text.CapitalizeIdempotent | app.js:7 | capitalizing twice is capitalizing once |
| Text.CapitalizeOnlyChangesCase | app.js:7 | capitalizing changes nothing but letter case |
| Seqs.Filter | app.js:100-102 | the kept items are exactly the matching ones, in their original order |
| Seqs.FilterUnique | app.js:100-102 | a list is the filter's result if it holds exactly the matching items of a duplicate-free list in their original order |
| Seqs.SubseqMembers | app.js:100-102 | an order-preserving selection holds only items of the source list |
| Seqs.SubseqDistinct | app.js:100-102 | an order-preserving selection from a duplicate-free list is duplicate-free |
| ModelSearch.Results | app.js:95-121 | a query shorter than 2 characters after trimming lists nothing; otherwise the result is exactly the table's pairs whose lower-cased model name contains the lower-cased query, in table order |
| ModelSearch.ResultsDetermined | app.js:100-102 | any duplicate-free, order-preserving list of exactly the matching pairs is the result |
| ModelSearch.ResultsArePriced | app.js:100-113 | every result card names a brand and model the table prices |
| ModelSearch.ResultsDistinct | app.js:100-102 | no result card appears twice |
| ModelSearch.BrandIgnored | app.js:102 | the brand name plays no part in matching |
| ModelSearch.CaseAndPaddingIgnored | app.js:96 | letter case and any white space around the query do not change the result |
| Pricing.Round | app.js:172 | `Math.round` returns the integer nearest to the input, with halves rounded up |
| Pricing.Offer | app.js:167-172 | an offer lies between 0 and the base price |
| Pricing.OfferFor | app.js:167-172 | the offer is NaN exactly when the price lookup found nothing; otherwise it lies between 0 and the price |
| Pricing.OfferInIntegers | app.js:167-172 | the offer equals the exact integer product base·c/5·d/20 rounded half up once |
| Pricing.ExcellentIntactIsBase | app.js:162-172 | an excellent phone with no issue gets its full base price |
| Pricing.IssueCountIrrelevant | app.js:170 | only the presence of issues matters, not their number or names |
| Pricing.OtherConditionsUndiscounted | app.js:168-169 | a condition other than "good" or "fair" is not discounted |
| Pricing.DiscountsOrdered | app.js:168-170 | fair ≤ good ≤ excellent with any issues ticked, and in any condition ticking issues never raises the offer |
| Pricing.OfferPositive | app.js:167-172 | a base price of at least 1 gives an offer of at least 1 |
| Pricing.OfferMonotone | app.js:167-172 | a dearer model never gets a smaller offer |
| Pricing.RoundingOnce | app.js:167-172 | rounding happens once at the end: base 2, good, one issue gives 1, whereas rounding after each step would give 2 |
| Pricing.IPhone13FairWithIssue | app.js:167-172 | 40000, fair, one issue gives 20400 |
| Cart.Total | app.js:241-244 | with positive prices the total is at least the number of items |
| Cart.Render | app.js:240-258 | the loop's total is the sum of the prices and the count is the cart length |
| Cart.TotalAppend | app.js:220-227 | adding an item raises the total by its price and the count by one |
| Cart.TotalConcat | app.js:241-244 | the total of two carts joined is the sum of their totals |
| Cart.EmptyCartShowsZero | app.js:371-372 | an emptied cart shows total 0 and count 0 |
| Cart.TotalZeroIffEmpty | app.js:241-244 | with positive prices the total is 0 exactly when the cart is empty |
| Checkout.FormComplete | app.js:293-294 | the form passes exactly when every value is non-blank after trimming |
| Checkout.FilledIff | app.js:294 | a value is filled exactly when it holds a character that is not white space |
| Checkout.BlankValueRejects | app.js:294-296 | any all-white-space value fails the form |
| Device.Detect | app.js:397-403 | the guess is Apple exactly when "iphone" occurs in any case; it is Samsung exactly when "iphone" does not occur and "samsung", "sm-" or "galaxy" does |
| Device.IPhoneWins | app.js:397-399 | an iPhone mention wins over a Samsung mention |
| Device.UnknownIff | app.js:401-402 | no guess is made exactly when no pattern occurs |
| Device.CaseBlind | app.js:397-399 | letter case in the identification string never changes the guess |
| Device.IPhoneAnywhere | app.js:397 | "iPhone" in any letter case at any position is recognised |
| Device.MessageIdentifies | app.js:397-403 | the three result texts differ, so the text shown tells which guess was made |
| App.PopulateModels | app.js:71-81 | the chosen model is cleared; the dropdown is empty without a brand, and otherwise lists the brand's models in order |
| App.ClickBrandCard | app.js:55-58 | a pill chooses its brand, clears the model and lists the brand's models |
| App.ChangeBrand | app.js:65-67 | the empty placeholder value means no brand; any other value chooses that brand; either way the model is cleared and the dropdown refilled |
| App.ChangeModel | app.js:83-85 | the empty placeholder value means no model; any other value chooses that model; the brand, condition, issues, offer, dropdown and everything outside the selection stay as they were |
| App.PickResult | app.js:108-113 | a result card chooses both its brand and its model and collapses the dropdown to that one model |
| App.ToStep2 | app.js:132-140 | "Next" is refused with an alert and no change exactly when the brand or the model is missing; otherwise it moves to the condition panel |
| App.BackTo1 | app.js:142-146 | "Back" returns to the first panel; the selection, dropdown, button mode, cart, drawer and modal stay as they were |
| App.BackTo2 | app.js:150-153 | "Back" returns to the condition panel; the selection, dropdown, button mode, cart, drawer and modal stay as they were |
| App.Calculate | app.js:159-187 | the condition (default "excellent") and the issues are always stored; if `data[brand]` is undefined the handler throws and nothing else changes; otherwise the offer is NaN exactly when `data[brand][model]` is undefined (a missing model looked up as "null") and is the computed offer otherwise, the offer panel shows and the button returns to "Add to cart"; brand, model, dropdown, cart, drawer and modal are kept |
| App.AddToCart | app.js:192-233 | "Add more items" resets the selection and the dropdown and returns to the first panel, keeping the cart; otherwise an offer of 0 or NaN, or a missing model, is refused with no change; otherwise a snapshot item is appended, the drawer opens and the button switches to "Add more items" |
| App.OpenCheckout | app.js:275-283 | checkout opens the details form; the selection, dropdown, panel, button mode, cart and drawer stay as they were |
| App.CloseModal | app.js:286 | closing a modal changes nothing else: the selection, dropdown, panel, button mode, cart and drawer stay as they were; the payment choice (app.js:358) and the success note (app.js:376-385) close the same way |
| App.SubmitDetails | app.js:289-301 | submitting moves on to the payment choice exactly when every value is filled; otherwise it alerts and changes nothing |
| App.ConfirmPayment | app.js:361-373 | confirming payment shows the success note and empties the cart, so it shows total 0 and count 0; the selection, dropdown, panel, button mode and drawer stay as they were |
| Machine.ChosenModelPriced | app.js:167 | in a session that keeps the invariant, a chosen model has a table price that is not negative, so `data[brand][model]` is defined |
| Machine.CalculateNaNIff | app.js:167-172 | with a brand chosen, calculating gives NaN exactly when no model is chosen (and no model is named "null"), and a NaN offer is then refused by the add-to-cart guard |
| Machine.CalculateKeepsInv | app.js:159-187 | calculating keeps the invariant whether it prices the model, yields NaN or throws |
| Machine.AddKeepsInv | app.js:192-233 | the add-to-cart button keeps the invariant; only a non-zero, non-NaN offer enters the cart |
| Machine.StartInv | app.js:12-19 | the page on load keeps the invariant |
| Machine.PickKeepsInv | app.js:108-113 | a clicked search result keeps the invariant and has a price |
| Machine.ApplyKeepsInv | app.js:55-385 | every event the page can deliver keeps the invariant, including a calculation after a brand pill has cleared the model |
| Machine.Run | app.js:55-385 | every run of deliverable events ends in a session that keeps the invariant |
| Machine.ReachableInv | app.js:12-19 | every session reachable from page load keeps the invariant |
| Machine.ReachableTotal | app.js:241-258 | in every reachable session the total is positive exactly when the count is |
| Machine.AddGrowsCart | app.js:220-227 | a successful add raises the count by one and the total by exactly the offer |
| Machine.CalculatedOfferAddable | app.js:215-218 | right after pricing a model worth at least 1, adding to the cart is never refused |
| Machine.PickAfterQuoteKeepsOffer | app.js:108-113 | a result picked while the offer panel shows is added with the earlier offer, which is not recomputed |
| Machine.PaymentEmptiesCart | app.js:361-373 | from any reachable payment step, confirming leaves an empty cart with total 0 and count 0 |
| Machine.RunSnoc | app.js:55-385 | running one more event after a run is applying it to the run's result |
| Scenarios.IPhone13FairQuote | app.js:167-172 | Apple iPhone 13, fair, one issue is quoted 20400, and adding it appends exactly that item |
| Scenarios.BlankDateRefused | app.js:293-296 | a details form with a blank date is refused and nothing changes |
| Scenarios.FilledDetailsAccepted | app.js:293-301 | a fully filled details form moves on to the payment choice |
| Scenarios.NamedFieldFilled | app.js:294 | a value that starts with a character other than white space is filled |

## Left out

- DOM effects are not modelled: focus, scrolling, `innerHTML`, class toggles and `setTimeout`. Only their effect on the visible panel, the dropdown contents, the button mode, the drawer and the modal phase is kept.
- The Enter-key shortcuts (app.js:310-345) are not modelled. They only move focus or trigger the submit and confirm handlers, which are modelled.
- The browser's identification string (app.js:396) is a parameter of `Device.Detect`. The footer year and the sell links (app.js:419 onwards) are not modelled.
- The cart drawer's open and close buttons (app.js:261-265) are not modelled. `drawerOpen` only records that an add opens the drawer.
- The details modal, the payment modal and the success modal are one `Phase` value. Which payment option is selected is never read by app.js, so it is not modelled.
- The offer title and the amount text (app.js:174-175) are not modelled. `Capitalize` is modelled on its own.
- Pricing.Offer: the multipliers are exact rationals, not IEEE doubles. The shipped prices give the same integers, but an input where the double product lands within rounding error of a .5 boundary may round differently in the browser.
- Text.Lower: only ASCII letters are folded. For the `/i` patterns of the device check this is exact. For `toLowerCase` in the search, non-ASCII letters in a query or model name are not folded here.
- Text.Trim: characters are code points, whereas JavaScript measures UTF-16 code units. The 2-character minimum can differ for a query with characters outside the Basic Multilingual Plane.
- Text.Capitalize: only ASCII letters are upper-cased. JavaScript's `toUpperCase` also upper-cases other letters ("é" to "É") and can lengthen the text ("ß" to "SS"), so for a non-ASCII first letter the model keeps both the letter and the length.
- App.Calculate: when `data[brand]` is undefined, app.js throws an uncaught error. The model stops the handler at that point, keeping the condition and issues it has already stored. The error report in the console is not modelled.
- Machine.Enabled: it takes on faith what the page guarantees about events:
  - a brand value comes from the brand dropdown or a brand pill;
  - a model value comes from the model dropdown's options;
  - result cards come from the current listing;
  - each button is clicked only on its visible panel or modal.

  The search box is taken to be available on every panel. The page markup is not part of this model.

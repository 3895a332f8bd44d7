/**
 * The offer calculator: the base price, times 0.8 for "good" or 0.6 for
 * "fair", times 0.85 when any issue is ticked, rounded once at the end with
 * `Math.round`. The multipliers are exact rationals here.
 */
module Pricing {
  import opened Wrappers

  /** A JavaScript number as `state.offer` can hold it: an integer, or NaN. */
  datatype Number = Finite(value: int) | NaN

  /** JavaScript truthiness of a number: 0 and NaN are falsy. */
  predicate Nonzero(n: Number) {
    n.Finite? && n.value != 0
  }

  /** `Math.round`: halves round up. */
  function Round(x: real): (r: int)
    ensures x - 0.5 < r as real <= x + 0.5
  {
    (x + 0.5).Floor
  }

  /** The condition multiplier; conditions other than "good" and "fair" keep the price. */
  function ConditionFactor(condition: string): real {
    if condition == "good" then 0.8
    else if condition == "fair" then 0.6
    else 1.0
  }

  /** The issue multiplier: one ticked issue or many, the discount is the same. */
  function IssueFactor(issues: seq<string>): real {
    if |issues| > 0 then 0.85 else 1.0
  }

  /** The offer for a model of price `base` in the given condition with the given issues ticked. */
  function Offer(base: int, condition: string, issues: seq<string>): (r: int)
    ensures base >= 0 ==> 0 <= r <= base
  {
    Round(base as real * ConditionFactor(condition) * IssueFactor(issues))
  }

  /**
   * The offer when the price lookup may have found nothing: `undefined` times
   * any multiplier is NaN, and so is `Math.round(undefined)`.
   */
  function OfferFor(price: Option<int>, condition: string, issues: seq<string>): (r: Number)
    ensures r.NaN? <==> price.None?
    ensures price.Some? && price.value >= 0 ==> 0 <= r.value <= price.value
  {
    match price
    case None => NaN
    case Some(base) => Finite(Offer(base, condition, issues))
  }

  /** The condition numerator over 5 and the issue numerator over 20. */
  function ConditionFifths(condition: string): int {
    if condition == "good" then 4 else if condition == "fair" then 3 else 5
  }

  function IssueTwentieths(issues: seq<string>): int {
    if |issues| > 0 then 17 else 20
  }

  /**
   * The same offer in integer arithmetic: the exact product base * c/5 * d/20
   * is rounded half up exactly once, with no intermediate rounding.
   */
  lemma OfferInIntegers(base: int, condition: string, issues: seq<string>)
    ensures Offer(base, condition, issues)
         == (2 * base * ConditionFifths(condition) * IssueTwentieths(issues) + 100) / 200
  {
    var n := base * ConditionFifths(condition) * IssueTwentieths(issues);
    var r := Offer(base, condition, issues);
    assert base as real * ConditionFactor(condition) * IssueFactor(issues) == n as real / 100.0;
    assert (2 * n + 100) / 200 == r by {
      assert (r as real) * 100.0 - 50.0 <= n as real < (r as real) * 100.0 + 50.0;
      assert 200 * r <= 2 * n + 100 < 200 * r + 200;
    }
  }

  /** An excellent phone with no issue is offered exactly its base price. */
  lemma ExcellentIntactIsBase(base: int)
    ensures Offer(base, "excellent", []) == base
  {
  }

  /** Only the presence of issues matters, never their number or names. */
  lemma IssueCountIrrelevant(base: int, condition: string, a: seq<string>, b: seq<string>)
    requires |a| > 0 && |b| > 0
    ensures Offer(base, condition, a) == Offer(base, condition, b)
  {
  }

  /** A condition other than "good" or "fair" is priced like "excellent". */
  lemma OtherConditionsUndiscounted(base: int, condition: string, issues: seq<string>)
    requires condition != "good" && condition != "fair"
    ensures Offer(base, condition, issues) == Offer(base, "excellent", issues)
  {
  }

  /** Worse condition, or a ticked issue, never raises the offer. */
  lemma DiscountsOrdered(base: int, condition: string, issues: seq<string>)
    requires base >= 0
    ensures Offer(base, "fair", issues) <= Offer(base, "good", issues) <= Offer(base, "excellent", issues)
    ensures Offer(base, condition, issues) <= Offer(base, condition, [])
  {
  }

  /**
   * Every model with a price of at least 1 gets an offer of at least 1: the
   * steepest discount is 0.6 * 0.85 = 0.51, which still rounds up to 1.
   */
  lemma OfferPositive(base: int, condition: string, issues: seq<string>)
    requires base >= 1
    ensures Offer(base, condition, issues) >= 1
  {
  }

  /** A dearer model never gets a smaller offer. */
  lemma OfferMonotone(a: int, b: int, condition: string, issues: seq<string>)
    requires a <= b
    ensures Offer(a, condition, issues) <= Offer(b, condition, issues)
  {
  }

  /**
   * Rounding once differs from rounding after each multiplier: for base 2,
   * "good" and one issue, 2 * 0.8 * 0.85 = 1.36 rounds to 1, whereas rounding
   * 1.6 to 2 first and then 2 * 0.85 = 1.7 gives 2.
   */
  lemma RoundingOnce()
    ensures Offer(2, "good", ["cracked screen"]) == 1
    ensures Round(Round(2.0 * 0.8) as real * 0.85) == 2
  {
  }

  /** iPhone 13 (base 40000), fair, one issue: 40000 * 0.6 * 0.85 = 20400. */
  lemma IPhone13FairWithIssue()
    ensures Offer(40000, "fair", ["battery"]) == 20400
  {
  }
}

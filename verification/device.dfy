/**
 * The device sniffer: case-insensitive substring tests on the browser's
 * identification string, the iPhone test first. Matching is folded on ASCII
 * letters only, which is how a case-insensitive regular expression without
 * the unicode flag treats these all-ASCII patterns.
 */
module Device {
  import opened Text

  datatype Guess = ApplePhone | SamsungPhone | Unknown

  /** `/pattern/i.test(ua)` for a lower-case ASCII pattern. */
  predicate Mentions(ua: string, pattern: string) {
    Contains(Lower(ua), pattern)
  }

  predicate LooksSamsung(ua: string) {
    Mentions(ua, "samsung") || Mentions(ua, "sm-") || Mentions(ua, "galaxy")
  }

  function Detect(ua: string): (g: Guess)
    ensures g == ApplePhone <==> Mentions(ua, "iphone")
    ensures g == SamsungPhone <==> !Mentions(ua, "iphone") && LooksSamsung(ua)
  {
    if Mentions(ua, "iphone") then ApplePhone
    else if LooksSamsung(ua) then SamsungPhone
    else Unknown
  }

  /** The text shown for each guess. */
  function Message(g: Guess): string {
    match g
    case ApplePhone => "We detected: Apple iPhone"
    case SamsungPhone => "We detected: Samsung device"
    case Unknown => "Sorry, we couldn\U{2019}t auto-detect your phone."
  }

  /** The three texts are distinct, so the text shown tells which guess was made. */
  lemma MessageIdentifies(g: Guess, h: Guess)
    ensures Message(g) == Message(h) <==> g == h
  {
    if g != h {
      assert |Message(g)| != |Message(h)|;
    }
  }

  /** An iPhone mention wins over any Samsung mention. */
  lemma IPhoneWins(ua: string)
    requires Mentions(ua, "iphone") && LooksSamsung(ua)
    ensures Detect(ua) == ApplePhone
  {
  }

  /** Nothing is guessed exactly when no pattern is mentioned. */
  lemma UnknownIff(ua: string)
    ensures Detect(ua) == Unknown <==> !Mentions(ua, "iphone") && !LooksSamsung(ua)
  {
  }

  /** Letter case in the identification string never changes the guess. */
  lemma CaseBlind(ua: string)
    ensures Detect(Lower(ua)) == Detect(ua)
  {
    LowerIdempotent(ua);
  }

  /** "iPhone" in any letter case, anywhere in the string, is recognised. */
  lemma IPhoneAnywhere(prefix: string, w: string, suffix: string)
    requires Lower(w) == "iphone"
    ensures Detect(prefix + w + suffix) == ApplePhone
  {
    var ua := prefix + w + suffix;
    var l := Lower(ua);
    assert l[|prefix|..|prefix| + |w|] == Lower(w);
    ContainsIff(l, "iphone");
    assert OccursAt(l, "iphone", |prefix|);
  }
}

/**
 * The string primitives app.js relies on: `String.prototype.trim`,
 * `toLowerCase`, `includes`, and the `capitalize` helper. Strings are
 * sequences of characters; letter case is folded on ASCII letters only.
 */
module Text {

  /**
   * The characters `trim` removes: ECMAScript WhiteSpace and LineTerminator,
   * by code point (tab to carriage return, space, no-break space, the Unicode
   * space separators, line and paragraph separators, and the byte order mark).
   */
  predicate IsSpace(c: char) {
    var n := c as int;
    || 0x9 <= n <= 0xD || n == 0x20 || n == 0xA0 || n == 0x1680 || 0x2000 <= n <= 0x200A
    || n == 0x2028 || n == 0x2029 || n == 0x202F || n == 0x205F || n == 0x3000 || n == 0xFEFF
  }

  predicate AllSpace(s: string) {
    forall k :: 0 <= k < |s| ==> IsSpace(s[k])
  }

  /** How many white-space characters `s` starts with. */
  function Lead(s: string): (n: nat)
    ensures n <= |s|
    ensures forall k :: 0 <= k < n ==> IsSpace(s[k])
    ensures n < |s| ==> !IsSpace(s[n])
  {
    if |s| > 0 && IsSpace(s[0]) then 1 + Lead(s[1..]) else 0
  }

  /** Where the trailing white space of `s` begins. */
  function Tail(s: string): (n: nat)
    ensures n <= |s|
    ensures forall k :: n <= k < |s| ==> IsSpace(s[k])
    ensures n > 0 ==> !IsSpace(s[n - 1])
  {
    if |s| > 0 && IsSpace(s[|s| - 1]) then Tail(s[..|s| - 1]) else |s|
  }

  /** `r` is the slice of `s` that starts at `i`, with only white space before and after it. */
  ghost predicate StripsAt(s: string, r: string, i: int) {
    && 0 <= i <= |s| - |r| && r == s[i..i + |r|]
    && (forall k :: 0 <= k < i ==> IsSpace(s[k]))
    && (forall k :: i + |r| <= k < |s| ==> IsSpace(s[k]))
  }

  /** `s.trim()`: white space removed from both ends. */
  function Trim(s: string): (r: string)
    ensures |r| <= |s|
    ensures |r| > 0 ==> !IsSpace(r[0]) && !IsSpace(r[|r| - 1])
  {
    var i := Lead(s);
    if i == |s| then "" else s[i..Tail(s)]
  }

  /** What `Trim` keeps is a slice of `s` with nothing but white space around it. */
  lemma TrimStrips(s: string)
    ensures StripsAt(s, Trim(s), Lead(s))
  {
  }

  /** A string trims to nothing exactly when it is all white space. */
  lemma TrimEmptyIffBlank(s: string)
    ensures |Trim(s)| == 0 <==> AllSpace(s)
  {
  }

  /**
   * `Trim` is characterised by what it promises: a slice with white space on
   * both sides that neither starts nor ends with white space is the trimmed string.
   */
  lemma TrimUnique(s: string, r: string, i: int)
    requires StripsAt(s, r, i)
    requires |r| > 0 ==> !IsSpace(r[0]) && !IsSpace(r[|r| - 1])
    ensures r == Trim(s)
  {
    if |r| > 0 {
      assert s[i] == r[0] && s[i + |r| - 1] == r[|r| - 1];
    }
  }

  /** Padding a string with any white space on either side does not change what it trims to. */
  lemma TrimPadded(a: string, s: string, b: string)
    requires AllSpace(a) && AllSpace(b)
    ensures Trim(a + s + b) == Trim(s)
  {
    var p := a + s + b;
    var r := Trim(s);
    var i := Lead(s);
    TrimStrips(s);
    assert p[..|a|] == a && p[|a|..|a| + |s|] == s && p[|a| + |s|..] == b;
    assert p[|a| + i..|a| + i + |r|] == s[i..i + |r|];
    assert StripsAt(p, r, |a| + i) by {
      forall k | 0 <= k < |a| + i ensures IsSpace(p[k]) {
        if k < |a| { assert p[k] == a[k]; } else { assert p[k] == s[k - |a|]; }
      }
      forall k | |a| + i + |r| <= k < |p| ensures IsSpace(p[k]) {
        if k < |a| + |s| { assert p[k] == s[k - |a|]; } else { assert p[k] == b[k - |a| - |s|]; }
      }
    }
    TrimUnique(p, r, |a| + i);
  }

  /** Lower-casing and trimming commute: case folding never creates or removes white space. */
  lemma TrimLowerCommute(s: string)
    ensures Trim(Lower(s)) == Lower(Trim(s))
  {
    var r := Trim(s);
    TrimStrips(s);
    LowerStrips(s, r, Lead(s));
    if |r| > 0 {
      LowerKeepsSpace(r[0]);
      LowerKeepsSpace(r[|r| - 1]);
    }
    TrimUnique(Lower(s), Lower(r), Lead(s));
  }

  lemma LowerStrips(s: string, r: string, i: int)
    requires StripsAt(s, r, i)
    ensures StripsAt(Lower(s), Lower(r), i)
  {
    var l := Lower(s);
    assert Lower(r) == l[i..i + |r|];
    forall k | 0 <= k < i ensures IsSpace(l[k]) {
      LowerKeepsSpace(s[k]);
    }
    forall k | i + |r| <= k < |s| ensures IsSpace(l[k]) {
      LowerKeepsSpace(s[k]);
    }
  }

  lemma LowerKeepsSpace(c: char)
    ensures IsSpace(LowerChar(c)) == IsSpace(c)
  {
  }

  function LowerChar(c: char): char {
    if 'A' <= c <= 'Z' then (c as int + 32) as char else c
  }

  function UpperChar(c: char): char {
    if 'a' <= c <= 'z' then (c as int - 32) as char else c
  }

  /** `s.toLowerCase()`, character by character. */
  function Lower(s: string): (r: string)
    ensures |r| == |s|
    ensures forall i :: 0 <= i < |s| ==> r[i] == LowerChar(s[i])
  {
    seq(|s|, i requires 0 <= i < |s| => LowerChar(s[i]))
  }

  /** Lowering twice is lowering once. */
  lemma LowerIdempotent(s: string)
    ensures Lower(Lower(s)) == Lower(s)
  {
  }

  /** `hay.includes(needle)`: some position of `hay` starts with `needle`. */
  function Contains(hay: string, needle: string): bool
    decreases |hay|
  {
    if needle <= hay then true
    else if |hay| == 0 then false
    else Contains(hay[1..], needle)
  }

  ghost predicate OccursAt(hay: string, needle: string, i: int) {
    0 <= i <= |hay| - |needle| && hay[i..i + |needle|] == needle
  }

  lemma OccursShift(hay: string, needle: string, i: int)
    requires |hay| > 0 && i >= 1
    ensures OccursAt(hay, needle, i) <==> OccursAt(hay[1..], needle, i - 1)
  {
    if i <= |hay| - |needle| {
      assert hay[1..][i - 1..i - 1 + |needle|] == hay[i..i + |needle|];
    }
  }

  /** Every occurrence is found. */
  lemma {:induction false} ContainsComplete(hay: string, needle: string, i: int)
    requires OccursAt(hay, needle, i)
    ensures Contains(hay, needle)
    decreases i
  {
    if i > 0 && !(needle <= hay) {
      OccursShift(hay, needle, i);
      ContainsComplete(hay[1..], needle, i - 1);
    }
  }

  /** Whatever is found occurs somewhere. */
  lemma {:induction false} ContainsSound(hay: string, needle: string)
    requires Contains(hay, needle)
    ensures exists i :: OccursAt(hay, needle, i)
    decreases |hay|
  {
    if needle <= hay {
      assert OccursAt(hay, needle, 0);
    } else {
      ContainsSound(hay[1..], needle);
      var j :| OccursAt(hay[1..], needle, j);
      OccursShift(hay, needle, j + 1);
    }
  }

  /** `Contains` agrees with the positional definition of a substring, both ways. */
  lemma ContainsIff(hay: string, needle: string)
    ensures Contains(hay, needle) <==> exists i :: OccursAt(hay, needle, i)
  {
    if Contains(hay, needle) {
      ContainsSound(hay, needle);
    }
    if i :| OccursAt(hay, needle, i) {
      ContainsComplete(hay, needle, i);
    }
  }

  /** The empty string is found in every string, as with `"".includes("")`. */
  lemma ContainsEmpty(hay: string)
    ensures Contains(hay, "")
  {
  }

  /** `capitalize(s)`: the first character upper-cased, the rest untouched; `""` stays `""`. */
  function Capitalize(s: string): (r: string)
    ensures |r| == |s|
    ensures |s| > 0 ==> r[0] == UpperChar(s[0]) && r[1..] == s[1..]
  {
    if |s| == 0 then s else [UpperChar(s[0])] + s[1..]
  }

  /** Capitalizing twice is capitalizing once. */
  lemma CapitalizeIdempotent(s: string)
    ensures Capitalize(Capitalize(s)) == Capitalize(s)
  {
  }

  /** Capitalizing changes letter case only: both strings lower-case to the same text. */
  lemma {:induction false} CapitalizeOnlyChangesCase(s: string)
    ensures Lower(Capitalize(s)) == Lower(s)
  {
    if |s| > 0 {
      assert LowerChar(UpperChar(s[0])) == LowerChar(s[0]);
      assert forall i :: 0 <= i < |s| ==> Lower(Capitalize(s))[i] == Lower(s)[i];
    }
  }
}

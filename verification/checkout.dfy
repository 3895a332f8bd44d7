/** The pickup-details form and the modal sequence around it. */
module Checkout {
  import opened Text

  /** Which checkout panel is showing: none, the details form, the payment choice, or the success note. */
  datatype Phase = Closed | Details | Payment | Done

  /** A form value counts as filled when something other than white space is left after trimming. */
  predicate Filled(v: string) {
    |Trim(v)| > 0
  }

  /** `[...fd.values()].every(v => String(v).trim().length)`, checked front to back. */
  function FormComplete(values: seq<string>): (ok: bool)
    ensures ok <==> forall k :: 0 <= k < |values| ==> Filled(values[k])
  {
    if |values| == 0 then true
    else Filled(values[0]) && FormComplete(values[1..])
  }

  /** A value is filled exactly when it holds a character that is not white space. */
  lemma FilledIff(v: string)
    ensures Filled(v) <==> exists k :: 0 <= k < |v| && !IsSpace(v[k])
  {
    TrimEmptyIffBlank(v);
  }

  /** The form is rejected exactly when some value is blank, e.g. an empty date field. */
  lemma BlankValueRejects(values: seq<string>, k: int)
    requires 0 <= k < |values| && AllSpace(values[k])
    ensures !FormComplete(values)
  {
    TrimEmptyIffBlank(values[k]);
  }
}

/**
 * The free-text model search: the query is trimmed and lower-cased; fewer
 * than two characters list nothing; otherwise every (brand, model) pair whose
 * lower-cased model name contains the query is listed, in table order.
 */
module ModelSearch {
  import opened Text
  import opened Seqs
  import opened Catalog

  /** Queries shorter than this list nothing. */
  const MinQueryLength := 2

  /** `searchInput.value.trim().toLowerCase()`. */
  function Needle(query: string): string {
    Lower(Trim(query))
  }

  /** The search's test on one pair: only the model name is looked at. */
  predicate Hits(needle: string, p: Pick) {
    Contains(Lower(p.model), needle)
  }

  /** The result cards, in the order they are appended. */
  function Results(t: Table, query: string): (r: seq<Pick>)
    ensures |Needle(query)| < MinQueryLength ==> r == []
    ensures |Needle(query)| >= MinQueryLength ==>
      forall p :: p in r <==> p in Picks(t) && Hits(Needle(query), p)
    ensures IsSubseq(r, Picks(t))
  {
    var needle := Needle(query);
    if |needle| < MinQueryLength then []
    else Filter(Picks(t), p => Hits(needle, p))
  }

  /**
   * On a valid table the listing is determined by its contents and order: any
   * sequence of table pairs, in table order, holding exactly the hits of an
   * active query IS the listing.
   */
  lemma ResultsDetermined(t: Table, query: string, s: seq<Pick>)
    requires Valid(t) && |Needle(query)| >= MinQueryLength
    requires IsSubseq(s, Picks(t))
    requires forall p :: p in s <==> p in Picks(t) && Hits(Needle(query), p)
    ensures s == Results(t, query)
  {
    var needle := Needle(query);
    PicksDistinct(t);
    FilterUnique(s, Picks(t), p => Hits(needle, p));
  }

  /** A listed pair is a real entry of the table: `data[brand][model]` exists. */
  lemma ResultsArePriced(t: Table, query: string, p: Pick)
    requires Valid(t) && p in Results(t, query)
    ensures Price(t, p.brand, p.model).Some?
  {
    SubseqMembers(Results(t, query), Picks(t), p);
    PicksArePriced(t, p);
  }

  /** No card is listed twice. */
  lemma ResultsDistinct(t: Table, query: string)
    requires Valid(t)
    ensures Distinct(Results(t, query))
  {
    PicksDistinct(t);
    SubseqDistinct(Results(t, query), Picks(t));
  }

  /**
   * Brand names are never matched: two table entries with the same model
   * name are both listed or both left out, whatever their brands.
   */
  lemma BrandIgnored(t: Table, query: string, p: Pick, q: Pick)
    requires p in Picks(t) && q in Picks(t) && p.model == q.model
    ensures p in Results(t, query) <==> q in Results(t, query)
  {
  }

  /** The query's letter case and any white space around it do not matter. */
  lemma CaseAndPaddingIgnored(t: Table, a: string, query: string, b: string)
    requires AllSpace(a) && AllSpace(b)
    ensures Results(t, a + query + b) == Results(t, query)
    ensures Results(t, Lower(query)) == Results(t, query)
  {
    assert Trim(a + query + b) == Trim(query) by {
      TrimPadded(a, query, b);
    }
    assert Trim(Lower(query)) == Lower(Trim(query)) by {
      TrimLowerCommute(query);
    }
    LowerIdempotent(Trim(query));
  }
}

/** The cart: an ordered list of accepted offers, with its running total and item count. */
module Cart {
  import opened Wrappers

  /** A snapshot of the selection taken when the offer is accepted; the price never changes afterwards. */
  datatype Item = Item(brand: Option<string>, model: string, condition: string, price: int)

  /** The sum of the prices, accumulated front to back as `renderCart` does. */
  function Total(items: seq<Item>): (r: int)
    ensures (forall k :: 0 <= k < |items| ==> items[k].price > 0) ==> r >= |items|
  {
    if |items| == 0 then 0 else Total(items[..|items| - 1]) + items[|items| - 1].price
  }

  /** The badge count. */
  function Count(items: seq<Item>): nat {
    |items|
  }

  /** `renderCart`'s loop: the displayed total and count. */
  method Render(items: seq<Item>) returns (total: int, count: nat)
    ensures total == Total(items) && count == |items|
  {
    total := 0;
    var i := 0;
    while i < |items|
      invariant 0 <= i <= |items|
      invariant total == Total(items[..i])
    {
      assert items[..i + 1][..i] == items[..i];
      total := total + items[i].price;
      i := i + 1;
    }
    assert items[..i] == items;
    count := |items|;
  }

  /** Appending an item adds exactly its price to the total and one to the count. */
  lemma TotalAppend(items: seq<Item>, it: Item)
    ensures Total(items + [it]) == Total(items) + it.price
    ensures Count(items + [it]) == Count(items) + 1
  {
    assert (items + [it])[..|items|] == items;
  }

  /** The total of a concatenation is the sum of the totals. */
  lemma {:induction false} TotalConcat(a: seq<Item>, b: seq<Item>)
    ensures Total(a + b) == Total(a) + Total(b)
    decreases |b|
  {
    if |b| > 0 {
      var c := b[..|b| - 1];
      assert (a + b)[..|a + b| - 1] == a + c;
      TotalConcat(a, c);
    } else {
      assert a + b == a;
    }
  }

  /** An empty cart shows 0 and 0. */
  lemma EmptyCartShowsZero()
    ensures Total([]) == 0 && Count([]) == 0
  {
  }

  /** With only positive prices the total is 0 exactly when the cart is empty. */
  lemma TotalZeroIffEmpty(items: seq<Item>)
    requires forall k :: 0 <= k < |items| ==> items[k].price > 0
    ensures Total(items) == 0 <==> |items| == 0
  {
  }
}

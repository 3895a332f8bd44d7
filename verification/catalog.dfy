/**
 * The static brand -> model -> base price table, kept in the insertion order
 * of the JavaScript object literal. That is the order `Object.keys` and
 * `Object.entries` report as long as no key is an array index, which a valid
 * table rules out.
 */
module Catalog {
  import opened Wrappers
  import opened Seqs

  datatype Model = Model(name: string, price: int)
  datatype Brand = Brand(name: string, models: seq<Model>)
  type Table = seq<Brand>

  /** One (brand, model) pair of the table, as the search lists it. */
  datatype Pick = Pick(brand: string, model: string)

  /** The sample pricing the widget ships with. */
  function Data(): Table {
    [ Brand("Apple", [Model("iPhone 12", 25000), Model("iPhone 13", 40000), Model("iPhone 11 Pro Max", 33900)]),
      Brand("Samsung", [Model("Galaxy S21", 22000), Model("Galaxy S22", 35000), Model("Galaxy M31", 20041)]),
      Brand("OnePlus", [Model("OnePlus 9", 20000), Model("OnePlus 10", 32000)]),
      Brand("Motorola", [Model("Moto G8", 10000), Model("Moto G45", 20000)]),
      Brand("Oppo", [Model("Oppo A52", 22000), Model("Oppo F27 Pro", 18500)]),
      Brand("Vivo", [Model("Vivo V11 Pro", 20000), Model("Vivo V9 Pro", 32000), Model("Vivo V15", 26990)]) ]
  }

  /** `Object.keys(data)`. */
  function BrandNames(t: Table): (r: seq<string>)
    ensures |r| == |t| && forall i :: 0 <= i < |t| ==> r[i] == t[i].name
  {
    seq(|t|, i requires 0 <= i < |t| => t[i].name)
  }

  /** `Object.keys(data[brand])`. */
  function ModelNames(b: Brand): (r: seq<string>)
    ensures |r| == |b.models| && forall j :: 0 <= j < |b.models| ==> r[j] == b.models[j].name
  {
    seq(|b.models|, j requires 0 <= j < |b.models| => b.models[j].name)
  }

  /**
   * What a JavaScript object literal guarantees (distinct keys), plus what the
   * widget relies on: no empty names, no negative price, and no name that is an
   * array index, so that listing the keys gives them in declaration order.
   */
  predicate Valid(t: Table) {
    Distinct(BrandNames(t)) && forall i :: 0 <= i < |t| ==> ValidBrand(t[i])
  }

  predicate ValidBrand(b: Brand) {
    && |b.name| > 0 && !ArrayIndex(b.name)
    && Distinct(ModelNames(b))
    && forall j :: 0 <= j < |b.models| ==>
         |b.models[j].name| > 0 && !ArrayIndex(b.models[j].name) && b.models[j].price >= 0
  }

  /**
   * A property name JavaScript treats as an array index: the canonical decimal
   * form (no sign, no leading zero) of an integer below 2^32 - 1. `Object.keys`
   * lists such names first, in numeric order, before all others.
   */
  predicate ArrayIndex(name: string) {
    && |name| > 0
    && (forall k :: 0 <= k < |name| ==> '0' <= name[k] <= '9')
    && (name[0] != '0' || |name| == 1)
    && DecimalValue(name) < 0xFFFF_FFFF
  }

  /** Digit strings count as indices only in canonical form; model names such as "iPhone 12" never do. */
  lemma ArrayIndexExamples()
    ensures ArrayIndex("10") && ArrayIndex("0")
    ensures !ArrayIndex("010") && !ArrayIndex("iPhone 12")
  {
    assert DecimalValue("1") == 1;
    assert DecimalValue("10") == 10;
    assert "iPhone 12"[0] == 'i';
  }

  /** 2^32 - 1 is not an index, though its decimal form has no sign and no leading zero. */
  lemma ArrayIndexBound()
    ensures !ArrayIndex("4294967295")
  {
    assert DecimalValue("4") == 4;
    assert DecimalValue("42") == 42 by { assert "42"[..1] == "4"; }
    assert DecimalValue("429") == 429 by { assert "429"[..2] == "42"; }
    assert DecimalValue("4294") == 4294 by { assert "4294"[..3] == "429"; }
    assert DecimalValue("42949") == 42949 by { assert "42949"[..4] == "4294"; }
    assert DecimalValue("429496") == 429496 by { assert "429496"[..5] == "42949"; }
    assert DecimalValue("4294967") == 4294967 by { assert "4294967"[..6] == "429496"; }
    assert DecimalValue("42949672") == 42949672 by { assert "42949672"[..7] == "4294967"; }
    assert DecimalValue("429496729") == 429496729 by { assert "429496729"[..8] == "42949672"; }
    assert "4294967295"[..9] == "429496729";
  }

  /** The value of a string of decimal digits. */
  function DecimalValue(digits: string): nat {
    if |digits| == 0 then 0
    else
      var c := digits[|digits| - 1];
      DecimalValue(digits[..|digits| - 1]) * 10 + (if '0' <= c <= '9' then c as int - '0' as int else 0)
  }

  /** `data[name]`: the brand of that name, if the table has one. */
  function Lookup(t: Table, name: string): (r: Option<Brand>)
    ensures r.Some? <==> name in BrandNames(t)
    ensures r.Some? ==> r.value in t && r.value.name == name
    ensures forall i :: 0 <= i < |t| && t[i].name == name && name !in BrandNames(t[..i]) ==> r == Some(t[i])
  {
    if |t| == 0 then None
    else if t[0].name == name then Some(t[0])
    else
      assert forall n :: n in BrandNames(t) <==> n == t[0].name || n in BrandNames(t[1..]);
      assert forall i :: 1 <= i <= |t| ==> BrandNames(t[..i]) == [t[0].name] + BrandNames(t[1..][..i - 1]);
      Lookup(t[1..], name)
  }

  /** On a valid table each brand is found under its own name. */
  lemma LookupValid(t: Table, i: int)
    requires Valid(t) && 0 <= i < |t|
    ensures Lookup(t, t[i].name) == Some(t[i])
  {
  }

  /** `data[brand][model]`, if both keys exist. */
  function Price(t: Table, brand: string, model: string): Option<int> {
    match Lookup(t, brand)
    case None => None
    case Some(b) => PriceIn(b.models, model)
  }

  function PriceIn(ms: seq<Model>, name: string): (r: Option<int>)
    ensures r.Some? <==> exists j :: 0 <= j < |ms| && ms[j].name == name
    ensures r.Some? ==> exists j :: 0 <= j < |ms| && ms[j].name == name && ms[j].price == r.value
  {
    if |ms| == 0 then None
    else if ms[0].name == name then Some(ms[0].price)
    else
      var r := PriceIn(ms[1..], name);
      assert forall j :: 0 <= j < |ms| - 1 ==> ms[1..][j] == ms[j + 1];
      assert r.Some? ==> exists j :: 0 < j < |ms| && ms[j].name == name && ms[j].price == r.value;
      r
  }

  /** On a valid table no price `data[brand][model]` yields is negative. */
  lemma PriceNonNegative(t: Table, brand: string, model: string)
    requires Valid(t) && Price(t, brand, model).Some?
    ensures Price(t, brand, model).value >= 0
  {
    var b := Lookup(t, brand).value;
    var i :| 0 <= i < |t| && t[i] == b;
    assert ValidBrand(t[i]);
  }

  /** The pairs one brand contributes to the search, in declared model order. */
  function BrandPicks(b: Brand): (r: seq<Pick>)
    ensures |r| == |b.models| && forall j :: 0 <= j < |b.models| ==> r[j] == Pick(b.name, b.models[j].name)
  {
    seq(|b.models|, j requires 0 <= j < |b.models| => Pick(b.name, b.models[j].name))
  }

  /** Every (brand, model) pair of the table: brands in order, each brand's models in order. */
  function Picks(t: Table): seq<Pick> {
    if |t| == 0 then [] else BrandPicks(t[0]) + Picks(t[1..])
  }

  /** A pair is listed only under a brand the table has. */
  lemma {:induction false} PickBrandListed(t: Table, p: Pick)
    requires p in Picks(t)
    ensures p.brand in BrandNames(t)
  {
    if p !in BrandPicks(t[0]) {
      PickBrandListed(t[1..], p);
      assert BrandNames(t[1..])[..] == BrandNames(t)[1..];
    }
  }

  /**
   * On a valid table a pair is listed exactly when `data[brand][model]` exists:
   * the flattened listing and the keyed lookup describe the same entries.
   */
  lemma {:induction false} PicksArePriced(t: Table, p: Pick)
    requires Valid(t)
    ensures p in Picks(t) <==> Price(t, p.brand, p.model).Some?
  {
    if |t| > 0 {
      var b, rest := t[0], t[1..];
      assert BrandNames(rest) == BrandNames(t)[1..];
      assert Valid(rest) by {
        forall i, j | 0 <= i < j < |rest| ensures BrandNames(rest)[i] != BrandNames(rest)[j] {
          assert BrandNames(t)[i + 1] != BrandNames(t)[j + 1];
        }
        forall i | 0 <= i < |rest| ensures ValidBrand(rest[i]) {
          assert rest[i] == t[i + 1];
        }
      }
      PicksArePriced(rest, p);
      if p.brand == b.name {
        assert Lookup(t, p.brand) == Some(b);
        if p in Picks(rest) {
          PickBrandListed(rest, p);
          assert false;
        }
        if j :| 0 <= j < |b.models| && b.models[j].name == p.model {
          assert BrandPicks(b)[j] == p;
        }
      } else {
        assert p !in BrandPicks(b);
      }
    }
  }

  /** On a valid table no pair is listed twice. */
  lemma {:induction false} PicksDistinct(t: Table)
    requires Valid(t)
    ensures Distinct(Picks(t))
  {
    if |t| > 0 {
      var b, rest := t[0], t[1..];
      assert BrandNames(rest) == BrandNames(t)[1..];
      assert Valid(rest) by {
        forall i | 0 <= i < |rest| ensures ValidBrand(rest[i]) {
          assert rest[i] == t[i + 1];
        }
      }
      PicksDistinct(rest);
      var head, tail := BrandPicks(b), Picks(rest);
      assert Distinct(ModelNames(b));
      forall i, j | 0 <= i < |head| && 0 <= j < |tail| ensures head[i] != tail[j] {
        PickBrandListed(rest, tail[j]);
        var k :| 0 <= k < |rest| && BrandNames(rest)[k] == tail[j].brand;
        assert BrandNames(t)[0] != BrandNames(t)[k + 1];
      }
      forall i, j | 0 <= i < j < |head + tail| ensures (head + tail)[i] != (head + tail)[j] {
        if j < |head| {
          assert ModelNames(b)[i] != ModelNames(b)[j];
        } else if i >= |head| {
          assert tail[i - |head|] != tail[j - |head|];
        }
      }
    }
  }

  /** The shipped table is valid. */
  lemma DataValid()
    ensures Valid(Data())
  {
    DataBrandsDistinct();
    DataBrandValid0();
    DataBrandValid1();
    DataBrandValid2();
    DataBrandValid3();
    DataBrandValid4();
    DataBrandValid5();
  }

  lemma DataBrandsDistinct()
    ensures Distinct(BrandNames(Data()))
  {
    assert BrandNames(Data()) == ["Apple", "Samsung", "OnePlus", "Motorola", "Oppo", "Vivo"];
  }

  lemma DataBrandValid0()
    ensures ValidBrand(Data()[0])
  {
    assert ModelNames(Data()[0]) == ["iPhone 12", "iPhone 13", "iPhone 11 Pro Max"];
  }

  lemma DataBrandValid1()
    ensures ValidBrand(Data()[1])
  {
    assert ModelNames(Data()[1]) == ["Galaxy S21", "Galaxy S22", "Galaxy M31"];
  }

  lemma DataBrandValid2()
    ensures ValidBrand(Data()[2])
  {
    assert ModelNames(Data()[2]) == ["OnePlus 9", "OnePlus 10"];
  }

  lemma DataBrandValid3()
    ensures ValidBrand(Data()[3])
  {
    assert ModelNames(Data()[3]) == ["Moto G8", "Moto G45"];
  }

  lemma DataBrandValid4()
    ensures ValidBrand(Data()[4])
  {
    assert ModelNames(Data()[4]) == ["Oppo A52", "Oppo F27 Pro"];
  }

  lemma DataBrandValid5()
    ensures ValidBrand(Data()[5])
  {
    assert ModelNames(Data()[5]) == ["Vivo V11 Pro", "Vivo V9 Pro", "Vivo V15"];
  }
}

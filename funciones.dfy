/** The shop's business rules on plain records: healthiness, production cost,
    profitability and the most profitable product. */
module Funciones {
  import opened Util
  import opened Modelos

  /** `es_sano(calorias, vegetariano)`. */
  predicate EsSano(calorias: real, vegetariano: bool) {
    calorias < 100.0 || vegetariano
  }

  /** The ingredient's own test and the free-standing one agree on every ingredient. */
  lemma EsSanoCoincideConIngrediente(i: Ingrediente)
    ensures i.EsSano() <==> EsSano(i.calorias, i.esVegetariano)
  {
  }

  /** `calcular_costo`: the prices added up in list order, from 0. */
  function CalcularCosto(ings: seq<Ingrediente>): (r: real)
    ensures (forall k :: 0 <= k < |ings| ==> ings[k].precio >= 0.0) ==> r >= 0.0
    ensures (forall k :: 0 <= k < |ings| ==> ings[k].precio >= 0.0) ==>
      forall k :: 0 <= k < |ings| ==> ings[k].precio <= r
  {
    if |ings| == 0 then 0.0 else CalcularCosto(ings[..|ings| - 1]) + ings[|ings| - 1].precio
  }

  lemma CostoVacio()
    ensures CalcularCosto([]) == 0.0
  {
  }

  /** The cost of two lists one after the other is the sum of their costs. */
  lemma {:induction false} CostoConcatenado(a: seq<Ingrediente>, b: seq<Ingrediente>)
    ensures CalcularCosto(a + b) == CalcularCosto(a) + CalcularCosto(b)
    decreases |b|
  {
    if |b| == 0 {
      assert a + b == a;
    } else {
      var b' := b[..|b| - 1];
      assert (a + b)[..|a + b| - 1] == a + b';
      assert (a + b)[|a + b| - 1] == b[|b| - 1];
      CostoConcatenado(a, b');
    }
  }

  /** The cost does not depend on the order of the ingredients: moving the first one
      to the end changes nothing. */
  lemma CostoRotado(ings: seq<Ingrediente>)
    requires |ings| > 0
    ensures CalcularCosto(ings[1..] + [ings[0]]) == CalcularCosto(ings)
  {
    CostoConcatenado(ings[1..], [ings[0]]);
    CostoConcatenado([ings[0]], ings[1..]);
    assert [ings[0]] + ings[1..] == ings;
    assert CalcularCosto([ings[0]]) == ings[0].precio by {
      assert [ings[0]][..0] == [];
    }
  }

  /** `calcular_rentabilidad`: the price minus the cost of the ingredients. */
  function CalcularRentabilidad(precio: real, ings: seq<Ingrediente>): (r: real)
    ensures r + CalcularCosto(ings) == precio
    ensures (forall k :: 0 <= k < |ings| ==> ings[k].precio >= 0.0) ==> r <= precio
  {
    precio - CalcularCosto(ings)
  }

  /** One more ingredient lowers the profitability by exactly its price. */
  lemma RentabilidadConIngredienteExtra(precio: real, ings: seq<Ingrediente>, extra: Ingrediente)
    ensures CalcularRentabilidad(precio, ings + [extra]) == CalcularRentabilidad(precio, ings) - extra.precio
  {
    assert (ings + [extra])[..|ings|] == ings;
  }

  /** The position `max(productos, key=rentabilidad)` picks: a maximum, and the first
      one, because `max` keeps the earlier element on a tie. */
  function IndiceMasRentable(ps: seq<Producto>): (r: nat)
    requires |ps| > 0
    ensures r < |ps|
    ensures forall j :: 0 <= j < |ps| ==> ps[j].rentabilidad <= ps[r].rentabilidad
    ensures forall j :: 0 <= j < r ==> ps[j].rentabilidad < ps[r].rentabilidad
    decreases |ps|
  {
    if |ps| == 1 then 0
    else
      var k := IndiceMasRentable(ps[..|ps| - 1]);
      if ps[|ps| - 1].rentabilidad > ps[k].rentabilidad then |ps| - 1 else k
  }

  /** `producto_mas_rentable`: the name of the first most profitable product; `max`
      raises ValueError on an empty list. */
  function ProductoMasRentable(ps: seq<Producto>): (r: Option<string>)
    ensures r.None? <==> |ps| == 0
    ensures r.Some? ==>
      exists k :: 0 <= k < |ps| && r.value == ps[k].nombre &&
        (forall j :: 0 <= j < |ps| ==> ps[j].rentabilidad <= ps[k].rentabilidad) &&
        (forall j :: 0 <= j < k ==> ps[j].rentabilidad < ps[k].rentabilidad)
  {
    if |ps| == 0 then None else Some(ps[IndiceMasRentable(ps)].nombre)
  }

  /** Adding products no better than the current winner after it does not change the
      winner. */
  lemma {:induction false} MasRentableEstableAlFinal(ps: seq<Producto>, extra: seq<Producto>)
    requires |ps| > 0
    requires forall j :: 0 <= j < |extra| ==> extra[j].rentabilidad <= ps[IndiceMasRentable(ps)].rentabilidad
    ensures IndiceMasRentable(ps + extra) == IndiceMasRentable(ps)
    decreases |extra|
  {
    if |extra| > 0 {
      var e := extra[..|extra| - 1];
      assert (ps + extra)[..|ps + extra| - 1] == ps + e;
      MasRentableEstableAlFinal(ps, e);
    } else {
      assert ps + extra == ps;
    }
  }
}

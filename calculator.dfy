/**
 * The price calculator: a per-square-metre price by ceiling type, plus a flat price per
 * light fitting and a per-metre price for decorative edging along the perimeter.
 */
module Calculator {
  import opened Wrappers

  datatype Service = Service(name: string, price: int)

  /** `services`, in UAH per square metre. */
  const Services: seq<Service> := [
    Service("MSD Classic", 320),
    Service("MSD Premium", 350),
    Service("Bauf та Renolit", 450)
  ]

  const LightPrice := 300
  const DecorPricePerMetre := 40

  /** `services.find((s) => s.name === name)`. */
  function FindService(name: string): (r: Option<Service>)
    ensures r.Some? ==> r.value in Services && r.value.name == name
    ensures r.None? ==> forall i :: 0 <= i < |Services| ==> Services[i].name != name
  {
    if name == Services[0].name then Some(Services[0])
    else if name == Services[1].name then Some(Services[1])
    else if name == Services[2].name then Some(Services[2])
    else None
  }

  /**
   * How `calcResult` ends: a price, or the `TypeError` raised when a non-empty service name is
   * not in the table (`selected.price` of `undefined`).
   */
  datatype Quote = Amount(value: real) | UnknownService

  /**
   * `calcResult`. `width` and `length` are the input fields read as numbers, `None` when the
   * field is empty; the empty service is `""`.
   */
  function CalcResult(service: string, width: Option<real>, length: Option<real>, lights: real, decor: bool): (q: Quote)
    ensures (width.None? || length.None? || service == "") ==> q == Amount(0.0)
    ensures q.UnknownService? <==> width.Some? && length.Some? && service != "" && FindService(service).None?
  {
    if width.None? || length.None? || service == "" then Amount(0.0)
    else
      match FindService(service)
      case None => UnknownService
      case Some(selected) =>
        var w, l := width.value, length.value;
        var area := w * l;
        var perimeter := (w + l) * 2.0;
        var baseCost := area * selected.price as real;
        var lightsCost := lights * LightPrice as real;
        var decorCost := if decor then perimeter * DecorPricePerMetre as real else 0.0;
        Amount(baseCost + lightsCost + decorCost)
  }

  /** Every option of the service menu has a price: only names outside the table fail. */
  lemma MenuOptionsPrice(i: int, w: real, l: real, lights: real, decor: bool)
    requires 0 <= i < |Services|
    ensures CalcResult(Services[i].name, Some(w), Some(l), lights, decor).Amount?
  {
  }

  /** A room with no extras costs its area times the per-square-metre price of its service. */
  lemma BaseIsAreaTimesPrice(i: int, w: real, l: real)
    requires 0 <= i < |Services|
    ensures CalcResult(Services[i].name, Some(w), Some(l), 0.0, false) == Amount(w * l * Services[i].price as real)
  {
  }

  /** Decorative edging adds 80 per metre of `width + length` (40 along the doubled perimeter). */
  lemma DecorSurcharge(service: string, w: real, l: real, lights: real)
    requires FindService(service).Some?
    ensures CalcResult(service, Some(w), Some(l), lights, true).value
            == CalcResult(service, Some(w), Some(l), lights, false).value + 80.0 * (w + l)
  {
  }

  /** Each extra light fitting adds 300 to the price. */
  lemma LightSurcharge(service: string, w: real, l: real, lights: real, decor: bool)
    requires FindService(service).Some?
    ensures CalcResult(service, Some(w), Some(l), lights + 1.0, decor).value
            == CalcResult(service, Some(w), Some(l), lights, decor).value + 300.0
  {
  }

  /** Over non-negative sizes and counts, the dearer ceiling type never gives the cheaper quote. */
  lemma DearerServiceCostsMore(i: int, j: int, w: real, l: real, lights: real, decor: bool)
    requires 0 <= i < |Services| && 0 <= j < |Services| && Services[i].price <= Services[j].price
    requires w >= 0.0 && l >= 0.0
    ensures CalcResult(Services[i].name, Some(w), Some(l), lights, decor).value
            <= CalcResult(Services[j].name, Some(w), Some(l), lights, decor).value
  {
    assert w * l >= 0.0;
    assert w * l * Services[i].price as real <= w * l * Services[j].price as real;
  }

  /** Over non-negative sizes and counts, a quote is never negative. */
  lemma QuoteNonNegative(service: string, w: real, l: real, lights: real, decor: bool)
    requires w >= 0.0 && l >= 0.0 && lights >= 0.0
    ensures CalcResult(service, Some(w), Some(l), lights, decor).Amount? ==>
              CalcResult(service, Some(w), Some(l), lights, decor).value >= 0.0
  {
    assert w * l >= 0.0;
    if FindService(service).Some? {
      assert w * l * FindService(service).value.price as real >= 0.0;
    }
  }

  /** Width and length enter the quote symmetrically: swapping the two fields changes nothing. */
  lemma SizesCommute(service: string, w: real, l: real, lights: real, decor: bool)
    ensures CalcResult(service, Some(w), Some(l), lights, decor) == CalcResult(service, Some(l), Some(w), lights, decor)
  {
    assert w * l == l * w;
  }

  /** A wider room never costs less, other inputs equal and non-negative. */
  lemma WiderCostsMore(service: string, w1: real, w2: real, l: real, lights: real, decor: bool)
    requires FindService(service).Some? && 0.0 <= w1 <= w2 && l >= 0.0
    ensures CalcResult(service, Some(w1), Some(l), lights, decor).value
            <= CalcResult(service, Some(w2), Some(l), lights, decor).value
  {
    var price := FindService(service).value.price as real;
    var base1, base2 := w1 * l * price, w2 * l * price;
    assert base1 <= base2 by {
      assert price >= 0.0;
      assert w1 * l <= w2 * l;
    }
    var decor1 := if decor then (w1 + l) * 2.0 * DecorPricePerMetre as real else 0.0;
    var decor2 := if decor then (w2 + l) * 2.0 * DecorPricePerMetre as real else 0.0;
    assert decor1 <= decor2;
    var lightsCost := lights * LightPrice as real;
    assert CalcResult(service, Some(w1), Some(l), lights, decor).value == base1 + lightsCost + decor1;
    assert CalcResult(service, Some(w2), Some(l), lights, decor).value == base2 + lightsCost + decor2;
  }

  /** A longer room never costs less, other inputs equal and non-negative. */
  lemma LongerCostsMore(service: string, w: real, l1: real, l2: real, lights: real, decor: bool)
    requires FindService(service).Some? && 0.0 <= l1 <= l2 && w >= 0.0
    ensures CalcResult(service, Some(w), Some(l1), lights, decor).value
            <= CalcResult(service, Some(w), Some(l2), lights, decor).value
  {
    SizesCommute(service, w, l1, lights, decor);
    SizesCommute(service, w, l2, lights, decor);
    WiderCostsMore(service, l1, l2, w, lights, decor);
  }

  /** More light fittings never cost less. */
  lemma MoreLightsCostMore(service: string, w: real, l: real, lights1: real, lights2: real, decor: bool)
    requires FindService(service).Some? && lights1 <= lights2
    ensures CalcResult(service, Some(w), Some(l), lights1, decor).value
            <= CalcResult(service, Some(w), Some(l), lights2, decor).value
  {
    assert lights1 * LightPrice as real <= lights2 * LightPrice as real;
  }

  /** The menu is ordered by price. */
  lemma PricesAscend()
    ensures forall i, j :: 0 <= i < j < |Services| ==> Services[i].price < Services[j].price
  {
  }
}

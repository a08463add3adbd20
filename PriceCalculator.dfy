/** The price calculator of the landing page (src/App.tsx): two constant
    price tables and the handler that fills in the three result cells. */
module PriceCalculator {
  import opened Wrappers
  import opened JsNumber
  import JsArray

  /** A material on sale; its display name, unit and description are
      left out. */
  datatype Material = Material(id: string, price: int)

  /** A delivery distance band; `multiplier` is declared in the table but
      never read. */
  datatype Distance = Distance(id: string, multiplier: real, price: int)

  const Materials: seq<Material> := [
    Material("sand", 800),
    Material("soil", 1200),
    Material("peat", 900),
    Material("gravel", 1100),
    Material("clay", 700),
    Material("concrete", 3500)
  ]

  const Distances: seq<Distance> := [
    Distance("0-10", 1.0, 500),
    Distance("10-25", 1.5, 750),
    Distance("25-50", 2.0, 1000),
    Distance("50+", 3.0, 1500)
  ]

  /** A JavaScript number as the cost cells can hold it: an integer, or
      NaN once `parseInt` of the volume has failed. */
  datatype Num = Int(value: int) | NaN

  function FindMaterial(id: string): (r: Option<Material>)
    ensures r.Some? ==> r.value in Materials && r.value.id == id
    ensures r.None? <==> forall j :: 0 <= j < |Materials| ==> Materials[j].id != id
  {
    JsArray.Find(Materials, (m: Material) => m.id == id)
  }

  function FindDistance(id: string): (r: Option<Distance>)
    ensures r.Some? ==> r.value in Distances && r.value.id == id
    ensures r.None? <==> forall j :: 0 <= j < |Distances| ==> Distances[j].id != id
  {
    JsArray.Find(Distances, (d: Distance) => d.id == id)
  }

  /** The three result cells, written together. */
  datatype Costs = Costs(materialCost: Num, deliveryCost: int, totalCost: Num)

  /** The material cost: the unit price times the volume as `parseInt`
      reads it, NaN when it cannot. */
  function MaterialCost(price: int, volume: string): (r: Num)
    ensures r.NaN? <==> ParseInt(volume).None?
    ensures r.Int? ==> r.value == price * ParseInt(volume).value
  {
    match ParseInt(volume)
    case None => NaN
    case Some(v) => Int(price * v)
  }

  /** The total: the material cost plus the delivery price; NaN stays
      NaN. */
  function Plus(cost: Num, delivery: int): Num
  {
    match cost
    case NaN => NaN
    case Int(c) => Int(c + delivery)
  }

  /** What `calculateCost` writes for the current form, or `None` when it
      returns early: a field is empty, or the material or distance is not
      in its table. The material cost is the unit price times the volume
      read by `parseInt`; the delivery cost is the band's flat price. */
  function Quote(material: string, volume: string, distance: string): (q: Option<Costs>)
    ensures q.None? <==>
              || material == "" || volume == "" || distance == ""
              || FindMaterial(material).None? || FindDistance(distance).None?
    ensures q.Some? ==>
              && q.value.materialCost == MaterialCost(FindMaterial(material).value.price, volume)
              && q.value.deliveryCost == FindDistance(distance).value.price
              && q.value.deliveryCost in {500, 750, 1000, 1500}
              && q.value.totalCost == Plus(q.value.materialCost, q.value.deliveryCost)
  {
    if material == "" || volume == "" || distance == "" then None
    else
      var m := FindMaterial(material);
      var d := FindDistance(distance);
      if m.None? || d.None? then None
      else
        var matCost := MaterialCost(m.value.price, volume);
        Some(Costs(matCost, d.value.price, Plus(matCost, d.value.price)))
  }

  /** The result block is shown exactly when the total is a positive
      number (NaN compares false). */
  predicate ResultShown(totalCost: Num) {
    totalCost.Int? && totalCost.value > 0
  }

  /** Every listed material is found by its own id. */
  lemma FindListedMaterial(i: nat)
    requires i < |Materials|
    ensures FindMaterial(Materials[i].id) == Some(Materials[i])
  {
    var id := Materials[i].id;
    assert forall j :: 0 <= j < i ==> Materials[j].id != id;
    JsArray.FindAt(Materials, (m: Material) => m.id == id, i);
  }

  /** Every listed distance band is found by its own id. */
  lemma FindListedDistance(i: nat)
    requires i < |Distances|
    ensures FindDistance(Distances[i].id) == Some(Distances[i])
  {
    var id := Distances[i].id;
    assert forall j :: 0 <= j < i ==> Distances[j].id != id;
    JsArray.FindAt(Distances, (d: Distance) => d.id == id, i);
  }

  /** Every table entry has a non-empty id and a positive price. */
  lemma ListedEntries()
    ensures forall j :: 0 <= j < |Materials| ==> Materials[j].id != "" && Materials[j].price >= 700
    ensures forall j :: 0 <= j < |Distances| ==> Distances[j].id != "" && Distances[j].price >= 500
  {
  }

  /** Every listed material costs at least 700 a unit. */
  lemma ListedPrice(m: Material)
    requires m in Materials
    ensures m.price >= 700
  {
  }

  /** A listed material and a listed band give a quote for any non-empty
      volume text. */
  lemma QuoteListed(i: nat, volume: string, k: nat)
    requires i < |Materials| && k < |Distances| && volume != ""
    ensures var m, d := Materials[i], Distances[k];
            Quote(m.id, volume, d.id)
              == Some(Costs(MaterialCost(m.price, volume), d.price,
                            Plus(MaterialCost(m.price, volume), d.price)))
  {
    ListedEntries();
    FindListedMaterial(i);
    FindListedDistance(k);
  }

  lemma ProductAtLeast(a: int, b: int)
    requires a >= 0 && b >= 1
    ensures a * b >= a
  {
    assert a * b == a + a * (b - 1);
  }

  /** Whenever a quote is made and `parseInt` reads the volume as a
      positive number, the material cost is the price times that number,
      the total adds the delivery price, and the result is shown. */
  lemma QuoteReadableVolume(material: string, volume: string, distance: string, v: int)
    requires Quote(material, volume, distance).Some?
    requires ParseInt(volume) == Some(v) && v > 0
    ensures var q := Quote(material, volume, distance).value;
            var price := FindMaterial(material).value.price;
            && q.materialCost == Int(price * v)
            && q.totalCost == Int(price * v + q.deliveryCost)
            && ResultShown(q.totalCost)
  {
    var q := Quote(material, volume, distance).value;
    var m := FindMaterial(material).value;
    ListedPrice(m);
    ProductAtLeast(m.price, v);
    assert q.materialCost == MaterialCost(m.price, volume) == Int(m.price * v);
  }

  /** In particular, a positive whole volume typed in decimal, for any
      listed material and band, is quoted as price times volume plus the
      band's price, and the result is shown. */
  lemma QuotePositiveVolume(i: nat, n: nat, k: nat)
    requires i < |Materials| && k < |Distances| && n > 0
    ensures var m, d := Materials[i], Distances[k];
            var q := Quote(m.id, IntToDecimal(n), d.id);
            && q == Some(Costs(Int(m.price * n), d.price, Int(m.price * n + d.price)))
            && ResultShown(q.value.totalCost)
  {
    var m, d := Materials[i], Distances[k];
    var volume := IntToDecimal(n);
    ParseIntDecimalRoundTrip(n);
    assert volume != "" by {
      ParseIntNaNExamples();
    }
    QuoteListed(i, volume, k);
    FindListedMaterial(i);
    QuoteReadableVolume(m.id, volume, d.id, n);
  }

  /** A volume `parseInt` cannot read gives NaN costs, and no result. */
  lemma QuoteUnreadableVolume(material: string, volume: string, distance: string)
    requires Quote(material, volume, distance).Some? && ParseInt(volume).None?
    ensures Quote(material, volume, distance).value.totalCost == NaN
    ensures !ResultShown(Quote(material, volume, distance).value.totalCost)
  {
  }

  /** The landing page's calculator form and its three result cells. */
  class Calculator {
    var selectedMaterial: string
    var volume: string
    var distance: string
    var totalCost: Num
    var materialCost: Num
    var deliveryCost: Num

    constructor ()
      ensures selectedMaterial == "" && volume == "" && distance == ""
      ensures totalCost == Int(0) && materialCost == Int(0) && deliveryCost == Int(0)
    {
      selectedMaterial, volume, distance := "", "", "";
      totalCost, materialCost, deliveryCost := Int(0), Int(0), Int(0);
    }

    method SelectMaterial(id: string)
      modifies this`selectedMaterial
      ensures selectedMaterial == id
    {
      selectedMaterial := id;
    }

    method InputVolume(text: string)
      modifies this`volume
      ensures volume == text
    {
      volume := text;
    }

    method SelectDistance(id: string)
      modifies this`distance
      ensures distance == id
    {
      distance := id;
    }

    /** `calculateCost`: on an early return (no quote) nothing changes;
        otherwise the three cells take the quote together. The form is
        never changed. */
    method CalculateCost()
      modifies this`totalCost, this`materialCost, this`deliveryCost
      ensures var q := Quote(old(selectedMaterial), old(volume), old(distance));
              q.None? ==> totalCost == old(totalCost) && materialCost == old(materialCost)
                          && deliveryCost == old(deliveryCost)
      ensures var q := Quote(old(selectedMaterial), old(volume), old(distance));
              q.Some? ==> materialCost == q.value.materialCost
                          && deliveryCost == Int(q.value.deliveryCost)
                          && totalCost == q.value.totalCost
    {
      var quote := Quote(selectedMaterial, volume, distance);
      if quote.Some? {
        var costs := quote.value;
        materialCost, deliveryCost, totalCost := costs.materialCost, Int(costs.deliveryCost), costs.totalCost;
      }
    }
  }
}

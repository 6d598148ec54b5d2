/** The price apportionment of one sub-group purchase (pos_order.py,
    lines 92-179).

    A sub-group line charges `price_unit * qty`.  Every component gets a
    base value, its product's list price times its quantity per sub-group,
    and a share of the charge in proportion to that base value; a component
    with no positive base value, or any component when the base values add
    up to nothing, is charged its own list price for its quantity instead. */
module Apportionment {
  import opened Values
  import opened ProductCatalog

  /** What one component contributes to the order: its product, its
      quantity for the whole line, its own unit price and its share of the
      charge. */
  datatype Portion = Portion(product: ProductId, qty: real, unitPrice: real, amount: real)

  /** Weight of a component for one unit of the sub-group. */
  function BaseValue(cat: Catalog, c: Component): real
  {
    ListPrice(cat, c.product) * c.quantity
  }

  /** `total_base_value`, accumulated over the components in order. */
  function TotalBase(cat: Catalog, comps: seq<Component>): real
  {
    if comps == [] then 0.0
    else TotalBase(cat, comps[..|comps| - 1]) + BaseValue(cat, comps[|comps| - 1])
  }

  /** The portion of component `c` when the line sells `lineQty` units at
      `linePrice` each, the base values add up to `total` and the
      component's base value is read as `base` (lines 143-173). */
  function PortionAt(cat: Catalog, c: Component, base: real, lineQty: real, linePrice: real, total: real): Portion
  {
    var unit := ListPrice(cat, c.product);
    var qty := c.quantity * lineQty;
    var amount := if total > 0.0 && base > 0.0 then (base / total) * (linePrice * lineQty) else unit * qty;
    Portion(c.product, qty, unit, amount)
  }

  /** The portion of component `c` when its share is taken from its own
      base value. */
  function PortionOf(cat: Catalog, c: Component, lineQty: real, linePrice: real, total: real): Portion
  {
    PortionAt(cat, c, BaseValue(cat, c), lineQty, linePrice, total)
  }

  function PortionsWith(cat: Catalog, comps: seq<Component>, lineQty: real, linePrice: real, total: real): (r: seq<Portion>)
    ensures |r| == |comps|
  {
    if comps == [] then []
    else PortionsWith(cat, comps[..|comps| - 1], lineQty, linePrice, total)
         + [PortionOf(cat, comps[|comps| - 1], lineQty, linePrice, total)]
  }

  /** One portion per component, in the recipe's order, for a line that
      sells `lineQty` units of the sub-group at `linePrice` each. */
  function Apportion(cat: Catalog, comps: seq<Component>, lineQty: real, linePrice: real): seq<Portion>
  {
    PortionsWith(cat, comps, lineQty, linePrice, TotalBase(cat, comps))
  }

  /** Sum of the amounts allocated to a list of portions. */
  function Allocated(ps: seq<Portion>): real
  {
    if ps == [] then 0.0 else Allocated(ps[..|ps| - 1]) + ps[|ps| - 1].amount
  }

  lemma {:induction false} PortionsWithAt(cat: Catalog, comps: seq<Component>, lineQty: real, linePrice: real, total: real, k: int)
    requires 0 <= k < |comps|
    ensures |PortionsWith(cat, comps, lineQty, linePrice, total)| == |comps|
    ensures PortionsWith(cat, comps, lineQty, linePrice, total)[k] == PortionOf(cat, comps[k], lineQty, linePrice, total)
  {
    var init := comps[..|comps| - 1];
    if k < |comps| - 1 {
      PortionsWithAt(cat, init, lineQty, linePrice, total, k);
    } else if init != [] {
      PortionsWithAt(cat, init, lineQty, linePrice, total, 0);
    }
  }

  lemma ApportionIs(cat: Catalog, comps: seq<Component>, lineQty: real, linePrice: real, k: int)
    requires 0 <= k < |comps|
    ensures |Apportion(cat, comps, lineQty, linePrice)| == |comps|
    ensures Apportion(cat, comps, lineQty, linePrice)[k] == PortionOf(cat, comps[k], lineQty, linePrice, TotalBase(cat, comps))
  {
    PortionsWithAt(cat, comps, lineQty, linePrice, TotalBase(cat, comps), k);
  }

  /** Portion `k` belongs to component `k`: same product, the component's
      quantity per sub-group times the line's quantity, and the product's
      own list price as unit price. */
  lemma ApportionAt(cat: Catalog, comps: seq<Component>, lineQty: real, linePrice: real, k: int)
    requires 0 <= k < |comps|
    ensures |Apportion(cat, comps, lineQty, linePrice)| == |comps|
    ensures var p := Apportion(cat, comps, lineQty, linePrice)[k];
      && p.product == comps[k].product
      && p.qty == comps[k].quantity * lineQty
      && p.unitPrice == ListPrice(cat, comps[k].product)
  {
    PortionsWithAt(cat, comps, lineQty, linePrice, TotalBase(cat, comps), k);
  }

  /** With a positive total and no negative base value, a component's
      amount is its base value times the rate `linePrice * lineQty / total`,
      also when its base value is 0. */
  lemma ShareAtRate(cat: Catalog, c: Component, lineQty: real, linePrice: real, total: real)
    requires total > 0.0 && BaseValue(cat, c) >= 0.0
    ensures PortionOf(cat, c, lineQty, linePrice, total).amount == BaseValue(cat, c) * (linePrice * lineQty / total)
  {
    if BaseValue(cat, c) == 0.0 {
      UnweightedPortion(cat, c, lineQty, linePrice, total);
      Reassociate(ListPrice(cat, c.product), c.quantity, lineQty);
    } else {
      WeightedPortion(cat, c, lineQty, linePrice, total);
    }
  }

  /** When the total is not positive, every component's amount is its base
      value times the line's quantity. */
  lemma UnweightedAtRate(cat: Catalog, c: Component, lineQty: real, linePrice: real, total: real)
    requires total <= 0.0
    ensures PortionOf(cat, c, lineQty, linePrice, total).amount == BaseValue(cat, c) * lineQty
  {
    UnweightedPortion(cat, c, lineQty, linePrice, total);
    Reassociate(ListPrice(cat, c.product), c.quantity, lineQty);
  }

  lemma Reassociate(unit: real, q: real, lineQty: real)
    ensures unit * (q * lineQty) == (unit * q) * lineQty
  {
  }

  lemma Distribute(a: real, b: real, rate: real)
    ensures a * rate + b * rate == (a + b) * rate
  {
  }

  lemma AllocatedSnoc(ps: seq<Portion>, p: Portion)
    ensures Allocated(ps + [p]) == Allocated(ps) + p.amount
  {
    assert (ps + [p])[..|ps|] == ps;
  }

  function SumOf(xs: seq<real>): real
  {
    if xs == [] then 0.0 else SumOf(xs[..|xs| - 1]) + xs[|xs| - 1]
  }

  /** Amounts that are weights times one rate add up to the sum of the
      weights times the rate. */
  lemma {:induction false} AllocatedScaled(ps: seq<Portion>, weights: seq<real>, rate: real)
    requires |ps| == |weights|
    requires forall k :: 0 <= k < |ps| ==> ps[k].amount == weights[k] * rate
    ensures Allocated(ps) == SumOf(weights) * rate
  {
    if ps != [] {
      var n := |ps| - 1;
      assert forall k :: 0 <= k < n ==> ps[..n][k] == ps[k] && weights[..n][k] == weights[k];
      AllocatedScaled(ps[..n], weights[..n], rate);
      Distribute(SumOf(weights[..n]), weights[n], rate);
    }
  }

  lemma {:induction false} TotalBaseIsSum(cat: Catalog, comps: seq<Component>)
    ensures TotalBase(cat, comps) == SumOf(seq(|comps|, k requires 0 <= k < |comps| => BaseValue(cat, comps[k])))
  {
    if comps != [] {
      var n := |comps| - 1;
      TotalBaseIsSum(cat, comps[..n]);
      var all := seq(|comps|, k requires 0 <= k < |comps| => BaseValue(cat, comps[k]));
      assert all[..n] == seq(n, k requires 0 <= k < n => BaseValue(cat, comps[..n][k]));
    }
  }

  /** When every portion is charged its component's base value times one
      common rate, the amounts add up to the total base value times that
      rate. */
  lemma AllocatedAtRate(cat: Catalog, comps: seq<Component>, ps: seq<Portion>, rate: real)
    requires |ps| == |comps|
    requires forall k :: 0 <= k < |comps| ==> ps[k].amount == BaseValue(cat, comps[k]) * rate
    ensures Allocated(ps) == TotalBase(cat, comps) * rate
  {
    var weights := seq(|comps|, k requires 0 <= k < |comps| => BaseValue(cat, comps[k]));
    AllocatedScaled(ps, weights, rate);
    TotalBaseIsSum(cat, comps);
  }

  lemma TotalTimesRate(total: real, charged: real)
    requires total > 0.0
    ensures total * (charged / total) == charged
  {
  }

  lemma ApportionAtRate(cat: Catalog, comps: seq<Component>, lineQty: real, linePrice: real, k: int)
    requires 0 <= k < |comps|
    requires TotalBase(cat, comps) > 0.0 && BaseValue(cat, comps[k]) >= 0.0
    ensures |Apportion(cat, comps, lineQty, linePrice)| == |comps|
    ensures Apportion(cat, comps, lineQty, linePrice)[k].amount
         == BaseValue(cat, comps[k]) * (linePrice * lineQty / TotalBase(cat, comps))
  {
    if BaseValue(cat, comps[k]) > 0.0 {
      ApportionProportional(cat, comps, lineQty, linePrice, k);
    } else {
      var total := TotalBase(cat, comps);
      assert Apportion(cat, comps, lineQty, linePrice)[k] == PortionOf(cat, comps[k], lineQty, linePrice, total) by {
        ApportionIs(cat, comps, lineQty, linePrice, k);
      }
      ShareAtRate(cat, comps[k], lineQty, linePrice, total);
    }
  }

  lemma ApportionAllAtRate(cat: Catalog, comps: seq<Component>, lineQty: real, linePrice: real)
    requires forall k :: 0 <= k < |comps| ==> BaseValue(cat, comps[k]) >= 0.0
    requires TotalBase(cat, comps) > 0.0
    ensures |Apportion(cat, comps, lineQty, linePrice)| == |comps|
    ensures forall k :: 0 <= k < |comps| ==>
      Apportion(cat, comps, lineQty, linePrice)[k].amount
      == BaseValue(cat, comps[k]) * (linePrice * lineQty / TotalBase(cat, comps))
  {
    forall k | 0 <= k < |comps|
      ensures Apportion(cat, comps, lineQty, linePrice)[k].amount
           == BaseValue(cat, comps[k]) * (linePrice * lineQty / TotalBase(cat, comps))
    {
      ApportionAtRate(cat, comps, lineQty, linePrice, k);
    }
  }

  /** When no component has a negative base value and the base values add
      up to something positive, the amounts add up to exactly what the line
      charged. */
  lemma ApportionSumsToCharged(cat: Catalog, comps: seq<Component>, lineQty: real, linePrice: real)
    requires forall k :: 0 <= k < |comps| ==> BaseValue(cat, comps[k]) >= 0.0
    requires TotalBase(cat, comps) > 0.0
    ensures Allocated(Apportion(cat, comps, lineQty, linePrice)) == linePrice * lineQty
  {
    var total := TotalBase(cat, comps);
    var charged := linePrice * lineQty;
    ApportionAllAtRate(cat, comps, lineQty, linePrice);
    AllocatedAtRate(cat, comps, Apportion(cat, comps, lineQty, linePrice), charged / total);
    TotalTimesRate(total, charged);
  }

  /** Every component with a positive base value is charged at one and the
      same rate per unit of base value: what the line charged divided by the
      total base value. */
  lemma ApportionProportional(cat: Catalog, comps: seq<Component>, lineQty: real, linePrice: real, k: int)
    requires 0 <= k < |comps|
    requires TotalBase(cat, comps) > 0.0
    requires BaseValue(cat, comps[k]) > 0.0
    ensures |Apportion(cat, comps, lineQty, linePrice)| == |comps|
    ensures Apportion(cat, comps, lineQty, linePrice)[k].amount
         == BaseValue(cat, comps[k]) * (linePrice * lineQty / TotalBase(cat, comps))
  {
    var total := TotalBase(cat, comps);
    assert Apportion(cat, comps, lineQty, linePrice)[k] == PortionOf(cat, comps[k], lineQty, linePrice, total) by {
      ApportionIs(cat, comps, lineQty, linePrice, k);
    }
    WeightedPortion(cat, comps[k], lineQty, linePrice, total);
  }

  lemma WeightedPortion(cat: Catalog, c: Component, lineQty: real, linePrice: real, total: real)
    requires total > 0.0 && BaseValue(cat, c) > 0.0
    ensures PortionOf(cat, c, lineQty, linePrice, total).amount == BaseValue(cat, c) * (linePrice * lineQty / total)
  {
    var b := BaseValue(cat, c);
    var charged := linePrice * lineQty;
    assert PortionOf(cat, c, lineQty, linePrice, total).amount == b / total * charged;
    assert b / total * charged == b * (charged / total);
  }

  /** A component with no positive base value, or every component when the
      base values add up to nothing, is charged its own list price for its
      quantity. */
  lemma ApportionUnweighted(cat: Catalog, comps: seq<Component>, lineQty: real, linePrice: real, k: int)
    requires 0 <= k < |comps|
    requires TotalBase(cat, comps) <= 0.0 || BaseValue(cat, comps[k]) <= 0.0
    ensures |Apportion(cat, comps, lineQty, linePrice)| == |comps|
    ensures Apportion(cat, comps, lineQty, linePrice)[k].amount
         == ListPrice(cat, comps[k].product) * Apportion(cat, comps, lineQty, linePrice)[k].qty
  {
    ApportionIs(cat, comps, lineQty, linePrice, k);
    UnweightedPortion(cat, comps[k], lineQty, linePrice, TotalBase(cat, comps));
  }

  lemma UnweightedPortion(cat: Catalog, c: Component, lineQty: real, linePrice: real, total: real)
    requires total <= 0.0 || BaseValue(cat, c) <= 0.0
    ensures PortionOf(cat, c, lineQty, linePrice, total).amount
         == ListPrice(cat, c.product) * PortionOf(cat, c, lineQty, linePrice, total).qty
  {
  }

  /** When the base values add up to nothing, the line is not split at all:
      the components together are charged their list value, `qty` times the
      total base value, whatever the line charged. */
  lemma ApportionWithoutWeights(cat: Catalog, comps: seq<Component>, lineQty: real, linePrice: real)
    requires TotalBase(cat, comps) <= 0.0
    ensures Allocated(Apportion(cat, comps, lineQty, linePrice)) == TotalBase(cat, comps) * lineQty
  {
    var total := TotalBase(cat, comps);
    var ps := Apportion(cat, comps, lineQty, linePrice);
    forall k | 0 <= k < |comps|
      ensures ps[k].amount == BaseValue(cat, comps[k]) * lineQty
    {
      PortionsWithAt(cat, comps, lineQty, linePrice, total, k);
      UnweightedAtRate(cat, comps[k], lineQty, linePrice, total);
    }
    AllocatedAtRate(cat, comps, ps, lineQty);
  }

  // ---------------------------------------------------------------------
  // The apportionment as the source writes it.  The first pass stores each
  // component's base value in a dictionary keyed by product id, so when a
  // product occurs twice in one recipe the later occurrence overwrites the
  // earlier one, while the running total counts both; the second pass then
  // reads the dictionary for every occurrence.

  /** `component_base_values` after the first pass over `comps` (lines
      100-114): each product's base value, the last occurrence's when the
      product occurs more than once. */
  function BaseValues(cat: Catalog, comps: seq<Component>): map<ProductId, real>
  {
    if comps == [] then map[]
    else BaseValues(cat, comps[..|comps| - 1])[comps[|comps| - 1].product := BaseValue(cat, comps[|comps| - 1])]
  }

  /** `component_base_values.get(product_id, 0.0)` (line 166). */
  function StoredBase(bases: map<ProductId, real>, p: ProductId): real
  {
    if p in bases then bases[p] else 0.0
  }

  /** The portion of component `c` when its share is taken from the
      dictionary of base values. */
  function PortionAsWritten(cat: Catalog, bases: map<ProductId, real>, c: Component, lineQty: real, linePrice: real, total: real): Portion
  {
    PortionAt(cat, c, StoredBase(bases, c.product), lineQty, linePrice, total)
  }

  function PortionsAsWritten(cat: Catalog, bases: map<ProductId, real>, comps: seq<Component>, lineQty: real, linePrice: real, total: real): seq<Portion>
  {
    if comps == [] then []
    else PortionsAsWritten(cat, bases, comps[..|comps| - 1], lineQty, linePrice, total)
         + [PortionAsWritten(cat, bases, comps[|comps| - 1], lineQty, linePrice, total)]
  }

  /** The source's portions, one per component, in the recipe's order. */
  function ApportionAsWritten(cat: Catalog, comps: seq<Component>, lineQty: real, linePrice: real): seq<Portion>
  {
    PortionsAsWritten(cat, BaseValues(cat, comps), comps, lineQty, linePrice, TotalBase(cat, comps))
  }

  /** How the second pass reads a component's base value: from the
      dictionary keyed by product, as the source does, or from the
      component itself. */
  datatype Reading = Keyed | PerComponent

  /** The base value the second pass uses for component `c`. */
  function ReadBase(reading: Reading, cat: Catalog, bases: map<ProductId, real>, c: Component): real
  {
    match reading
    case Keyed => StoredBase(bases, c.product)
    case PerComponent => BaseValue(cat, c)
  }

  /** A component's portion under either reading: `PortionAsWritten` when
      keyed, `PortionOf` when per component. */
  function PortionBy(reading: Reading, cat: Catalog, bases: map<ProductId, real>, c: Component,
                     lineQty: real, linePrice: real, total: real): Portion
  {
    PortionAt(cat, c, ReadBase(reading, cat, bases, c), lineQty, linePrice, total)
  }

  /** Under either reading, a component's portion is for its product, its
      quantity for the whole line, at its list price. */
  lemma PortionByFacts(reading: Reading, cat: Catalog, bases: map<ProductId, real>, c: Component,
                       lineQty: real, linePrice: real, total: real)
    ensures var p := PortionBy(reading, cat, bases, c, lineQty, linePrice, total);
      p.product == c.product && p.qty == c.quantity * lineQty && p.unitPrice == ListPrice(cat, c.product)
  {
  }

  predicate DistinctProducts(comps: seq<Component>)
  {
    forall i, j :: 0 <= i < j < |comps| ==> comps[i].product != comps[j].product
  }

  lemma {:induction false} StoredBaseOfDistinct(cat: Catalog, all: seq<Component>, k: int)
    requires DistinctProducts(all) && 0 <= k < |all|
    ensures StoredBase(BaseValues(cat, all), all[k].product) == BaseValue(cat, all[k])
  {
    if k < |all| - 1 {
      var init := all[..|all| - 1];
      assert all[|all| - 1].product != all[k].product;
      assert init[k] == all[k];
      StoredBaseOfDistinct(cat, init, k);
    }
  }

  /** When no product occurs twice in the recipe, both readings give every
      component the same portion. */
  lemma ReadingsAgreeOnDistinct(cat: Catalog, all: seq<Component>, k: int, lineQty: real, linePrice: real, total: real)
    requires DistinctProducts(all) && 0 <= k < |all|
    ensures PortionBy(Keyed, cat, BaseValues(cat, all), all[k], lineQty, linePrice, total)
         == PortionBy(PerComponent, cat, BaseValues(cat, all), all[k], lineQty, linePrice, total)
  {
    StoredBaseOfDistinct(cat, all, k);
  }

  lemma {:induction false} PortionsAgreeOnDistinct(cat: Catalog, all: seq<Component>, n: int, lineQty: real, linePrice: real, total: real)
    requires DistinctProducts(all) && 0 <= n <= |all|
    ensures PortionsAsWritten(cat, BaseValues(cat, all), all[..n], lineQty, linePrice, total) == PortionsWith(cat, all[..n], lineQty, linePrice, total)
  {
    if n > 0 {
      var prefix := all[..n];
      assert prefix[..n - 1] == all[..n - 1];
      assert prefix[n - 1] == all[n - 1];
      PortionsAgreeOnDistinct(cat, all, n - 1, lineQty, linePrice, total);
      ReadingsAgreeOnDistinct(cat, all, n - 1, lineQty, linePrice, total);
    }
  }

  /** When no product occurs twice in the recipe, the source's apportionment
      and the per-component one coincide. */
  lemma AsWrittenAgreesWhenDistinct(cat: Catalog, comps: seq<Component>, lineQty: real, linePrice: real)
    requires DistinctProducts(comps)
    ensures ApportionAsWritten(cat, comps, lineQty, linePrice) == Apportion(cat, comps, lineQty, linePrice)
  {
    PortionsAgreeOnDistinct(cat, comps, |comps|, lineQty, linePrice, TotalBase(cat, comps));
    assert comps[..|comps|] == comps;
  }

  lemma {:induction false} PortionsAsWrittenAt(cat: Catalog, bases: map<ProductId, real>, comps: seq<Component>,
                                                lineQty: real, linePrice: real, total: real, k: int)
    requires 0 <= k < |comps|
    ensures |PortionsAsWritten(cat, bases, comps, lineQty, linePrice, total)| == |comps|
    ensures PortionsAsWritten(cat, bases, comps, lineQty, linePrice, total)[k]
         == PortionAsWritten(cat, bases, comps[k], lineQty, linePrice, total)
  {
    var init := comps[..|comps| - 1];
    if k < |comps| - 1 {
      PortionsAsWrittenAt(cat, bases, init, lineQty, linePrice, total, k);
    } else if init != [] {
      PortionsAsWrittenAt(cat, bases, init, lineQty, linePrice, total, 0);
    }
  }

  /** The source's test on line 168: a component whose stored base value is
      not positive, or every component when the base values add up to
      nothing, is charged its own list price for its quantity. */
  lemma ApportionAsWrittenUnweighted(cat: Catalog, comps: seq<Component>, lineQty: real, linePrice: real, k: int)
    requires 0 <= k < |comps|
    requires TotalBase(cat, comps) <= 0.0 || StoredBase(BaseValues(cat, comps), comps[k].product) <= 0.0
    ensures |ApportionAsWritten(cat, comps, lineQty, linePrice)| == |comps|
    ensures ApportionAsWritten(cat, comps, lineQty, linePrice)[k].amount
         == ListPrice(cat, comps[k].product) * ApportionAsWritten(cat, comps, lineQty, linePrice)[k].qty
  {
    AsWrittenUnweightedWith(cat, comps, lineQty, linePrice, k, BaseValues(cat, comps), TotalBase(cat, comps));
  }

  lemma AsWrittenUnweightedWith(cat: Catalog, comps: seq<Component>, lineQty: real, linePrice: real, k: int,
                                bases: map<ProductId, real>, total: real)
    requires 0 <= k < |comps|
    requires bases == BaseValues(cat, comps) && total == TotalBase(cat, comps)
    requires total <= 0.0 || StoredBase(bases, comps[k].product) <= 0.0
    ensures |ApportionAsWritten(cat, comps, lineQty, linePrice)| == |comps|
    ensures ApportionAsWritten(cat, comps, lineQty, linePrice)[k].amount
         == ListPrice(cat, comps[k].product) * ApportionAsWritten(cat, comps, lineQty, linePrice)[k].qty
  {
    PortionsAsWrittenUnweighted(cat, bases, comps, lineQty, linePrice, total, k);
  }

  lemma PortionsAsWrittenUnweighted(cat: Catalog, bases: map<ProductId, real>, comps: seq<Component>,
                                    lineQty: real, linePrice: real, total: real, k: int)
    requires 0 <= k < |comps|
    requires total <= 0.0 || StoredBase(bases, comps[k].product) <= 0.0
    ensures |PortionsAsWritten(cat, bases, comps, lineQty, linePrice, total)| == |comps|
    ensures PortionsAsWritten(cat, bases, comps, lineQty, linePrice, total)[k].amount
         == ListPrice(cat, comps[k].product) * PortionsAsWritten(cat, bases, comps, lineQty, linePrice, total)[k].qty
  {
    PortionsAsWrittenAt(cat, bases, comps, lineQty, linePrice, total, k);
    UnweightedPortionAsWritten(cat, bases, comps[k], lineQty, linePrice, total);
  }

  lemma UnweightedPortionAsWritten(cat: Catalog, bases: map<ProductId, real>, c: Component, lineQty: real, linePrice: real, total: real)
    requires total <= 0.0 || StoredBase(bases, c.product) <= 0.0
    ensures PortionAsWritten(cat, bases, c, lineQty, linePrice, total).amount
         == ListPrice(cat, c.product) * PortionAsWritten(cat, bases, c, lineQty, linePrice, total).qty
  {
  }

  /** A component with a positive quantity and no positive base value of
      its own finds no positive base value in the dictionary either, when no
      quantity in the recipe is negative: its product has no positive list
      price, so no occurrence of it stores a positive value. */
  lemma StoredBaseOfUnweighted(cat: Catalog, comps: seq<Component>, k: int)
    requires 0 <= k < |comps|
    requires forall i :: 0 <= i < |comps| ==> comps[i].quantity >= 0.0
    requires comps[k].quantity > 0.0 && BaseValue(cat, comps[k]) <= 0.0
    ensures StoredBase(BaseValues(cat, comps), comps[k].product) <= 0.0
  {
    NonPositiveFactor(ListPrice(cat, comps[k].product), comps[k].quantity);
    StoredBaseNonPositive(cat, comps, comps[k].product);
  }

  lemma NonPositiveFactor(a: real, b: real)
    requires b > 0.0 && a * b <= 0.0
    ensures a <= 0.0
  {
  }

  lemma {:induction false} PortionsAsWrittenWithoutWeights(cat: Catalog, bases: map<ProductId, real>, comps: seq<Component>,
                                                            lineQty: real, linePrice: real, total: real)
    requires total <= 0.0
    ensures PortionsAsWritten(cat, bases, comps, lineQty, linePrice, total) == PortionsWith(cat, comps, lineQty, linePrice, total)
  {
    if comps != [] {
      var n := |comps| - 1;
      PortionsAsWrittenWithoutWeights(cat, bases, comps[..n], lineQty, linePrice, total);
      assert PortionAsWritten(cat, bases, comps[n], lineQty, linePrice, total) == PortionOf(cat, comps[n], lineQty, linePrice, total);
    }
  }

  /** When the base values add up to nothing, the dictionary is never
      consulted for a share: the source's apportionment is the per-component
      one, and charges the components their list value, `qty` times the
      total base value. */
  lemma AsWrittenAgreesWithoutWeights(cat: Catalog, comps: seq<Component>, lineQty: real, linePrice: real)
    requires TotalBase(cat, comps) <= 0.0
    ensures ApportionAsWritten(cat, comps, lineQty, linePrice) == Apportion(cat, comps, lineQty, linePrice)
    ensures Allocated(ApportionAsWritten(cat, comps, lineQty, linePrice)) == TotalBase(cat, comps) * lineQty
  {
    PortionsAsWrittenWithoutWeights(cat, BaseValues(cat, comps), comps, lineQty, linePrice, TotalBase(cat, comps));
    ApportionWithoutWeights(cat, comps, lineQty, linePrice);
  }

  /** When a product's list price is not positive and no component's
      quantity is negative, the dictionary's base value for it is not
      positive either. */
  lemma {:induction false} StoredBaseNonPositive(cat: Catalog, comps: seq<Component>, p: ProductId)
    requires ListPrice(cat, p) <= 0.0
    requires forall k :: 0 <= k < |comps| ==> comps[k].quantity >= 0.0
    ensures StoredBase(BaseValues(cat, comps), p) <= 0.0
  {
    if comps != [] {
      var n := |comps| - 1;
      if comps[n].product == p {
        NonPositiveTimesNonNegative(ListPrice(cat, p), comps[n].quantity);
      } else {
        StoredBaseNonPositive(cat, comps[..n], p);
      }
    }
  }

  lemma NonPositiveTimesNonNegative(a: real, b: real)
    requires a <= 0.0 && b >= 0.0
    ensures a * b <= 0.0
  {
  }

  /** A component whose product has no positive list price is charged its
      list price for its quantity under either reading, when no quantity in
      the recipe is negative: the two readings differ only in the shares of
      priced components. */
  lemma UnpricedPortion(reading: Reading, cat: Catalog, all: seq<Component>, c: Component,
                        lineQty: real, linePrice: real, total: real)
    requires ListPrice(cat, c.product) <= 0.0
    requires c.quantity >= 0.0
    requires forall k :: 0 <= k < |all| ==> all[k].quantity >= 0.0
    ensures var p := PortionBy(reading, cat, BaseValues(cat, all), c, lineQty, linePrice, total);
      p.amount == p.unitPrice * p.qty
  {
    StoredBaseNonPositive(cat, all, c.product);
    NonPositiveTimesNonNegative(ListPrice(cat, c.product), c.quantity);
  }

  /** A recipe with product 1 (list price 10) twice, once with quantity 1 and
      once with quantity 2, sold once at 30: the source allocates 40 where
      the per-component apportionment allocates the 30 charged. */
  lemma RepeatedProductOverAllocates()
    ensures var cat := Catalog(map[1 := Product("Chapati", 10.0, false, None)], map[], map[], []);
      var comps := [Component(1, 1.0), Component(1, 2.0)];
      && Allocated(ApportionAsWritten(cat, comps, 1.0, 30.0)) == 40.0
      && Allocated(Apportion(cat, comps, 1.0, 30.0)) == 30.0
  {
    var cat := Catalog(map[1 := Product("Chapati", 10.0, false, None)], map[], map[], []);
    var a, b := Component(1, 1.0), Component(1, 2.0);
    var comps := [a, b];
    var bases := BaseValues(cat, comps);
    assert comps[..1] == [a];
    assert TotalBase(cat, [a]) == 10.0;
    assert TotalBase(cat, comps) == 30.0;
    assert StoredBase(bases, 1) == 20.0;
    var pa := PortionAsWritten(cat, bases, a, 1.0, 30.0, 30.0);
    var pb := PortionAsWritten(cat, bases, b, 1.0, 30.0, 30.0);
    assert pa.amount == 20.0 && pb.amount == 20.0;
    assert PortionsAsWritten(cat, bases, [a], 1.0, 30.0, 30.0) == [pa];
    assert ApportionAsWritten(cat, comps, 1.0, 30.0) == [pa] + [pb];
    AllocatedSnoc([], pa);
    AllocatedSnoc([pa], pb);
    var qa := PortionOf(cat, a, 1.0, 30.0, 30.0);
    var qb := PortionOf(cat, b, 1.0, 30.0, 30.0);
    assert qa.amount == 10.0 && qb.amount == 20.0;
    assert PortionsWith(cat, [a], 1.0, 30.0, 30.0) == [qa];
    assert Apportion(cat, comps, 1.0, 30.0) == [qa] + [qb];
    AllocatedSnoc([], qa);
    AllocatedSnoc([qa], qb);
  }

  /** The same recipe with the quantities the other way round, product 1
      twice with quantity 2 and then 1, sold once at 30: the source
      allocates only 20 of the 30 charged. */
  lemma RepeatedProductUnderAllocates()
    ensures var cat := Catalog(map[1 := Product("Chapati", 10.0, false, None)], map[], map[], []);
      var comps := [Component(1, 2.0), Component(1, 1.0)];
      && Allocated(ApportionAsWritten(cat, comps, 1.0, 30.0)) == 20.0
      && Allocated(Apportion(cat, comps, 1.0, 30.0)) == 30.0
  {
    var cat := Catalog(map[1 := Product("Chapati", 10.0, false, None)], map[], map[], []);
    var a, b := Component(1, 2.0), Component(1, 1.0);
    var comps := [a, b];
    var bases := BaseValues(cat, comps);
    assert comps[..1] == [a];
    assert TotalBase(cat, [a]) == 20.0;
    assert TotalBase(cat, comps) == 30.0;
    assert StoredBase(bases, 1) == 10.0;
    var pa := PortionAsWritten(cat, bases, a, 1.0, 30.0, 30.0);
    var pb := PortionAsWritten(cat, bases, b, 1.0, 30.0, 30.0);
    assert pa.amount == 10.0 && pb.amount == 10.0;
    assert PortionsAsWritten(cat, bases, [a], 1.0, 30.0, 30.0) == [pa];
    assert ApportionAsWritten(cat, comps, 1.0, 30.0) == [pa] + [pb];
    AllocatedSnoc([], pa);
    AllocatedSnoc([pa], pb);
    var qa := PortionOf(cat, a, 1.0, 30.0, 30.0);
    var qb := PortionOf(cat, b, 1.0, 30.0, 30.0);
    assert qa.amount == 20.0 && qb.amount == 10.0;
    assert PortionsWith(cat, [a], 1.0, 30.0, 30.0) == [qa];
    assert Apportion(cat, comps, 1.0, 30.0) == [qa] + [qb];
    AllocatedSnoc([], qa);
    AllocatedSnoc([qa], qb);
  }
}

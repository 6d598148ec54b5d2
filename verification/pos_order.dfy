/** `PosOrder._order_fields` (pos_order.py, lines 13-317) as the source runs
    it: one pass over the submitted lines that keeps the plain ones and adds
    every component of every sub-group line into the component map, then one
    pass over the map that writes a priced line per component product.

    Each method is proved to compute the function that specifies it:
    `TotalBaseValue` gives `Apportionment.BaseValues` and `TotalBase`,
    `ComponentShare` gives `Apportionment.PortionAsWritten`, `AddComponent`
    gives `Aggregation.Merge`, `ComponentLines` gives
    `Reconciliation.FlushLines`, and `MergeSubGroupLine` and `OrderFields`
    give the functions of `Expansion`.  So what is proved about those
    functions holds of the lines the methods produce. */
module PosOrder {
  import opened Values
  import opened Rounding
  import opened ProductCatalog
  import opened Apportionment
  import opened Aggregation
  import opened Reconciliation
  import opened Expansion

  /** The first pass over a recipe (lines 100-116): `component_base_values`,
      each product's base value, the last occurrence's when a product
      occurs twice, and `total_base_value`, the sum of list price times
      quantity over all the components. */
  method TotalBaseValue(cat: Catalog, comps: seq<Component>) returns (bases: map<ProductId, real>, total: real)
    ensures bases == BaseValues(cat, comps)
    ensures total == TotalBase(cat, comps)
  {
    bases := map[];
    total := 0.0;
    var i := 0;
    while i < |comps|
      invariant 0 <= i <= |comps|
      invariant bases == BaseValues(cat, comps[..i])
      invariant total == TotalBase(cat, comps[..i])
    {
      var component := comps[i];
      var unitPrice := ListPrice(cat, component.product);
      var baseValue := unitPrice * component.quantity;
      assert baseValue == BaseValue(cat, component);
      bases := bases[component.product := baseValue];
      total := total + baseValue;
      assert comps[..i + 1][..i] == comps[..i];
      i := i + 1;
    }
    assert comps[..i] == comps;
  }

  /** One component's quantity for the line, its own unit price and its
      share of the line's charge (lines 143-173): in proportion to the base
      value stored for its product when both that and the total are
      positive, and otherwise its list price times its quantity. */
  method ComponentShare(cat: Catalog, component: Component, qty: real, priceUnit: real,
                        bases: map<ProductId, real>, totalBase: real)
    returns (share: Portion)
    ensures share == PortionAsWritten(cat, bases, component, qty, priceUnit, totalBase)
  {
    var unitPrice := ListPrice(cat, component.product);
    var componentQty := component.quantity * qty;
    var baseValue := if component.product in bases then bases[component.product] else 0.0;
    var portion;
    if totalBase > 0.0 && baseValue > 0.0 {
      portion := (baseValue / totalBase) * (priceUnit * qty);
    } else {
      portion := unitPrice * componentQty;
    }
    share := Portion(component.product, componentQty, unitPrice, portion);
  }

  /** Adds one component to the component map (lines 188-236): an existing
      entry adds the quantity and the amount and records the sub-group; a
      new one stores the component's line dictionary, quantity, amount and
      unit price, after the entries already there. */
  method AddComponent(m: ComponentMap, share: Portion, data: Dict, subGroup: string) returns (r: ComponentMap)
    ensures r == Merge(m, Contribution(share, data, subGroup))
  {
    var order, entries := m.order, m.entries;
    var product := share.product;
    if product in entries {
      var existing := entries[product];
      entries := entries[product := existing.(totalQty := existing.totalQty + share.qty,
                                              totalPrice := existing.totalPrice + share.amount,
                                              subGroups := existing.subGroups + [subGroup])];
    } else {
      order := order + [product];
      entries := entries[product := Entry(data, share.qty, share.amount, share.unitPrice, [subGroup])];
    }
    r := ComponentMap(order, entries);
  }

  /** The second pass over a recipe (lines 124-236): each component's
      quantity and share of the line's charge are added into the component
      map, a first occurrence storing the component's line dictionary. */
  method MergeSubGroupLine(cat: Catalog, sg: SubGroup, d: Dict, m0: ComponentMap) returns (m: ComponentMap)
    ensures m == MergeAll(m0, LineContributions(cat, sg, d, Keyed))
  {
    var qty := LineQty(d);
    var priceUnit := LinePrice(d, sg);
    var bases, totalBase := TotalBaseValue(cat, sg.components);
    m := m0;
    var i := 0;
    while i < |sg.components|
      invariant 0 <= i <= |sg.components|
      invariant m == MergeAll(m0, ContributionsFrom(cat, sg, d, Keyed, sg.components[..i], qty, priceUnit, bases, totalBase))
    {
      var component := sg.components[i];
      var share := ComponentShare(cat, component, qty, priceUnit, bases, totalBase);
      var data := ComponentLineData(cat, sg, d, component, qty);
      MergeStep(cat, sg, d, m0, i, qty, priceUnit, bases, totalBase);
      m := AddComponent(m, share, data, sg.name);
      i := i + 1;
    }
    assert sg.components[..i] == sg.components;
  }

  lemma MergeStep(cat: Catalog, sg: SubGroup, d: Dict, m0: ComponentMap, i: int,
                  qty: real, priceUnit: real, bases: map<ProductId, real>, totalBase: real)
    requires 0 <= i < |sg.components|
    ensures MergeAll(m0, ContributionsFrom(cat, sg, d, Keyed, sg.components[..i + 1], qty, priceUnit, bases, totalBase))
         == Merge(MergeAll(m0, ContributionsFrom(cat, sg, d, Keyed, sg.components[..i], qty, priceUnit, bases, totalBase)),
                  Contribution(PortionAsWritten(cat, bases, sg.components[i], qty, priceUnit, totalBase),
                               ComponentLineData(cat, sg, d, sg.components[i], qty), sg.name))
  {
    ContributionsFromStep(cat, sg, d, Keyed, sg.components, i, qty, priceUnit, bases, totalBase);
    MergeAllSnoc(m0, ContributionsFrom(cat, sg, d, Keyed, sg.components[..i], qty, priceUnit, bases, totalBase),
                 Contribution(PortionAsWritten(cat, bases, sg.components[i], qty, priceUnit, totalBase),
                              ComponentLineData(cat, sg, d, sg.components[i], qty), sg.name));
  }

  /** The pass over the component map (lines 253-305): one line `(0, 0,
      data)` per product, in the order the products were first added, with
      the reconciled unit price, the summed quantity, no discount and the
      subtotal rounded to cents. */
  method ComponentLines(m: ComponentMap) returns (lines: seq<RawLine>)
    requires Valid(m)
    ensures lines == FlushLines(m)
  {
    lines := [];
    var i := 0;
    while i < |m.order|
      invariant 0 <= i <= |m.order|
      invariant |lines| == i
      invariant forall k :: 0 <= k < i ==> lines[k] == GeneratedLine(m.entries[m.order[k]])
    {
      var info := m.entries[m.order[i]];
      var priceUnit;
      if info.unitPrice > 0.0 {
        priceUnit := info.unitPrice;
      } else if info.totalQty > 0.0 && info.totalPrice > 0.0 {
        priceUnit := info.totalPrice / info.totalQty;
      } else {
        priceUnit := 0.0;
      }
      var total := priceUnit * info.totalQty;
      var subtotal := Round2(total);
      var data := info.data["qty" := Num(info.totalQty)]
                           ["price_unit" := Num(priceUnit)]
                           ["discount" := Num(0.0)]
                           ["price_subtotal" := Num(subtotal)]
                           ["price_subtotal_incl" := Num(subtotal)]
                           ["price_total" := Num(subtotal)];
      assert Reconcile(info) == LinePrices(info.totalQty, priceUnit, total);
      lines := lines + [Command(Int(0), Int(0), data, [])];
      i := i + 1;
    }
  }

  /** The whole pass over an order's lines: the lines that are not expanded,
      in their order, followed by the component lines. */
  method OrderFields(cat: Catalog, lines: seq<RawLine>) returns (processed: seq<RawLine>)
    ensures processed == Expand(cat, lines)
  {
    processed := [];
    var m := Empty();
    var i := 0;
    while i < |lines|
      invariant 0 <= i <= |lines|
      invariant processed == Kept(cat, lines[..i])
      invariant m == MergeAll(Empty(), AllContributions(cat, lines[..i], Keyed))
    {
      var line := lines[i];
      PrefixStep(cat, lines, i, Keyed);
      match line {
        case Malformed(_) =>
          processed := processed + [line];
        case Command(_, _, d, _) =>
          var subGroupId := ResolvedSubGroup(cat, d);
          if Truthy(subGroupId) && subGroupId.Int? {
            if subGroupId.i !in cat.subGroups || cat.subGroups[subGroupId.i].components == [] {
              assert Classify(cat, line) == Keep;
              processed := processed + [line];
            } else {
              var sg := cat.subGroups[subGroupId.i];
              ghost var before := AllContributions(cat, lines[..i], Keyed);
              assert Classify(cat, line) == ExpandAs(subGroupId.i);
              m := MergeSubGroupLine(cat, sg, d, m);
              MergeAllAppend(Empty(), before, LineContributions(cat, sg, d, Keyed));
            }
          } else {
            assert Classify(cat, line) == Keep;
            processed := processed + [line];
          }
      }
      i := i + 1;
    }
    assert lines[..i] == lines;
    MergeAllFromEmpty(AllContributions(cat, lines, Keyed));
    var generated := ComponentLines(m);
    processed := processed + generated;
  }
}

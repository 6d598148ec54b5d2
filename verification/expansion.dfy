/** The order-line expansion (pos_order.py, lines 13-317), as a function of
    the catalog and the submitted lines.

    Every submitted line is either kept as it is or, when it buys a
    sub-group that exists and has components, replaced by the components'
    contributions to the per-order component map.  The result is the kept
    lines, in their input order, followed by one generated line per
    component product, in the order the products were first met. */
module Expansion {
  import opened Values
  import opened Rounding
  import opened ProductCatalog
  import opened Apportionment
  import opened Aggregation
  import opened Reconciliation

  /** The fields a component line does not inherit from its sub-group line
      (lines 130-142). */
  const RemovedKeys: set<string> := {
    "product_sub_group_id", "product_group_id", "attribute_value_ids",
    "custom_attribute_value_ids", "pack_lot_ids", "id", "uuid", "skip_change",
    "price_subtotal", "price_subtotal_incl", "price_total"}

  /** The fields a first occurrence of a component sets (lines 214-222). */
  const ComponentKeys: set<string> := {
    "product_id", "qty", "price_unit", "full_product_name", "is_component",
    "product_sub_group_name", "product_group_name"}

  // ---------------------------------------------------------------------
  // Which lines buy a sub-group (lines 34-72)

  /** The sub-group found by price for a line that names none: the line's
      product must be a big group's product, and an active sub-group of that
      group must have exactly the line's unit price (lines 49-68).  A
      product id that is not an integer or a price that is not a number
      finds nothing. */
  function FallbackSubGroup(cat: Catalog, productId: Value, priceUnit: Value): Option<SubGroupId>
  {
    if productId.Int? && IsGroupProduct(cat, productId.i) && IsNumber(priceUnit) then
      FindByPrice(cat, cat.products[productId.i].group.value, NumberOr(priceUnit, 0.0))
    else None
  }

  /** `product_sub_group_id` once the fallback has run. */
  function ResolvedSubGroup(cat: Catalog, d: Dict): Value
  {
    var explicit := Get(d, "product_sub_group_id");
    if !Truthy(explicit) && Truthy(Get(d, "product_id")) then
      match FallbackSubGroup(cat, Get(d, "product_id"), Get(d, "price_unit"))
      case Some(id) => Int(id)
      case None => explicit
    else explicit
  }

  datatype Disposition = Keep | ExpandAs(id: SubGroupId)

  /** A line is expanded when it resolves to a sub-group that exists and has
      components; every other line is kept (lines 34, 72, 82-90, 241-249). */
  function Classify(cat: Catalog, line: RawLine): (r: Disposition)
    ensures r.ExpandAs? ==> line.Command? && r.id in cat.subGroups && cat.subGroups[r.id].components != []
  {
    match line
    case Malformed(_) => Keep
    case Command(_, _, d, _) =>
      var v := ResolvedSubGroup(cat, d);
      if Truthy(v) && v.Int? && v.i in cat.subGroups && cat.subGroups[v.i].components != [] then ExpandAs(v.i)
      else Keep
  }

  // The model covers the inputs on which the source runs to completion: a
  // value that is a list of at least three items is a command whose third
  // item is a dictionary (line 40 calls `get` on it); an explicit sub-group
  // reference is absent, false or an integer (it is passed to `browse`);
  // and a line that is expanded has a numeric quantity and unit price, if
  // any (lines 73, 93-94 multiply them).  On other inputs the source raises
  // out of `_order_fields`.  The model keeps a line whose sub-group
  // reference is not an integer, and reads a non-numeric `qty` or
  // `price_unit` as its default.

  // ---------------------------------------------------------------------
  // Expanding one line (lines 73-238)

  /** `line_data.get('qty', 1)`. */
  function LineQty(d: Dict): real
  {
    NumberField(d, "qty", 1.0)
  }

  /** `line_data.get('price_unit', sub_group.price)`. */
  function LinePrice(d: Dict, sg: SubGroup): real
  {
    NumberField(d, "price_unit", sg.price)
  }

  /** What a sub-group line charges: `price_unit * qty`. */
  function LineCharged(d: Dict, sg: SubGroup): real
  {
    LinePrice(d, sg) * LineQty(d)
  }

  /** The line dictionary stored for the first occurrence of component `c`:
      the sub-group line's fields without the removed ones, with the
      component's product, quantity, list price, name, the component flag
      and the sub-group's and group's names. */
  function ComponentLineData(cat: Catalog, sg: SubGroup, d: Dict, c: Component, lineQty: real): Dict
  {
    (d - RemovedKeys)["product_id" := Int(c.product)]
                     ["qty" := Num(c.quantity * lineQty)]
                     ["price_unit" := Num(ListPrice(cat, c.product))]
                     ["full_product_name" := Str(ProductName(cat, c.product))]
                     ["is_component" := Bool(true)]
                     ["product_sub_group_name" := Str(sg.name)]
                     ["product_group_name" := Str(GroupName(cat, sg.group))]
  }

  /** A component's line dictionary names the component's product, its
      quantity for the whole line, its list price and name, marks it as a
      component, names the sub-group and its group, drops the removed
      fields, and keeps every other field of the sub-group line. */
  lemma ComponentLineDataFields(cat: Catalog, sg: SubGroup, d: Dict, c: Component, lineQty: real)
    ensures var data := ComponentLineData(cat, sg, d, c, lineQty);
      && "product_sub_group_id" !in data
      && Get(data, "product_id") == Int(c.product)
      && Get(data, "qty") == Num(c.quantity * lineQty)
      && Get(data, "price_unit") == Num(ListPrice(cat, c.product))
      && Get(data, "full_product_name") == Str(ProductName(cat, c.product))
      && Get(data, "is_component") == Bool(true)
      && Get(data, "product_sub_group_name") == Str(sg.name)
      && Get(data, "product_group_name") == Str(GroupName(cat, sg.group))
      && (forall key :: key in RemovedKeys && key !in ComponentKeys ==> key !in data)
      && (forall key :: key !in RemovedKeys && key !in ComponentKeys ==> Get(data, key) == Get(d, key))
  {
  }

  /** A component's line dictionary has none of the removed fields: the
      fields it sets are not among them. */
  lemma ComponentLineDataStripped(cat: Catalog, sg: SubGroup, d: Dict, c: Component, lineQty: real)
    ensures forall key :: key in RemovedKeys ==> key !in ComponentLineData(cat, sg, d, c, lineQty)
  {
    assert RemovedKeys !! ComponentKeys;
    ComponentLineDataFields(cat, sg, d, c, lineQty);
  }

  /** The contributions of the components `comps` of sub-group `sg`, in
      order, when the line sells `lineQty` units at `linePrice` each, the
      first pass stored the base values `bases` and their total is
      `total`, and the second pass reads base values as `reading` says. */
  function ContributionsFrom(cat: Catalog, sg: SubGroup, d: Dict, reading: Reading, comps: seq<Component>,
                             lineQty: real, linePrice: real, bases: map<ProductId, real>, total: real): seq<Contribution>
  {
    if comps == [] then []
    else
      var c := comps[|comps| - 1];
      ContributionsFrom(cat, sg, d, reading, comps[..|comps| - 1], lineQty, linePrice, bases, total)
      + [Contribution(PortionBy(reading, cat, bases, c, lineQty, linePrice, total), ComponentLineData(cat, sg, d, c, lineQty), sg.name)]
  }

  lemma ContributionsFromStep(cat: Catalog, sg: SubGroup, d: Dict, reading: Reading, comps: seq<Component>, i: int,
                              lineQty: real, linePrice: real, bases: map<ProductId, real>, total: real)
    requires 0 <= i < |comps|
    ensures ContributionsFrom(cat, sg, d, reading, comps[..i + 1], lineQty, linePrice, bases, total)
         == ContributionsFrom(cat, sg, d, reading, comps[..i], lineQty, linePrice, bases, total)
            + [Contribution(PortionBy(reading, cat, bases, comps[i], lineQty, linePrice, total),
                            ComponentLineData(cat, sg, d, comps[i], lineQty), sg.name)]
  {
    assert comps[..i + 1][..i] == comps[..i];
  }

  /** The contributions of one sub-group line. */
  function LineContributions(cat: Catalog, sg: SubGroup, d: Dict, reading: Reading): seq<Contribution>
  {
    ContributionsFrom(cat, sg, d, reading, sg.components, LineQty(d), LinePrice(d, sg),
                      BaseValues(cat, sg.components), TotalBase(cat, sg.components))
  }

  // ---------------------------------------------------------------------
  // Expanding the order (lines 28-313)

  /** The lines that pass through, in input order. */
  function Kept(cat: Catalog, lines: seq<RawLine>): seq<RawLine>
  {
    if lines == [] then []
    else Kept(cat, lines[..|lines| - 1]) + (if Classify(cat, lines[|lines| - 1]).Keep? then [lines[|lines| - 1]] else [])
  }

  /** The contributions of every expanded line, in input order. */
  function AllContributions(cat: Catalog, lines: seq<RawLine>, reading: Reading): seq<Contribution>
  {
    if lines == [] then []
    else
      var line := lines[|lines| - 1];
      AllContributions(cat, lines[..|lines| - 1], reading)
      + match Classify(cat, line)
        case Keep => []
        case ExpandAs(id) => LineContributions(cat, cat.subGroups[id], line.data, reading)
  }

  /** The lines after the first `i + 1` are the lines after the first `i`
      and line `i`. */
  lemma PrefixStep(cat: Catalog, lines: seq<RawLine>, i: int, reading: Reading)
    requires 0 <= i < |lines|
    ensures Classify(cat, lines[i]).Keep? ==>
      && Kept(cat, lines[..i + 1]) == Kept(cat, lines[..i]) + [lines[i]]
      && AllContributions(cat, lines[..i + 1], reading) == AllContributions(cat, lines[..i], reading)
    ensures Classify(cat, lines[i]).ExpandAs? ==>
      && Kept(cat, lines[..i + 1]) == Kept(cat, lines[..i])
      && AllContributions(cat, lines[..i + 1], reading)
         == AllContributions(cat, lines[..i], reading)
            + LineContributions(cat, cat.subGroups[Classify(cat, lines[i]).id], lines[i].data, reading)
  {
    assert lines[..i + 1][..i] == lines[..i];
    assert AllContributions(cat, lines[..i], reading) + [] == AllContributions(cat, lines[..i], reading);
    assert Kept(cat, lines[..i]) + [] == Kept(cat, lines[..i]);
  }

  /** The processed line list handed on to the order's creation: the
      component map is built from the contributions as the source computes
      them. */
  function Expand(cat: Catalog, lines: seq<RawLine>): seq<RawLine>
  {
    Kept(cat, lines) + FlushLines(MergeAll(Empty(), AllContributions(cat, lines, Keyed)))
  }

  // ---------------------------------------------------------------------
  // Which lines are expanded

  /** An explicit sub-group reference is used as it is: the search by price
      runs only for lines that name none. */
  lemma ExplicitReferenceUsed(cat: Catalog, d: Dict)
    requires Truthy(Get(d, "product_sub_group_id"))
    ensures ResolvedSubGroup(cat, d) == Get(d, "product_sub_group_id")
  {
  }

  /** A line that names no sub-group and sells a big group's product at a
      numeric price resolves to a stored sub-group exactly when an active
      sub-group of that product's group has that price, and then to such a
      sub-group. */
  lemma FallbackResolvesByPrice(cat: Catalog, d: Dict)
    requires SearchIndexed(cat)
    requires !Truthy(Get(d, "product_sub_group_id"))
    requires Get(d, "product_id").Int? && Get(d, "product_id").i != 0
    requires IsGroupProduct(cat, Get(d, "product_id").i)
    requires IsNumber(Get(d, "price_unit"))
    ensures var v := ResolvedSubGroup(cat, d);
            var g := cat.products[Get(d, "product_id").i].group.value;
            var price := NumberOr(Get(d, "price_unit"), 0.0);
      && ((v.Int? && v.i in cat.subGroups) <==> exists id :: Matches(cat, id, g, price))
      && (v.Int? && v.i in cat.subGroups ==> Matches(cat, v.i, g, price))
  {
    var g := cat.products[Get(d, "product_id").i].group.value;
    var price := NumberOr(Get(d, "price_unit"), 0.0);
    FindByPriceComplete(cat, g, price);
    var v := ResolvedSubGroup(cat, d);
    if FindByPrice(cat, g, price).None? && v.Int? {
      assert v.i == 0;
    }
  }

  /** A line that names no sub-group and whose product is not a big group's
      product is kept. */
  lemma PlainProductKept(cat: Catalog, line: RawLine)
    requires line.Command? && !Truthy(Get(line.data, "product_sub_group_id"))
    requires !(Get(line.data, "product_id").Int? && IsGroupProduct(cat, Get(line.data, "product_id").i))
    ensures Classify(cat, line) == Keep
  {
  }

  /** A line whose sub-group does not exist or has no components is kept
      and contributes no component. */
  lemma DegenerateLineKept(cat: Catalog, line: RawLine)
    requires line.Command?
    requires var v := ResolvedSubGroup(cat, line.data);
      v.Int? && (v.i !in cat.subGroups || cat.subGroups[v.i].components == [])
    ensures Classify(cat, line) == Keep
    ensures Kept(cat, [line]) == [line] && AllContributions(cat, [line], Keyed) == []
  {
    assert [line][..0] == [];
  }

  // ---------------------------------------------------------------------
  // Pass-through lines

  lemma {:induction false} KeptAppend(cat: Catalog, a: seq<RawLine>, b: seq<RawLine>)
    ensures Kept(cat, a + b) == Kept(cat, a) + Kept(cat, b)
  {
    if b == [] {
      assert a + b == a;
    } else {
      var init := b[..|b| - 1];
      assert (a + b)[..|a + b| - 1] == a + init;
      KeptAppend(cat, a, init);
    }
  }

  lemma {:induction false} AllContributionsAppend(cat: Catalog, a: seq<RawLine>, b: seq<RawLine>, reading: Reading)
    ensures AllContributions(cat, a + b, reading) == AllContributions(cat, a, reading) + AllContributions(cat, b, reading)
  {
    if b == [] {
      assert a + b == a;
    } else {
      var init := b[..|b| - 1];
      assert (a + b)[..|a + b| - 1] == a + init;
      AllContributionsAppend(cat, a, init, reading);
    }
  }

  /** The kept lines are exactly the input lines that are not expanded. */
  lemma {:induction false} KeptIsFilter(cat: Catalog, lines: seq<RawLine>)
    ensures forall x :: x in Kept(cat, lines) ==> x in lines && Classify(cat, x) == Keep
    ensures forall k :: 0 <= k < |lines| && Classify(cat, lines[k]) == Keep ==> lines[k] in Kept(cat, lines)
  {
    if lines != [] {
      var init := lines[..|lines| - 1];
      KeptIsFilter(cat, init);
      assert lines == init + [lines[|lines| - 1]];
      forall k | 0 <= k < |lines| - 1
        ensures lines[k] == init[k]
      {
      }
    }
  }

  /** An order with nothing to expand is handed on unchanged. */
  lemma {:induction false} NothingToExpand(cat: Catalog, lines: seq<RawLine>)
    requires forall k :: 0 <= k < |lines| ==> Classify(cat, lines[k]) == Keep
    ensures Kept(cat, lines) == lines && AllContributions(cat, lines, Keyed) == []
    ensures Expand(cat, lines) == lines
  {
    if lines != [] {
      var init := lines[..|lines| - 1];
      NothingToExpand(cat, init);
      assert lines == init + [lines[|lines| - 1]];
    }
    assert FlushLines(Empty()) == [];
  }

  // ---------------------------------------------------------------------
  // Apportionment of one line

  function PortionsOf(cs: seq<Contribution>): seq<Portion>
  {
    if cs == [] then [] else PortionsOf(cs[..|cs| - 1]) + [cs[|cs| - 1].portion]
  }

  lemma {:induction false} ContributionsFromPortions(cat: Catalog, sg: SubGroup, d: Dict, reading: Reading, comps: seq<Component>,
                                                     lineQty: real, linePrice: real, bases: map<ProductId, real>, total: real)
    ensures |ContributionsFrom(cat, sg, d, reading, comps, lineQty, linePrice, bases, total)| == |comps|
    ensures reading == PerComponent ==>
      PortionsOf(ContributionsFrom(cat, sg, d, reading, comps, lineQty, linePrice, bases, total))
      == PortionsWith(cat, comps, lineQty, linePrice, total)
    ensures reading == Keyed ==>
      PortionsOf(ContributionsFrom(cat, sg, d, reading, comps, lineQty, linePrice, bases, total))
      == PortionsAsWritten(cat, bases, comps, lineQty, linePrice, total)
  {
    if comps != [] {
      ContributionsFromPortions(cat, sg, d, reading, comps[..|comps| - 1], lineQty, linePrice, bases, total);
      var cs := ContributionsFrom(cat, sg, d, reading, comps, lineQty, linePrice, bases, total);
      assert cs[..|cs| - 1] == ContributionsFrom(cat, sg, d, reading, comps[..|comps| - 1], lineQty, linePrice, bases, total);
    }
  }

  /** The portions a sub-group line contributes are the apportionment of its
      charged total over the sub-group's recipe: the source's, with base
      values read from the dictionary keyed by product, or the
      per-component one. */
  lemma LinePortions(cat: Catalog, sg: SubGroup, d: Dict)
    ensures PortionsOf(LineContributions(cat, sg, d, Keyed)) == ApportionAsWritten(cat, sg.components, LineQty(d), LinePrice(d, sg))
    ensures PortionsOf(LineContributions(cat, sg, d, PerComponent)) == Apportion(cat, sg.components, LineQty(d), LinePrice(d, sg))
  {
    var bases, total := BaseValues(cat, sg.components), TotalBase(cat, sg.components);
    ContributionsFromPortions(cat, sg, d, Keyed, sg.components, LineQty(d), LinePrice(d, sg), bases, total);
    ContributionsFromPortions(cat, sg, d, PerComponent, sg.components, LineQty(d), LinePrice(d, sg), bases, total);
  }

  /** When the recipe has weight, the amounts a sub-group line contributes
      with per-component base values add up to what the line charged,
      `price_unit * qty`. */
  lemma LineAllocatesCharged(cat: Catalog, sg: SubGroup, d: Dict)
    requires forall k :: 0 <= k < |sg.components| ==> BaseValue(cat, sg.components[k]) >= 0.0
    requires TotalBase(cat, sg.components) > 0.0
    ensures Allocated(PortionsOf(LineContributions(cat, sg, d, PerComponent))) == LineCharged(d, sg)
  {
    LinePortions(cat, sg, d);
    ApportionSumsToCharged(cat, sg.components, LineQty(d), LinePrice(d, sg));
    LineChargedIs(d, sg);
  }

  lemma LineChargedIs(d: Dict, sg: SubGroup)
    ensures LineCharged(d, sg) == LinePrice(d, sg) * LineQty(d)
  {
  }

  /** Components that get the same portion under both readings make the
      same contributions under both. */
  lemma {:induction false} ContributionsAgree(cat: Catalog, sg: SubGroup, d: Dict, comps: seq<Component>,
                                              lineQty: real, linePrice: real, bases: map<ProductId, real>, total: real)
    requires forall c :: c in comps ==>
      PortionBy(Keyed, cat, bases, c, lineQty, linePrice, total) == PortionBy(PerComponent, cat, bases, c, lineQty, linePrice, total)
    ensures ContributionsFrom(cat, sg, d, Keyed, comps, lineQty, linePrice, bases, total)
         == ContributionsFrom(cat, sg, d, PerComponent, comps, lineQty, linePrice, bases, total)
  {
    if comps != [] {
      ContributionsAgree(cat, sg, d, comps[..|comps| - 1], lineQty, linePrice, bases, total);
    }
  }

  /** When no product occurs twice in the recipe, the source's
      contributions are the per-component ones. */
  lemma LineReadingsAgree(cat: Catalog, sg: SubGroup, d: Dict)
    requires DistinctProducts(sg.components)
    ensures LineContributions(cat, sg, d, Keyed) == LineContributions(cat, sg, d, PerComponent)
  {
    var comps := sg.components;
    var bases, total := BaseValues(cat, comps), TotalBase(cat, comps);
    forall c | c in comps
      ensures PortionBy(Keyed, cat, bases, c, LineQty(d), LinePrice(d, sg), total)
           == PortionBy(PerComponent, cat, bases, c, LineQty(d), LinePrice(d, sg), total)
    {
      var k :| 0 <= k < |comps| && comps[k] == c;
      ReadingsAgreeOnDistinct(cat, comps, k, LineQty(d), LinePrice(d, sg), total);
    }
    ContributionsAgree(cat, sg, d, comps, LineQty(d), LinePrice(d, sg), bases, total);
  }

  /** When no product occurs twice in the recipe, the source's
      contributions of a line with weight add up to what it charged. */
  lemma LineAllocatesChargedAsWritten(cat: Catalog, sg: SubGroup, d: Dict)
    requires DistinctProducts(sg.components)
    requires forall k :: 0 <= k < |sg.components| ==> BaseValue(cat, sg.components[k]) >= 0.0
    requires TotalBase(cat, sg.components) > 0.0
    ensures Allocated(PortionsOf(LineContributions(cat, sg, d, Keyed))) == LineCharged(d, sg)
  {
    LineReadingsAgree(cat, sg, d);
    LineAllocatesCharged(cat, sg, d);
  }
}

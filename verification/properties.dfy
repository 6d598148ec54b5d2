/** What the expansion promises about the lines it hands on: the kept lines
    come first and unchanged, then one priced line per component product;
    every unit of a component that the sub-group lines contain reaches its
    line; the component map's amounts add up to what the sub-group lines
    charged; and the output is expanded no further. */
module OrderProperties {
  import opened Values
  import opened Rounding
  import opened ProductCatalog
  import opened Apportionment
  import opened Aggregation
  import opened Reconciliation
  import opened Expansion

  /** The entry product `p` gets when `cs` is merged into an empty map. */
  function MergedEntry(cs: seq<Contribution>, p: ProductId): Entry
    requires FirstOf(cs, p).Some?
  {
    Entry(FirstOf(cs, p).value.data, QtyOf(cs, p), AmountOf(cs, p),
          FirstOf(cs, p).value.portion.unitPrice, SubGroupsOf(cs, p))
  }

  // ---------------------------------------------------------------------
  // The shape of the output

  /** `out` is `kept` followed by one generated line per distinct product
      of `cs`, in the order the products were first met, each built from the
      product's first contribution and its summed quantity and amount. */
  ghost predicate OutputShaped(kept: seq<RawLine>, cs: seq<Contribution>, out: seq<RawLine>)
  {
    var products := FirstSeen(ProductsOf(cs));
    && |out| == |kept| + |products|
    && out[..|kept|] == kept
    && (forall i, j :: 0 <= i < j < |products| ==> products[i] != products[j])
    && (forall p :: p in products <==> p in ProductsOf(cs))
    && (forall j :: 0 <= j < |products| ==>
          FirstOf(cs, products[j]).Some?
          && out[|kept| + j] == GeneratedLine(MergedEntry(cs, products[j])))
  }

  /** The kept lines followed by the lines flushed from the map that `cs`
      builds are shaped so. */
  lemma FlushedShape(kept: seq<RawLine>, cs: seq<Contribution>)
    ensures OutputShaped(kept, cs, kept + FlushLines(MergeAll(Empty(), cs)))
  {
    var products := FirstSeen(ProductsOf(cs));
    var m := MergeAll(Empty(), cs);
    var generated := FlushLines(m);
    MergeAllFromEmpty(cs);
    FirstSeenFacts(ProductsOf(cs));
    assert (kept + generated)[..|kept|] == kept;
    forall j | 0 <= j < |products|
      ensures FirstOf(cs, products[j]).Some?
      ensures (kept + generated)[|kept| + j] == GeneratedLine(MergedEntry(cs, products[j]))
    {
      assert m.order[j] == products[j];
      assert generated[j] == GeneratedLine(m.entries[products[j]]);
    }
  }

  /** The output is the kept lines, then one generated line per distinct
      component product, in the order the products were first met; each
      generated line is built from the product's first contribution and its
      summed quantity and amount. */
  lemma ExpandShape(cat: Catalog, lines: seq<RawLine>)
    ensures OutputShaped(Kept(cat, lines), AllContributions(cat, lines, Keyed), Expand(cat, lines))
  {
    FlushedShape(Kept(cat, lines), AllContributions(cat, lines, Keyed));
  }

  // ---------------------------------------------------------------------
  // What a component contribution carries

  /** Product `p` is a component of a stored sub-group. */
  ghost predicate IsComponentProduct(cat: Catalog, p: ProductId)
  {
    exists id, k :: id in cat.subGroups && 0 <= k < |cat.subGroups[id].components|
                    && cat.subGroups[id].components[k].product == p
  }

  /** A contribution's line dictionary names its product, marks it as a
      component and has no sub-group reference, and the product is a
      component of a stored sub-group. */
  ghost predicate ComponentShaped(cat: Catalog, x: Contribution)
  {
    && "product_sub_group_id" !in x.data
    && Get(x.data, "product_id") == Int(x.portion.product)
    && Get(x.data, "is_component") == Bool(true)
    && IsComponentProduct(cat, x.portion.product)
  }

  lemma ComponentContributionShaped(cat: Catalog, id: SubGroupId, d: Dict, reading: Reading, k: int,
                                    lineQty: real, linePrice: real, bases: map<ProductId, real>, total: real)
    requires id in cat.subGroups && 0 <= k < |cat.subGroups[id].components|
    ensures var sg := cat.subGroups[id];
            var c := sg.components[k];
      ComponentShaped(cat, Contribution(PortionBy(reading, cat, bases, c, lineQty, linePrice, total),
                                        ComponentLineData(cat, sg, d, c, lineQty), sg.name))
  {
    var sg := cat.subGroups[id];
    ComponentLineDataFields(cat, sg, d, sg.components[k], lineQty);
  }

  lemma {:induction false} ContributionsFromShaped(cat: Catalog, id: SubGroupId, d: Dict, reading: Reading, n: int,
                                                   lineQty: real, linePrice: real, bases: map<ProductId, real>, total: real)
    requires id in cat.subGroups && 0 <= n <= |cat.subGroups[id].components|
    ensures var sg := cat.subGroups[id];
      forall x :: x in ContributionsFrom(cat, sg, d, reading, sg.components[..n], lineQty, linePrice, bases, total) ==> ComponentShaped(cat, x)
    decreases n
  {
    if n > 0 {
      var sg := cat.subGroups[id];
      ContributionsFromShaped(cat, id, d, reading, n - 1, lineQty, linePrice, bases, total);
      ContributionsFromStep(cat, sg, d, reading, sg.components, n - 1, lineQty, linePrice, bases, total);
      ComponentContributionShaped(cat, id, d, reading, n - 1, lineQty, linePrice, bases, total);
    }
  }

  /** Every contribution of an order is component-shaped. */
  lemma {:induction false} AllContributionsShaped(cat: Catalog, lines: seq<RawLine>, reading: Reading)
    ensures forall x :: x in AllContributions(cat, lines, reading) ==> ComponentShaped(cat, x)
  {
    if lines != [] {
      var n := |lines| - 1;
      AllContributionsShaped(cat, lines[..n], reading);
      PrefixStep(cat, lines, n, reading);
      assert lines[..n + 1] == lines;
      match Classify(cat, lines[n])
      case Keep =>
      case ExpandAs(id) =>
        var sg := cat.subGroups[id];
        var d := lines[n].data;
        ContributionsFromShaped(cat, id, d, reading, |sg.components|, LineQty(d), LinePrice(d, sg),
                                BaseValues(cat, sg.components), TotalBase(cat, sg.components));
        assert sg.components[..|sg.components|] == sg.components;
    }
  }

  /** The line generated for a product whose first contribution is
      component-shaped names the product, marks it as a component, has no
      sub-group reference, and carries the summed quantity, the reconciled
      unit price, no discount and the rounded subtotal in all three
      totals. */
  lemma MergedLineFields(cat: Catalog, cs: seq<Contribution>, p: ProductId)
    requires FirstOf(cs, p).Some? && FirstOf(cs, p).value.portion.product == p
    requires ComponentShaped(cat, FirstOf(cs, p).value)
    ensures var e := MergedEntry(cs, p);
            var line := GeneratedLine(e);
      && line == Command(Int(0), Int(0), line.data, [])
      && "product_sub_group_id" !in line.data
      && Get(line.data, "product_id") == Int(p)
      && Get(line.data, "is_component") == Bool(true)
      && Get(line.data, "qty") == Num(QtyOf(cs, p))
      && Get(line.data, "price_unit") == Num(ReconciledUnitPrice(e))
      && Get(line.data, "discount") == Num(0.0)
      && Get(line.data, "price_subtotal") == Num(Round2(Reconcile(e).total))
      && Get(line.data, "price_subtotal_incl") == Num(Round2(Reconcile(e).total))
      && Get(line.data, "price_total") == Num(Round2(Reconcile(e).total))
  {
    var e := MergedEntry(cs, p);
    GeneratedLineOf(e);
    assert Get(GeneratedLine(e).data, "product_sub_group_id") == Get(e.data, "product_sub_group_id");
  }

  /** A contribution whose line dictionary has none of the fields a
      component line does not inherit. */
  ghost predicate Stripped(x: Contribution)
  {
    forall key :: key in RemovedKeys ==> key !in x.data
  }

  lemma {:induction false} ContributionsFromStripped(cat: Catalog, sg: SubGroup, d: Dict, reading: Reading, comps: seq<Component>,
                                                     lineQty: real, linePrice: real, bases: map<ProductId, real>, total: real)
    ensures forall x :: x in ContributionsFrom(cat, sg, d, reading, comps, lineQty, linePrice, bases, total) ==> Stripped(x)
  {
    if comps != [] {
      var n := |comps| - 1;
      ContributionsFromStripped(cat, sg, d, reading, comps[..n], lineQty, linePrice, bases, total);
      ComponentLineDataStripped(cat, sg, d, comps[n], lineQty);
    }
  }

  lemma {:induction false} AllContributionsStripped(cat: Catalog, lines: seq<RawLine>, reading: Reading)
    ensures forall x :: x in AllContributions(cat, lines, reading) ==> Stripped(x)
  {
    if lines != [] {
      var n := |lines| - 1;
      AllContributionsStripped(cat, lines[..n], reading);
      PrefixStep(cat, lines, n, reading);
      assert lines[..n + 1] == lines;
      match Classify(cat, lines[n])
      case Keep =>
      case ExpandAs(id) =>
        var sg := cat.subGroups[id];
        var d := lines[n].data;
        ContributionsFromStripped(cat, sg, d, reading, sg.components, LineQty(d), LinePrice(d, sg),
                                  BaseValues(cat, sg.components), TotalBase(cat, sg.components));
    }
  }

  /** A generated line carries none of the fields a component line does not
      inherit (the line's id and uuid, its sub-group and group references,
      its attribute values and lots, the skip flag) except the three
      totals, which it sets afresh. */
  lemma GeneratedLineStripped(cat: Catalog, lines: seq<RawLine>, j: int)
    requires 0 <= j < |FirstSeen(ProductsOf(AllContributions(cat, lines, Keyed)))|
    ensures |Kept(cat, lines)| + j < |Expand(cat, lines)|
    ensures forall key :: key in RemovedKeys && key !in PriceKeys ==>
      key !in Expand(cat, lines)[|Kept(cat, lines)| + j].data
  {
    var cs := AllContributions(cat, lines, Keyed);
    var p := FirstSeen(ProductsOf(cs))[j];
    GeneratedLineAt(cat, lines, j);
    FirstOfFacts(cs, p);
    AllContributionsStripped(cat, lines, Keyed);
    var e := MergedEntry(cs, p);
    WithPricesKeepsOtherFields(e.data, Reconcile(e));
  }

  /** Output line `|Kept| + j` is the line generated for the `j`-th
      product first met, whose first contribution is component-shaped. */
  lemma GeneratedLineAt(cat: Catalog, lines: seq<RawLine>, j: int)
    requires 0 <= j < |FirstSeen(ProductsOf(AllContributions(cat, lines, Keyed)))|
    ensures var cs := AllContributions(cat, lines, Keyed);
            var p := FirstSeen(ProductsOf(cs))[j];
      && FirstOf(cs, p).Some? && FirstOf(cs, p).value.portion.product == p
      && ComponentShaped(cat, FirstOf(cs, p).value)
      && |Kept(cat, lines)| + j < |Expand(cat, lines)|
      && Expand(cat, lines)[|Kept(cat, lines)| + j] == GeneratedLine(MergedEntry(cs, p))
  {
    var cs := AllContributions(cat, lines, Keyed);
    var p := FirstSeen(ProductsOf(cs))[j];
    ExpandShape(cat, lines);
    FirstOfFacts(cs, p);
    AllContributionsShaped(cat, lines, Keyed);
  }

  // ---------------------------------------------------------------------
  // The output is expanded no further

  /** No component product is itself a big group's product. */
  ghost predicate PlainComponents(cat: Catalog)
  {
    forall p :: IsComponentProduct(cat, p) ==> !IsGroupProduct(cat, p)
  }

  /** The line generated for a product whose first contribution is shaped
      like a component's is kept when expanded again: it names no sub-group,
      and its product is a component, so not a big group's product. */
  lemma EntryKept(cat: Catalog, cs: seq<Contribution>, p: ProductId)
    requires PlainComponents(cat)
    requires FirstOf(cs, p).Some? && FirstOf(cs, p).value.portion.product == p
    requires ComponentShaped(cat, FirstOf(cs, p).value)
    ensures Classify(cat, GeneratedLine(MergedEntry(cs, p))) == Keep
  {
    MergedLineFields(cat, cs, p);
  }

  /** A generated line of the output is kept when expanded again. */
  lemma GeneratedLineKept(cat: Catalog, lines: seq<RawLine>, j: int)
    requires PlainComponents(cat)
    requires 0 <= j < |FirstSeen(ProductsOf(AllContributions(cat, lines, Keyed)))|
    ensures |Kept(cat, lines)| + j < |Expand(cat, lines)|
    ensures Classify(cat, Expand(cat, lines)[|Kept(cat, lines)| + j]) == Keep
  {
    var cs := AllContributions(cat, lines, Keyed);
    GeneratedLineAt(cat, lines, j);
    EntryKept(cat, cs, FirstSeen(ProductsOf(cs))[j]);
  }

  /** A kept line is kept when expanded again. */
  lemma KeptLineKept(cat: Catalog, lines: seq<RawLine>, k: int)
    requires 0 <= k < |Kept(cat, lines)|
    ensures Classify(cat, Kept(cat, lines)[k]) == Keep
  {
    assert Kept(cat, lines)[k] in Kept(cat, lines);
    KeptIsFilter(cat, lines);
  }

  /** An output shaped from kept lines that are kept and from component
      contributions is kept when expanded again. */
  lemma ShapedOutputKept(cat: Catalog, kept: seq<RawLine>, cs: seq<Contribution>, out: seq<RawLine>)
    requires PlainComponents(cat)
    requires OutputShaped(kept, cs, out)
    requires forall i :: 0 <= i < |kept| ==> Classify(cat, kept[i]) == Keep
    requires forall x :: x in cs ==> ComponentShaped(cat, x)
    ensures forall k :: 0 <= k < |out| ==> Classify(cat, out[k]) == Keep
  {
    var products := FirstSeen(ProductsOf(cs));
    forall k | 0 <= k < |out|
      ensures Classify(cat, out[k]) == Keep
    {
      if k < |kept| {
        assert out[k] == out[..|kept|][k];
      } else {
        var p := products[k - |kept|];
        FirstOfFacts(cs, p);
        EntryKept(cat, cs, p);
      }
    }
  }

  /** Every line of the output is kept when the output is expanded again. */
  lemma OutputKept(cat: Catalog, lines: seq<RawLine>)
    requires PlainComponents(cat)
    ensures forall k :: 0 <= k < |Expand(cat, lines)| ==> Classify(cat, Expand(cat, lines)[k]) == Keep
  {
    var kept := Kept(cat, lines);
    ExpandShape(cat, lines);
    AllContributionsShaped(cat, lines, Keyed);
    forall i | 0 <= i < |kept|
      ensures Classify(cat, kept[i]) == Keep
    {
      KeptLineKept(cat, lines, i);
    }
    ShapedOutputKept(cat, kept, AllContributions(cat, lines, Keyed), Expand(cat, lines));
  }

  /** Expanding the output again changes nothing: kept lines stay kept, and
      a generated line names no sub-group and sells a product that is not a
      big group's product. */
  lemma ExpandIdempotent(cat: Catalog, lines: seq<RawLine>)
    requires PlainComponents(cat)
    ensures Expand(cat, Expand(cat, lines)) == Expand(cat, lines)
  {
    OutputKept(cat, lines);
    NothingToExpand(cat, Expand(cat, lines));
  }

  // ---------------------------------------------------------------------
  // Every unit reaches its line

  /** Units of product `p` in one unit of a recipe. */
  function RecipeQty(comps: seq<Component>, p: ProductId): real
  {
    if comps == [] then 0.0
    else RecipeQty(comps[..|comps| - 1], p)
         + (if comps[|comps| - 1].product == p then comps[|comps| - 1].quantity else 0.0)
  }

  /** Units of product `p` in `lineQty` units of a recipe, component by
      component. */
  function RecipeUnits(comps: seq<Component>, p: ProductId, lineQty: real): real
  {
    if comps == [] then 0.0
    else RecipeUnits(comps[..|comps| - 1], p, lineQty)
         + (if comps[|comps| - 1].product == p then comps[|comps| - 1].quantity * lineQty else 0.0)
  }

  /** Units of product `p` that the order's expanded sub-group lines
      contain. */
  function OrderedQty(cat: Catalog, lines: seq<RawLine>, p: ProductId): real
  {
    if lines == [] then 0.0
    else
      var line := lines[|lines| - 1];
      OrderedQty(cat, lines[..|lines| - 1], p)
      + match Classify(cat, line)
        case Keep => 0.0
        case ExpandAs(id) => RecipeUnits(cat.subGroups[id].components, p, LineQty(line.data))
  }

  /** `lineQty` units of a recipe hold `lineQty` times the recipe's units. */
  lemma {:induction false} RecipeUnitsScale(comps: seq<Component>, p: ProductId, lineQty: real)
    ensures RecipeUnits(comps, p, lineQty) == RecipeQty(comps, p) * lineQty
  {
    if comps != [] {
      var n := |comps| - 1;
      RecipeUnitsScale(comps[..n], p, lineQty);
      if comps[n].product == p {
        Distribute(RecipeQty(comps[..n], p), comps[n].quantity, lineQty);
      }
    }
  }

  lemma {:induction false} QtyOfAppend(a: seq<Contribution>, b: seq<Contribution>, p: ProductId)
    ensures QtyOf(a + b, p) == QtyOf(a, p) + QtyOf(b, p)
  {
    if b == [] {
      assert a + b == a;
    } else {
      var init := b[..|b| - 1];
      assert (a + b)[..|a + b| - 1] == a + init;
      QtyOfAppend(a, init, p);
    }
  }

  lemma QtyOfSnoc(cs: seq<Contribution>, c: Contribution, p: ProductId)
    ensures QtyOf(cs + [c], p) == QtyOf(cs, p) + (if c.portion.product == p then c.portion.qty else 0.0)
  {
    assert (cs + [c])[..|cs|] == cs;
  }

  /** The components of one line contribute, for each product, the units
      the recipe holds of it. */
  lemma {:induction false} ContributedQty(cat: Catalog, sg: SubGroup, d: Dict, reading: Reading, comps: seq<Component>,
                                          lineQty: real, linePrice: real, bases: map<ProductId, real>, total: real, p: ProductId)
    ensures QtyOf(ContributionsFrom(cat, sg, d, reading, comps, lineQty, linePrice, bases, total), p) == RecipeUnits(comps, p, lineQty)
  {
    if comps != [] {
      var n := |comps| - 1;
      var init := ContributionsFrom(cat, sg, d, reading, comps[..n], lineQty, linePrice, bases, total);
      var x := Contribution(PortionBy(reading, cat, bases, comps[n], lineQty, linePrice, total),
                            ComponentLineData(cat, sg, d, comps[n], lineQty), sg.name);
      ContributionsFromStep(cat, sg, d, reading, comps, n, lineQty, linePrice, bases, total);
      assert comps[..n + 1] == comps;
      assert x.portion.product == comps[n].product && x.portion.qty == comps[n].quantity * lineQty by {
        PortionByFacts(reading, cat, bases, comps[n], lineQty, linePrice, total);
      }
      QtyOfSnoc(init, x, p);
      ContributedQty(cat, sg, d, reading, comps[..n], lineQty, linePrice, bases, total, p);
    }
  }

  lemma OrderedQtyStep(cat: Catalog, lines: seq<RawLine>, n: int, p: ProductId)
    requires 0 <= n < |lines|
    ensures Classify(cat, lines[n]).Keep? ==> OrderedQty(cat, lines[..n + 1], p) == OrderedQty(cat, lines[..n], p)
    ensures Classify(cat, lines[n]).ExpandAs? ==>
      OrderedQty(cat, lines[..n + 1], p)
      == OrderedQty(cat, lines[..n], p)
         + RecipeUnits(cat.subGroups[Classify(cat, lines[n]).id].components, p, LineQty(lines[n].data))
  {
    assert lines[..n + 1][..n] == lines[..n];
  }

  /** Merging an order's contributions gives each product exactly the
      units of it that the expanded sub-group lines contain. */
  lemma {:induction false} MergedQuantity(cat: Catalog, lines: seq<RawLine>, p: ProductId, reading: Reading)
    ensures QtyOf(AllContributions(cat, lines, reading), p) == OrderedQty(cat, lines, p)
  {
    if lines != [] {
      var n := |lines| - 1;
      MergedQuantity(cat, lines[..n], p, reading);
      PrefixStep(cat, lines, n, reading);
      OrderedQtyStep(cat, lines, n, p);
      assert lines[..n + 1] == lines;
      match Classify(cat, lines[n])
      case Keep =>
      case ExpandAs(id) =>
        var sg := cat.subGroups[id];
        var d := lines[n].data;
        QtyOfAppend(AllContributions(cat, lines[..n], reading), LineContributions(cat, sg, d, reading), p);
        ContributedQty(cat, sg, d, reading, sg.components, LineQty(d), LinePrice(d, sg),
                       BaseValues(cat, sg.components), TotalBase(cat, sg.components), p);
    }
  }

  /** The line generated for a product carries, as its quantity, every unit
      of the product that the order's expanded sub-group lines contain. */
  lemma GeneratedQuantity(cat: Catalog, lines: seq<RawLine>, j: int)
    requires 0 <= j < |FirstSeen(ProductsOf(AllContributions(cat, lines, Keyed)))|
    ensures var p := FirstSeen(ProductsOf(AllContributions(cat, lines, Keyed)))[j];
      && |Kept(cat, lines)| + j < |Expand(cat, lines)|
      && Get(Expand(cat, lines)[|Kept(cat, lines)| + j].data, "qty") == Num(OrderedQty(cat, lines, p))
  {
    var cs := AllContributions(cat, lines, Keyed);
    var p := FirstSeen(ProductsOf(cs))[j];
    GeneratedLineAt(cat, lines, j);
    MergedLineFields(cat, cs, p);
    MergedQuantity(cat, lines, p, Keyed);
  }

  /** A contribution's unit price is its product's list price. */
  ghost predicate ListPriced(cat: Catalog, x: Contribution)
  {
    x.portion.unitPrice == ListPrice(cat, x.portion.product)
  }

  lemma {:induction false} ContributionsFromListPriced(cat: Catalog, sg: SubGroup, d: Dict, reading: Reading, comps: seq<Component>,
                                                      lineQty: real, linePrice: real, bases: map<ProductId, real>, total: real)
    ensures forall x :: x in ContributionsFrom(cat, sg, d, reading, comps, lineQty, linePrice, bases, total) ==> ListPriced(cat, x)
  {
    if comps != [] {
      var n := |comps| - 1;
      ContributionsFromListPriced(cat, sg, d, reading, comps[..n], lineQty, linePrice, bases, total);
      PortionByFacts(reading, cat, bases, comps[n], lineQty, linePrice, total);
    }
  }

  /** Under either reading, every contribution of an order carries its
      product's list price as its unit price (lines 160-227). */
  lemma {:induction false} AllContributionsListPriced(cat: Catalog, lines: seq<RawLine>, reading: Reading)
    ensures forall x :: x in AllContributions(cat, lines, reading) ==> ListPriced(cat, x)
  {
    if lines != [] {
      var n := |lines| - 1;
      AllContributionsListPriced(cat, lines[..n], reading);
      PrefixStep(cat, lines, n, reading);
      assert lines[..n + 1] == lines;
      match Classify(cat, lines[n])
      case Keep =>
      case ExpandAs(id) =>
        var sg := cat.subGroups[id];
        var d := lines[n].data;
        ContributionsFromListPriced(cat, sg, d, reading, sg.components, LineQty(d), LinePrice(d, sg),
                                    BaseValues(cat, sg.components), TotalBase(cat, sg.components));
    }
  }

  /** An entry whose unit price is positive is priced at that unit price for
      its whole quantity, whatever amount it stored. */
  lemma PricedEntry(e: Entry, price: real, qty: real)
    requires e.unitPrice == price && price > 0.0 && e.totalQty == qty
    ensures Reconcile(e) == LinePrices(qty, price, price * qty)
  {
  }

  /** A line's dictionary sells `qty` units at `price`: the unit price is
      `price`, and all three totals are `price * qty` rounded to cents. */
  ghost predicate SoldAt(data: Dict, price: real, qty: real)
  {
    var total := Num(Round2(price * qty));
    && Get(data, "price_unit") == Num(price)
    && Get(data, "price_subtotal") == total
    && Get(data, "price_subtotal_incl") == total
    && Get(data, "price_total") == total
  }

  /** The line generated for a product whose first contribution carries its
      positive list price sells the summed quantity `qty` at that list
      price. */
  lemma EntryPriced(cat: Catalog, cs: seq<Contribution>, p: ProductId, qty: real)
    requires FirstOf(cs, p).Some? && FirstOf(cs, p).value.portion.product == p
    requires ListPriced(cat, FirstOf(cs, p).value)
    requires ListPrice(cat, p) > 0.0 && qty == QtyOf(cs, p)
    ensures SoldAt(GeneratedLine(MergedEntry(cs, p)).data, ListPrice(cat, p), qty)
  {
    var e := MergedEntry(cs, p);
    var lp := LinePrices(qty, ListPrice(cat, p), ListPrice(cat, p) * qty);
    PricedEntry(e, ListPrice(cat, p), qty);
    assert Reconcile(e) == lp;
    assert FinalData(e) == WithPrices(e.data, Reconcile(e));
    assert FinalData(e) == WithPrices(e.data, lp);
    assert GeneratedLine(e).data == FinalData(e);
    WithPricesFields(e.data, lp);
    var data, total := GeneratedLine(e).data, Num(Round2(lp.total));
    assert Get(data, "price_subtotal") == total;
    assert Get(data, "price_subtotal_incl") == total;
    assert Get(data, "price_total") == total;
  }

  /** The line generated for a product with a positive list price sells
      every unit of it that the order's sub-group lines contain at that list
      price: its unit price is the list price, and all three totals are the
      list price times the ordered quantity, rounded to cents. */
  lemma GeneratedLinePriced(cat: Catalog, lines: seq<RawLine>, j: int)
    requires 0 <= j < |FirstSeen(ProductsOf(AllContributions(cat, lines, Keyed)))|
    ensures var p := FirstSeen(ProductsOf(AllContributions(cat, lines, Keyed)))[j];
      && |Kept(cat, lines)| + j < |Expand(cat, lines)|
      && (ListPrice(cat, p) > 0.0 ==>
            SoldAt(Expand(cat, lines)[|Kept(cat, lines)| + j].data, ListPrice(cat, p), OrderedQty(cat, lines, p)))
  {
    var cs := AllContributions(cat, lines, Keyed);
    var p := FirstSeen(ProductsOf(cs))[j];
    GeneratedLineAt(cat, lines, j);
    if ListPrice(cat, p) > 0.0 {
      assert ListPriced(cat, FirstOf(cs, p).value) by {
        FirstOfFacts(cs, p);
        AllContributionsListPriced(cat, lines, Keyed);
      }
      assert QtyOf(cs, p) == OrderedQty(cat, lines, p) by {
        MergedQuantity(cat, lines, p, Keyed);
      }
      EntryPriced(cat, cs, p, OrderedQty(cat, lines, p));
    }
  }

  // ---------------------------------------------------------------------
  // The map's amounts add up to the charges

  /** Sum of the amounts stored for the products `ps`. */
  function EntryAmounts(m: ComponentMap, ps: seq<ProductId>): real
  {
    if ps == [] then 0.0
    else EntryAmounts(m, ps[..|ps| - 1])
         + (if ps[|ps| - 1] in m.entries then m.entries[ps[|ps| - 1]].totalPrice else 0.0)
  }

  /** Sum of the amounts stored in the map. */
  function MapAmount(m: ComponentMap): real
  {
    EntryAmounts(m, m.order)
  }

  lemma {:induction false} EntryAmountsMerge(m: ComponentMap, c: Contribution, ps: seq<ProductId>)
    requires forall i, j :: 0 <= i < j < |ps| ==> ps[i] != ps[j]
    ensures EntryAmounts(Merge(m, c), ps)
         == EntryAmounts(m, ps) + (if c.portion.product in ps then c.portion.amount else 0.0)
  {
    if ps != [] {
      var init := ps[..|ps| - 1];
      var q := ps[|ps| - 1];
      EntryAmountsMerge(m, c, init);
      assert q !in init by {
        forall i | 0 <= i < |init|
          ensures init[i] != q
        {
          assert init[i] == ps[i];
        }
      }
      assert ps == init + [q];
    }
  }

  /** Adding a contribution to the map adds exactly its amount to the
      map's total: nothing is lost or counted twice. */
  lemma MergeAddsAmount(m: ComponentMap, c: Contribution)
    requires Valid(m)
    ensures MapAmount(Merge(m, c)) == MapAmount(m) + c.portion.amount
  {
    var q := c.portion.product;
    EntryAmountsMerge(m, c, m.order);
    if q !in m.entries {
      var after := Merge(m, c);
      assert after.order == m.order + [q];
      assert after.order[..|m.order|] == m.order;
    }
  }

  lemma {:induction false} MergeAllAddsAmounts(m: ComponentMap, cs: seq<Contribution>)
    requires Valid(m)
    ensures MapAmount(MergeAll(m, cs)) == MapAmount(m) + Allocated(PortionsOf(cs))
  {
    if cs != [] {
      var init := cs[..|cs| - 1];
      MergeAllAddsAmounts(m, init);
      MergeAddsAmount(MergeAll(m, init), cs[|cs| - 1]);
      AllocatedSnoc(PortionsOf(init), cs[|cs| - 1].portion);
    }
  }


  /** Every recipe's base values are non-negative and add up to a positive
      total, so every component is priced by its share. */
  ghost predicate WeightedRecipes(cat: Catalog)
  {
    forall id :: id in cat.subGroups ==>
      && (forall k :: 0 <= k < |cat.subGroups[id].components| ==> BaseValue(cat, cat.subGroups[id].components[k]) >= 0.0)
      && (cat.subGroups[id].components != [] ==> TotalBase(cat, cat.subGroups[id].components) > 0.0)
  }

  /** No recipe lists a product twice. */
  ghost predicate DistinctRecipes(cat: Catalog)
  {
    forall id :: id in cat.subGroups ==> DistinctProducts(cat.subGroups[id].components)
  }

  /** What a line charges when it is expanded: `price_unit * qty`. */
  function LineCharge(cat: Catalog, line: RawLine): real
  {
    match Classify(cat, line)
    case Keep => 0.0
    case ExpandAs(id) => LineCharged(line.data, cat.subGroups[id])
  }

  /** What the order's expanded sub-group lines charge. */
  function Charged(cat: Catalog, lines: seq<RawLine>): real
  {
    SumOf(seq(|lines|, k requires 0 <= k < |lines| => LineCharge(cat, lines[k])))
  }

  /** What the contributions of a line are allocated. */
  function LineAllocated(cat: Catalog, line: RawLine, reading: Reading): real
  {
    match Classify(cat, line)
    case Keep => 0.0
    case ExpandAs(id) => Allocated(PortionsOf(LineContributions(cat, cat.subGroups[id], line.data, reading)))
  }

  lemma {:induction false} AllocatedAppend(a: seq<Portion>, b: seq<Portion>)
    ensures Allocated(a + b) == Allocated(a) + Allocated(b)
  {
    if b == [] {
      assert a + b == a;
    } else {
      var init := b[..|b| - 1];
      assert (a + b)[..|a + b| - 1] == a + init;
      AllocatedAppend(a, init);
    }
  }

  lemma {:induction false} PortionsOfAppend(a: seq<Contribution>, b: seq<Contribution>)
    ensures PortionsOf(a + b) == PortionsOf(a) + PortionsOf(b)
  {
    if b == [] {
      assert a + b == a;
    } else {
      var init := b[..|b| - 1];
      assert (a + b)[..|a + b| - 1] == a + init;
      PortionsOfAppend(a, init);
    }
  }

  /** The order's contributions are allocated, in total, what its lines'
      contributions are allocated, line by line. */
  lemma {:induction false} AllocatedByLine(cat: Catalog, lines: seq<RawLine>, reading: Reading, shares: seq<real>)
    requires |shares| == |lines|
    requires forall k :: 0 <= k < |lines| ==> shares[k] == LineAllocated(cat, lines[k], reading)
    ensures Allocated(PortionsOf(AllContributions(cat, lines, reading))) == SumOf(shares)
  {
    if lines != [] {
      var n := |lines| - 1;
      AllocatedByLine(cat, lines[..n], reading, shares[..n]);
      PrefixStep(cat, lines, n, reading);
      assert lines[..n + 1] == lines;
      match Classify(cat, lines[n])
      case Keep =>
      case ExpandAs(id) =>
        var sg := cat.subGroups[id];
        var d := lines[n].data;
        PortionsOfAppend(AllContributions(cat, lines[..n], reading), LineContributions(cat, sg, d, reading));
        AllocatedAppend(PortionsOf(AllContributions(cat, lines[..n], reading)), PortionsOf(LineContributions(cat, sg, d, reading)));
    }
  }

  /** With weighted recipes, each line's per-component contributions are
      allocated what the line charges. */
  lemma LineChargeAllocated(cat: Catalog, line: RawLine)
    requires WeightedRecipes(cat)
    ensures LineAllocated(cat, line, PerComponent) == LineCharge(cat, line)
  {
    match Classify(cat, line)
    case Keep =>
    case ExpandAs(id) =>
      LineAllocatesCharged(cat, cat.subGroups[id], line.data);
  }

  /** With weighted recipes, the order's per-component contributions are
      allocated exactly what its sub-group lines charge. */
  lemma AllocatedIsCharged(cat: Catalog, lines: seq<RawLine>)
    requires WeightedRecipes(cat)
    ensures Allocated(PortionsOf(AllContributions(cat, lines, PerComponent))) == Charged(cat, lines)
  {
    var charges := seq(|lines|, k requires 0 <= k < |lines| => LineCharge(cat, lines[k]));
    forall k | 0 <= k < |lines|
      ensures charges[k] == LineAllocated(cat, lines[k], PerComponent)
    {
      LineChargeAllocated(cat, lines[k]);
    }
    AllocatedByLine(cat, lines, PerComponent, charges);
  }

  /** With weighted recipes, the amounts a component map built from the
      per-component shares stores add up to what the order's sub-group lines
      charge: the whole sub-group price is distributed over the components,
      and nothing more. */
  lemma ComponentMapAmounts(cat: Catalog, lines: seq<RawLine>)
    requires WeightedRecipes(cat)
    ensures MapAmount(MergeAll(Empty(), AllContributions(cat, lines, PerComponent))) == Charged(cat, lines)
  {
    MergeAllAddsAmounts(Empty(), AllContributions(cat, lines, PerComponent));
    AllocatedIsCharged(cat, lines);
  }

  /** When no recipe lists a product twice, the source's contributions are
      the per-component ones. */
  lemma {:induction false} ReadingsAgreeOnDistinctRecipes(cat: Catalog, lines: seq<RawLine>)
    requires DistinctRecipes(cat)
    ensures AllContributions(cat, lines, Keyed) == AllContributions(cat, lines, PerComponent)
  {
    if lines != [] {
      var n := |lines| - 1;
      ReadingsAgreeOnDistinctRecipes(cat, lines[..n]);
      PrefixStep(cat, lines, n, Keyed);
      PrefixStep(cat, lines, n, PerComponent);
      assert lines[..n + 1] == lines;
      match Classify(cat, lines[n])
      case Keep =>
      case ExpandAs(id) =>
        LineReadingsAgree(cat, cat.subGroups[id], lines[n].data);
    }
  }

  /** With weighted recipes none of which lists a product twice, the
      amounts the source's component map stores add up to what the order's
      sub-group lines charge. */
  lemma ComponentMapAmountsAsWritten(cat: Catalog, lines: seq<RawLine>)
    requires WeightedRecipes(cat) && DistinctRecipes(cat)
    ensures MapAmount(MergeAll(Empty(), AllContributions(cat, lines, Keyed))) == Charged(cat, lines)
  {
    ReadingsAgreeOnDistinctRecipes(cat, lines);
    ComponentMapAmounts(cat, lines);
  }

  // ---------------------------------------------------------------------
  // The returned lines do not depend on how the base values are read

  /** No recipe has a component with a negative quantity. */
  ghost predicate NonNegativeQuantities(cat: Catalog)
  {
    forall id, k :: id in cat.subGroups && 0 <= k < |cat.subGroups[id].components| ==>
      cat.subGroups[id].components[k].quantity >= 0.0
  }

  /** Two contributions that differ at most in their amount, and not even
      there when the product has no positive list price. */
  ghost predicate Twins(cat: Catalog, x: Contribution, y: Contribution)
  {
    && x.data == y.data && x.subGroup == y.subGroup
    && x.portion.product == y.portion.product && x.portion.qty == y.portion.qty
    && x.portion.unitPrice == y.portion.unitPrice
    && ListPriced(cat, x)
    && (x.portion.unitPrice <= 0.0 ==> x.portion.amount == y.portion.amount)
  }

  ghost predicate AllTwins(cat: Catalog, a: seq<Contribution>, b: seq<Contribution>)
  {
    |a| == |b| && forall k :: 0 <= k < |a| ==> Twins(cat, a[k], b[k])
  }

  lemma AllTwinsAppend(cat: Catalog, a1: seq<Contribution>, b1: seq<Contribution>, a2: seq<Contribution>, b2: seq<Contribution>)
    requires AllTwins(cat, a1, b1) && AllTwins(cat, a2, b2)
    ensures AllTwins(cat, a1 + a2, b1 + b2)
  {
    forall k | 0 <= k < |a1 + a2|
      ensures Twins(cat, (a1 + a2)[k], (b1 + b2)[k])
    {
      if k >= |a1| {
        assert (a1 + a2)[k] == a2[k - |a1|] && (b1 + b2)[k] == b2[k - |a1|];
      }
    }
  }

  /** Under both readings, a component with no negative quantity, of a
      recipe with none, contributes twins. */
  lemma ComponentTwins(cat: Catalog, sg: SubGroup, d: Dict, c: Component, lineQty: real, linePrice: real, total: real)
    requires forall i :: 0 <= i < |sg.components| ==> sg.components[i].quantity >= 0.0
    requires c.quantity >= 0.0
    ensures var bases := BaseValues(cat, sg.components);
      Twins(cat, Contribution(PortionBy(Keyed, cat, bases, c, lineQty, linePrice, total), ComponentLineData(cat, sg, d, c, lineQty), sg.name),
                 Contribution(PortionBy(PerComponent, cat, bases, c, lineQty, linePrice, total), ComponentLineData(cat, sg, d, c, lineQty), sg.name))
  {
    if ListPrice(cat, c.product) <= 0.0 {
      UnpricedPortion(Keyed, cat, sg.components, c, lineQty, linePrice, total);
      UnpricedPortion(PerComponent, cat, sg.components, c, lineQty, linePrice, total);
    }
  }

  lemma {:induction false} ContributionsTwins(cat: Catalog, sg: SubGroup, d: Dict, comps: seq<Component>,
                                              lineQty: real, linePrice: real, total: real)
    requires forall i :: 0 <= i < |sg.components| ==> sg.components[i].quantity >= 0.0
    requires forall c :: c in comps ==> c.quantity >= 0.0
    ensures var bases := BaseValues(cat, sg.components);
      AllTwins(cat, ContributionsFrom(cat, sg, d, Keyed, comps, lineQty, linePrice, bases, total),
                    ContributionsFrom(cat, sg, d, PerComponent, comps, lineQty, linePrice, bases, total))
  {
    if comps != [] {
      var bases := BaseValues(cat, sg.components);
      var n := |comps| - 1;
      var c := comps[n];
      ContributionsTwins(cat, sg, d, comps[..n], lineQty, linePrice, total);
      ComponentTwins(cat, sg, d, c, lineQty, linePrice, total);
      AllTwinsAppend(cat, ContributionsFrom(cat, sg, d, Keyed, comps[..n], lineQty, linePrice, bases, total),
                          ContributionsFrom(cat, sg, d, PerComponent, comps[..n], lineQty, linePrice, bases, total),
                          [Contribution(PortionBy(Keyed, cat, bases, c, lineQty, linePrice, total), ComponentLineData(cat, sg, d, c, lineQty), sg.name)],
                          [Contribution(PortionBy(PerComponent, cat, bases, c, lineQty, linePrice, total), ComponentLineData(cat, sg, d, c, lineQty), sg.name)]);
    }
  }

  lemma LineTwins(cat: Catalog, sg: SubGroup, d: Dict)
    requires forall i :: 0 <= i < |sg.components| ==> sg.components[i].quantity >= 0.0
    ensures AllTwins(cat, LineContributions(cat, sg, d, Keyed), LineContributions(cat, sg, d, PerComponent))
  {
    ContributionsTwins(cat, sg, d, sg.components, LineQty(d), LinePrice(d, sg), TotalBase(cat, sg.components));
  }

  /** With no negative quantity in any recipe, the two readings give an
      order twin contributions. */
  lemma {:induction false} OrderTwins(cat: Catalog, lines: seq<RawLine>)
    requires NonNegativeQuantities(cat)
    ensures AllTwins(cat, AllContributions(cat, lines, Keyed), AllContributions(cat, lines, PerComponent))
  {
    if lines != [] {
      var n := |lines| - 1;
      OrderTwins(cat, lines[..n]);
      PrefixStep(cat, lines, n, Keyed);
      PrefixStep(cat, lines, n, PerComponent);
      assert lines[..n + 1] == lines;
      match Classify(cat, lines[n])
      case Keep =>
      case ExpandAs(id) =>
        var sg := cat.subGroups[id];
        LineTwins(cat, sg, lines[n].data);
        AllTwinsAppend(cat, AllContributions(cat, lines[..n], Keyed), AllContributions(cat, lines[..n], PerComponent),
                       LineContributions(cat, sg, lines[n].data, Keyed), LineContributions(cat, sg, lines[n].data, PerComponent));
    }
  }

  /** Two entries that differ at most in their amount, and not even there
      when the product has no positive list price. */
  ghost predicate TwinEntries(cat: Catalog, p: ProductId, e1: Entry, e2: Entry)
  {
    && e1.data == e2.data && e1.totalQty == e2.totalQty
    && e1.unitPrice == e2.unitPrice && e1.subGroups == e2.subGroups
    && e1.unitPrice == ListPrice(cat, p)
    && (e1.unitPrice <= 0.0 ==> e1.totalPrice == e2.totalPrice)
  }

  ghost predicate TwinMaps(cat: Catalog, m1: ComponentMap, m2: ComponentMap)
  {
    && m1.order == m2.order
    && (forall p :: p in m1.entries <==> p in m2.entries)
    && (forall p :: p in m1.entries ==> TwinEntries(cat, p, m1.entries[p], m2.entries[p]))
  }

  lemma MergeTwins(cat: Catalog, m1: ComponentMap, m2: ComponentMap, x: Contribution, y: Contribution)
    requires TwinMaps(cat, m1, m2) && Twins(cat, x, y)
    ensures TwinMaps(cat, Merge(m1, x), Merge(m2, y))
  {
  }

  lemma {:induction false} MergeAllTwins(cat: Catalog, m1: ComponentMap, m2: ComponentMap, a: seq<Contribution>, b: seq<Contribution>)
    requires TwinMaps(cat, m1, m2) && AllTwins(cat, a, b)
    ensures TwinMaps(cat, MergeAll(m1, a), MergeAll(m2, b))
  {
    if a != [] {
      var n := |a| - 1;
      assert AllTwins(cat, a[..n], b[..n]) by {
        forall k | 0 <= k < n
          ensures Twins(cat, a[..n][k], b[..n][k])
        {
          assert a[..n][k] == a[k] && b[..n][k] == b[k];
        }
      }
      MergeAllTwins(cat, m1, m2, a[..n], b[..n]);
      MergeTwins(cat, MergeAll(m1, a[..n]), MergeAll(m2, b[..n]), a[n], b[n]);
    }
  }

  /** Twin entries give the same line: an amount that differs belongs to a
      product priced at its list price, where the amount is advisory. */
  lemma TwinLines(cat: Catalog, p: ProductId, e1: Entry, e2: Entry)
    requires TwinEntries(cat, p, e1, e2)
    ensures GeneratedLine(e1) == GeneratedLine(e2)
  {
    if e1.unitPrice > 0.0 {
      AllocationAdvisory(e1, e2.totalPrice);
      assert e2 == e1.(totalPrice := e2.totalPrice);
    } else {
      assert e1 == e2;
    }
  }

  lemma FlushTwins(cat: Catalog, m1: ComponentMap, m2: ComponentMap)
    requires Valid(m1) && Valid(m2) && TwinMaps(cat, m1, m2)
    ensures FlushLines(m1) == FlushLines(m2)
  {
    forall k | 0 <= k < |m1.order|
      ensures FlushLines(m1)[k] == FlushLines(m2)[k]
    {
      var p := m1.order[k];
      TwinLines(cat, p, m1.entries[p], m2.entries[p]);
    }
  }

  /** When no recipe has a negative quantity, the lines the source returns
      are the lines the per-component shares give: reading the base values
      from the dictionary keyed by product changes only the amounts of
      products with a positive list price, and those amounts do not reach
      the lines. */
  lemma ReadingsAgreeOnLines(cat: Catalog, lines: seq<RawLine>)
    requires NonNegativeQuantities(cat)
    ensures Expand(cat, lines) == Kept(cat, lines) + FlushLines(MergeAll(Empty(), AllContributions(cat, lines, PerComponent)))
  {
    var a, b := AllContributions(cat, lines, Keyed), AllContributions(cat, lines, PerComponent);
    OrderTwins(cat, lines);
    MergeAllTwins(cat, Empty(), Empty(), a, b);
    FlushTwins(cat, MergeAll(Empty(), a), MergeAll(Empty(), b));
  }
}

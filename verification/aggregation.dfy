/** The per-order component map (pos_order.py, lines 181-237).

    Every component of every expanded sub-group line is added into one map
    keyed by product id.  The first occurrence of a product stores the line
    dictionary built for it, its quantity, its allocated amount and its unit
    price; every later occurrence adds its quantity and amount, keeps the
    first unit price and records the sub-group's name.  The map remembers
    the order in which products were first added. */
module Aggregation {
  import opened Values
  import opened ProductCatalog
  import opened Apportionment

  /** One component's contribution from one expanded line: its portion, the
      line dictionary a first occurrence is stored with, and the name of the
      sub-group it came from. */
  datatype Contribution = Contribution(portion: Portion, data: Dict, subGroup: string)

  /** A map entry: `data`, `total_qty`, `total_price`,
      `component_unit_price` and `sub_groups`. */
  datatype Entry = Entry(data: Dict, totalQty: real, totalPrice: real, unitPrice: real, subGroups: seq<string>)

  /** An insertion-ordered dictionary: the keys in insertion order and the
      entries by key. */
  datatype ComponentMap = ComponentMap(order: seq<ProductId>, entries: map<ProductId, Entry>)

  function Empty(): ComponentMap
  {
    ComponentMap([], map[])
  }

  /** Every key is listed once, and the listed keys are the stored ones. */
  ghost predicate Valid(m: ComponentMap)
  {
    && (forall i, j :: 0 <= i < j < |m.order| ==> m.order[i] != m.order[j])
    && (forall k :: 0 <= k < |m.order| ==> m.order[k] in m.entries)
    && (forall p :: p in m.entries ==> p in m.order)
  }

  /** Adds one contribution to the map. */
  function Merge(m: ComponentMap, c: Contribution): (r: ComponentMap)
    ensures Valid(m) ==> Valid(r)
  {
    var p := c.portion.product;
    if p in m.entries then
      var e := m.entries[p];
      ComponentMap(m.order, m.entries[p := e.(totalQty := e.totalQty + c.portion.qty,
                                                totalPrice := e.totalPrice + c.portion.amount,
                                                subGroups := e.subGroups + [c.subGroup])])
    else
      ComponentMap(m.order + [p], m.entries[p := Entry(c.data, c.portion.qty, c.portion.amount, c.portion.unitPrice, [c.subGroup])])
  }

  /** Adds the contributions to the map one after the other. */
  function MergeAll(m: ComponentMap, cs: seq<Contribution>): (r: ComponentMap)
    ensures Valid(m) ==> Valid(r)
  {
    if cs == [] then m else Merge(MergeAll(m, cs[..|cs| - 1]), cs[|cs| - 1])
  }

  lemma {:induction false} MergeAllAppend(m: ComponentMap, a: seq<Contribution>, b: seq<Contribution>)
    ensures MergeAll(m, a + b) == MergeAll(MergeAll(m, a), b)
  {
    if b == [] {
      assert a + b == a;
    } else {
      var init := b[..|b| - 1];
      assert (a + b)[..|a + b| - 1] == a + init;
      MergeAllAppend(m, a, init);
    }
  }

  lemma MergeAllSnoc(m: ComponentMap, cs: seq<Contribution>, c: Contribution)
    ensures MergeAll(m, cs + [c]) == Merge(MergeAll(m, cs), c)
  {
    assert (cs + [c])[..|cs|] == cs;
  }

  // Reference definitions, stated over the list of contributions alone.

  function ProductsOf(cs: seq<Contribution>): seq<ProductId>
  {
    if cs == [] then [] else ProductsOf(cs[..|cs| - 1]) + [cs[|cs| - 1].portion.product]
  }

  /** The distinct elements of `s`, each where it first occurs. */
  function FirstSeen(s: seq<ProductId>): seq<ProductId>
  {
    if s == [] then []
    else if s[|s| - 1] in s[..|s| - 1] then FirstSeen(s[..|s| - 1])
    else FirstSeen(s[..|s| - 1]) + [s[|s| - 1]]
  }

  /** Sum of the quantities contributed to product `p`. */
  function QtyOf(cs: seq<Contribution>, p: ProductId): real
  {
    if cs == [] then 0.0
    else QtyOf(cs[..|cs| - 1], p) + (if cs[|cs| - 1].portion.product == p then cs[|cs| - 1].portion.qty else 0.0)
  }

  /** Sum of the amounts allocated to product `p`. */
  function AmountOf(cs: seq<Contribution>, p: ProductId): real
  {
    if cs == [] then 0.0
    else AmountOf(cs[..|cs| - 1], p) + (if cs[|cs| - 1].portion.product == p then cs[|cs| - 1].portion.amount else 0.0)
  }

  /** Names of the sub-groups that contributed to product `p`, in order. */
  function SubGroupsOf(cs: seq<Contribution>, p: ProductId): seq<string>
  {
    if cs == [] then []
    else SubGroupsOf(cs[..|cs| - 1], p) + (if cs[|cs| - 1].portion.product == p then [cs[|cs| - 1].subGroup] else [])
  }

  /** The first contribution to product `p`, if any. */
  function FirstOf(cs: seq<Contribution>, p: ProductId): Option<Contribution>
  {
    if cs == [] then None
    else match FirstOf(cs[..|cs| - 1], p)
      case Some(f) => Some(f)
      case None => if cs[|cs| - 1].portion.product == p then Some(cs[|cs| - 1]) else None
  }

  lemma {:induction false} AbsentProduct(cs: seq<Contribution>, p: ProductId)
    ensures FirstOf(cs, p).Some? <==> p in ProductsOf(cs)
    ensures p !in ProductsOf(cs) ==> QtyOf(cs, p) == 0.0 && AmountOf(cs, p) == 0.0 && SubGroupsOf(cs, p) == []
  {
    if cs != [] {
      AbsentProduct(cs[..|cs| - 1], p);
    }
  }

  /** The first contribution to `p` is one of the contributions, and is to
      `p`. */
  lemma {:induction false} FirstOfFacts(cs: seq<Contribution>, p: ProductId)
    ensures FirstOf(cs, p).Some? ==> FirstOf(cs, p).value in cs && FirstOf(cs, p).value.portion.product == p
  {
    if cs != [] {
      FirstOfFacts(cs[..|cs| - 1], p);
    }
  }

  /** Merging a list of contributions into an empty map gives one entry per
      distinct product, keyed in first-seen order; each entry holds the
      line dictionary and unit price of the product's first contribution,
      the sum of its quantities, the sum of its amounts, and the names of
      the sub-groups it came from. */
  lemma {:induction false} MergeAllFromEmpty(cs: seq<Contribution>)
    ensures Valid(MergeAll(Empty(), cs))
    ensures MergeAll(Empty(), cs).order == FirstSeen(ProductsOf(cs))
    ensures forall p :: p in MergeAll(Empty(), cs).entries <==> p in ProductsOf(cs)
    ensures forall p :: p in MergeAll(Empty(), cs).entries ==>
      && FirstOf(cs, p).Some?
      && MergeAll(Empty(), cs).entries[p]
         == Entry(FirstOf(cs, p).value.data, QtyOf(cs, p), AmountOf(cs, p),
                  FirstOf(cs, p).value.portion.unitPrice, SubGroupsOf(cs, p))
  {
    if cs != [] {
      var init := cs[..|cs| - 1];
      var c := cs[|cs| - 1];
      var q := c.portion.product;
      MergeAllFromEmpty(init);
      var before := MergeAll(Empty(), init);
      var after := MergeAll(Empty(), cs);
      assert after == Merge(before, c);
      var s := ProductsOf(cs);
      assert s[..|s| - 1] == ProductsOf(init);
      forall p | p in after.entries
        ensures FirstOf(cs, p).Some?
        ensures after.entries[p] == Entry(FirstOf(cs, p).value.data, QtyOf(cs, p), AmountOf(cs, p),
                                          FirstOf(cs, p).value.portion.unitPrice, SubGroupsOf(cs, p))
      {
        AbsentProduct(init, p);
        if p == q && p !in before.entries {
          assert SubGroupsOf(cs, p) == [] + [c.subGroup];
        }
      }
    }
  }

  lemma {:induction false} FirstSeenFacts(s: seq<ProductId>)
    ensures forall i, j :: 0 <= i < j < |FirstSeen(s)| ==> FirstSeen(s)[i] != FirstSeen(s)[j]
    ensures forall x :: x in FirstSeen(s) <==> x in s
  {
    if s != [] {
      var init := s[..|s| - 1];
      FirstSeenFacts(init);
      assert s == init + [s[|s| - 1]];
    }
  }

  /** The first-seen list of a prefix is a prefix of the first-seen list:
      a product first seen earlier is listed earlier. */
  lemma {:induction false} FirstSeenPrefix(s: seq<ProductId>, n: int)
    requires 0 <= n <= |s|
    ensures FirstSeen(s[..n]) <= FirstSeen(s)
    decreases |s| - n
  {
    if n < |s| {
      var t := s[..n + 1];
      assert t[..n] == s[..n];
      FirstSeenPrefix(s, n + 1);
      assert FirstSeen(s[..n]) <= FirstSeen(t);
    } else {
      assert s[..n] == s;
    }
  }
}

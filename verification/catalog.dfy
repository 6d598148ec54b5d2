/** The read-only catalog the expansion consults: products, big groups,
    priced sub-groups and their components.

    The source reaches these through the ORM (`browse(id).exists()`,
    `component_ids`, `list_price`, and a `search` for a sub-group by group,
    price and active flag, limited to one record).  Here they are plain
    maps, and the search walks the sub-groups in the order the database
    returns them. */
module ProductCatalog {
  import opened Values

  type ProductId = int
  type GroupId = int
  type SubGroupId = int

  /** A product variant.  `isGroup` and `group` are the `is_product_group`
      flag and `product_group_id` link of a big group's own product. */
  datatype Product = Product(name: string, listPrice: real, isGroup: bool, group: Option<GroupId>)

  /** "This many units of this product come with one unit of the sub-group." */
  datatype Component = Component(product: ProductId, quantity: real)

  /** A priced variant of a big group with its component recipe, in the
      recipe's display order. */
  datatype SubGroup = SubGroup(
    name: string,
    group: GroupId,
    price: real,
    active: bool,
    sequence: int,
    components: seq<Component>)

  /** `searchOrder` lists the sub-group ids in the order a search returns
      them: by sequence, then price, in an order the database picks among
      rows equal on both. */
  datatype Catalog = Catalog(
    products: map<ProductId, Product>,
    groupNames: map<GroupId, string>,
    subGroups: map<SubGroupId, SubGroup>,
    searchOrder: seq<SubGroupId>)

  /** `product.list_price or 0.0`. */
  function ListPrice(cat: Catalog, p: ProductId): real
  {
    if p in cat.products then cat.products[p].listPrice else 0.0
  }

  function ProductName(cat: Catalog, p: ProductId): string
  {
    if p in cat.products then cat.products[p].name else ""
  }

  /** `sub_group.product_group_id.name`, or '' when the group is unset. */
  function GroupName(cat: Catalog, g: GroupId): string
  {
    if g in cat.groupNames then cat.groupNames[g] else ""
  }

  /** The product exists, is a big group's product and names its group. */
  predicate IsGroupProduct(cat: Catalog, p: ProductId)
  {
    p in cat.products && cat.products[p].isGroup && cat.products[p].group.Some?
  }

  /** The search order lists every stored sub-group exactly once, and record
      ids are positive. */
  ghost predicate SearchIndexed(cat: Catalog)
  {
    && (forall i, j :: 0 <= i < j < |cat.searchOrder| ==> cat.searchOrder[i] != cat.searchOrder[j])
    && (forall id :: id in cat.subGroups <==> id in cat.searchOrder)
    && (forall id :: id in cat.subGroups ==> id > 0)
  }

  /** Sub-group `a` may come before `b` under `_order = 'sequence, price'`:
      it does not sort after it.  Rows equal on both keys may come back in
      either order. */
  predicate SortsBefore(cat: Catalog, a: SubGroupId, b: SubGroupId)
  {
    && a in cat.subGroups && b in cat.subGroups
    && var x, y := cat.subGroups[a], cat.subGroups[b];
       || x.sequence < y.sequence
       || (x.sequence == y.sequence && x.price <= y.price)
  }

  ghost predicate SearchSorted(cat: Catalog)
  {
    forall i, j :: 0 <= i < j < |cat.searchOrder| ==> SortsBefore(cat, cat.searchOrder[i], cat.searchOrder[j])
  }

  /** The search domain: same big group, same price, active. */
  predicate Matches(cat: Catalog, id: SubGroupId, g: GroupId, price: real)
  {
    id in cat.subGroups && cat.subGroups[id].group == g
    && cat.subGroups[id].price == price && cat.subGroups[id].active
  }

  /** Position of the first matching sub-group at or after position `i`. */
  function FirstMatchFrom(cat: Catalog, g: GroupId, price: real, i: nat): (r: Option<nat>)
    requires i <= |cat.searchOrder|
    ensures r.Some? ==> i <= r.value < |cat.searchOrder| && Matches(cat, cat.searchOrder[r.value], g, price)
    ensures forall k :: i <= k < (if r.Some? then r.value else |cat.searchOrder|) ==>
      !Matches(cat, cat.searchOrder[k], g, price)
    decreases |cat.searchOrder| - i
  {
    if i == |cat.searchOrder| then None
    else if Matches(cat, cat.searchOrder[i], g, price) then Some(i)
    else FirstMatchFrom(cat, g, price, i + 1)
  }

  /** `search([('product_group_id', '=', g), ('price', '=', price),
      ('active', '=', True)], limit=1)`. */
  function FindByPrice(cat: Catalog, g: GroupId, price: real): (r: Option<SubGroupId>)
    ensures r.Some? ==> Matches(cat, r.value, g, price)
  {
    match FirstMatchFrom(cat, g, price, 0)
    case Some(k) => Some(cat.searchOrder[k])
    case None => None
  }

  /** The search finds nothing exactly when no stored sub-group matches. */
  lemma FindByPriceComplete(cat: Catalog, g: GroupId, price: real)
    requires SearchIndexed(cat)
    ensures FindByPrice(cat, g, price).None? <==>
      forall id :: id in cat.subGroups ==> !Matches(cat, id, g, price)
  {
    if FindByPrice(cat, g, price).None? {
      forall id | id in cat.subGroups
        ensures !Matches(cat, id, g, price)
      {
        assert id in cat.searchOrder;
        var k :| 0 <= k < |cat.searchOrder| && cat.searchOrder[k] == id;
      }
    }
  }

  /** Of several matching sub-groups, the search returns one with the
      smallest sequence; which of those with equal sequence is left open. */
  lemma FindByPriceFirstInOrder(cat: Catalog, g: GroupId, price: real, id: SubGroupId)
    requires SearchIndexed(cat) && SearchSorted(cat)
    requires Matches(cat, id, g, price)
    ensures FindByPrice(cat, g, price).Some?
    ensures cat.subGroups[FindByPrice(cat, g, price).value].sequence <= cat.subGroups[id].sequence
  {
    FindByPriceComplete(cat, g, price);
    var k :| 0 <= k < |cat.searchOrder| && cat.searchOrder[k] == id;
    var found := FirstMatchFrom(cat, g, price, 0);
    assert found.Some?;
    if found.value != k {
      assert found.value < k;
      assert SortsBefore(cat, cat.searchOrder[found.value], cat.searchOrder[k]);
    }
  }
}

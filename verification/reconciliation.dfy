/** Turning the component map into output lines (pos_order.py, lines
    253-305).

    Each entry becomes one line `(0, 0, data)`.  The line's unit price is
    the component's own unit price when that is positive; otherwise the
    allocated amount divided by the quantity when both are positive; and
    0 in any other case.  Subtotal, subtotal including tax and total are
    all the unit price times the quantity, rounded to cents, and the
    discount is forced to 0. */
module Reconciliation {
  import opened Values
  import opened Rounding
  import opened Aggregation

  /** The unit price a generated line is given. */
  function ReconciledUnitPrice(e: Entry): real
  {
    if e.unitPrice > 0.0 then e.unitPrice
    else if e.totalQty > 0.0 && e.totalPrice > 0.0 then e.totalPrice / e.totalQty
    else 0.0
  }

  /** The price fields of a generated line: quantity, unit price, and the
      exact total `price_unit * qty` before it is rounded to cents. */
  datatype LinePrices = LinePrices(qty: real, unitPrice: real, total: real)

  function Reconcile(e: Entry): LinePrices
  {
    LinePrices(e.totalQty, ReconciledUnitPrice(e), ReconciledUnitPrice(e) * e.totalQty)
  }

  /** The keys reconciliation overwrites. */
  const PriceKeys: set<string> := {"qty", "price_unit", "discount", "price_subtotal", "price_subtotal_incl", "price_total"}

  /** `data` with quantity, unit price and discount overwritten, and the
      three totals set to the total rounded to cents. */
  function WithPrices(data: Dict, lp: LinePrices): Dict
  {
    data["qty" := Num(lp.qty)]["price_unit" := Num(lp.unitPrice)]["discount" := Num(0.0)]
        ["price_subtotal" := Num(Round2(lp.total))]["price_subtotal_incl" := Num(Round2(lp.total))]
        ["price_total" := Num(Round2(lp.total))]
  }

  /** The stored line dictionary of an entry, priced. */
  function FinalData(e: Entry): Dict
  {
    WithPrices(e.data, Reconcile(e))
  }

  function GeneratedLine(e: Entry): RawLine
  {
    Command(Int(0), Int(0), FinalData(e), [])
  }

  /** One generated line per key of the map, in insertion order. */
  function FlushLines(m: ComponentMap): seq<RawLine>
    requires Valid(m)
  {
    seq(|m.order|, k requires 0 <= k < |m.order| => GeneratedLine(m.entries[m.order[k]]))
  }

  /** A generated line is priced (has a positive unit price) exactly when
      its component has a positive unit price, or has none but was
      allocated a positive amount over a positive quantity; otherwise it is
      free.  The unit price is never negative. */
  lemma ReconcilePriced(e: Entry)
    ensures Reconcile(e).qty == e.totalQty
    ensures Reconcile(e).unitPrice >= 0.0
    ensures Reconcile(e).unitPrice > 0.0 <==>
      e.unitPrice > 0.0 || (e.totalQty > 0.0 && e.totalPrice > 0.0)
  {
    if e.unitPrice <= 0.0 && e.totalQty > 0.0 && e.totalPrice > 0.0 {
      QuotientPositive(e.totalPrice, e.totalQty);
    }
  }

  /** The written line carries the prices: the three totals are one and the
      same subtotal, and the discount is 0. */
  lemma WithPricesFields(data: Dict, lp: LinePrices)
    ensures var d := WithPrices(data, lp);
      && "qty" in d && d["qty"] == Num(lp.qty)
      && "price_unit" in d && d["price_unit"] == Num(lp.unitPrice)
      && "discount" in d && d["discount"] == Num(0.0)
      && "price_subtotal" in d && d["price_subtotal"] == Num(Round2(lp.total))
      && "price_subtotal_incl" in d && d["price_subtotal_incl"] == Num(Round2(lp.total))
      && "price_total" in d && d["price_total"] == Num(Round2(lp.total))
  {
  }

  /** Writing the prices keeps every other field of the line and adds no
      other. */
  lemma WithPricesKeepsOtherFields(data: Dict, lp: LinePrices)
    ensures var d := WithPrices(data, lp);
      && (forall key :: key in data && key !in PriceKeys ==> key in d && d[key] == data[key])
      && (forall key :: key in d ==> key in data || key in PriceKeys)
  {
  }

  /** The line generated for an entry is a create command `(0, 0, data)`
      whose price fields are the reconciled ones and whose every other field
      is the entry's. */
  lemma GeneratedLineOf(e: Entry)
    ensures var line := GeneratedLine(e);
      && line == Command(Int(0), Int(0), line.data, [])
      && Get(line.data, "qty") == Num(e.totalQty)
      && Get(line.data, "price_unit") == Num(ReconciledUnitPrice(e))
      && Get(line.data, "discount") == Num(0.0)
      && Get(line.data, "price_subtotal") == Num(Round2(Reconcile(e).total))
      && Get(line.data, "price_subtotal_incl") == Num(Round2(Reconcile(e).total))
      && Get(line.data, "price_total") == Num(Round2(Reconcile(e).total))
      && forall key :: key !in PriceKeys ==> Get(line.data, key) == Get(e.data, key)
  {
    WithPricesFields(e.data, Reconcile(e));
    WithPricesKeepsOtherFields(e.data, Reconcile(e));
  }

  /** When the component has a positive unit price, the line is priced at
      that unit price and the amount allocated to it has no influence on the
      line: the allocation is advisory only. */
  lemma AllocationAdvisory(e: Entry, amount: real)
    requires e.unitPrice > 0.0
    ensures Reconcile(e).unitPrice == e.unitPrice
    ensures FinalData(e.(totalPrice := amount)) == FinalData(e)
  {
    assert Reconcile(e.(totalPrice := amount)) == Reconcile(e);
  }

  /** Without a positive unit price, the allocated amount is recovered: the
      line's unit price times its quantity is exactly the amount. */
  lemma AllocationRecovered(e: Entry)
    requires e.unitPrice <= 0.0 && e.totalQty > 0.0 && e.totalPrice > 0.0
    ensures Reconcile(e).unitPrice * e.totalQty == e.totalPrice
    ensures Reconcile(e).total == e.totalPrice
  {
    assert Reconcile(e).unitPrice == e.totalPrice / e.totalQty;
    QuotientTimesDivisor(e.totalPrice, e.totalQty);
  }

  lemma QuotientTimesDivisor(a: real, b: real)
    requires b > 0.0
    ensures a / b * b == a
  {
  }

  lemma QuotientPositive(a: real, b: real)
    requires a > 0.0 && b > 0.0
    ensures a / b > 0.0
  {
  }
}

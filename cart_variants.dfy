/** How the two order screens differ on the same cart: the service charge, the name and table
    defaults, and removal of an id that is not in the cart. */
module CartVariants {
  import opened Wrappers
  import opened Cart
  import opened Orders
  import NewOrder
  import ExampleOrder

  /** Both screens agree on subtotal and VAT; the screen with the service charge totals exactly that
      charge more, so the totals coincide only for a zero subtotal. */
  lemma TotalsDifferByServiceCharge(lines: seq<CartLine>)
    ensures NewOrder.CalculateTotal(lines).subtotal == ExampleOrder.CalculateTotal(lines).subtotal
    ensures NewOrder.CalculateTotal(lines).vat == ExampleOrder.CalculateTotal(lines).vat
    ensures NewOrder.CalculateTotal(lines).total
            == ExampleOrder.CalculateTotal(lines).total + NewOrder.CalculateTotal(lines).serviceCharge
    ensures NewOrder.CalculateTotal(lines).total == ExampleOrder.CalculateTotal(lines).total
            <==> Subtotal(lines) == 0.0
  {
  }

  /** The two saved records differ only in the defaulted name and table, the service charge and
      the total. */
  lemma RecordsDiffer(lines: seq<CartLine>, name: string, table: string, id: nat, date: int)
    ensures var a := NewOrder.MakeOrder(lines, name, table, id, date);
            var b := ExampleOrder.MakeOrder(lines, name, table, id, date);
      && a.id == b.id && a.items == b.items && a.date == b.date
      && a.subtotal == b.subtotal && a.vat == b.vat
      && a.serviceCharge.Some? && b.serviceCharge.None?
      && (a.customerName == b.customerName <==> name != "")
      && (a.tableNumber == b.tableNumber <==> table != "")
      && (a.total == b.total <==> Subtotal(lines) == 0.0)
  {
    TotalsDifferByServiceCharge(lines);
  }

  /** On an id in the cart both removals give the same lines; on an absent id the first screen's
      updater fails while the second leaves the cart as it is. */
  lemma RemovalDiffers(lines: seq<CartLine>, id: nat)
    ensures HasId(lines, id) ==> NewOrder.RemoveLine(lines, id) == Some(WithoutId(lines, id))
    ensures !HasId(lines, id) ==> NewOrder.RemoveLine(lines, id).None? && WithoutId(lines, id) == lines
  {
    RemoveKeepsOthers(lines, id);
  }
}

/** The order screen (`NewOrder`): menu, cart, customer and table fields, totals with VAT and
    service charge, and saving the cart into the order history. */
module NewOrder {
  import opened Wrappers
  import opened Seqs
  import opened Menu
  import opened Cart
  import opened Orders

  datatype Severity = Success | Info

  /** The notification bar, reduced to its visible fields. */
  datatype Snackbar = Snackbar(open: bool, message: string, severity: Severity)

  const ClosedSnackbar := Snackbar(false, "", Success)

  /** What `calculateTotal` returns. */
  datatype Totals = Totals(subtotal: real, vat: real, serviceCharge: real, total: real)

  const VatRate: real := 0.05
  const ServiceRate: real := 0.10

  /** `calculateTotal`: 5% VAT and a 10% service charge on the subtotal, so the total is 115% of
      the line sum and the service charge is twice the VAT. */
  function CalculateTotal(lines: seq<CartLine>): (t: Totals)
    ensures t.subtotal == Subtotal(lines)
    ensures t.total == Subtotal(lines) * 1.15
    ensures t.vat == Subtotal(lines) * 0.05 && t.serviceCharge == 2.0 * t.vat
  {
    var subtotal := Subtotal(lines);
    var vat := subtotal * VatRate;
    var serviceCharge := subtotal * ServiceRate;
    Totals(subtotal, vat, serviceCharge, subtotal + vat + serviceCharge)
  }

  /** `prev.find(i => i.id === id)`: the first line with this id. */
  function FindById(lines: seq<CartLine>, id: nat): (r: Option<CartLine>)
    ensures r.None? <==> !HasId(lines, id)
    ensures r.Some? ==> r.value in lines && r.value.item.id == id
    ensures r.Some? ==> exists k :: 0 <= k < |lines| && lines[k] == r.value
                                    && forall j :: 0 <= j < k ==> lines[j].item.id != id
  {
    if lines == [] then None
    else if lines[0].item.id == id then Some(lines[0])
    else
      var r := FindById(lines[1..], id);
      if r.Some? then
        ghost var k :| 0 <= k < |lines[1..]| && lines[1..][k] == r.value
                       && forall j :: 0 <= j < k ==> lines[1..][j].item.id != id;
        assert lines[k + 1] == r.value;
        r
      else
        assert forall l :: l in lines[1..] ==> l.item.id != id;
        None
  }

  /** The `removeFromOrder` updater: it reads `item.name` of the `find` result before filtering,
      so an id not in the cart raises a TypeError (`None`); otherwise the lines without that id. */
  function RemoveLine(lines: seq<CartLine>, id: nat): (r: Option<seq<CartLine>>)
    ensures r.None? <==> !HasId(lines, id)
    ensures r.Some? ==> r.value == WithoutId(lines, id) && |r.value| < |lines|
  {
    match FindById(lines, id)
    case None => None
    case Some(_) =>
      RemoveShrinks(lines, id);
      Some(WithoutId(lines, id))
  }

  /** The record `saveOrder` builds: the lines, the save time and the totals of `calculateTotal`,
      with "Guest" for an empty name and "Takeaway" for an empty table, so neither is ever empty. */
  function MakeOrder(lines: seq<CartLine>, customerName: string, tableNumber: string,
                     id: nat, date: int): (o: Order)
    ensures o.items == lines && o.id == id && o.date == date
    ensures o.customerName != "" && o.tableNumber != ""
    ensures customerName != "" ==> o.customerName == customerName
    ensures customerName == "" ==> o.customerName == "Guest"
    ensures tableNumber != "" ==> o.tableNumber == tableNumber
    ensures tableNumber == "" ==> o.tableNumber == "Takeaway"
    ensures o.subtotal == Some(Subtotal(lines))
    ensures o.vat == Some(Subtotal(lines) * 0.05)
    ensures o.serviceCharge == Some(Subtotal(lines) * 0.10)
    ensures o.total == Some(Subtotal(lines) * 1.15)
  {
    var t := CalculateTotal(lines);
    Order(id, if customerName == "" then "Guest" else customerName,
          if tableNumber == "" then "Takeaway" else tableNumber,
          lines, date, Some(t.subtotal), Some(t.vat), Some(t.serviceCharge), Some(t.total))
  }

  /** The component's state. */
  class OrderSystem {
    var menuItems: seq<MenuItem>
    var orderItems: seq<CartLine>
    var customerName: string
    var tableNumber: string
    var activeCategory: string
    var loading: bool
    var snackbar: Snackbar
    var savedOrder: Option<Order>
    var showInvoice: bool

    /** The cart never holds two lines for one item, nor a quantity below one. */
    ghost predicate Valid()
      reads this
    {
      UniqueIds(orderItems) && QuantitiesPositive(orderItems)
    }

    constructor ()
      ensures Valid()
      ensures menuItems == [] && orderItems == [] && customerName == "" && tableNumber == ""
      ensures activeCategory == AllCategory && loading && snackbar == ClosedSnackbar
      ensures savedOrder == None && !showInvoice
    {
      menuItems, orderItems := [], [];
      customerName, tableNumber := "", "";
      activeCategory := AllCategory;
      loading := true;
      snackbar := ClosedSnackbar;
      savedOrder := None;
      showInvoice := false;
    }

    /** The delayed load of `menuItems`: stored items are shown; with none stored the menu stays
        empty (the default menu is commented out in this screen). */
    method LoadMenu(stored: Option<seq<MenuItem>>)
      requires Valid()
      modifies this
      ensures Valid()
      ensures menuItems == (if stored.Some? then stored.value else old(menuItems)) && !loading
      ensures orderItems == old(orderItems) && customerName == old(customerName)
      ensures tableNumber == old(tableNumber) && activeCategory == old(activeCategory)
      ensures snackbar == old(snackbar) && savedOrder == old(savedOrder) && showInvoice == old(showInvoice)
    {
      if stored.Some? {
        menuItems := stored.value;
      }
      loading := false;
    }

    /** The items the menu grid shows. */
    function FilteredMenuItems(): (r: seq<MenuItem>)
      reads this
      ensures activeCategory == AllCategory ==> r == menuItems
      ensures activeCategory != AllCategory ==>
                forall x :: x in r <==> x in menuItems && x.category == activeCategory
    {
      FilterByCategory(menuItems, activeCategory)
    }

    method SetActiveCategory(category: string)
      requires Valid()
      modifies this`activeCategory
      ensures Valid() && activeCategory == category
    {
      activeCategory := category;
    }

    method SetCustomerName(name: string)
      requires Valid()
      modifies this`customerName
      ensures Valid() && customerName == name
    {
      customerName := name;
    }

    method SetTableNumber(table: string)
      requires Valid()
      modifies this`tableNumber
      ensures Valid() && tableNumber == table
    {
      tableNumber := table;
    }

    /** `addToOrder`: the cart becomes `AddLine` of it; only a new line raises the notification. */
    method AddToOrder(item: MenuItem)
      requires Valid()
      modifies this`orderItems, this`snackbar
      ensures Valid()
      ensures orderItems == AddLine(old(orderItems), item)
      ensures snackbar == if HasId(old(orderItems), item.id) then old(snackbar)
                          else Snackbar(true, item.name + " added to your order", Success)
    {
      AddPreserves(orderItems, item);
      if HasId(orderItems, item.id) {
        orderItems := Increment(orderItems, item.id);
      } else {
        snackbar := Snackbar(true, item.name + " added to your order", Success);
        orderItems := orderItems + [CartLine(item, 1)];
      }
    }

    /** `removeFromOrder`: with the id in the cart, drops its lines and notifies with the name of the
        first of them; with the id absent the updater throws and nothing changes (`failed`). */
    method RemoveFromOrder(id: nat) returns (failed: bool)
      requires Valid()
      modifies this`orderItems, this`snackbar
      ensures Valid()
      ensures failed <==> !HasId(old(orderItems), id)
      ensures failed ==> orderItems == old(orderItems) && snackbar == old(snackbar)
      ensures !failed ==> orderItems == WithoutId(old(orderItems), id)
      ensures !failed ==> snackbar == Snackbar(true, FindById(old(orderItems), id).value.item.name
                                                     + " removed from your order", Info)
    {
      var found := FindById(orderItems, id);
      var remaining := RemoveLine(orderItems, id);
      if remaining.None? {
        return true;
      }
      snackbar := Snackbar(true, found.value.item.name + " removed from your order", Info);
      RemovePreserves(orderItems, id);
      orderItems := remaining.value;
      failed := false;
    }

    /** `updateQuantity`: the matching line gets `max(1, quantity + change)`. */
    method UpdateLineQuantity(id: nat, change: int)
      requires Valid()
      modifies this`orderItems
      ensures Valid()
      ensures orderItems == UpdateQuantity(old(orderItems), id, change)
    {
      UpdatePreserves(orderItems, id, change);
      orderItems := UpdateQuantity(orderItems, id, change);
    }

    /** `saveOrder`, with the delayed storage round trip taken as one step. `stored` is the current
        `orderHistory` value, `now` the clock reading used as the id and `date` the save time.
        An empty cart changes nothing. Otherwise the record is appended to the history, the cart,
        name and table are cleared, and the record becomes the saved order. */
    method SaveOrder(stored: Option<seq<Order>>, now: nat, date: int, viewInvoiceAfterSave: bool)
      returns (newStored: Option<seq<Order>>)
      requires Valid()
      modifies this
      ensures Valid()
      ensures old(orderItems) == [] ==>
        newStored == stored && orderItems == old(orderItems) && customerName == old(customerName)
        && tableNumber == old(tableNumber) && loading == old(loading) && snackbar == old(snackbar)
        && savedOrder == old(savedOrder) && showInvoice == old(showInvoice)
      ensures old(orderItems) != [] ==>
        var order := MakeOrder(old(orderItems), old(customerName), old(tableNumber), now, date);
        && newStored == Some(Appended(stored, order))
        && orderItems == [] && customerName == "" && tableNumber == "" && !loading
        && snackbar == Snackbar(true, "Order saved successfully!", Success)
        && savedOrder == Some(order)
        && showInvoice == (old(showInvoice) || viewInvoiceAfterSave)
      ensures menuItems == old(menuItems) && activeCategory == old(activeCategory)
    {
      if orderItems == [] {
        return stored;
      }
      loading := true;
      var order := MakeOrder(orderItems, customerName, tableNumber, now, date);
      var history := StoredOrEmpty(stored);
      newStored := Some(history + [order]);
      orderItems := [];
      customerName := "";
      tableNumber := "";
      loading := false;
      snackbar := Snackbar(true, "Order saved successfully!", Success);
      savedOrder := Some(order);
      if viewInvoiceAfterSave {
        showInvoice := true;
      }
    }
  }

  /** The worked example: 2 x Soup at 10 and 1 x Bread at 5. */
  lemma SoupAndBreadTotals(soup: MenuItem, bread: MenuItem)
    requires soup.price == 10.0 && bread.price == 5.0
    ensures CalculateTotal([CartLine(soup, 2), CartLine(bread, 1)])
            == Totals(25.0, 1.25, 2.5, 28.75)
  {
    var lines := [CartLine(soup, 2), CartLine(bread, 1)];
    assert lines[..1] == [CartLine(soup, 2)];
    assert Subtotal(lines[..1]) == 20.0 by {
      assert lines[..1][..0] == [];
    }
    assert Subtotal(lines) == 25.0;
  }
}

/** The single-page order screen (`example`): the same cart without service charge, without
    name and table defaults, with a total removal, and with a default menu seeded into storage. */
module ExampleOrder {
  import opened Wrappers
  import opened Menu
  import opened Cart
  import opened Orders

  /** What `calculateTotal` returns in this screen: no service charge. */
  datatype Totals = Totals(subtotal: real, vat: real, total: real)

  const VatRate: real := 0.05

  /** `calculateTotal`: 5% VAT on the subtotal and nothing else, so the total is 105% of the line
      sum. */
  function CalculateTotal(lines: seq<CartLine>): (t: Totals)
    ensures t.subtotal == Subtotal(lines)
    ensures t.total == Subtotal(lines) * 1.05
    ensures t.vat == Subtotal(lines) / 20.0
  {
    var subtotal := Subtotal(lines);
    var vat := subtotal * VatRate;
    Totals(subtotal, vat, subtotal + vat)
  }

  const Categories: seq<string> := ["All", "Main Course", "Appetizers", "Beverages"]

  /** The six items stored when no menu is stored yet. */
  const DefaultItems: seq<MenuItem> := [
    MenuItem(1, "Chicken Biryani", 25.0, "Main Course", "", "https://t4.ftcdn.net/jpg/05/17/96/89/360_F_517968988_hFHjQT6Flfksjx8n0KxfvMtP2tqlmGKk.jpg"),
    MenuItem(2, "Beef Shawarma", 15.0, "Main Course", "", "https://media.istockphoto.com/id/1345624336/photo/chicken-biriyani.jpg?s=2048x2048&w=is&k=20&c=uU0uuti6KOvpQhXuu6VMpgi021o1vZXfOhpMrJXSn1o="),
    MenuItem(3, "Falafel Plate", 18.0, "Main Course", "", "https://source.unsplash.com/random/300x300/?falafel"),
    MenuItem(4, "Hummus", 10.0, "Appetizers", "", "https://source.unsplash.com/random/300x300/?hummus"),
    MenuItem(5, "Mineral Water", 3.0, "Beverages", "", "https://source.unsplash.com/random/300x300/?water,bottle"),
    MenuItem(6, "Fresh Juice", 12.0, "Beverages", "", "https://source.unsplash.com/random/300x300/?juice")
  ]

  /** The default menu has ids 1 to 6 in order, positive prices, and only categories that have a
      chip in this screen. */
  lemma DefaultItemsWellFormed()
    ensures |DefaultItems| == 6
    ensures forall i :: 0 <= i < 6 ==> DefaultItems[i].id == i + 1 && DefaultItems[i].price > 0.0
    ensures forall i :: 0 <= i < 6 ==> DefaultItems[i].category in Categories[1..]
  {
  }

  /** The "Main Course" chip shows the first three default items. */
  lemma MainCourseDefaults()
    ensures FilterByCategory(DefaultItems, "Main Course") == DefaultItems[..3]
  {
    var d := DefaultItems;
    var p := InCategory("Main Course");
    assert forall i :: 0 <= i < |d[..3]| ==> p(d[..3][i]);
    assert forall i :: 0 <= i < |d[3..]| ==> !p(d[3..][i]);
    Seqs.FilterAll(p, d[..3]);
    Seqs.FilterNone(p, d[3..]);
    FilterSplit(p, d, 3);
  }

  /** The "Beverages" chip shows the last two default items. */
  lemma BeverageDefaults()
    ensures FilterByCategory(DefaultItems, "Beverages") == DefaultItems[4..]
  {
    var d := DefaultItems;
    var p := InCategory("Beverages");
    assert d[..4] == [d[0], d[1], d[2], d[3]] && d[4..] == [d[4], d[5]];
    assert !p(d[0]) && !p(d[1]) && !p(d[2]) && !p(d[3]) && p(d[4]) && p(d[5]);
    Seqs.FilterNone(p, d[..4]);
    Seqs.FilterAll(p, d[4..]);
    FilterSplit(p, d, 4);
  }

  lemma FilterSplit(p: MenuItem -> bool, d: seq<MenuItem>, k: nat)
    requires k <= |d|
    ensures Seqs.Filter(p, d) == Seqs.Filter(p, d[..k]) + Seqs.Filter(p, d[k..])
  {
    assert d == d[..k] + d[k..];
    Seqs.FilterAppend(p, d[..k], d[k..]);
  }

  /** The component's state. */
  class OrderSystem {
    var menuItems: seq<MenuItem>
    var orderItems: seq<CartLine>
    var customerName: string
    var tableNumber: string
    var activeCategory: string

    ghost predicate Valid()
      reads this
    {
      UniqueIds(orderItems) && QuantitiesPositive(orderItems)
    }

    constructor ()
      ensures Valid()
      ensures menuItems == [] && orderItems == [] && customerName == "" && tableNumber == ""
      ensures activeCategory == AllCategory
    {
      menuItems, orderItems := [], [];
      customerName, tableNumber := "", "";
      activeCategory := AllCategory;
    }

    /** The menu load: with no `menuItems` key the defaults are written to storage and shown;
        otherwise the stored list (possibly empty) is shown and storage is left alone. */
    method LoadMenu(stored: Option<seq<MenuItem>>) returns (newStored: Option<seq<MenuItem>>)
      requires Valid()
      modifies this`menuItems
      ensures Valid()
      ensures stored.None? ==> newStored == Some(DefaultItems) && menuItems == DefaultItems
      ensures stored.Some? ==> newStored == stored && menuItems == stored.value
    {
      if stored.None? {
        var defaultItems := DefaultItems;
        newStored := Some(defaultItems);
        menuItems := defaultItems;
      } else {
        newStored := stored;
        menuItems := stored.value;
      }
    }

    /** The items the menu grid shows. */
    function FilteredMenuItems(): (r: seq<MenuItem>)
      reads this
      ensures activeCategory == AllCategory ==> r == menuItems
      ensures activeCategory != AllCategory ==>
                forall x :: x in r <==> x in menuItems && x.category == activeCategory
    {
      FilterByCategory(menuItems, activeCategory)
    }

    method SetActiveCategory(category: string)
      requires Valid()
      modifies this`activeCategory
      ensures Valid() && activeCategory == category
    {
      activeCategory := category;
    }

    method SetCustomerName(name: string)
      requires Valid()
      modifies this`customerName
      ensures Valid() && customerName == name
    {
      customerName := name;
    }

    method SetTableNumber(table: string)
      requires Valid()
      modifies this`tableNumber
      ensures Valid() && tableNumber == table
    {
      tableNumber := table;
    }

    /** `addToOrder`: increment an existing line or append a quantity-1 line; no notification. */
    method AddToOrder(item: MenuItem)
      requires Valid()
      modifies this`orderItems
      ensures Valid()
      ensures orderItems == AddLine(old(orderItems), item)
    {
      AddPreserves(orderItems, item);
      orderItems := AddLine(orderItems, item);
    }

    /** `removeFromOrder`: drops the lines with this id; an absent id changes nothing. */
    method RemoveFromOrder(id: nat)
      requires Valid()
      modifies this`orderItems
      ensures Valid()
      ensures orderItems == WithoutId(old(orderItems), id)
      ensures !HasId(old(orderItems), id) ==> orderItems == old(orderItems)
    {
      RemovePreserves(orderItems, id);
      RemoveKeepsOthers(orderItems, id);
      orderItems := WithoutId(orderItems, id);
    }

    /** `updateQuantity`: the matching line gets `max(1, quantity + change)`. */
    method UpdateLineQuantity(id: nat, change: int)
      requires Valid()
      modifies this`orderItems
      ensures Valid()
      ensures orderItems == UpdateQuantity(old(orderItems), id, change)
    {
      UpdatePreserves(orderItems, id, change);
      orderItems := UpdateQuantity(orderItems, id, change);
    }

    /** `saveOrder`: an empty cart changes nothing; otherwise the record, with the name and table
        exactly as typed and no service charge, is appended to the history and the cart, name and
        table are cleared. */
    method SaveOrder(stored: Option<seq<Order>>, now: nat, date: int)
      returns (newStored: Option<seq<Order>>)
      requires Valid()
      modifies this
      ensures Valid()
      ensures old(orderItems) == [] ==>
        newStored == stored && orderItems == old(orderItems)
        && customerName == old(customerName) && tableNumber == old(tableNumber)
      ensures old(orderItems) != [] ==>
        && newStored == Some(Appended(stored, MakeOrder(old(orderItems), old(customerName),
                                                        old(tableNumber), now, date)))
        && orderItems == [] && customerName == "" && tableNumber == ""
      ensures menuItems == old(menuItems) && activeCategory == old(activeCategory)
    {
      if orderItems == [] {
        return stored;
      }
      var order := MakeOrder(orderItems, customerName, tableNumber, now, date);
      var history := StoredOrEmpty(stored);
      newStored := Some(history + [order]);
      orderItems := [];
      customerName := "";
      tableNumber := "";
    }
  }

  /** The record this screen's `saveOrder` builds: the name and table exactly as typed, no service
      charge, and a total of 105% of the line sum. */
  function MakeOrder(lines: seq<CartLine>, customerName: string, tableNumber: string,
                     id: nat, date: int): (o: Order)
    ensures o.items == lines && o.id == id && o.date == date
    ensures o.customerName == customerName && o.tableNumber == tableNumber
    ensures o.subtotal == Some(Subtotal(lines)) && o.vat == Some(Subtotal(lines) * 0.05)
    ensures o.serviceCharge.None? && o.total == Some(Subtotal(lines) * 1.05)
  {
    var t := CalculateTotal(lines);
    Order(id, customerName, tableNumber, lines, date, Some(t.subtotal), Some(t.vat), None, Some(t.total))
  }
}

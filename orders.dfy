/** The stored order-history record and the `orderHistory` storage key. */
module Orders {
  import opened Wrappers
  import opened Cart

  /** A saved order. Money fields may be missing in a stored record; the order screens always
      write them, except that the single-page variant writes no service charge. `date` is the
      save time in milliseconds. */
  datatype Order = Order(id: nat, customerName: string, tableNumber: string, items: seq<CartLine>,
                         date: int, subtotal: Option<real>, vat: Option<real>,
                         serviceCharge: Option<real>, total: Option<real>)

  /** `await localforage.getItem(key) || []`: an absent key reads as the empty list. */
  function StoredOrEmpty<T>(stored: Option<seq<T>>): (r: seq<T>)
    ensures stored.Some? ==> r == stored.value
    ensures stored.None? ==> r == []
  {
    stored.GetOr([])
  }

  /** The history after appending `order`: the old records, unchanged, then the new one. */
  function Appended(stored: Option<seq<Order>>, order: Order): (r: seq<Order>)
    ensures |r| == |StoredOrEmpty(stored)| + 1
    ensures r[..|r| - 1] == StoredOrEmpty(stored) && r[|r| - 1] == order
  {
    StoredOrEmpty(stored) + [order]
  }
}

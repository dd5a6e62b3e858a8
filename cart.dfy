/** The order being built: lines of menu items with quantities, and the updaters applied to it.
    Both order screens use these updaters; they differ only in removal and totals. */
module Cart {
  import opened Menu
  import opened Seqs

  /** A cart line: the menu item spread into a new record together with a quantity. */
  datatype CartLine = CartLine(item: MenuItem, quantity: int)

  predicate HasId(lines: seq<CartLine>, id: nat) {
    exists l :: l in lines && l.item.id == id
  }

  /** No two lines share an item id. */
  ghost predicate UniqueIds(lines: seq<CartLine>) {
    forall i, j :: 0 <= i < j < |lines| ==> lines[i].item.id != lines[j].item.id
  }

  /** Every quantity is at least one. */
  ghost predicate QuantitiesPositive(lines: seq<CartLine>) {
    forall i :: 0 <= i < |lines| ==> lines[i].quantity >= 1
  }

  /** The `prev.map` that adds one to the quantity of each line with this id. */
  function Increment(lines: seq<CartLine>, id: nat): (r: seq<CartLine>) {
    seq(|lines|, i requires 0 <= i < |lines| =>
      if lines[i].item.id == id then lines[i].(quantity := lines[i].quantity + 1) else lines[i])
  }

  lemma IncrementKeepsId(lines: seq<CartLine>, id: nat)
    requires HasId(lines, id)
    ensures HasId(Increment(lines, id), id)
  {
    var l :| l in lines && l.item.id == id;
    var k :| 0 <= k < |lines| && lines[k] == l;
    assert Increment(lines, id)[k] in Increment(lines, id);
  }

  /** The `addToOrder` updater: increment an existing line, otherwise append the item with quantity 1. */
  function AddLine(lines: seq<CartLine>, item: MenuItem): (r: seq<CartLine>)
    ensures HasId(r, item.id)
    ensures |r| == if HasId(lines, item.id) then |lines| else |lines| + 1
  {
    if HasId(lines, item.id) then IncrementKeepsId(lines, item.id); Increment(lines, item.id)
    else assert CartLine(item, 1) in lines + [CartLine(item, 1)]; lines + [CartLine(item, 1)]
  }

  /** The `prev.filter(item => item.id !== id)` of `removeFromOrder`. */
  function WithoutId(lines: seq<CartLine>, id: nat): (r: seq<CartLine>)
    ensures !HasId(r, id)
    ensures forall l :: l in r <==> l in lines && l.item.id != id
  {
    Filter((l: CartLine) => l.item.id != id, lines)
  }

  function Max(a: int, b: int): int { if a >= b then a else b }

  /** The `updateQuantity` updater: the matching line gets `max(1, quantity + change)`. */
  function UpdateQuantity(lines: seq<CartLine>, id: nat, change: int): (r: seq<CartLine>)
    ensures |r| == |lines|
    ensures forall i :: 0 <= i < |r| ==> r[i].item == lines[i].item
    ensures forall i :: 0 <= i < |r| && lines[i].item.id != id ==> r[i] == lines[i]
    ensures forall i :: 0 <= i < |r| && lines[i].item.id == id ==> r[i].quantity >= 1
  {
    seq(|lines|, i requires 0 <= i < |lines| =>
      if lines[i].item.id != id then lines[i]
      else lines[i].(quantity := Max(1, lines[i].quantity + change)))
  }

  function LineAmount(l: CartLine): real {
    l.item.price * (l.quantity as real)
  }

  /** `orderItems.reduce((sum, item) => sum + item.price * item.quantity, 0)`, folded from the left. */
  function Subtotal(lines: seq<CartLine>): real {
    if lines == [] then 0.0 else Subtotal(lines[..|lines| - 1]) + LineAmount(lines[|lines| - 1])
  }

  /** Adding an item already in the cart changes only that line, and only by one; no line is added. */
  lemma AddExisting(lines: seq<CartLine>, item: MenuItem, k: nat)
    requires UniqueIds(lines)
    requires k < |lines| && lines[k].item.id == item.id
    ensures |AddLine(lines, item)| == |lines|
    ensures AddLine(lines, item)[k] == lines[k].(quantity := lines[k].quantity + 1)
    ensures forall j :: 0 <= j < |lines| && j != k ==> AddLine(lines, item)[j] == lines[j]
  {
    assert lines[k] in lines;
  }

  /** Adding an item not yet in the cart appends one line with quantity 1 and keeps the rest. */
  lemma AddNew(lines: seq<CartLine>, item: MenuItem)
    requires !HasId(lines, item.id)
    ensures AddLine(lines, item) == lines + [CartLine(item, 1)]
  {
  }

  /** Adding keeps ids unique and quantities positive. */
  lemma AddPreserves(lines: seq<CartLine>, item: MenuItem)
    requires UniqueIds(lines) && QuantitiesPositive(lines)
    ensures UniqueIds(AddLine(lines, item)) && QuantitiesPositive(AddLine(lines, item))
    ensures HasId(AddLine(lines, item), item.id)
  {
    var r := AddLine(lines, item);
    if !HasId(lines, item.id) {
      assert r[|lines|] in r;
    } else {
      var l :| l in lines && l.item.id == item.id;
      var k :| 0 <= k < |lines| && lines[k] == l;
      assert r[k] in r;
    }
  }

  /** Whatever the change, the matching line ends with a quantity of at least one, other lines are
      untouched and the line ids stay where they were. */
  lemma UpdateQuantityClamps(lines: seq<CartLine>, id: nat, change: int)
    ensures |UpdateQuantity(lines, id, change)| == |lines|
    ensures forall i :: 0 <= i < |lines| ==>
      var r := UpdateQuantity(lines, id, change)[i];
      r.item == lines[i].item &&
      (lines[i].item.id == id ==> r.quantity >= 1 && r.quantity == Max(1, lines[i].quantity + change)) &&
      (lines[i].item.id != id ==> r == lines[i])
  {
  }

  lemma UpdatePreserves(lines: seq<CartLine>, id: nat, change: int)
    requires UniqueIds(lines) && QuantitiesPositive(lines)
    ensures UniqueIds(UpdateQuantity(lines, id, change))
    ensures QuantitiesPositive(UpdateQuantity(lines, id, change))
  {
  }

  /** Removal keeps exactly the lines with another id, in cart order; an absent id changes nothing. */
  lemma {:induction false} RemoveKeepsOthers(lines: seq<CartLine>, id: nat)
    ensures IsSubsequence(WithoutId(lines, id), lines)
    ensures !HasId(WithoutId(lines, id), id)
    ensures forall l :: l in lines && l.item.id != id ==> l in WithoutId(lines, id)
    ensures !HasId(lines, id) ==> WithoutId(lines, id) == lines
  {
    var p := (l: CartLine) => l.item.id != id;
    FilterIsSubsequence(p, lines);
    forall l | l in lines && l.item.id != id
      ensures l in WithoutId(lines, id)
    {
      FilterCount(p, lines, l);
    }
    if !HasId(lines, id) {
      assert forall i :: 0 <= i < |lines| ==> p(lines[i]) by {
        forall i | 0 <= i < |lines| ensures p(lines[i]) { assert lines[i] in lines; }
      }
      FilterAll(p, lines);
    }
  }

  /** Removing an id that is in the cart makes it strictly shorter. */
  lemma {:induction false} RemoveShrinks(lines: seq<CartLine>, id: nat)
    requires HasId(lines, id)
    ensures |WithoutId(lines, id)| < |lines|
  {
    if lines[0].item.id != id {
      var l :| l in lines && l.item.id == id;
      assert l in lines[1..];
      RemoveShrinks(lines[1..], id);
    }
  }

  lemma {:induction false} RemovePreserves(lines: seq<CartLine>, id: nat)
    requires UniqueIds(lines) && QuantitiesPositive(lines)
    ensures UniqueIds(WithoutId(lines, id)) && QuantitiesPositive(WithoutId(lines, id))
  {
    if lines != [] {
      RemovePreserves(lines[1..], id);
      var rest := WithoutId(lines[1..], id);
      if lines[0].item.id != id {
        assert WithoutId(lines, id) == [lines[0]] + rest;
        forall l | l in rest ensures l.item.id != lines[0].item.id {
          var k :| 0 <= k < |lines[1..]| && lines[1..][k] == l;
          assert lines[k + 1] == l;
        }
      } else {
        assert WithoutId(lines, id) == rest;
      }
    }
  }

  /** `n` clicks on the same menu item. */
  function AddTimes(lines: seq<CartLine>, item: MenuItem, n: nat): seq<CartLine> {
    if n == 0 then lines else AddLine(AddTimes(lines, item, n - 1), item)
  }

  /** Adding an item that is not in the cart `n >= 1` times yields a single line for it whose quantity
      is `n`, after the untouched earlier lines. */
  lemma {:induction false} AddTimesCounts(lines: seq<CartLine>, item: MenuItem, n: nat)
    requires !HasId(lines, item.id) && n >= 1
    ensures AddTimes(lines, item, n) == lines + [CartLine(item, n)]
  {
    if n > 1 {
      AddTimesCounts(lines, item, n - 1);
      var prev := lines + [CartLine(item, n - 1)];
      assert prev[|lines|] in prev;
      var r := Increment(prev, item.id);
      assert forall i :: 0 <= i < |lines| ==> r[i] == lines[i] by {
        forall i | 0 <= i < |lines| ensures r[i] == lines[i] {
          assert lines[i] in lines;
        }
      }
      assert r == lines + [CartLine(item, n)];
    }
  }

  lemma SubtotalAppend(lines: seq<CartLine>, l: CartLine)
    ensures Subtotal(lines + [l]) == Subtotal(lines) + LineAmount(l)
  {
    assert (lines + [l])[..|lines|] == lines;
  }

  /** With non-negative prices and positive quantities the subtotal is never negative. */
  lemma {:induction false} SubtotalNonNegative(lines: seq<CartLine>)
    requires QuantitiesPositive(lines)
    requires forall i :: 0 <= i < |lines| ==> lines[i].item.price >= 0.0
    ensures Subtotal(lines) >= 0.0
  {
    if lines != [] {
      SubtotalNonNegative(lines[..|lines| - 1]);
    }
  }

  /** Adding one to the quantity of every line with `id` raises the subtotal
      by the prices of those lines; for a line-unique id, by that line's price. */
  lemma {:induction false} SubtotalIncrement(lines: seq<CartLine>, id: nat, k: nat)
    requires UniqueIds(lines)
    requires k < |lines| && lines[k].item.id == id
    ensures Subtotal(Increment(lines, id)) == Subtotal(lines) + lines[k].item.price
  {
    var n := |lines|;
    var r := Increment(lines, id);
    assert r[..n - 1] == Increment(lines[..n - 1], id);
    if k == n - 1 {
      assert forall i :: 0 <= i < n - 1 ==> lines[i].item.id != id;
      assert Increment(lines[..n - 1], id) == lines[..n - 1];
    } else {
      SubtotalIncrement(lines[..n - 1], id, k);
      assert r[n - 1] == lines[n - 1];
    }
  }

  /** Adding an item raises the subtotal by the price of one unit: the price of the line it increments,
      or the item's own price for a new line. */
  lemma AddRaisesSubtotal(lines: seq<CartLine>, item: MenuItem)
    requires UniqueIds(lines)
    requires forall i :: 0 <= i < |lines| && lines[i].item.id == item.id ==> lines[i].item.price == item.price
    ensures Subtotal(AddLine(lines, item)) == Subtotal(lines) + item.price
  {
    if HasId(lines, item.id) {
      var l :| l in lines && l.item.id == item.id;
      var k :| 0 <= k < |lines| && lines[k] == l;
      SubtotalIncrement(lines, item.id, k);
    } else {
      SubtotalAppend(lines, CartLine(item, 1));
    }
  }
}

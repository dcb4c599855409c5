/**
 * The cart line list of the cart context (src/context/CartContext.jsx) and the
 * pure updaters the context hands to `setCartItems`: add, update quantity and
 * remove, all keyed by the pair (`id_producto || id`, `notes`), plus the two
 * totals that are recomputed from the list on every read.
 */
module CartLines {
  import opened Js
  import opened ProductsService

  /** A cart line: the fields of the product it was made from, normalised, plus quantity and notes. */
  datatype CartLine = CartLine(
    idProducto: nat,
    id: nat,
    nombre: string,
    precioVenta: nat,
    quantity: int,
    notes: string)

  /** The identifier half of a line's key: `id_producto || id`. */
  function Key(l: CartLine): nat
  {
    OrNat(l.idProducto, l.id)
  }

  /** The line has the key (productId, notes). */
  predicate Matches(l: CartLine, productId: nat, notes: string)
  {
    Key(l) == productId && l.notes == notes
  }

  /** Some line of the list has the key (productId, notes). */
  predicate HasLine(lines: seq<CartLine>, productId: nat, notes: string)
  {
    exists i :: 0 <= i < |lines| && Matches(lines[i], productId, notes)
  }

  /** No two lines share a key. */
  predicate UniqueKeys(lines: seq<CartLine>)
  {
    forall i, j :: 0 <= i < j < |lines| ==> !Matches(lines[j], Key(lines[i]), lines[i].notes)
  }

  /** Every line holds at least one unit. */
  predicate AllPositive(lines: seq<CartLine>)
  {
    forall i :: 0 <= i < |lines| ==> lines[i].quantity >= 1
  }

  /** `findIndex` of the key: the first matching position, or -1. */
  function FindIndex(lines: seq<CartLine>, productId: nat, notes: string): (r: int)
    ensures -1 <= r < |lines|
    ensures r == -1 <==> !HasLine(lines, productId, notes)
    ensures r >= 0 ==> Matches(lines[r], productId, notes)
    ensures r >= 0 ==> forall j :: 0 <= j < r ==> !Matches(lines[j], productId, notes)
  {
    if lines == [] then -1
    else if Matches(lines[0], productId, notes) then 0
    else
      var k := FindIndex(lines[1..], productId, notes);
      assert forall j :: 1 <= j < |lines| ==> lines[j] == lines[1..][j - 1];
      if k == -1 then -1 else k + 1
  }

  /** The line `addToCart` appends for a product it has not seen with these notes. */
  function NewLine(product: Product, quantity: int, notes: string): (l: CartLine)
    ensures Matches(l, ProductKey(product), notes)
    ensures l.idProducto == ProductKey(product)
    ensures l.precioVenta == UnitPrice(product)
    ensures l.quantity == quantity && l.notes == notes
  {
    CartLine(ProductKey(product), product.id, product.nombre, UnitPrice(product), quantity, notes)
  }

  /**
   * `addToCart`'s updater: a line with the product's key and the same notes
   * has its quantity raised by `quantity`; otherwise one new line is appended.
   */
  function AddToCart(lines: seq<CartLine>, product: Product, quantity: int, notes: string): (r: seq<CartLine>)
    ensures HasLine(lines, ProductKey(product), notes) ==>
      |r| == |lines| &&
      exists i :: 0 <= i < |lines| && Matches(lines[i], ProductKey(product), notes) &&
        r == lines[i := lines[i].(quantity := lines[i].quantity + quantity)]
    ensures !HasLine(lines, ProductKey(product), notes) ==> r == lines + [NewLine(product, quantity, notes)]
    ensures forall j :: 0 <= j < |lines| && !Matches(lines[j], ProductKey(product), notes) ==> r[j] == lines[j]
  {
    var i := FindIndex(lines, ProductKey(product), notes);
    if i >= 0 then lines[i := lines[i].(quantity := lines[i].quantity + quantity)]
    else lines + [NewLine(product, quantity, notes)]
  }

  /** One line under `updateQuantity`: a matching line moves only to a positive quantity. */
  function Updated(l: CartLine, productId: nat, change: int, notes: string): CartLine
  {
    if Matches(l, productId, notes) && l.quantity + change > 0 then l.(quantity := l.quantity + change) else l
  }

  /** `updateQuantity`'s updater, a `map` over the lines. */
  function UpdateQuantity(lines: seq<CartLine>, productId: nat, change: int, notes: string): (r: seq<CartLine>)
    ensures |r| == |lines|
    ensures forall i :: 0 <= i < |lines| ==> r[i] == lines[i].(quantity := r[i].quantity)
    ensures forall i :: 0 <= i < |lines| && !Matches(lines[i], productId, notes) ==> r[i] == lines[i]
    ensures forall i :: 0 <= i < |lines| && Matches(lines[i], productId, notes) ==>
      r[i].quantity == (if lines[i].quantity + change > 0 then lines[i].quantity + change else lines[i].quantity)
  {
    if lines == [] then []
    else [Updated(lines[0], productId, change, notes)] + UpdateQuantity(lines[1..], productId, change, notes)
  }

  /** `removeFromCart`'s updater, a `filter` dropping the lines with the key. */
  function RemoveFromCart(lines: seq<CartLine>, productId: nat, notes: string): (r: seq<CartLine>)
    ensures |r| <= |lines|
    ensures forall l :: l in r <==> l in lines && !Matches(l, productId, notes)
  {
    if lines == [] then []
    else if Matches(lines[0], productId, notes) then RemoveFromCart(lines[1..], productId, notes)
    else [lines[0]] + RemoveFromCart(lines[1..], productId, notes)
  }

  /** The amount one line contributes to `total`. */
  function Amount(l: CartLine): int
  {
    l.precioVenta * l.quantity
  }

  /** The units one line contributes to `totalItems`. */
  function Quantity(l: CartLine): int
  {
    l.quantity
  }

  /** `lines.reduce((sum, l) => sum + f(l), sum)` as JavaScript runs it, left to right. */
  function Reduce(sum: int, lines: seq<CartLine>, f: CartLine -> int): int
    decreases |lines|
  {
    if lines == [] then sum else Reduce(sum + f(lines[0]), lines[1..], f)
  }

  /** The running sum a `reduce` starts from only offsets its result. */
  lemma {:induction false} ReduceShift(sum: int, lines: seq<CartLine>, f: CartLine -> int)
    ensures Reduce(sum, lines, f) == sum + Reduce(0, lines, f)
    decreases |lines|
  {
    if lines != [] {
      ReduceShift(sum + f(lines[0]), lines[1..], f);
      ReduceShift(f(lines[0]), lines[1..], f);
    }
  }

  /** `total`: the sum of `precio_venta * quantity` over the lines. */
  function Total(lines: seq<CartLine>): (r: int)
    ensures r == Reduce(0, lines, Amount)
  {
    if lines == [] then 0
    else
      ReduceShift(Amount(lines[0]), lines[1..], Amount);
      Amount(lines[0]) + Total(lines[1..])
  }

  /** `totalItems`: the sum of the quantities. */
  function TotalItems(lines: seq<CartLine>): (r: int)
    ensures r == Reduce(0, lines, Quantity)
  {
    if lines == [] then 0
    else
      ReduceShift(Quantity(lines[0]), lines[1..], Quantity);
      lines[0].quantity + TotalItems(lines[1..])
  }

  // ---------------------------------------------------------------------------
  // Totals are sums over the current list

  lemma {:induction false} TotalsAppend(a: seq<CartLine>, b: seq<CartLine>)
    ensures Total(a + b) == Total(a) + Total(b)
    ensures TotalItems(a + b) == TotalItems(a) + TotalItems(b)
  {
    if a == [] {
      assert a + b == b;
    } else {
      assert (a + b)[1..] == a[1..] + b;
      TotalsAppend(a[1..], b);
    }
  }

  /** Replacing one line moves the totals by exactly the difference of that line. */
  lemma {:induction false} TotalsReplace(lines: seq<CartLine>, i: nat, x: CartLine)
    requires i < |lines|
    ensures Total(lines[i := x]) == Total(lines) - Amount(lines[i]) + Amount(x)
    ensures TotalItems(lines[i := x]) == TotalItems(lines) - lines[i].quantity + x.quantity
  {
    if i > 0 {
      assert lines[i := x][1..] == lines[1..][i - 1 := x];
      TotalsReplace(lines[1..], i - 1, x);
    } else {
      assert lines[i := x][1..] == lines[1..];
    }
  }

  /** With every quantity at least 1, `totalItems` counts at least one unit per line. */
  lemma {:induction false} TotalItemsCountsLines(lines: seq<CartLine>)
    requires AllPositive(lines)
    ensures TotalItems(lines) >= |lines|
    ensures TotalItems(lines) > 0 <==> lines != []
    ensures Total(lines) >= 0
  {
    if lines != [] {
      TotalItemsCountsLines(lines[1..]);
    }
  }

  // ---------------------------------------------------------------------------
  // addToCart

  /**
   * `totalItems` grows by the added quantity; `total` grows by that quantity
   * times the unit price of the line it lands on (the existing line's price when merging).
   */
  lemma AddToCartTotals(lines: seq<CartLine>, product: Product, quantity: int, notes: string)
    ensures var r := AddToCart(lines, product, quantity, notes);
      var i := FindIndex(lines, ProductKey(product), notes);
      && TotalItems(r) == TotalItems(lines) + quantity
      && Total(r) == Total(lines) + (if i >= 0 then lines[i].precioVenta else UnitPrice(product)) * quantity
  {
    var i := FindIndex(lines, ProductKey(product), notes);
    if i >= 0 {
      assert AddToCart(lines, product, quantity, notes) == lines[i := lines[i].(quantity := lines[i].quantity + quantity)];
      MergeTotals(lines, i, quantity);
    } else {
      var l := NewLine(product, quantity, notes);
      assert AddToCart(lines, product, quantity, notes) == lines + [l];
      TotalsSnoc(lines, l);
    }
  }

  /** Merging d units into line i moves the totals by d units at that line's price. */
  lemma MergeTotals(lines: seq<CartLine>, i: nat, d: int)
    requires i < |lines|
    ensures var r := lines[i := lines[i].(quantity := lines[i].quantity + d)];
      && Total(r) == Total(lines) + lines[i].precioVenta * d
      && TotalItems(r) == TotalItems(lines) + d
  {
    TotalsReplace(lines, i, lines[i].(quantity := lines[i].quantity + d));
    AmountGrows(lines[i], d);
  }

  /** Appending a line adds its amount and its units. */
  lemma TotalsSnoc(lines: seq<CartLine>, l: CartLine)
    ensures Total(lines + [l]) == Total(lines) + Amount(l)
    ensures TotalItems(lines + [l]) == TotalItems(lines) + l.quantity
  {
    TotalsAppend(lines, [l]);
    assert [l][1..] == [];
  }

  /** Adding d units to a line adds d times its price to its amount. */
  lemma AmountGrows(l: CartLine, d: int)
    ensures Amount(l.(quantity := l.quantity + d)) == Amount(l) + l.precioVenta * d
  {
    assert l.precioVenta * (l.quantity + d) == l.precioVenta * l.quantity + l.precioVenta * d;
  }

  /** Lines are only ever created with a key no other line has. */
  lemma AddToCartKeepsKeysUnique(lines: seq<CartLine>, product: Product, quantity: int, notes: string)
    requires UniqueKeys(lines)
    ensures UniqueKeys(AddToCart(lines, product, quantity, notes))
  {
    var r := AddToCart(lines, product, quantity, notes);
    forall i, j | 0 <= i < j < |r|
      ensures !Matches(r[j], Key(r[i]), r[i].notes)
    {
      if j == |lines| {
        assert !HasLine(lines, ProductKey(product), notes);
        assert !Matches(lines[i], ProductKey(product), notes);
      }
    }
  }

  lemma AddToCartKeepsPositive(lines: seq<CartLine>, product: Product, quantity: int, notes: string)
    requires AllPositive(lines) && quantity >= 1
    ensures AllPositive(AddToCart(lines, product, quantity, notes))
  {
  }

  /** Applies `addToCart` once per quantity in `quantities`, always with the same product and notes. */
  function AddEach(lines: seq<CartLine>, product: Product, quantities: seq<int>, notes: string): seq<CartLine>
    decreases |quantities|
  {
    if quantities == [] then lines
    else AddEach(AddToCart(lines, product, quantities[0], notes), product, quantities[1..], notes)
  }

  function Sum(xs: seq<int>): int
  {
    if xs == [] then 0 else xs[0] + Sum(xs[1..])
  }

  /** Repeated adds of one key onto its single line only add up its quantity. */
  lemma {:induction false} AddEachMerges(product: Product, first: int, quantities: seq<int>, notes: string)
    ensures AddEach([NewLine(product, first, notes)], product, quantities, notes)
         == [NewLine(product, first + Sum(quantities), notes)]
    decreases |quantities|
  {
    if quantities != [] {
      var l := NewLine(product, first, notes);
      assert [l][0] == l;
      assert AddToCart([l], product, quantities[0], notes) == [NewLine(product, first + quantities[0], notes)];
      AddEachMerges(product, first + quantities[0], quantities[1..], notes);
    }
  }

  /**
   * Any non-empty run of adds with the same (product, notes) on an empty cart
   * yields a single line holding the sum of the added quantities.
   */
  lemma SameKeyAddsYieldOneLine(product: Product, quantities: seq<int>, notes: string)
    requires quantities != []
    ensures AddEach([], product, quantities, notes) == [NewLine(product, Sum(quantities), notes)]
  {
    assert !HasLine([], ProductKey(product), notes);
    assert AddToCart([], product, quantities[0], notes) == [NewLine(product, quantities[0], notes)];
    AddEachMerges(product, quantities[0], quantities[1..], notes);
  }

  /** Two adds of the same product with different notes give two separate lines. */
  lemma DifferentNotesNeverMerge(lines: seq<CartLine>, product: Product, q1: int, n1: string, q2: int, n2: string)
    requires n1 != n2
    requires !HasLine(lines, ProductKey(product), n1) && !HasLine(lines, ProductKey(product), n2)
    ensures AddToCart(AddToCart(lines, product, q1, n1), product, q2, n2)
         == lines + [NewLine(product, q1, n1), NewLine(product, q2, n2)]
  {
    var once := AddToCart(lines, product, q1, n1);
    assert once == lines + [NewLine(product, q1, n1)];
    assert !HasLine(once, ProductKey(product), n2) by {
      forall i | 0 <= i < |once| ensures !Matches(once[i], ProductKey(product), n2) {
        if i < |lines| { assert once[i] == lines[i]; }
      }
    }
  }

  // ---------------------------------------------------------------------------
  // updateQuantity

  /** A key no line has leaves the cart exactly as it was. */
  lemma UpdateAbsentIsNoop(lines: seq<CartLine>, productId: nat, change: int, notes: string)
    requires !HasLine(lines, productId, notes)
    ensures UpdateQuantity(lines, productId, change, notes) == lines
  {
  }

  /** `updateQuantity` never drives a quantity below 1 and never removes a line. */
  lemma UpdateKeepsPositive(lines: seq<CartLine>, productId: nat, change: int, notes: string)
    requires AllPositive(lines)
    ensures AllPositive(UpdateQuantity(lines, productId, change, notes))
    ensures |UpdateQuantity(lines, productId, change, notes)| == |lines|
  {
  }

  lemma UpdateKeepsKeysUnique(lines: seq<CartLine>, productId: nat, change: int, notes: string)
    requires UniqueKeys(lines)
    ensures UniqueKeys(UpdateQuantity(lines, productId, change, notes))
  {
    var r := UpdateQuantity(lines, productId, change, notes);
    forall i, j | 0 <= i < j < |r|
      ensures !Matches(r[j], Key(r[i]), r[i].notes)
    {
      assert Key(r[i]) == Key(lines[i]) && r[i].notes == lines[i].notes;
      assert Key(r[j]) == Key(lines[j]) && r[j].notes == lines[j].notes;
    }
  }

  /**
   * In a cart with unique keys, updating the line at i moves both totals by
   * `change` units of that line when the new quantity is positive, and by nothing otherwise.
   */
  lemma UpdateTotals(lines: seq<CartLine>, i: nat, change: int)
    requires UniqueKeys(lines) && i < |lines|
    ensures var r := UpdateQuantity(lines, Key(lines[i]), change, lines[i].notes);
      var moved := lines[i].quantity + change > 0;
      && TotalItems(r) == TotalItems(lines) + (if moved then change else 0)
      && Total(r) == Total(lines) + (if moved then lines[i].precioVenta * change else 0)
  {
    var r := UpdateQuantity(lines, Key(lines[i]), change, lines[i].notes);
    var x := Updated(lines[i], Key(lines[i]), change, lines[i].notes);
    assert r == lines[i := x] by {
      forall j | 0 <= j < |lines| ensures r[j] == lines[i := x][j] {
        if j < i {
          assert !Matches(lines[i], Key(lines[j]), lines[j].notes);
        } else if j > i {
          assert !Matches(lines[j], Key(lines[i]), lines[i].notes);
        }
      }
    }
    TotalsReplace(lines, i, x);
    if lines[i].quantity + change > 0 {
      AmountGrows(lines[i], change);
    }
  }

  // ---------------------------------------------------------------------------
  // removeFromCart

  lemma {:induction false} RemoveAbsentIsNoop(lines: seq<CartLine>, productId: nat, notes: string)
    requires !HasLine(lines, productId, notes)
    ensures RemoveFromCart(lines, productId, notes) == lines
  {
    if lines != [] {
      assert !HasLine(lines[1..], productId, notes) by {
        forall i | 0 <= i < |lines[1..]| ensures !Matches(lines[1..][i], productId, notes) {
          assert lines[1..][i] == lines[i + 1];
        }
      }
      RemoveAbsentIsNoop(lines[1..], productId, notes);
      assert !Matches(lines[0], productId, notes);
    }
  }

  /** In a cart with unique keys, removing the key of line i deletes that line and keeps the rest in order. */
  lemma RemoveDeletesExactlyThatLine(lines: seq<CartLine>, i: nat)
    requires UniqueKeys(lines) && i < |lines|
    ensures RemoveFromCart(lines, Key(lines[i]), lines[i].notes) == lines[..i] + lines[i + 1..]
  {
    forall j | 0 <= j < |lines| && j != i ensures !Matches(lines[j], Key(lines[i]), lines[i].notes) {
      if j < i {
        assert !Matches(lines[i], Key(lines[j]), lines[j].notes);
      }
    }
    RemoveSoleMatch(lines, Key(lines[i]), lines[i].notes, i);
  }

  /** When line i is the only line with the key, removing the key deletes exactly line i. */
  lemma {:induction false} RemoveSoleMatch(lines: seq<CartLine>, productId: nat, notes: string, i: nat)
    requires i < |lines| && Matches(lines[i], productId, notes)
    requires forall j :: 0 <= j < |lines| && j != i ==> !Matches(lines[j], productId, notes)
    ensures RemoveFromCart(lines, productId, notes) == lines[..i] + lines[i + 1..]
  {
    var t := lines[1..];
    if i == 0 {
      assert !HasLine(t, productId, notes) by {
        forall j | 0 <= j < |t| ensures !Matches(t[j], productId, notes) {
          assert t[j] == lines[j + 1];
        }
      }
      RemoveAbsentIsNoop(t, productId, notes);
      assert lines[..0] + lines[1..] == t;
    } else {
      forall j | 0 <= j < |t| && j != i - 1 ensures !Matches(t[j], productId, notes) {
        assert t[j] == lines[j + 1];
      }
      assert t[i - 1] == lines[i];
      RemoveSoleMatch(t, productId, notes, i - 1);
      Splice(lines, i);
    }
  }

  /** Re-attaching the head to the tail without its line i-1 is the list without its line i. */
  lemma Splice(lines: seq<CartLine>, i: nat)
    requires 0 < i < |lines|
    ensures [lines[0]] + (lines[1..][..i - 1] + lines[1..][i..]) == lines[..i] + lines[i + 1..]
  {
    assert lines[1..][..i - 1] == lines[1..i];
    assert lines[1..][i..] == lines[i + 1..];
    assert [lines[0]] + lines[1..i] == lines[..i];
  }

  lemma RemoveKeepsKeysUnique(lines: seq<CartLine>, productId: nat, notes: string)
    requires UniqueKeys(lines)
    ensures UniqueKeys(RemoveFromCart(lines, productId, notes))
  {
    var i := FindIndex(lines, productId, notes);
    if i < 0 {
      RemoveAbsentIsNoop(lines, productId, notes);
    } else {
      assert Key(lines[i]) == productId && lines[i].notes == notes;
      RemoveDeletesExactlyThatLine(lines, i);
      UniqueKeysWithout(lines, i);
    }
  }

  lemma UniqueKeysWithout(lines: seq<CartLine>, i: nat)
    requires UniqueKeys(lines) && i < |lines|
    ensures UniqueKeys(lines[..i] + lines[i + 1..])
  {
    var r := lines[..i] + lines[i + 1..];
    forall a, b | 0 <= a < b < |r|
      ensures !Matches(r[b], Key(r[a]), r[a].notes)
    {
      var a', b' := if a < i then a else a + 1, if b < i then b else b + 1;
      assert r[a] == lines[a'] && r[b] == lines[b'];
    }
  }

  lemma TotalsCons(x: CartLine, b: seq<CartLine>)
    ensures Total([x] + b) == Amount(x) + Total(b)
    ensures TotalItems([x] + b) == x.quantity + TotalItems(b)
  {
    assert ([x] + b)[1..] == b;
  }

  /** Dropping the line at i takes exactly that line's amount and units off the totals. */
  lemma TotalsWithout(lines: seq<CartLine>, i: nat)
    requires i < |lines|
    ensures Total(lines[..i] + lines[i + 1..]) == Total(lines) - Amount(lines[i])
    ensures TotalItems(lines[..i] + lines[i + 1..]) == TotalItems(lines) - lines[i].quantity
  {
    var a, b := lines[..i], lines[i + 1..];
    var c := [lines[i]] + b;
    assert lines == a + c;
    TotalsCons(lines[i], b);
    TotalsAppend(a, b);
    TotalsAppend(a, c);
  }

  /** Removing the key of line i takes exactly that line's amount and units off the totals. */
  lemma RemoveTotals(lines: seq<CartLine>, i: nat)
    requires UniqueKeys(lines) && i < |lines|
    ensures Total(RemoveFromCart(lines, Key(lines[i]), lines[i].notes)) == Total(lines) - Amount(lines[i])
    ensures TotalItems(RemoveFromCart(lines, Key(lines[i]), lines[i].notes)) == TotalItems(lines) - lines[i].quantity
  {
    RemoveDeletesExactlyThatLine(lines, i);
    TotalsWithout(lines, i);
  }

  /**
   * Worked example: two adds of the same dish merge into one line of 3; a
   * change of -5 would drop it below 1, so the quantity stays 3; removing it
   * empties the cart.
   */
  lemma MergeUpdateRemoveExample(p: Product)
    requires ProductKey(p) == 7 && UnitPrice(p) == 1500
    ensures var merged := AddToCart(AddToCart([], p, 2, ""), p, 1, "");
      && |merged| == 1 && merged[0].quantity == 3
      && Total(merged) == 4500 && TotalItems(merged) == 3
      && UpdateQuantity(merged, 7, -5, "") == merged
      && RemoveFromCart(merged, 7, "") == []
  {
    var once := AddToCart([], p, 2, "");
    assert once == [NewLine(p, 2, "")];
    assert FindIndex(once, 7, "") == 0;
  }
}

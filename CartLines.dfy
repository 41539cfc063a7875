/** The index-keyed cart of the checkout page (`CrearPedido`) and of the pending
    order panel (`PedidoPendiente`): both address a line by its position, refuse a
    quantity change that would reach zero or below, and persist the whole list in
    the 'cart' slot. The functions here are the values those views compute; the
    views themselves are classes in their own modules. */
module CartLines {
  import opened Wrappers
  import opened Types
  import opened Storage

  /** `lines.reduce((sum, l) => sum + l.subtotal, 0)`: 0 for no lines, and when no
      subtotal is negative, a sum that no single line's subtotal exceeds. */
  function SumSubtotals(lines: seq<DetallePedido>): (s: int)
    ensures lines == [] ==> s == 0
    ensures (forall k :: 0 <= k < |lines| ==> lines[k].subtotal >= 0) ==>
      s >= 0 && forall k :: 0 <= k < |lines| ==> lines[k].subtotal <= s
  {
    if lines == [] then
      0
    else
      var rest := lines[1..];
      assert forall k :: 0 <= k < |rest| ==> rest[k] == lines[k + 1];
      lines[0].subtotal + SumSubtotals(rest)
  }

  /** Every line holds at least one unit. */
  ghost predicate AllPositive(lines: seq<DetallePedido>)
  {
    forall k :: 0 <= k < |lines| ==> lines[k].cantidad >= 1
  }

  /** Every line's subtotal is its quantity times its unit price. */
  ghost predicate Consistent(lines: seq<DetallePedido>)
  {
    forall k :: 0 <= k < |lines| ==> lines[k].subtotal == lines[k].cantidad * lines[k].precioUnitario
  }

  /** The cart a view starts from: the parsed 'cart' slot when it is present,
      non-empty and parseable; otherwise (absent, empty or malformed) the empty
      cart, with nothing raised. */
  function Hydrated(store: Store): (r: seq<DetallePedido>)
    ensures CART_KEY !in store ==> r == []
    ensures CART_KEY in store && ParseCart(store[CART_KEY]).None? ==> r == []
    ensures CART_KEY in store && ParseCart(store[CART_KEY]).Some? ==> r == ParseCart(store[CART_KEY]).value
  {
    if CART_KEY in store && Truthy(store[CART_KEY]) then
      match ParseCart(store[CART_KEY])
      case Some(lines) => lines
      case None => []
    else
      []
  }

  /** `updateQuantity(i, delta)`: when the new quantity is positive, line i gets it
      and its subtotal is recomputed from its own unit price; otherwise nothing changes. */
  function AdjustAt(cart: seq<DetallePedido>, i: nat, delta: int): (r: seq<DetallePedido>)
    requires i < |cart|
    ensures |r| == |cart|
    ensures forall k :: 0 <= k < |cart| && k != i ==> r[k] == cart[k]
    ensures cart[i].cantidad + delta <= 0 ==> r == cart
    ensures cart[i].cantidad + delta > 0 ==>
      && r[i].cantidad == cart[i].cantidad + delta
      && r[i].subtotal == r[i].cantidad * r[i].precioUnitario
      && r[i] == cart[i].(cantidad := r[i].cantidad, subtotal := r[i].subtotal)
    ensures r[i].cantidad >= 1 || r == cart
  {
    var q := cart[i].cantidad + delta;
    if q > 0 then cart[i := cart[i].(cantidad := q, subtotal := q * cart[i].precioUnitario)] else cart
  }

  /** `removeItem(i)` / `eliminarItem(i)`: `filter((_, k) => k !== i)`; an index
      outside the list removes nothing. */
  function RemoveAt(cart: seq<DetallePedido>, i: int): (r: seq<DetallePedido>)
    ensures 0 <= i < |cart| ==> |r| == |cart| - 1
    ensures 0 <= i < |cart| ==> forall k :: 0 <= k < i ==> r[k] == cart[k]
    ensures 0 <= i < |cart| ==> forall k :: i <= k < |r| ==> r[k] == cart[k + 1]
    ensures !(0 <= i < |cart|) ==> r == cart
  {
    if 0 <= i < |cart| then cart[..i] + cart[i + 1..] else cart
  }

  /** `updateObservaciones(i, s)`: only line i's notes change. */
  function SetNotesAt(cart: seq<DetallePedido>, i: nat, notes: string): (r: seq<DetallePedido>)
    requires i < |cart|
    ensures |r| == |cart|
    ensures forall k :: 0 <= k < |cart| && k != i ==> r[k] == cart[k]
    ensures r[i].observaciones == notes
    ensures r[i] == cart[i].(observaciones := notes)
  {
    cart[i := cart[i].(observaciones := notes)]
  }

  /** The total of a concatenation is the sum of the totals. */
  lemma {:induction false} SumAppend(a: seq<DetallePedido>, b: seq<DetallePedido>)
    ensures SumSubtotals(a + b) == SumSubtotals(a) + SumSubtotals(b)
  {
    if a == [] {
      assert a + b == b;
    } else {
      assert (a + b)[1..] == a[1..] + b;
      SumAppend(a[1..], b);
    }
  }

  /** Replacing one line changes the total by exactly the change of that line's subtotal. */
  lemma {:induction false} SumReplace(cart: seq<DetallePedido>, i: nat, l: DetallePedido)
    requires i < |cart|
    ensures SumSubtotals(cart[i := l]) == SumSubtotals(cart) - cart[i].subtotal + l.subtotal
  {
    if i == 0 {
      assert cart[i := l][1..] == cart[1..];
    } else {
      assert cart[i := l][1..] == cart[1..][i - 1 := l];
      SumReplace(cart[1..], i - 1, l);
    }
  }

  /** Adjusting a quantity moves the total by the line's new subtotal minus its old one;
      a refused adjustment leaves the total alone. */
  lemma AdjustTotal(cart: seq<DetallePedido>, i: nat, delta: int)
    requires i < |cart|
    ensures SumSubtotals(AdjustAt(cart, i, delta))
         == SumSubtotals(cart) - cart[i].subtotal + AdjustAt(cart, i, delta)[i].subtotal
  {
    var q := cart[i].cantidad + delta;
    if q > 0 {
      SumReplace(cart, i, cart[i].(cantidad := q, subtotal := q * cart[i].precioUnitario));
    }
  }

  /** Removing line i takes exactly its subtotal off the total. */
  lemma {:induction false} RemoveTotal(cart: seq<DetallePedido>, i: nat)
    requires i < |cart|
    ensures SumSubtotals(RemoveAt(cart, i)) == SumSubtotals(cart) - cart[i].subtotal
  {
    if i == 0 {
      assert RemoveAt(cart, i) == cart[1..];
    } else {
      assert RemoveAt(cart, i) == [cart[0]] + RemoveAt(cart[1..], i - 1);
      RemoveTotal(cart[1..], i - 1);
      assert RemoveAt(cart, i)[1..] == RemoveAt(cart[1..], i - 1);
    }
  }

  /** Editing notes never changes the total. */
  lemma NotesKeepTotal(cart: seq<DetallePedido>, i: nat, notes: string)
    requires i < |cart|
    ensures SumSubtotals(SetNotesAt(cart, i, notes)) == SumSubtotals(cart)
  {
    SumReplace(cart, i, cart[i].(observaciones := notes));
  }

  /** No operation brings a quantity below one: a cart whose lines all hold at
      least one unit keeps that property through every edit. */
  lemma EditsKeepPositive(cart: seq<DetallePedido>, i: nat, delta: int, notes: string, j: int)
    requires i < |cart|
    requires AllPositive(cart)
    ensures AllPositive(AdjustAt(cart, i, delta))
    ensures AllPositive(SetNotesAt(cart, i, notes))
    ensures AllPositive(RemoveAt(cart, j))
  {
    var r := RemoveAt(cart, j);
    if 0 <= j < |cart| {
      forall k | 0 <= k < |r| ensures r[k].cantidad >= 1 {
        if k < j { assert r[k] == cart[k]; } else { assert r[k] == cart[k + 1]; }
      }
    }
  }

  /** Every edit keeps subtotal = quantity x unit price on every line. */
  lemma EditsKeepConsistent(cart: seq<DetallePedido>, i: nat, delta: int, notes: string, j: int)
    requires i < |cart|
    requires Consistent(cart)
    ensures Consistent(AdjustAt(cart, i, delta))
    ensures Consistent(SetNotesAt(cart, i, notes))
    ensures Consistent(RemoveAt(cart, j))
  {
    var r := RemoveAt(cart, j);
    if 0 <= j < |cart| {
      forall k | 0 <= k < |r| ensures r[k].subtotal == r[k].cantidad * r[k].precioUnitario {
        if k < j { assert r[k] == cart[k]; } else { assert r[k] == cart[k + 1]; }
      }
    }
  }
}

/** The menu page, `app/menu/page.tsx`: an in-memory cart that merges additions by
    item name, written to the 'cart' slot when the customer opens the cart. */
module MenuPage {
  import opened Wrappers
  import opened Constants
  import opened Types
  import opened Storage
  import opened CartLines
  import Routes

  /** No two lines carry the same item name. */
  ghost predicate UniqueNames(cart: seq<DetallePedido>)
  {
    forall i, j :: 0 <= i < j < |cart| ==> cart[i].item.nombre != cart[j].item.nombre
  }

  /** `cart.find(l => l.item.nombre === nombre)` finds something. */
  predicate HasLine(cart: seq<DetallePedido>, nombre: string)
  {
    exists k :: 0 <= k < |cart| && cart[k].item.nombre == nombre
  }

  /** The line appended for an item not yet in the cart. */
  function NewLine(item: Item): DetallePedido
  {
    DetallePedido(None, None, item, 1, item.precio, item.precio, "")
  }

  /** A merged line: one more unit, subtotal recomputed from the PASSED item's
      price while the stored unit price is kept. */
  function Bumped(line: DetallePedido, item: Item): DetallePedido
  {
    line.(cantidad := line.cantidad + 1, subtotal := (line.cantidad + 1) * item.precio)
  }

  /** `addToCart(item)`. */
  function AddToCart(cart: seq<DetallePedido>, item: Item): (r: seq<DetallePedido>)
    ensures HasLine(cart, item.nombre) ==> |r| == |cart|
    ensures HasLine(cart, item.nombre) ==> forall k :: 0 <= k < |cart| ==>
      r[k] == if cart[k].item.nombre == item.nombre then Bumped(cart[k], item) else cart[k]
    ensures !HasLine(cart, item.nombre) ==> r == cart + [NewLine(item)]
  {
    if HasLine(cart, item.nombre) then
      seq(|cart|, k requires 0 <= k < |cart| =>
        if cart[k].item.nombre == item.nombre then Bumped(cart[k], item) else cart[k])
    else
      cart + [NewLine(item)]
  }

  /** The cart badge: shown only for a non-empty cart, and it counts lines, not units. */
  function Badge(cart: seq<DetallePedido>): (b: Option<nat>)
    ensures b.Some? <==> cart != []
    ensures b.Some? ==> b.value == |cart|
  {
    if |cart| > 0 then Some(|cart|) else None
  }

  /** The badge counts lines, not units: adding a name already in the cart leaves
      it as it was, and adding a new name raises it by one. */
  lemma BadgeCountsLines(cart: seq<DetallePedido>, item: Item)
    ensures HasLine(cart, item.nombre) ==> Badge(AddToCart(cart, item)) == Badge(cart)
    ensures !HasLine(cart, item.nombre) ==> Badge(AddToCart(cart, item)) == Some(|cart| + 1)
  {
  }

  /** Adding never creates a second line for a name. */
  lemma AddKeepsUniqueNames(cart: seq<DetallePedido>, item: Item)
    requires UniqueNames(cart)
    ensures UniqueNames(AddToCart(cart, item))
  {
    var r := AddToCart(cart, item);
    if !HasLine(cart, item.nombre) {
      forall i, j | 0 <= i < j < |r| ensures r[i].item.nombre != r[j].item.nombre {
        if j == |cart| {
          assert r[j] == NewLine(item);
          assert r[i] == cart[i];
        }
      }
    }
  }

  /** With unique names, adding an item already present bumps exactly that line:
      one more unit, subtotal from the passed item's price, unit price and notes
      kept, and no line added. */
  lemma AddMergesOneLine(cart: seq<DetallePedido>, item: Item, k: nat)
    requires UniqueNames(cart)
    requires k < |cart| && cart[k].item.nombre == item.nombre
    ensures AddToCart(cart, item) == cart[k := Bumped(cart[k], item)]
    ensures AddToCart(cart, item)[k].cantidad == cart[k].cantidad + 1
    ensures AddToCart(cart, item)[k].subtotal == (cart[k].cantidad + 1) * item.precio
    ensures AddToCart(cart, item)[k].precioUnitario == cart[k].precioUnitario
  {
    assert HasLine(cart, item.nombre);
    var r := AddToCart(cart, item);
    forall j | 0 <= j < |cart| ensures r[j] == cart[k := Bumped(cart[k], item)][j] {
      if j != k {
        if j < k { assert cart[j].item.nombre != cart[k].item.nombre; }
        else { assert cart[k].item.nombre != cart[j].item.nombre; }
      }
    }
  }

  /** A merged line keeps subtotal = quantity x unit price exactly when the passed
      item's price equals the unit price stored at first add. */
  lemma MergedSubtotalUsesPassedPrice(line: DetallePedido, item: Item)
    requires line.cantidad >= 0
    requires line.subtotal == line.cantidad * line.precioUnitario
    ensures Bumped(line, item).subtotal == Bumped(line, item).cantidad * Bumped(line, item).precioUnitario
        <==> item.precio == line.precioUnitario
  {
    var n := line.cantidad + 1;
    assert n > 0;
    if n * item.precio == n * line.precioUnitario {
      assert n * (item.precio - line.precioUnitario) == 0;
    }
  }

  /** With unique names, adding moves the total by the merged line's new subtotal
      minus its old one, or by the new item's price. */
  lemma AddTotal(cart: seq<DetallePedido>, item: Item)
    requires UniqueNames(cart)
    ensures !HasLine(cart, item.nombre) ==>
      SumSubtotals(AddToCart(cart, item)) == SumSubtotals(cart) + item.precio
    ensures forall k :: 0 <= k < |cart| && cart[k].item.nombre == item.nombre ==>
      SumSubtotals(AddToCart(cart, item))
        == SumSubtotals(cart) - cart[k].subtotal + (cart[k].cantidad + 1) * item.precio
  {
    if !HasLine(cart, item.nombre) {
      SumAppend(cart, [NewLine(item)]);
    } else {
      forall k | 0 <= k < |cart| && cart[k].item.nombre == item.nombre
        ensures SumSubtotals(AddToCart(cart, item))
             == SumSubtotals(cart) - cart[k].subtotal + (cart[k].cantidad + 1) * item.precio
      {
        AddMergesOneLine(cart, item, k);
        SumReplace(cart, k, Bumped(cart[k], item));
      }
    }
  }

  /** Opening the cart hands the whole cart to the checkout page: what it hydrates
      from the slot just written is exactly this cart. */
  lemma HandOffRoundTrip(store: Store, cart: seq<DetallePedido>)
    ensures Hydrated(store[CART_KEY := StringifyCart(cart)]) == cart
  {
    CartRoundTrip(cart);
  }

  /** The worked example: a 16.99 pizza added twice is one line of two units with
      subtotal 33.98, and the checkout total with the 5.00 fee is 38.98. */
  lemma PizzaAddedTwice()
    ensures var pizza := Item(None, "Pizza Margherita", PLATO_PRINCIPAL, "", 1699, true);
            var cart := AddToCart(AddToCart([], pizza), pizza);
            && |cart| == 1
            && cart[0].cantidad == 2
            && cart[0].subtotal == 3398
            && SumSubtotals(cart) + DELIVERY_FEE == 3898
  {
    var pizza := Item(None, "Pizza Margherita", PLATO_PRINCIPAL, "", 1699, true);
    var once := AddToCart([], pizza);
    assert !HasLine([], pizza.nombre);
    assert once == [NewLine(pizza)];
    assert HasLine(once, pizza.nombre) by { assert once[0].item.nombre == pizza.nombre; }
    var twice := AddToCart(once, pizza);
    assert twice[0] == Bumped(once[0], pizza);
    assert twice == [twice[0]];
  }

  class MenuPageView {
    var cart: seq<DetallePedido>
    var storage: Store
    /** The last path handed to the router, if any. */
    var route: Option<string>

    /** The page starts from an empty cart; it does not read the slot. */
    constructor (store: Store)
      ensures cart == [] && storage == store && route.None?
    {
      cart := [];
      storage := store;
      route := None;
    }

    /** The add-to-cart callback given to the item list. */
    method AddItem(item: Item)
      modifies this
      ensures cart == AddToCart(old(cart), item)
      ensures storage == old(storage) && route == old(route)
    {
      cart := AddToCart(cart, item);
    }

    /** `handleVerCarrito`: persist the whole cart, then go to the order page. */
    method VerCarrito()
      modifies this
      ensures cart == old(cart)
      ensures storage == old(storage)[CART_KEY := StringifyCart(cart)]
      ensures Hydrated(storage) == cart
      ensures route == Some(Routes.PEDIDO)
    {
      storage := storage[CART_KEY := StringifyCart(cart)];
      HandOffRoundTrip(old(storage), cart);
      route := Some(Routes.PEDIDO);
    }
  }
}

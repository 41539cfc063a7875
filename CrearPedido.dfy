/** The checkout page, `components/pedido/CrearPedido.tsx`: the cart, loaded from
    the 'cart' slot, edited line by line, and submitted as a new order. */
module CrearPedido {
  import opened Wrappers
  import opened Constants
  import opened Types
  import opened Storage
  import opened CartLines
  import Routes

  const EMPTY_CART_MESSAGE: string := "El carrito está vacío"
  const CREATE_FAILED_MESSAGE: string := "Error al crear el pedido. Intenta de nuevo."

  /** What confirming decides before any remote call is made. */
  datatype Confirmation = GoToLogin | EmptyCart | Submit(pedido: Pedido)

  /** The guards of `handleConfirmarPedido` and the order it would send: no user
      sends to the login page, an empty cart is refused, and otherwise a PENDIENTE
      order for that user whose lines are exactly the cart. */
  function Confirm(usuario: Option<Usuario>, cart: seq<DetallePedido>, now: int): (c: Confirmation)
    ensures c == GoToLogin <==> usuario.None?
    ensures c == EmptyCart <==> usuario.Some? && cart == []
    ensures c.Submit? ==>
      && usuario == Some(c.pedido.usuario)
      && c.pedido.estado == PENDIENTE
      && c.pedido.detalles == cart
      && c.pedido.fecha == now
      && c.pedido.codigoPedido.None?
      && c.pedido.total.None?
  {
    if usuario.None? then GoToLogin
    else if cart == [] then EmptyCart
    else Submit(Pedido(None, usuario.value, now, PENDIENTE, cart, None))
  }

  /** The payable total: the sum of the line subtotals plus the fixed delivery fee. */
  function PayableTotal(cart: seq<DetallePedido>): (t: int)
    ensures t == SumSubtotals(cart) + DELIVERY_FEE
    ensures t == DELIVERY_FEE <== cart == []
  {
    SumSubtotals(cart) + DELIVERY_FEE
  }

  class CrearPedidoView {
    var cart: seq<DetallePedido>
    var storage: Store
    var error: string
    var loading: bool
    /** The last path handed to the router, if any. */
    var route: Option<string>

    /** The 'cart' slot holds exactly the in-memory cart. */
    ghost predicate Mirrored()
      reads this
    {
      CART_KEY in storage && ParseCart(storage[CART_KEY]) == Some(cart)
    }

    /** Mounting: the cart is hydrated from the 'cart' slot, and a malformed slot
        leaves it empty without raising. */
    constructor (store: Store)
      ensures cart == Hydrated(store) && storage == store
      ensures error == "" && !loading && route.None?
    {
      cart := Hydrated(store);
      storage := store;
      error := "";
      loading := false;
      route := None;
    }

    /** `updateQuantity(index, delta)`. */
    method UpdateQuantity(index: nat, delta: int)
      requires index < |cart|
      modifies this
      ensures cart == AdjustAt(old(cart), index, delta)
      ensures old(cart)[index].cantidad + delta > 0 ==> storage == old(storage)[CART_KEY := StringifyCart(cart)] && Mirrored()
      ensures old(cart)[index].cantidad + delta <= 0 ==> storage == old(storage)
      ensures CalcularTotal() == old(CalcularTotal()) - old(cart)[index].subtotal + cart[index].subtotal
      ensures error == old(error) && loading == old(loading) && route == old(route)
    {
      AdjustTotal(cart, index, delta);
      var newCart := cart;
      var newQuantity := newCart[index].cantidad + delta;
      if newQuantity > 0 {
        newCart := newCart[index := newCart[index].(cantidad := newQuantity)];
        newCart := newCart[index := newCart[index].(subtotal := newQuantity * newCart[index].precioUnitario)];
        cart := newCart;
        storage := storage[CART_KEY := StringifyCart(newCart)];
      }
    }

    /** `removeItem(index)`. */
    method RemoveItem(index: int)
      modifies this
      ensures cart == RemoveAt(old(cart), index)
      ensures storage == old(storage)[CART_KEY := StringifyCart(cart)] && Mirrored()
      ensures 0 <= index < |old(cart)| ==> CalcularTotal() == old(CalcularTotal()) - old(cart)[index].subtotal
      ensures error == old(error) && loading == old(loading) && route == old(route)
    {
      if 0 <= index < |cart| {
        RemoveTotal(cart, index);
      }
      var newCart := RemoveAt(cart, index);
      cart := newCart;
      storage := storage[CART_KEY := StringifyCart(newCart)];
    }

    /** `updateObservaciones(index, observaciones)`. */
    method UpdateObservaciones(index: nat, observaciones: string)
      requires index < |cart|
      modifies this
      ensures cart == SetNotesAt(old(cart), index, observaciones)
      ensures storage == old(storage)[CART_KEY := StringifyCart(cart)] && Mirrored()
      ensures CalcularTotal() == old(CalcularTotal())
      ensures error == old(error) && loading == old(loading) && route == old(route)
    {
      NotesKeepTotal(cart, index, observaciones);
      var newCart := cart;
      newCart := newCart[index := newCart[index].(observaciones := observaciones)];
      cart := newCart;
      storage := storage[CART_KEY := StringifyCart(newCart)];
    }

    /** `calcularTotal()`: the subtotal shown above the delivery fee, which the
        payable total adds to it; 0 for an empty cart, and when no subtotal is
        negative, at least every line's subtotal. */
    function CalcularTotal(): (t: int)
      reads this
      ensures t + DELIVERY_FEE == PayableTotal(cart)
      ensures cart == [] ==> t == 0
      ensures (forall k :: 0 <= k < |cart| ==> cart[k].subtotal >= 0) ==>
        t >= 0 && forall k :: 0 <= k < |cart| ==> cart[k].subtotal <= t
    {
      SumSubtotals(cart)
    }

    /** `handleConfirmarPedido`, with `response` standing for what the order-creation
        call returns if it is made; `sent` is the order handed to that call. */
    method ConfirmarPedido(usuario: Option<Usuario>, now: int, response: Remote<Pedido>)
      returns (sent: Option<Pedido>)
      modifies this
      ensures cart == old(cart) && !loading
      ensures sent.Some? <==> Confirm(usuario, cart, now).Submit?
      ensures sent.Some? ==> sent.value == Confirm(usuario, cart, now).pedido
      ensures Confirm(usuario, cart, now) == GoToLogin ==>
        route == Some(Routes.LOGIN) && storage == old(storage) && error == old(error)
      ensures Confirm(usuario, cart, now) == EmptyCart ==>
        error == EMPTY_CART_MESSAGE && storage == old(storage) && route == old(route)
      ensures sent.Some? && response.Ok? ==>
        && storage == old(storage) - {CART_KEY}
        && route == Some(Routes.PedidoPath(response.value.codigoPedido))
        && error == ""
      ensures sent.Some? && response.Failed? ==>
        && storage == old(storage)
        && route == old(route)
        && error == MessageOr(response, CREATE_FAILED_MESSAGE)
    {
      sent := None;
      var decision := Confirm(usuario, cart, now);
      match decision
      case GoToLogin =>
        route := Some(Routes.LOGIN);
        loading := false;
      case EmptyCart =>
        error := EMPTY_CART_MESSAGE;
        loading := false;
      case Submit(pedido) =>
        loading := true;
        error := "";
        sent := Some(pedido);
        match response {
          case Ok(creado) =>
            storage := storage - {CART_KEY};
            route := Some(Routes.PedidoPath(creado.codigoPedido));
          case Failed(_, _) =>
            error := MessageOr(response, CREATE_FAILED_MESSAGE);
        }
        loading := false;
    }
  }
}

/** The pending-order panel, `components/pedido/PedidoPendiente.tsx`: a second
    copy of the index-keyed cart. It shows the bare sum of subtotals (no delivery
    fee) and hands confirmation to its parent. */
module PedidoPendiente {
  import opened Wrappers
  import opened Types
  import opened Storage
  import opened CartLines
  import opened Constants
  import CrearPedido

  class PedidoPendienteView {
    var detalles: seq<DetallePedido>
    var storage: Store

    /** The 'cart' slot holds exactly the in-memory list. */
    ghost predicate Mirrored()
      reads this
    {
      CART_KEY in storage && ParseCart(storage[CART_KEY]) == Some(detalles)
    }

    /** Mounting: `detalles` is hydrated from the 'cart' slot; a malformed slot leaves it empty. */
    constructor (store: Store)
      ensures detalles == Hydrated(store) && storage == store
    {
      detalles := Hydrated(store);
      storage := store;
    }

    /** `updateCantidad(index, delta)`. */
    method UpdateCantidad(index: nat, delta: int)
      requires index < |detalles|
      modifies this
      ensures detalles == AdjustAt(old(detalles), index, delta)
      ensures old(detalles)[index].cantidad + delta > 0 ==>
        storage == old(storage)[CART_KEY := StringifyCart(detalles)] && Mirrored()
      ensures old(detalles)[index].cantidad + delta <= 0 ==> storage == old(storage)
      ensures CalcularTotal() == old(CalcularTotal()) - old(detalles)[index].subtotal + detalles[index].subtotal
    {
      AdjustTotal(detalles, index, delta);
      var nuevos := detalles;
      var nuevaCantidad := nuevos[index].cantidad + delta;
      if nuevaCantidad > 0 {
        nuevos := nuevos[index := nuevos[index].(cantidad := nuevaCantidad)];
        nuevos := nuevos[index := nuevos[index].(subtotal := nuevaCantidad * nuevos[index].precioUnitario)];
        detalles := nuevos;
        storage := storage[CART_KEY := StringifyCart(nuevos)];
      }
    }

    /** `eliminarItem(index)`. */
    method EliminarItem(index: int)
      modifies this
      ensures detalles == RemoveAt(old(detalles), index)
      ensures storage == old(storage)[CART_KEY := StringifyCart(detalles)] && Mirrored()
      ensures 0 <= index < |old(detalles)| ==> CalcularTotal() == old(CalcularTotal()) - old(detalles)[index].subtotal
    {
      if 0 <= index < |detalles| {
        RemoveTotal(detalles, index);
      }
      var nuevos := RemoveAt(detalles, index);
      detalles := nuevos;
      storage := storage[CART_KEY := StringifyCart(nuevos)];
    }

    /** `updateObservaciones(index, observaciones)`. */
    method UpdateObservaciones(index: nat, observaciones: string)
      requires index < |detalles|
      modifies this
      ensures detalles == SetNotesAt(old(detalles), index, observaciones)
      ensures storage == old(storage)[CART_KEY := StringifyCart(detalles)] && Mirrored()
      ensures CalcularTotal() == old(CalcularTotal())
    {
      NotesKeepTotal(detalles, index, observaciones);
      var nuevos := detalles;
      nuevos := nuevos[index := nuevos[index].(observaciones := observaciones)];
      detalles := nuevos;
      storage := storage[CART_KEY := StringifyCart(nuevos)];
    }

    /** `calcularTotal()`: the sum of subtotals with no fee added, so the panel
        shows the checkout's payable total less the delivery fee; 0 for an empty
        list, and when no subtotal is negative, at least every line's subtotal. */
    function CalcularTotal(): (t: int)
      reads this
      ensures t + DELIVERY_FEE == CrearPedido.PayableTotal(detalles)
      ensures detalles == [] ==> t == 0
      ensures (forall k :: 0 <= k < |detalles| ==> detalles[k].subtotal >= 0) ==>
        t >= 0 && forall k :: 0 <= k < |detalles| ==> detalles[k].subtotal <= t
    {
      SumSubtotals(detalles)
    }
  }
}

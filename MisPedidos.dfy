/** The customer's order history, `app/mis-pedidos/page.tsx`: loading the user's
    orders newest first, cancelling a pending one, and the per-order labels. */
module MisPedidos {
  import opened Wrappers
  import opened Constants
  import opened Types
  import opened Sorting
  import opened Feedback

  const LOAD_ERROR: string := "Error al cargar tus pedidos"
  const CANCEL_FALLBACK: string := "No se pudo cancelar el pedido"
  const CANCELLED_TOAST: Toast := Toast("Pedido cancelado", "Tu pedido ha sido cancelado correctamente", false)

  datatype View = View(pedidos: seq<Pedido>, loading: bool, error: string)

  const INITIAL: View := View([], true, "")

  function Fecha(p: Pedido): int
  {
    p.fecha
  }

  /** `loadPedidos`: nothing at all unless the user has an id; otherwise the user's
      orders newest first, or on failure the previous list with the load error.
      `r.0` is the id the call was made with. */
  function LoadPedidos(v: View, usuario: Option<Usuario>, response: Remote<seq<Pedido>>): (r: (Option<string>, View))
    ensures r.0.Some? <==> usuario.Some? && HasId(usuario.value)
    ensures r.0.None? ==> r.1 == v
    ensures r.0.Some? ==> r.0 == usuario.value.idUsuario && !r.1.loading
    ensures r.0.Some? && response.Ok? ==>
      && SortedDesc(r.1.pedidos, Fecha)
      && multiset(r.1.pedidos) == multiset(response.value)
      && r.1.error == ""
    ensures r.0.Some? && response.Failed? ==> r.1.pedidos == v.pedidos && r.1.error == LOAD_ERROR
  {
    if !(usuario.Some? && HasId(usuario.value)) then (None, v)
    else
      var call := usuario.value.idUsuario;
      match response
      case Ok(data) => (call, View(SortDesc(data, Fecha), false, ""))
      case Failed(_, _) => (call, v.(loading := false, error := LOAD_ERROR))
  }

  /** The Cancel button is offered exactly for pending orders. */
  function CanCancel(p: Pedido): (b: bool)
    ensures b <==> p.estado == PENDIENTE
    ensures b ==> p.estado != CANCELADO && p.estado != ENTREGADO
  {
    p.estado == PENDIENTE
  }

  /** What `handleCancelarPedido` did: the order code sent (absent codes are sent
      as they are), the toast, and whether the list is reloaded. */
  datatype Cancellation = Cancellation(request: Option<Option<int>>, toast: Option<Toast>, reloads: bool)

  /** `confirmed` is the user's answer to the confirmation dialog; `response` is
      what the cancel call returns if it is made. */
  function CancelarPedido(codigo: Option<int>, confirmed: bool, response: Remote<()>): (c: Cancellation)
    ensures c.request.Some? <==> confirmed
    ensures c.request.Some? ==> c.request.value == codigo
    ensures !confirmed ==> c.toast.None? && !c.reloads
    ensures confirmed && response.Ok? ==> c.toast == Some(CANCELLED_TOAST) && c.reloads
    ensures confirmed && response.Failed? ==>
      c.toast == Some(ErrorToast(MessageOr(response, CANCEL_FALLBACK))) && !c.reloads
  {
    if !confirmed then Cancellation(None, None, false)
    else match response
      case Ok(_) => Cancellation(Some(codigo), Some(CANCELLED_TOAST), true)
      case Failed(_, _) => Cancellation(Some(codigo), Some(ErrorToast(MessageOr(response, CANCEL_FALLBACK))), false)
  }

  /** The view after a cancel attempt: reloaded after a success, untouched otherwise. */
  function AfterCancel(v: View, usuario: Option<Usuario>, c: Cancellation, reloaded: Remote<seq<Pedido>>): (r: View)
    ensures !c.reloads ==> r == v
    ensures c.reloads ==> r == LoadPedidos(v, usuario, reloaded).1
  {
    if c.reloads then LoadPedidos(v, usuario, reloaded).1 else v
  }

  /** `detalles.length === 1 ? 'item' : 'items'`. */
  function ItemsLabel(p: Pedido): (word: string)
    ensures word == "item" <==> |p.detalles| == 1
    ensures word != "item" ==> word == "items"
  {
    if |p.detalles| == 1 then "item" else "items"
  }

  /** The total line appears only when the order carries a total. */
  function ShownTotal(p: Pedido): (t: Option<int>)
    ensures t.Some? <==> p.total.Some?
    ensures t.Some? ==> t.value == p.total.value
  {
    p.total
  }
}

/** The administrator's order list, `components/admin/GestionPedidosAdmin.tsx`:
    loading by estado with each order's total attached, the local estado update,
    and the total each card shows. */
module GestionPedidosAdmin {
  import opened Wrappers
  import opened Constants
  import opened Types
  import opened Sorting
  import CartLines

  const LOAD_ERROR: string := "Error al cargar los pedidos"
  const UPDATE_ERROR: string := "Error al actualizar el estado del pedido"

  /** The estado selector: 'TODOS' or one estado. */
  datatype EstadoFilter = TODOS | Only(estado: Estado)

  /** Which list the back end is asked for. */
  datatype PedidoQuery = AllPedidos | PedidosByEstado(estado: Estado)

  function QueryFor(filtro: EstadoFilter): (q: PedidoQuery)
    ensures q == AllPedidos <==> filtro == TODOS
    ensures filtro.Only? ==> q == PedidosByEstado(filtro.estado)
  {
    match filtro
    case TODOS => AllPedidos
    case Only(e) => PedidosByEstado(e)
  }

  /** The fan-out of total requests: each order gets the total computed for its code,
      and keeps what it had when that request fails. Nothing but `total` changes. */
  function WithTotals(data: seq<Pedido>, totals: Option<int> -> Remote<int>): (r: seq<Pedido>)
    ensures |r| == |data|
    ensures forall k :: 0 <= k < |r| ==> r[k].(total := data[k].total) == data[k]
    ensures forall k :: 0 <= k < |r| && totals(data[k].codigoPedido).Ok? ==>
      r[k].total == Some(totals(data[k].codigoPedido).value)
    ensures forall k :: 0 <= k < |r| && totals(data[k].codigoPedido).Failed? ==> r[k] == data[k]
  {
    seq(|data|, k requires 0 <= k < |data| =>
      match totals(data[k].codigoPedido)
      case Ok(t) => data[k].(total := Some(t))
      case Failed(_, _) => data[k])
  }

  function Fecha(p: Pedido): int
  {
    p.fecha
  }

  /** The view's state; `alert` is the browser alert the last action raised. */
  datatype View = View(
    pedidos: seq<Pedido>,
    filtro: EstadoFilter,
    loading: bool,
    error: string,
    updatingPedido: Option<int>,
    alert: Option<string>)

  const INITIAL: View := View([], TODOS, true, "", None, None)

  /** `loadPedidos`: `response` answers `QueryFor(v.filtro)`. The orders with their
      totals attached, newest first, and the error cleared; on failure the previous
      list and the load error. Loading ends either way. */
  function LoadPedidos(v: View, response: Remote<seq<Pedido>>, totals: Option<int> -> Remote<int>): (r: View)
    ensures !r.loading && r.filtro == v.filtro && r.updatingPedido == v.updatingPedido && r.alert == v.alert
    ensures response.Ok? ==>
      && SortedDesc(r.pedidos, Fecha)
      && multiset(r.pedidos) == multiset(WithTotals(response.value, totals))
      && r.error == ""
    ensures response.Failed? ==> r.pedidos == v.pedidos && r.error == LOAD_ERROR
  {
    match response
    case Ok(data) => v.(pedidos := SortDesc(WithTotals(data, totals), Fecha), loading := false, error := "")
    case Failed(_, _) => v.(loading := false, error := LOAD_ERROR)
  }

  /** `pedidos.map(p => p.codigoPedido === codigo ? {...p, estado} : p)`. */
  function SetEstado(pedidos: seq<Pedido>, codigo: int, estado: Estado): (r: seq<Pedido>)
    ensures |r| == |pedidos|
    ensures forall k :: 0 <= k < |r| && pedidos[k].codigoPedido == Some(codigo) ==>
      r[k] == pedidos[k].(estado := estado)
    ensures forall k :: 0 <= k < |r| && pedidos[k].codigoPedido != Some(codigo) ==> r[k] == pedidos[k]
  {
    seq(|pedidos|, k requires 0 <= k < |pedidos| =>
      if pedidos[k].codigoPedido == Some(codigo) then pedidos[k].(estado := estado) else pedidos[k])
  }

  /** The local update keeps the newest-first order, since no date changes. */
  lemma SetEstadoKeepsOrder(pedidos: seq<Pedido>, codigo: int, estado: Estado)
    requires SortedDesc(pedidos, Fecha)
    ensures SortedDesc(SetEstado(pedidos, codigo, estado), Fecha)
  {
    var r := SetEstado(pedidos, codigo, estado);
    forall i, j | 0 <= i < j < |r| ensures Fecha(r[i]) >= Fecha(r[j]) {
      assert Fecha(r[i]) == Fecha(pedidos[i]) && Fecha(r[j]) == Fecha(pedidos[j]);
    }
  }

  /** Applying the same update twice is the same as applying it once. */
  lemma SetEstadoIdempotent(pedidos: seq<Pedido>, codigo: int, estado: Estado)
    ensures SetEstado(SetEstado(pedidos, codigo, estado), codigo, estado) == SetEstado(pedidos, codigo, estado)
  {
    var once := SetEstado(pedidos, codigo, estado);
    var twice := SetEstado(once, codigo, estado);
    forall k | 0 <= k < |twice| ensures twice[k] == once[k] {
      assert once[k].codigoPedido == pedidos[k].codigoPedido;
    }
  }

  /** While the update call is in flight the order's code is held. */
  function BeginUpdate(v: View, codigo: int): (r: View)
    ensures r.updatingPedido == Some(codigo)
    ensures r.(updatingPedido := v.updatingPedido) == v
  {
    v.(updatingPedido := Some(codigo))
  }

  /** `handleUpdateEstado` once the call settles: on success only the order with
      that code takes the new estado; on failure the list is unchanged and an alert
      is raised. Either way no order is marked as updating any more. */
  function FinishUpdate(v: View, codigo: int, estado: Estado, response: Remote<()>): (r: View)
    ensures r.updatingPedido.None?
    ensures |r.pedidos| == |v.pedidos|
    ensures response.Ok? ==> r.pedidos == SetEstado(v.pedidos, codigo, estado) && r.alert == v.alert
    ensures response.Failed? ==> r.pedidos == v.pedidos && r.alert == Some(UPDATE_ERROR)
    ensures r.filtro == v.filtro && r.loading == v.loading && r.error == v.error
  {
    match response
    case Ok(_) => v.(pedidos := SetEstado(v.pedidos, codigo, estado), updatingPedido := None)
    case Failed(_, _) => v.(updatingPedido := None, alert := Some(UPDATE_ERROR))
  }

  /** An update of a loaded list keeps it newest first. */
  lemma UpdateKeepsLoadedOrder(v: View, codigo: int, estado: Estado, response: Remote<()>)
    requires SortedDesc(v.pedidos, Fecha)
    ensures SortedDesc(FinishUpdate(BeginUpdate(v, codigo), codigo, estado, response).pedidos, Fecha)
  {
    if response.Ok? {
      SetEstadoKeepsOrder(v.pedidos, codigo, estado);
    }
  }

  /** `pedido.total || Σ subtotal`: a total of 0, like a missing one, falls back
      to the sum of the line subtotals. */
  function DisplayedTotal(p: Pedido): (t: int)
    ensures p.total.Some? && p.total.value != 0 ==> t == p.total.value
    ensures p.total.None? || p.total == Some(0) ==> t == CartLines.SumSubtotals(p.detalles)
  {
    if p.total.Some? && p.total.value != 0 then p.total.value else CartLines.SumSubtotals(p.detalles)
  }
}

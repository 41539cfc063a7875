/** The administrator's invoice list, `components/admin/GestionFacturasAdmin.tsx`:
    loading every invoice, the date-range filter, clearing it, and the summary cards. */
module GestionFacturasAdmin {
  import opened Wrappers
  import opened Types
  import opened Sorting
  import opened Facturas

  const LOAD_ERROR: string := "Error al cargar las facturas"

  /** The view's state; `alert` is the browser alert the last action raised. */
  datatype View = View(
    facturas: seq<Factura>,
    loading: bool,
    error: string,
    fechaInicio: DateField,
    fechaFin: DateField,
    alert: Option<string>)

  /** Mounting: nothing loaded yet, loading, no dates chosen. */
  const INITIAL: View := View([], true, "", EMPTY_DATE, EMPTY_DATE, None)

  /** `loadFacturas`: the fetched invoices newest first and the error cleared, or on
      failure the previous list kept with the load error; loading ends either way. */
  function LoadFacturas(v: View, response: Remote<seq<Factura>>): (r: View)
    ensures !r.loading && r.fechaInicio == v.fechaInicio && r.fechaFin == v.fechaFin && r.alert == v.alert
    ensures response.Ok? ==>
      && SortedDesc(r.facturas, FechaEmision)
      && multiset(r.facturas) == multiset(response.value)
      && r.error == ""
    ensures response.Failed? ==> r.facturas == v.facturas && r.error == LOAD_ERROR
  {
    match response
    case Ok(data) => v.(facturas := NewestFirst(data), loading := false, error := "")
    case Failed(_, _) => v.(loading := false, error := LOAD_ERROR)
  }

  /** `handleFiltrarPorRango`: the range query (sent only when both dates are chosen
      and in order) and the new state. A failed query keeps the previous list. */
  function FiltrarPorRango(v: View, response: Remote<seq<Factura>>): (r: (Option<(string, string)>, View))
    ensures r.0.Some? <==> RangeCheck(v.fechaInicio, v.fechaFin).None?
    ensures r.0.Some? ==> r.0.value == (v.fechaInicio.text, v.fechaFin.text)
    ensures r.0.None? ==> r.1 == v.(alert := RangeCheck(v.fechaInicio, v.fechaFin))
    ensures r.0.Some? && response.Ok? ==>
      && SortedDesc(r.1.facturas, FechaEmision)
      && multiset(r.1.facturas) == multiset(response.value)
      && r.1 == v.(facturas := r.1.facturas, alert := None)
    ensures r.0.Some? && response.Failed? ==> r.1 == v.(alert := Some(FILTER_FAILED_MESSAGE))
  {
    match RangeCheck(v.fechaInicio, v.fechaFin)
    case Some(message) => (None, v.(alert := Some(message)))
    case None =>
      var call := Some((v.fechaInicio.text, v.fechaFin.text));
      match response
      case Ok(data) => (call, v.(facturas := NewestFirst(data), alert := None))
      case Failed(_, _) => (call, v.(alert := Some(FILTER_FAILED_MESSAGE)))
  }

  /** `handleLimpiarFiltro`: both dates back to '' and the full list reloaded. */
  function LimpiarFiltro(v: View, response: Remote<seq<Factura>>): (r: View)
    ensures r.fechaInicio == EMPTY_DATE && r.fechaFin == EMPTY_DATE
    ensures r == LoadFacturas(v.(fechaInicio := EMPTY_DATE, fechaFin := EMPTY_DATE), response)
  {
    LoadFacturas(v.(fechaInicio := EMPTY_DATE, fechaFin := EMPTY_DATE), response)
  }

  /** After clearing, filtering again is refused for want of dates. */
  lemma ClearedFilterIsRefused(v: View, response: Remote<seq<Factura>>, again: Remote<seq<Factura>>)
    ensures FiltrarPorRango(LimpiarFiltro(v, response), again).0.None?
    ensures FiltrarPorRango(LimpiarFiltro(v, response), again).1.alert == Some(BOTH_DATES_MESSAGE)
  {
  }

  /** The summary cards: the number of invoices shown, their total, and the average. */
  function Summary(v: View): (s: (nat, int, Average))
    ensures s.0 == |v.facturas| && s.1 == TotalFacturado(v.facturas)
    ensures s.2.Ratio? <==> |v.facturas| > 0
    ensures s.2.Ratio? ==> s.2.total == s.1 && s.2.count == s.0
  {
    (|v.facturas|, TotalFacturado(v.facturas), AverageOf(v.facturas))
  }

  /** Loading does not change the amount billed: the cards show the total of
      exactly the fetched invoices, whatever order they arrived in. */
  lemma LoadedTotalIsFetchedTotal(v: View, data: seq<Factura>)
    ensures Summary(LoadFacturas(v, Ok(data))).1 == TotalFacturado(data)
  {
  }
}

/** The customer's invoice list, `app/mis-facturas/page.tsx`: loading the user's
    invoices, the date-range filter with toasts, and clearing it. */
module MisFacturas {
  import opened Wrappers
  import opened Types
  import opened Sorting
  import opened Facturas
  import opened Feedback

  const LOAD_ERROR: string := "Error al cargar tus facturas"

  datatype View = View(
    facturas: seq<Factura>,
    loading: bool,
    error: string,
    fechaInicio: DateField,
    fechaFin: DateField)

  const INITIAL: View := View([], true, "", EMPTY_DATE, EMPTY_DATE)

  /** `loadFacturas`: nothing at all (no call, state untouched) unless the user has
      an id; otherwise the user's invoices newest first, or on failure the previous
      list with the load error. `r.0` is the id the call was made with. */
  function LoadFacturas(v: View, usuario: Option<Usuario>, response: Remote<seq<Factura>>): (r: (Option<string>, View))
    ensures r.0.Some? <==> usuario.Some? && HasId(usuario.value)
    ensures r.0.None? ==> r.1 == v
    ensures r.0.Some? ==> r.0 == usuario.value.idUsuario && !r.1.loading
    ensures r.0.Some? ==> r.1.fechaInicio == v.fechaInicio && r.1.fechaFin == v.fechaFin
    ensures r.0.Some? && response.Ok? ==>
      && SortedDesc(r.1.facturas, FechaEmision)
      && multiset(r.1.facturas) == multiset(response.value)
      && r.1.error == ""
    ensures r.0.Some? && response.Failed? ==> r.1.facturas == v.facturas && r.1.error == LOAD_ERROR
  {
    if !(usuario.Some? && HasId(usuario.value)) then (None, v)
    else
      var call := usuario.value.idUsuario;
      match response
      case Ok(data) => (call, v.(facturas := NewestFirst(data), loading := false, error := ""))
      case Failed(_, _) => (call, v.(loading := false, error := LOAD_ERROR))
  }

  /** The toast after a successful range query: 'Mostrando facturas del <inicio> al <fin>'. */
  function AppliedToast(inicio: DateField, fin: DateField): (t: Toast)
    ensures !t.destructive && t.title == "Filtro aplicado"
    ensures t.description == "Mostrando facturas del " + inicio.text + " al " + fin.text
  {
    Toast("Filtro aplicado", "Mostrando facturas del " + inicio.text + " al " + fin.text, false)
  }

  /** `handleFiltrarPorRango`: the same guard as the administrator's list, reported
      by toast; the range query is not restricted to the user. */
  function FiltrarPorRango(v: View, response: Remote<seq<Factura>>): (r: (Option<(string, string)>, View, Toast))
    ensures r.0.Some? <==> RangeCheck(v.fechaInicio, v.fechaFin).None?
    ensures r.0.Some? ==> r.0.value == (v.fechaInicio.text, v.fechaFin.text)
    ensures r.0.None? ==> r.1 == v && r.2 == ErrorToast(RangeCheck(v.fechaInicio, v.fechaFin).value)
    ensures r.0.Some? && response.Ok? ==>
      && SortedDesc(r.1.facturas, FechaEmision)
      && multiset(r.1.facturas) == multiset(response.value)
      && r.1 == v.(facturas := r.1.facturas)
      && r.2 == AppliedToast(v.fechaInicio, v.fechaFin)
    ensures r.0.Some? && response.Failed? ==> r.1 == v && r.2 == ErrorToast(FILTER_FAILED_MESSAGE)
  {
    match RangeCheck(v.fechaInicio, v.fechaFin)
    case Some(message) => (None, v, ErrorToast(message))
    case None =>
      var call := Some((v.fechaInicio.text, v.fechaFin.text));
      match response
      case Ok(data) => (call, v.(facturas := NewestFirst(data)), AppliedToast(v.fechaInicio, v.fechaFin))
      case Failed(_, _) => (call, v, ErrorToast(FILTER_FAILED_MESSAGE))
  }

  /** `handleLimpiarFiltro`: both dates back to '' and the user's invoices reloaded
      (which does nothing more when the user has no id). */
  function LimpiarFiltro(v: View, usuario: Option<Usuario>, response: Remote<seq<Factura>>): (r: (Option<string>, View))
    ensures r.1.fechaInicio == EMPTY_DATE && r.1.fechaFin == EMPTY_DATE
    ensures r == LoadFacturas(v.(fechaInicio := EMPTY_DATE, fechaFin := EMPTY_DATE), usuario, response)
  {
    LoadFacturas(v.(fechaInicio := EMPTY_DATE, fechaFin := EMPTY_DATE), usuario, response)
  }
}

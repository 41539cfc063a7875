/** What both invoice lists share (`components/admin/GestionFacturasAdmin.tsx`,
    `app/mis-facturas/page.tsx`): the date-range guard, the newest-first order and
    the sum of invoice amounts. */
module Facturas {
  import opened Wrappers
  import opened Types
  import opened Sorting

  /** A date input: the text the browser holds ('' when nothing is chosen) and the
      instant `new Date(text)` denotes (`None` when that is an invalid date). */
  datatype DateField = DateField(text: string, instant: Option<int>)

  const EMPTY_DATE: DateField := DateField("", None)

  const BOTH_DATES_MESSAGE: string := "Debes seleccionar ambas fechas"
  const DATE_ORDER_MESSAGE: string := "La fecha de inicio debe ser anterior a la fecha fin"
  const FILTER_FAILED_MESSAGE: string := "Error al filtrar facturas"

  /** The guard before a range query: both dates chosen, and the start not after
      the end. An invalid date compares false in JavaScript, so it passes the order
      check; equal dates pass too. */
  function RangeCheck(inicio: DateField, fin: DateField): (r: Option<string>)
    ensures r == Some(BOTH_DATES_MESSAGE) <==> inicio.text == "" || fin.text == ""
    ensures r == Some(DATE_ORDER_MESSAGE) <==>
      inicio.text != "" && fin.text != ""
      && inicio.instant.Some? && fin.instant.Some? && inicio.instant.value > fin.instant.value
    ensures r.None? <==>
      inicio.text != "" && fin.text != ""
      && !(inicio.instant.Some? && fin.instant.Some? && inicio.instant.value > fin.instant.value)
  {
    if inicio.text == "" || fin.text == "" then Some(BOTH_DATES_MESSAGE)
    else if inicio.instant.Some? && fin.instant.Some? && inicio.instant.value > fin.instant.value
    then Some(DATE_ORDER_MESSAGE)
    else None
  }

  /** A one-day range (the same chosen date twice) is accepted. */
  lemma SameDayIsAccepted(d: DateField)
    requires d.text != ""
    ensures RangeCheck(d, d).None?
  {
  }

  function FechaEmision(f: Factura): int
  {
    f.fechaEmision
  }

  /** `reduce((sum, f) => sum + f.montoTotal, 0)`: 0 for no invoices, and when no
      amount is negative, a total that no single invoice's amount exceeds. */
  function TotalFacturado(fs: seq<Factura>): (t: int)
    ensures fs == [] ==> t == 0
    ensures (forall k :: 0 <= k < |fs| ==> fs[k].montoTotal >= 0) ==>
      t >= 0 && forall k :: 0 <= k < |fs| ==> fs[k].montoTotal <= t
  {
    if fs == [] then
      0
    else
      var rest := fs[1..];
      assert forall k :: 0 <= k < |rest| ==> rest[k] == fs[k + 1];
      fs[0].montoTotal + TotalFacturado(rest)
  }

  lemma {:induction false} TotalAppend(a: seq<Factura>, b: seq<Factura>)
    ensures TotalFacturado(a + b) == TotalFacturado(a) + TotalFacturado(b)
  {
    if a == [] {
      assert a + b == b;
    } else {
      assert (a + b)[1..] == a[1..] + b;
      TotalAppend(a[1..], b);
    }
  }

  lemma TotalWithout(b: seq<Factura>, j: nat)
    requires j < |b|
    ensures TotalFacturado(b) == b[j].montoTotal + TotalFacturado(b[..j] + b[j + 1..])
  {
    var pre, post := b[..j], b[j + 1..];
    var mid := [b[j]] + post;
    assert mid[1..] == post;
    assert b == pre + mid;
    TotalAppend(pre, mid);
    TotalAppend(pre, post);
  }

  lemma MultisetWithout(b: seq<Factura>, j: nat)
    requires j < |b|
    ensures multiset(b[..j] + b[j + 1..]) == multiset(b) - multiset{b[j]}
  {
    var pre, post := b[..j], b[j + 1..];
    assert b == pre + ([b[j]] + post);
  }

  /** The total does not depend on the order of the invoices. */
  lemma {:induction false} TotalOfPermutation(a: seq<Factura>, b: seq<Factura>)
    requires multiset(a) == multiset(b)
    ensures TotalFacturado(a) == TotalFacturado(b)
    decreases |a|
  {
    if a == [] {
      assert |b| == |multiset(b)| == 0;
    } else {
      var x, rest := a[0], a[1..];
      assert a == [x] + rest;
      assert x in multiset(b);
      var j :| 0 <= j < |b| && b[j] == x;
      var others := b[..j] + b[j + 1..];
      MultisetWithout(b, j);
      assert multiset(rest) == multiset(others);
      TotalOfPermutation(rest, others);
      TotalWithout(b, j);
    }
  }

  /** `sort((a, b) => b.fechaEmision - a.fechaEmision)`: newest first, the same
      invoices, and the same total. */
  function NewestFirst(fs: seq<Factura>): (r: seq<Factura>)
    ensures SortedDesc(r, FechaEmision)
    ensures multiset(r) == multiset(fs) && |r| == |fs|
    ensures TotalFacturado(r) == TotalFacturado(fs)
  {
    var r := SortDesc(fs, FechaEmision);
    TotalOfPermutation(r, fs);
    r
  }

  /** The 'Promedio por Factura' card: the ratio total / count when there is at
      least one invoice, else the fixed text '0.00'. */
  datatype Average = ZeroText | Ratio(total: int, count: nat)

  function AverageOf(fs: seq<Factura>): (a: Average)
    ensures a.Ratio? <==> |fs| > 0
    ensures a.Ratio? ==> a.total == TotalFacturado(fs) && a.count == |fs| && a.count > 0
  {
    if |fs| > 0 then Ratio(TotalFacturado(fs), |fs|) else ZeroText
  }
}

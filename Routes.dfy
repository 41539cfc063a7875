/** Navigation targets, as the path strings handed to the router. */
module Routes {
  import opened Wrappers

  const LOGIN: string := "/login"
  const MENU: string := "/menu"
  const ADMIN: string := "/admin"
  const PEDIDO: string := "/pedido"
  const LOGIN_REGISTRO_EXITOSO: string := "/login?registro=exitoso"

  function Digit(d: nat): (c: char)
    requires d < 10
    ensures '0' <= c <= '9'
    ensures DigitValue(c) == d
  {
    ['0', '1', '2', '3', '4', '5', '6', '7', '8', '9'][d]
  }

  /** The number a decimal digit character stands for. */
  function DigitValue(c: char): int
  {
    c as int - '0' as int
  }

  /** The number a string of decimal digits denotes, most significant first. */
  function DecimalValue(s: string): int
  {
    if s == [] then 0 else 10 * DecimalValue(s[..|s| - 1]) + DigitValue(s[|s| - 1])
  }

  /** Base-10 digits of `n`, most significant first, without leading zeros. */
  function NatString(n: nat): (s: string)
    ensures |s| >= 1
    ensures forall k :: 0 <= k < |s| ==> '0' <= s[k] <= '9'
    ensures |s| > 1 ==> s[0] != '0'
    ensures DecimalValue(s) == n
    decreases n
  {
    if n < 10 then
      [Digit(n)]
    else
      var s := NatString(n / 10) + [Digit(n % 10)];
      assert s[..|s| - 1] == NatString(n / 10);
      s
  }

  /** How a template literal prints a number (an integer here) or `undefined`. */
  function NumberString(n: Option<int>): (s: string)
    ensures n.None? ==> s == "undefined"
    ensures n.Some? && n.value >= 0 ==> s == NatString(n.value) && DecimalValue(s) == n.value
    ensures n.Some? && n.value < 0 ==> |s| >= 2 && s[1..] == NatString(-n.value) && DecimalValue(s[1..]) == -n.value
  {
    match n
    case None => "undefined"
    case Some(v) =>
      if v < 0 then
        var digits := NatString(-v);
        assert ("-" + digits)[1..] == digits;
        "-" + digits
      else
        NatString(v)
  }

  /** The first character tells the three forms apart: '-' for a negative number,
      'u' for `undefined`, a digit otherwise. */
  lemma NumberStringHead(n: Option<int>)
    ensures |NumberString(n)| >= 1
    ensures NumberString(n)[0] == '-' <==> n.Some? && n.value < 0
    ensures NumberString(n)[0] == 'u' <==> n.None?
  {
    if n.Some? && n.value >= 0 {
      assert '0' <= NatString(n.value)[0] <= '9';
    } else if n.None? {
      assert NumberString(n)[0] == 'u';
    }
  }

  /** `/pedido/${codigoPedido}`: the order's page, named by its code. */
  function PedidoPath(codigo: Option<int>): (p: string)
    ensures |p| > |PEDIDO| + 1 && p[..|PEDIDO| + 1] == PEDIDO + "/"
    ensures p[|PEDIDO| + 1..] == NumberString(codigo)
  {
    PEDIDO + "/" + NumberString(codigo)
  }

  /** Two orders with different codes are sent to different pages: the route
      determines the code it was built from. */
  lemma PedidoPathDeterminesCode(a: Option<int>, b: Option<int>)
    requires PedidoPath(a) == PedidoPath(b)
    ensures a == b
  {
    NumberStringHead(a);
    NumberStringHead(b);
    assert NumberString(a) == PedidoPath(a)[|PEDIDO| + 1..] == PedidoPath(b)[|PEDIDO| + 1..] == NumberString(b);
  }
}

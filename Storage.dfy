/** The browser's persisted key-value slots. JSON text is abstracted: a slot holds
    either the serialisation of a cart or of a user, or raw text that JSON.parse
    rejects (`Raw("")` is the empty string, which the views treat as absent). */
module Storage {
  import opened Wrappers
  import opened Types

  const CART_KEY: string := "cart"
  const USER_KEY: string := "usuario"
  const TOKEN_KEY: string := "token"

  datatype Stored = CartJson(lines: seq<DetallePedido>) | UserJson(usuario: Usuario) | Raw(text: string)

  type Store = map<string, Stored>

  /** `if (saved)`: the empty string is falsy and is never parsed. */
  predicate Truthy(v: Stored)
  {
    v != Raw("")
  }

  function StringifyCart(lines: seq<DetallePedido>): Stored
  {
    CartJson(lines)
  }

  function StringifyUser(u: Usuario): Stored
  {
    UserJson(u)
  }

  /** JSON.parse as a cart; None stands for the exception a malformed value raises. */
  function ParseCart(v: Stored): (r: Option<seq<DetallePedido>>)
    ensures r.Some? <==> v.CartJson?
    ensures r.Some? ==> StringifyCart(r.value) == v
  {
    if v.CartJson? then Some(v.lines) else None
  }

  /** JSON.parse as a user; None stands for the exception a malformed value raises. */
  function ParseUser(v: Stored): (r: Option<Usuario>)
    ensures r.Some? <==> v.UserJson?
    ensures r.Some? ==> StringifyUser(r.value) == v
  {
    if v.UserJson? then Some(v.usuario) else None
  }

  /** Serialising then parsing a cart gives the same line list back. */
  lemma CartRoundTrip(lines: seq<DetallePedido>)
    ensures ParseCart(StringifyCart(lines)) == Some(lines)
  {
  }

  /** Serialising then parsing a user gives the same user back. */
  lemma UserRoundTrip(u: Usuario)
    ensures ParseUser(StringifyUser(u)) == Some(u)
  {
  }

  /** The user the 'usuario' slot describes, if any: exactly the user whose JSON the
      slot holds, and none when the slot is absent, empty or holds anything else. */
  function StoredUser(store: Store): (r: Option<Usuario>)
    ensures r.Some? ==> USER_KEY in store && store[USER_KEY] == StringifyUser(r.value)
    ensures forall u :: USER_KEY in store && store[USER_KEY] == StringifyUser(u) ==> r == Some(u)
    ensures USER_KEY !in store ==> r.None?
  {
    if USER_KEY in store then ParseUser(store[USER_KEY]) else None
  }
}

/** The mount effect the customer's own list pages share (`app/mis-facturas/page.tsx`,
    `app/mis-pedidos/page.tsx`): leave for '/login' once the session has loaded
    with no user, and load the user's records whenever the cached user has an id. */
module AccountPages {
  import opened Wrappers
  import opened Types
  import Routes

  datatype Effect = Redirect(path: string) | LoadFor(idUsuario: string) | NoEffect

  function MountEffect(authLoading: bool, usuario: Option<Usuario>): (e: Effect)
    ensures e.Redirect? <==> !authLoading && usuario.None?
    ensures e.Redirect? ==> e.path == Routes.LOGIN
    ensures e.LoadFor? <==> usuario.Some? && HasId(usuario.value)
    ensures e.LoadFor? ==> e.idUsuario == usuario.value.idUsuario.value
  {
    if !authLoading && usuario.None? then Redirect(Routes.LOGIN)
    else if usuario.Some? && HasId(usuario.value) then LoadFor(usuario.value.idUsuario.value)
    else NoEffect
  }
}

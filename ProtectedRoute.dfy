/** The route guard, `components/auth/ProtectedRoute.tsx`: from (loading, user,
    requireAdmin) it decides a redirect (the effect) and what to render. */
module ProtectedRoute {
  import opened Wrappers
  import opened Types
  import Routes

  const ADMIN_ROLE: string := "ADMINISTRADOR"

  datatype View = LoadingView | Nothing | Children

  /** `usuario.rol !== 'ADMINISTRADOR'`, an absent role included. */
  predicate NotAdmin(u: Usuario)
  {
    u.rol != Some(ADMIN_ROLE)
  }

  /** The effect: no redirect while loading; to the login page without a user; to
      the menu for a non-administrator on an admin-only route. */
  function Redirect(loading: bool, usuario: Option<Usuario>, requireAdmin: bool): (r: Option<string>)
    ensures loading ==> r.None?
    ensures r == Some(Routes.LOGIN) <==> !loading && usuario.None?
    ensures r == Some(Routes.MENU) <==> !loading && usuario.Some? && requireAdmin && NotAdmin(usuario.value)
    ensures r.None? <==> loading || (usuario.Some? && !(requireAdmin && NotAdmin(usuario.value)))
  {
    if loading then None
    else if usuario.None? then Some(Routes.LOGIN)
    else if requireAdmin && NotAdmin(usuario.value) then Some(Routes.MENU)
    else None
  }

  /** The render: the loading view while loading; nothing without a user or for a
      non-administrator on an admin-only route; otherwise the children. */
  function Render(loading: bool, usuario: Option<Usuario>, requireAdmin: bool): (v: View)
    ensures v == LoadingView <==> loading
    ensures v == Children <==>
      !loading && usuario.Some? && (!requireAdmin || usuario.value.rol == Some(ADMIN_ROLE))
  {
    if loading then LoadingView
    else if usuario.None? then Nothing
    else if requireAdmin && NotAdmin(usuario.value) then Nothing
    else Children
  }

  /** `requireAdmin = false` by default: any logged-in user gets the children. */
  function RenderDefault(loading: bool, usuario: Option<Usuario>): (v: View)
    ensures !loading && usuario.Some? ==> v == Children
  {
    Render(loading, usuario, false)
  }

  /** The two decisions agree: the children are rendered exactly when loading is
      over and no redirect fires, and nothing is rendered exactly when one does. */
  lemma RedirectAndRenderAgree(loading: bool, usuario: Option<Usuario>, requireAdmin: bool)
    ensures Render(loading, usuario, requireAdmin) == Children
        <==> !loading && Redirect(loading, usuario, requireAdmin).None?
    ensures Render(loading, usuario, requireAdmin) == Nothing
        <==> Redirect(loading, usuario, requireAdmin).Some?
  {
  }
}

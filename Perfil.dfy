/** The profile page, `app/perfil/page.tsx`: the gate on the session, the profile
    form merged into the cached user, and the password change with its checks and
    reset. */
module Perfil {
  import opened Wrappers
  import opened Types
  import opened Forms
  import opened Feedback
  import AuthContext
  import Routes
  import Storage

  /** What the page renders for the session's state. */
  datatype Page = LoadingView | RedirectTo(path: string) | ProfilePage

  /** While the session loads, a loading view; then with no user, a redirect to
      '/login'; otherwise the page. */
  function PageFor(authLoading: bool, usuario: Option<Usuario>): (p: Page)
    ensures p == LoadingView <==> authLoading
    ensures p.RedirectTo? <==> !authLoading && usuario.None?
    ensures p.RedirectTo? ==> p.path == Routes.LOGIN
    ensures p == ProfilePage <==> !authLoading && usuario.Some?
  {
    if authLoading then LoadingView
    else if usuario.None? then RedirectTo(Routes.LOGIN)
    else ProfilePage
  }

  datatype ProfileForm = ProfileForm(nombre: string, gmail: string, direccion: string)

  /** The form's state, set once from the session as the page's first render sees
      it: the user's fields, or '' for each when there is no user. The initializer
      never runs again, so a user that arrives later does not reach the form. */
  function InitialProfileForm(usuarioAtFirstRender: Option<Usuario>): (f: ProfileForm)
    ensures usuarioAtFirstRender.None? ==> f == ProfileForm("", "", "")
    ensures usuarioAtFirstRender.Some? ==>
      f.nombre == usuarioAtFirstRender.value.nombre && f.gmail == usuarioAtFirstRender.value.gmail
      && f.direccion == usuarioAtFirstRender.value.direccion
  {
    match usuarioAtFirstRender
    case None => ProfileForm("", "", "")
    case Some(u) => ProfileForm(u.nombre, u.gmail, u.direccion)
  }

  /** `{...usuario, ...formData}`: the cached user with the three form fields
      overriding, everything else (id, surname, password, role) kept. */
  function ProfileMerge(u: Usuario, f: ProfileForm): (r: Usuario)
    ensures r.nombre == f.nombre && r.gmail == f.gmail && r.direccion == f.direccion
    ensures r.idUsuario == u.idUsuario && r.apellido == u.apellido
    ensures r.contrasena == u.contrasena && r.rol == u.rol
  {
    u.(nombre := f.nombre, gmail := f.gmail, direccion := f.direccion)
  }

  /** When the session had already loaded before the page first rendered (a
      navigation inside the application after hydration), submitting the untouched
      form sends back exactly the cached user. */
  lemma UntouchedFormSendsUserBack(u: Usuario)
    ensures ProfileMerge(u, InitialProfileForm(Some(u))) == u
  {
  }

  /** On a fresh load or a refresh of the page, its first render happens while the
      session store is still in its initial state, which holds no user; the form
      therefore starts, and stays, blank. */
  method FreshLoadForm(store: Storage.Store) returns (f: ProfileForm)
    ensures f == ProfileForm("", "", "")
  {
    var session := new AuthContext.AuthProvider(store);
    f := InitialProfileForm(session.usuario);
  }

  /** As written, the untouched form after a fresh load overwrites the user's name,
      e-mail and address with '' in the update it sends, and so changes any user
      who had a name. */
  lemma FreshLoadSubmitBlanksProfile(u: Usuario)
    ensures ProfileMerge(u, InitialProfileForm(None)) == u.(nombre := "", gmail := "", direccion := "")
    ensures u.nombre != "" ==> ProfileMerge(u, InitialProfileForm(None)) != u
  {
  }

  /** The corrected form: re-filled from the session whenever a user is present
      (an effect on `usuario`), and left as it is while there is none. */
  function ResyncedForm(f: ProfileForm, usuario: Option<Usuario>): (r: ProfileForm)
    ensures usuario.Some? ==> r == InitialProfileForm(usuario)
    ensures usuario.None? ==> r == f
  {
    if usuario.Some? then InitialProfileForm(usuario) else f
  }

  /** With the corrected form, the untouched submit sends back exactly the cached
      user whatever the first render saw, a fresh load included. */
  lemma ResyncedUntouchedFormSendsUserBack(firstRender: Option<Usuario>, u: Usuario)
    ensures ProfileMerge(u, ResyncedForm(InitialProfileForm(firstRender), Some(u))) == u
  {
  }

  const PROFILE_UPDATED_TOAST: Toast := Toast("Perfil actualizado", "Tus datos se han actualizado correctamente", false)
  const PROFILE_FALLBACK: string := "Error al actualizar el perfil"

  /** `handleUpdatePerfil`: the merged user goes to the store's `updateUsuario`,
      and the toast follows how that settles. The store resolves without a call when
      the user has no id, so that case also shows the success toast. */
  function UpdatePerfil(u: Usuario, f: ProfileForm, settled: AuthContext.Settled): (r: (Usuario, Toast))
    requires settled.Rejected? ==> settled.failure.Failed?
    ensures r.0 == ProfileMerge(u, f)
    ensures settled.Resolved? <==> r.1 == PROFILE_UPDATED_TOAST
    ensures settled.Rejected? ==> r.1 == ErrorToast(MessageOr(settled.failure, PROFILE_FALLBACK))
  {
    match settled
    case Resolved => (ProfileMerge(u, f), PROFILE_UPDATED_TOAST)
    case Rejected(failure) => (ProfileMerge(u, f), ErrorToast(MessageOr(failure, PROFILE_FALLBACK)))
  }

  datatype PasswordForm = PasswordForm(antigua: string, nueva: string, confirmar: string)

  const EMPTY_PASSWORD_FORM: PasswordForm := PasswordForm("", "", "")
  const PASSWORD_CHANGED_TOAST: Toast := Toast("Contraseña actualizada", "Tu contraseña se ha cambiado correctamente", false)
  const PASSWORD_FALLBACK: string := "Error al cambiar la contraseña"

  /** The outcome of `handleCambiarContraseña`: the call made if any (the user's id,
      possibly absent, the old and the new password), the toast, and the form after. */
  datatype PasswordChange = PasswordChange(call: Option<(Option<string>, string, string)>, toast: Toast, form: PasswordForm)

  /** Confirmation first, then length; a failing check sends nothing. A successful
      change clears all three fields; a failed one keeps them. */
  function CambiarContrasena(u: Usuario, f: PasswordForm, response: Remote<()>): (r: PasswordChange)
    ensures r.call.Some? <==> CheckNewPassword(f.nueva, f.confirmar).None?
    ensures r.call.Some? ==> r.call == Some((u.idUsuario, f.antigua, f.nueva))
    ensures r.call.None? ==> r.toast == ErrorToast(CheckNewPassword(f.nueva, f.confirmar).value) && r.form == f
    ensures r.call.Some? && response.Ok? ==> r.toast == PASSWORD_CHANGED_TOAST && r.form == EMPTY_PASSWORD_FORM
    ensures r.call.Some? && response.Failed? ==>
      r.toast == ErrorToast(MessageOr(response, PASSWORD_FALLBACK)) && r.form == f
    ensures r.form != f ==> r.call.Some? && response.Ok?
  {
    match CheckNewPassword(f.nueva, f.confirmar)
    case Some(message) => PasswordChange(None, ErrorToast(message), f)
    case None =>
      var call := Some((u.idUsuario, f.antigua, f.nueva));
      match response
      case Ok(_) => PasswordChange(call, PASSWORD_CHANGED_TOAST, EMPTY_PASSWORD_FORM)
      case Failed(_, _) => PasswordChange(call, ErrorToast(MessageOr(response, PASSWORD_FALLBACK)), f)
  }
}

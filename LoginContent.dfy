/** The login form, `components/auth/LoginContent.tsx`: blank and e-mail checks,
    the role-based redirect after `login`, the error texts, and the banner shown
    after a successful sign-up. */
module LoginContent {
  import opened Wrappers
  import opened Types
  import opened Text
  import opened Forms
  import AuthContext
  import Routes

  const ADMIN_ROLE: string := "ADMIN"
  const CREDENTIALS_MESSAGE: string := "Credenciales incorrectas. Verifica tu correo y contraseña."
  const NOT_FOUND_MESSAGE: string := "Usuario no encontrado. ¿Necesitas registrarte?"
  const LOGIN_FALLBACK: string := "Error al iniciar sesión. Intenta de nuevo."
  const REGISTRO_EXITOSO_BANNER: string := "¡Registro exitoso! Ahora puedes iniciar sesión."

  /** The two checks before any call: both fields non-blank, then the e-mail pattern. */
  function Validate(gmail: string, contrasena: string): (r: Option<string>)
    ensures r == Some(BLANK_MESSAGE) <==> IsBlank(gmail) || IsBlank(contrasena)
    ensures r == Some(EMAIL_MESSAGE) <==> !IsBlank(gmail) && !IsBlank(contrasena) && !EmailRegex(gmail)
    ensures r.None? <==> !IsBlank(gmail) && !IsBlank(contrasena) && EmailRegex(gmail)
  {
    TrimEmptyIffBlank(gmail);
    TrimEmptyIffBlank(contrasena);
    if Trim(gmail) == [] || Trim(contrasena) == [] then Some(BLANK_MESSAGE)
    else if !ValidateEmail(gmail) then Some(EMAIL_MESSAGE)
    else None
  }

  /** Where a resolved login goes, given the value `login` resolved with. */
  function RoleRedirect(resolved: Option<Usuario>): (route: string)
    ensures route == Routes.ADMIN <==> resolved.Some? && resolved.value.rol == Some(ADMIN_ROLE)
    ensures route != Routes.ADMIN ==> route == Routes.MENU
  {
    if resolved.Some? && resolved.value.rol == Some(ADMIN_ROLE) then Routes.ADMIN else Routes.MENU
  }

  /** The message for a rejected login: fixed texts for 400 and 404, else the
      server's message or the fallback. */
  function LoginError(failure: Remote<Usuario>): (m: string)
    requires failure.Failed?
    ensures failure.status == 400 ==> m == CREDENTIALS_MESSAGE
    ensures failure.status == 404 ==> m == NOT_FOUND_MESSAGE
    ensures failure.status != 400 && failure.status != 404 ==> m == MessageOr(failure, LOGIN_FALLBACK)
    ensures m != ""
  {
    if failure.status == 400 then CREDENTIALS_MESSAGE
    else if failure.status == 404 then NOT_FOUND_MESSAGE
    else MessageOr(failure, LOGIN_FALLBACK)
  }

  /** What one submit does: whether `login` is called (with which credentials), the
      error left on screen (the previous one is cleared first) and the route. */
  datatype Attempt = Attempt(called: Option<(string, string)>, error: string, route: Option<string>)

  /** `handleSubmit`; `settled` is how the store's `login` settles if it is called.
      The store resolves with no value, so the role test sees nothing. */
  function HandleSubmit(gmail: string, contrasena: string, settled: AuthContext.Settled): (a: Attempt)
    requires settled.Rejected? ==> settled.failure.Failed?
    ensures a.called.Some? <==> Validate(gmail, contrasena).None?
    ensures a.called.Some? ==> a.called == Some((gmail, contrasena))
    ensures a.called.None? ==> a.error == Validate(gmail, contrasena).value && a.route.None?
    ensures a.called.Some? && settled.Resolved? ==> a.route == Some(RoleRedirect(None)) && a.error == ""
    ensures a.called.Some? && settled.Rejected? ==> a.route.None? && a.error == LoginError(settled.failure)
  {
    match Validate(gmail, contrasena)
    case Some(message) => Attempt(None, message, None)
    case None =>
      match settled
      case Resolved => Attempt(Some((gmail, contrasena)), "", Some(RoleRedirect(None)))
      case Rejected(failure) => Attempt(Some((gmail, contrasena)), LoginError(failure), None)
  }

  /** Because `login` resolves with no value, a successful login always goes to
      '/menu' and never to '/admin', whatever the user's role. */
  lemma LoginNeverReachesAdmin(gmail: string, contrasena: string)
    ensures HandleSubmit(gmail, contrasena, AuthContext.Resolved).route != Some(Routes.ADMIN)
    ensures Validate(gmail, contrasena).None? ==>
      HandleSubmit(gmail, contrasena, AuthContext.Resolved).route == Some(Routes.MENU)
  {
  }

  /** The effect on `?registro=`: the success banner appears exactly for 'exitoso'. */
  function SuccessBanner(registro: Option<string>): (banner: string)
    ensures banner != "" <==> registro == Some("exitoso")
    ensures banner != "" ==> banner == REGISTRO_EXITOSO_BANNER
  {
    if registro == Some("exitoso") then REGISTRO_EXITOSO_BANNER else ""
  }
}

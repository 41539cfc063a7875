/** The sign-up component, `components/auth/Register.tsx`: a five-field form
    whose only client-side checks are the password confirmation and length; the
    request goes through the session store's `registro`, which logs the new user in. */
module Register {
  import opened Wrappers
  import opened Types
  import opened Forms
  import Routes

  datatype RegisterForm = RegisterForm(
    nombre: string,
    gmail: string,
    contrasena: string,
    confirmarContrasena: string,
    direccion: string)

  const REGISTER_FALLBACK: string := "Error al registrarse. Intenta de nuevo."

  /** The form with `confirmarContraseña` dropped; no id, surname or role is sent. */
  function Payload(f: RegisterForm): (u: Usuario)
    ensures u.nombre == f.nombre && u.gmail == f.gmail && u.contrasena == f.contrasena
    ensures u.direccion == f.direccion
    ensures u.idUsuario.None? && u.apellido.None? && u.rol.None?
  {
    Usuario(None, f.nombre, None, f.gmail, f.contrasena, f.direccion, None)
  }

  datatype Submission = Submission(request: Option<Usuario>, error: string, route: Option<string>)

  /** `handleSubmit`; `response` is how the store's `registro` settles if called
      (it rethrows the sign-up call's failure unchanged). Blank fields and a
      malformed e-mail address are not checked here. */
  function HandleSubmit(f: RegisterForm, response: Remote<Usuario>): (s: Submission)
    ensures s.request.Some? <==> f.contrasena == f.confirmarContrasena && !TooShort(f.contrasena)
    ensures f.contrasena != f.confirmarContrasena ==> s.error == MISMATCH_MESSAGE && s.route.None?
    ensures f.contrasena == f.confirmarContrasena && TooShort(f.contrasena) ==>
      s.error == SHORT_MESSAGE && s.route.None?
    ensures s.request.Some? ==> s.request == Some(Payload(f))
    ensures s.request.Some? && response.Ok? ==> s.route == Some(Routes.MENU) && s.error == ""
    ensures s.request.Some? && response.Failed? ==>
      s.route.None? && s.error == MessageOr(response, REGISTER_FALLBACK)
    ensures s.route.Some? <==> s.error == ""
  {
    match CheckNewPassword(f.contrasena, f.confirmarContrasena)
    case Some(message) => Submission(None, message, None)
    case None =>
      match response
      case Ok(_) => Submission(Some(Payload(f)), "", Some(Routes.MENU))
      case Failed(_, _) => Submission(Some(Payload(f)), MessageOr(response, REGISTER_FALLBACK), None)
  }
}

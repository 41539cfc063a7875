/** The public sign-up page, `app/registro/page.tsx`: a six-field form, a chain of
    checks of which only the first failure is reported, and the error texts for a
    rejected request. */
module Registro {
  import opened Wrappers
  import opened Types
  import opened Text
  import opened Forms
  import Routes

  datatype RegistroForm = RegistroForm(
    nombre: string,
    apellido: string,
    gmail: string,
    contrasena: string,
    confirmarContrasena: string,
    direccion: string)

  const CLIENTE_ROLE: string := "CLIENTE"
  const DUPLICATE_EMAIL_MESSAGE: string := "Este correo electrónico ya está registrado. ¿Quieres iniciar sesión?"
  const INVALID_DATA_FALLBACK: string := "Datos inválidos. Verifica la información."
  const CREATE_FAILED_FALLBACK: string := "Error al crear la cuenta. Intenta de nuevo."

  /** Some field is empty or whitespace only. */
  ghost predicate SomeFieldBlank(f: RegistroForm)
  {
    IsBlank(f.nombre) || IsBlank(f.apellido) || IsBlank(f.gmail)
    || IsBlank(f.contrasena) || IsBlank(f.confirmarContrasena) || IsBlank(f.direccion)
  }

  /** The validation chain: blank fields, then the e-mail pattern, then the password
      length, then the confirmation. The result is the first failing check's
      message, or `None` when the request may be sent. */
  function Validate(f: RegistroForm): (r: Option<string>)
    ensures r == Some(BLANK_MESSAGE) <==> SomeFieldBlank(f)
    ensures r == Some(EMAIL_MESSAGE) <==> !SomeFieldBlank(f) && !EmailRegex(f.gmail)
    ensures r == Some(SHORT_MESSAGE) <==>
      !SomeFieldBlank(f) && EmailRegex(f.gmail) && TooShort(f.contrasena)
    ensures r == Some(MISMATCH_MESSAGE) <==>
      !SomeFieldBlank(f) && EmailRegex(f.gmail) && !TooShort(f.contrasena)
      && f.contrasena != f.confirmarContrasena
    ensures r.None? <==>
      !SomeFieldBlank(f) && EmailRegex(f.gmail) && !TooShort(f.contrasena)
      && f.contrasena == f.confirmarContrasena
  {
    TrimEmptyIffBlank(f.nombre);
    TrimEmptyIffBlank(f.apellido);
    TrimEmptyIffBlank(f.gmail);
    TrimEmptyIffBlank(f.contrasena);
    TrimEmptyIffBlank(f.confirmarContrasena);
    TrimEmptyIffBlank(f.direccion);
    if Trim(f.nombre) == [] || Trim(f.apellido) == [] || Trim(f.gmail) == []
      || Trim(f.contrasena) == [] || Trim(f.confirmarContrasena) == [] || Trim(f.direccion) == []
    then Some(BLANK_MESSAGE)
    else if !ValidateEmail(f.gmail) then Some(EMAIL_MESSAGE)
    else if TooShort(f.contrasena) then Some(SHORT_MESSAGE)
    else if f.contrasena != f.confirmarContrasena then Some(MISMATCH_MESSAGE)
    else None
  }

  /** The request body: the form's fields without the confirmation, and the role
      always 'CLIENTE'. */
  function Payload(f: RegistroForm): (u: Usuario)
    ensures u.rol == Some(CLIENTE_ROLE) && u.idUsuario.None?
    ensures u.nombre == f.nombre && u.apellido == Some(f.apellido) && u.gmail == f.gmail
    ensures u.contrasena == f.contrasena && u.direccion == f.direccion
  {
    Usuario(None, f.nombre, Some(f.apellido), f.gmail, f.contrasena, f.direccion, Some(CLIENTE_ROLE))
  }

  /** The message shown for a rejected sign-up: a fixed text for 409, otherwise the
      server's message, falling back to a text that depends on whether it was 400. */
  function RegistroError(response: Remote<Usuario>): (m: string)
    requires response.Failed?
    ensures response.status == 409 ==> m == DUPLICATE_EMAIL_MESSAGE
    ensures response.status != 409 && response.message != "" ==> m == response.message
    ensures response.status == 400 && response.message == "" ==> m == INVALID_DATA_FALLBACK
    ensures response.status != 409 && response.status != 400 && response.message == "" ==>
      m == CREATE_FAILED_FALLBACK
    ensures m != ""
  {
    if response.status == 409 then DUPLICATE_EMAIL_MESSAGE
    else if response.status == 400 then MessageOr(response, INVALID_DATA_FALLBACK)
    else MessageOr(response, CREATE_FAILED_FALLBACK)
  }

  /** What one submit does: the request it sends (if any), the error left on screen
      (the previous one is always cleared first) and the navigation target. */
  datatype Submission = Submission(request: Option<Usuario>, error: string, route: Option<string>)

  /** `handleSubmit`; `response` is what the sign-up call returns if it is made. */
  function HandleSubmit(f: RegistroForm, response: Remote<Usuario>): (s: Submission)
    ensures s.request.Some? <==> Validate(f).None?
    ensures Validate(f).Some? ==> s.error == Validate(f).value && s.route.None?
    ensures s.request.Some? ==> s.request == Some(Payload(f))
    ensures s.request.Some? && response.Ok? ==>
      s.route == Some(Routes.LOGIN_REGISTRO_EXITOSO) && s.error == ""
    ensures s.request.Some? && response.Failed? ==>
      s.route.None? && s.error == RegistroError(response)
    ensures s.route.Some? <==> s.error == ""
  {
    match Validate(f)
    case Some(message) => Submission(None, message, None)
    case None =>
      match response
      case Ok(_) => Submission(Some(Payload(f)), "", Some(Routes.LOGIN_REGISTRO_EXITOSO))
      case Failed(_, _) => Submission(Some(Payload(f)), RegistroError(response), None)
  }
}

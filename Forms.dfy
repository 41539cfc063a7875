/** What the account forms share: their validation messages, the minimum password
    length, and the two-step new-password check of the sign-up component and the
    profile page (confirmation first, then length). */
module Forms {
  import opened Wrappers
  import opened Text

  const BLANK_MESSAGE: string := "Por favor completa todos los campos"
  const EMAIL_MESSAGE: string := "Por favor ingresa un correo electrónico válido"
  const SHORT_MESSAGE: string := "La contraseña debe tener al menos 6 caracteres"
  const MISMATCH_MESSAGE: string := "Las contraseñas no coinciden"

  const MIN_PASSWORD_LENGTH: nat := 6

  /** `password.length < 6`, counted in UTF-16 code units and without trimming. */
  predicate TooShort(password: string)
  {
    Utf16Length(password) < MIN_PASSWORD_LENGTH
  }

  /** A mismatch is reported before a short password, so a short mismatched
      password reports the mismatch; `None` means both checks pass. */
  function CheckNewPassword(password: string, confirmation: string): (r: Option<string>)
    ensures r == Some(MISMATCH_MESSAGE) <==> password != confirmation
    ensures r == Some(SHORT_MESSAGE) <==> password == confirmation && TooShort(password)
    ensures r == Some(SHORT_MESSAGE) ==> |password| < MIN_PASSWORD_LENGTH
    ensures r.None? <==> password == confirmation && !TooShort(password)
  {
    if password != confirmation then Some(MISMATCH_MESSAGE)
    else if TooShort(password) then Some(SHORT_MESSAGE)
    else None
  }
}

/** A toast notification: title, description, and whether it is the destructive
    (error) variant. */
module Feedback {
  datatype Toast = Toast(title: string, description: string, destructive: bool)

  const ERROR_TITLE: string := "Error"

  /** The error toast the views raise for a rejected action. */
  function ErrorToast(description: string): (t: Toast)
    ensures t.destructive && t.title == ERROR_TITLE && t.description == description
  {
    Toast(ERROR_TITLE, description, true)
  }
}

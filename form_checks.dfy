/** The field checks, and their messages, that the registration and
    password-recovery pages both write out (the login page the e-mail one): the e-mail, the
    new password (at least eight characters) and its confirmation. */
module FormChecks {
  import opened Text
  import opened Validators

  const EmailRequired: string := "El correo electrónico es requerido"
  const EmailInvalid: string := "Ingresa un correo electrónico válido"
  const PasswordRequired: string := "La contraseña es requerida"
  const PasswordTooShort: string := "La contraseña debe tener al menos 8 caracteres"
  const ConfirmRequired: string := "Debes confirmar tu contraseña"
  const ConfirmMismatch: string := "Las contraseñas no coinciden"

  /** "required" for the empty address, "invalid" for one that does not
      match the pattern, and no message otherwise. */
  function EmailError(email: string): (e: string)
    ensures e == "" <==> ValidateEmail(email)
    ensures e == EmailRequired <==> email == ""
    ensures e == EmailInvalid <==> email != "" && !ValidateEmail(email)
  {
    if email == "" then EmailRequired else if !ValidateEmail(email) then EmailInvalid else ""
  }

  function PasswordError(password: string): (e: string)
    ensures e == "" <==> Utf16Length(password) >= 8
    ensures e == PasswordRequired <==> password == ""
    ensures e == PasswordTooShort <==> 0 < Utf16Length(password) < 8
  {
    if password == "" then PasswordRequired else if Utf16Length(password) < 8 then PasswordTooShort else ""
  }

  function ConfirmError(password: string, confirmPassword: string): (e: string)
    ensures e == "" <==> confirmPassword != "" && confirmPassword == password
    ensures e == ConfirmRequired <==> confirmPassword == ""
    ensures e == ConfirmMismatch <==> confirmPassword != "" && confirmPassword != password
  {
    if confirmPassword == "" then ConfirmRequired
    else if password != confirmPassword then ConfirmMismatch
    else ""
  }
}

/** The login form: an e-mail message and a password message, each
    computed from its own field, and an attempt only when both are empty. */
module LoginPage {
  import opened Text
  import opened Validators
  import FormChecks

  datatype LoginErrors = LoginErrors(email: string, password: string)

  const PasswordRequired: string := "La contraseña es requerida"
  const PasswordTooShort: string := "La contraseña debe tener al menos 6 caracteres"

  function PasswordError(password: string): (e: string)
    ensures e == "" <==> Utf16Length(password) >= 6
    ensures e == PasswordRequired <==> password == ""
    ensures e == PasswordTooShort <==> 0 < Utf16Length(password) < 6
  {
    if password == "" then PasswordRequired else if Utf16Length(password) < 6 then PasswordTooShort else ""
  }

  function ErrorsFor(email: string, password: string): LoginErrors {
    LoginErrors(FormChecks.EmailError(email), PasswordError(password))
  }

  /** `handleSubmit`: the messages, then whether the attempt goes ahead. */
  method HandleSubmit(email: string, password: string) returns (errors: LoginErrors, proceeds: bool)
    ensures errors == ErrorsFor(email, password)
    ensures proceeds <==> errors.email == "" && errors.password == ""
  {
    errors := LoginErrors("", "");
    if email == "" {
      errors := errors.(email := FormChecks.EmailRequired);
    } else if !ValidateEmail(email) {
      errors := errors.(email := FormChecks.EmailInvalid);
    }
    if password == "" {
      errors := errors.(password := PasswordRequired);
    } else if Utf16Length(password) < 6 {
      errors := errors.(password := PasswordTooShort);
    }
    proceeds := errors.email == "" && errors.password == "";
  }

  /** The attempt goes ahead exactly for a matching e-mail and a password
      of at least six characters. */
  lemma ProceedsIff(email: string, password: string)
    ensures (ErrorsFor(email, password).email == "" && ErrorsFor(email, password).password == "") <==>
      IsEmailShape(email) && Utf16Length(password) >= 6
  {
    ValidateEmailCorrect(email);
  }

  /** Each message depends only on its own field. */
  lemma ErrorsIndependent(email: string, email': string, password: string, password': string)
    ensures ErrorsFor(email, password).email == ErrorsFor(email, password').email
    ensures ErrorsFor(email, password).password == ErrorsFor(email', password).password
  {
  }
}

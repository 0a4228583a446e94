/** The registration form: one error message per field, computed field by
    field on submit, and the service request made only when every message
    is empty. The request carries the form without the confirmation. */
module RegisterPage {
  import opened Common
  import opened Text
  import opened Validators
  import opened FormChecks

  datatype RegisterForm = RegisterForm(
    name: string, nuip: string, email: string, phone: string,
    password: string, confirmPassword: string)

  /** The messages; "" is "no error". */
  datatype RegisterErrors = RegisterErrors(
    name: string, nuip: string, email: string, phone: string,
    password: string, confirmPassword: string, terms: string)

  /** What is sent to the registration service. */
  datatype RegisterDto = RegisterDto(name: string, email: string, nuip: string, phone: string, password: string)

  const NameRequired: string := "El nombre es requerido"
  const NameTooShort: string := "El nombre debe tener al menos 3 caracteres"
  const NuipRequired: string := "El número de identificación es requerido"
  const NuipTooShort: string := "El número de identificación debe tener al menos 10 caracteres"
  const PhoneRequired: string := "El teléfono es requerido"
  const PhoneInvalid: string := "Ingresa un número de teléfono válido (10 dígitos)"
  const TermsRequired: string := "Debes aceptar los términos y condiciones"

  /** The name is not trimmed: three spaces pass. */
  function NameError(name: string): (e: string)
    ensures e == "" <==> Utf16Length(name) >= 3
    ensures e == NameRequired <==> name == ""
    ensures e == NameTooShort <==> 0 < Utf16Length(name) < 3
  {
    if name == "" then NameRequired else if Utf16Length(name) < 3 then NameTooShort else ""
  }

  function NuipError(nuip: string): (e: string)
    ensures e == "" <==> Utf16Length(nuip) >= 10
    ensures e == NuipRequired <==> nuip == ""
    ensures e == NuipTooShort <==> 0 < Utf16Length(nuip) < 10
  {
    if nuip == "" then NuipRequired else if Utf16Length(nuip) < 10 then NuipTooShort else ""
  }

  function PhoneError(phone: string): (e: string)
    ensures e == "" <==> ValidatePhone(phone)
    ensures e == PhoneRequired <==> phone == ""
    ensures e == PhoneInvalid <==> phone != "" && !ValidatePhone(phone)
  {
    if phone == "" then PhoneRequired else if !ValidatePhone(phone) then PhoneInvalid else ""
  }

  function TermsError(acceptTerms: bool): (e: string)
    ensures e == "" <==> acceptTerms
    ensures e == TermsRequired <==> !acceptTerms
  {
    if !acceptTerms then TermsRequired else ""
  }

  /** The messages the form shows after a submit. */
  function ErrorsFor(form: RegisterForm, acceptTerms: bool): RegisterErrors {
    RegisterErrors(
      NameError(form.name), NuipError(form.nuip), EmailError(form.email), PhoneError(form.phone),
      PasswordError(form.password), ConfirmError(form.password, form.confirmPassword),
      TermsError(acceptTerms))
  }

  /** `Object.values(newErrors).some((error) => error !== "")`. */
  predicate HasErrors(e: RegisterErrors) {
    e.name != "" || e.nuip != "" || e.email != "" || e.phone != ""
    || e.password != "" || e.confirmPassword != "" || e.terms != ""
  }

  /** `handleSubmit`: fills the messages one field at a time and builds
      the request only when none is set. */
  method HandleSubmit(form: RegisterForm, acceptTerms: bool) returns (errors: RegisterErrors, request: Option<RegisterDto>)
    ensures errors == ErrorsFor(form, acceptTerms)
    ensures request.Some? <==> !HasErrors(errors)
    ensures request.Some? ==> request.value == RegisterDto(form.name, form.email, form.nuip, form.phone, form.password)
  {
    errors := RegisterErrors("", "", "", "", "", "", "");
    errors := errors.(name := NameError(form.name));
    errors := errors.(nuip := NuipError(form.nuip));
    errors := errors.(email := EmailError(form.email));
    errors := errors.(phone := PhoneError(form.phone));
    errors := errors.(password := PasswordError(form.password));
    errors := errors.(confirmPassword := ConfirmError(form.password, form.confirmPassword));
    errors := errors.(terms := TermsError(acceptTerms));
    if !HasErrors(errors) {
      request := Some(RegisterDto(form.name, form.email, form.nuip, form.phone, form.password));
    } else {
      request := None;
    }
  }

  /** The service is called exactly for a form whose name has at least 3
      characters, identification at least 10, a matching e-mail, a
      ten-digit phone, a password of at least 8 repeated in the
      confirmation, and accepted terms. */
  lemma SubmitGate(form: RegisterForm, acceptTerms: bool)
    ensures !HasErrors(ErrorsFor(form, acceptTerms)) <==>
      && Utf16Length(form.name) >= 3 && Utf16Length(form.nuip) >= 10
      && IsEmailShape(form.email) && ValidatePhone(form.phone)
      && Utf16Length(form.password) >= 8 && form.confirmPassword == form.password
      && acceptTerms
  {
    ValidateEmailCorrect(form.email);
  }
}

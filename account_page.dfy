/** The account page: the badge class of an order status, the profile edit
    form (every field checked after trimming, the phone optional) and the
    delivery-address form (three required fields, two optional ones, sent
    as an update when an address is being edited and as a creation
    otherwise). */
module AccountPage {
  import opened Common
  import opened Text
  import opened Validators

  /** `getStatusBadgeClass`. */
  function StatusBadgeClass(status: string): (c: string)
    ensures c != "" <==> status in ["SHIPPED", "PAID", "PENDING", "CANCELLED"]
  {
    if status == "SHIPPED" then "bg-blue-100 text-blue-800 border-blue-300"
    else if status == "PAID" then "bg-emerald-100 text-emerald-800 border-emerald-300"
    else if status == "PENDING" then "bg-amber-100 text-amber-800 border-amber-300"
    else if status == "CANCELLED" then "bg-red-100 text-red-800 border-red-300"
    else ""
  }

  /** The four known statuses get four different classes. */
  lemma BadgeClassesDistinct(a: string, b: string)
    requires a in ["SHIPPED", "PAID", "PENDING", "CANCELLED"] && b in ["SHIPPED", "PAID", "PENDING", "CANCELLED"]
    requires a != b
    ensures StatusBadgeClass(a) != StatusBadgeClass(b)
  {
  }

  // ---------------------------------------------------------------------
  // Profile edit

  datatype AccountForm = AccountForm(name: string, email: string, phone: string, nuip: string)

  datatype AccountErrors = AccountErrors(name: string, email: string, phone: string, nuip: string)

  /** What `updateAccountData` receives; a blank phone is not sent. */
  datatype AccountUpdate = AccountUpdate(name: string, email: string, phone: Option<string>, nuip: string)

  const NameRequired: string := "El nombre es requerido"
  const NameTooShort: string := "El nombre debe tener al menos 3 caracteres"
  const EmailRequired: string := "El correo es requerido"
  const EmailInvalid: string := "Correo electrónico inválido"
  const PhoneInvalid: string := "El teléfono debe tener 10 dígitos"
  const NuipRequired: string := "El número de identificación es requerido"
  const NuipTooShort: string := "Debe tener al menos 10 caracteres"

  function NameError(name: string): (e: string)
    ensures e == "" <==> Utf16Length(Trim(name)) >= 3
    ensures e == NameRequired <==> AllSpaces(name)
    ensures e == NameTooShort <==> !AllSpaces(name) && Utf16Length(Trim(name)) < 3
  {
    if IsBlank(name) then NameRequired else if Utf16Length(Trim(name)) < 3 then NameTooShort else ""
  }

  function EmailError(email: string): (e: string)
    ensures e == "" <==> ValidateEmail(Trim(email))
    ensures e == EmailRequired <==> AllSpaces(email)
    ensures e == EmailInvalid <==> !AllSpaces(email) && !ValidateEmail(Trim(email))
  {
    if IsBlank(email) then EmailRequired else if !ValidateEmail(Trim(email)) then EmailInvalid else ""
  }

  /** The phone is optional: only a non-blank one is checked. */
  function PhoneError(phone: string): (e: string)
    ensures e == "" <==> AllSpaces(phone) || ValidatePhone(phone)
    ensures e == PhoneInvalid <==> !AllSpaces(phone) && !ValidatePhone(phone)
  {
    if !IsBlank(phone) && !ValidatePhone(phone) then PhoneInvalid else ""
  }

  function NuipError(nuip: string): (e: string)
    ensures e == "" <==> Utf16Length(Trim(nuip)) >= 10
    ensures e == NuipRequired <==> AllSpaces(nuip)
    ensures e == NuipTooShort <==> !AllSpaces(nuip) && Utf16Length(Trim(nuip)) < 10
  {
    if IsBlank(nuip) then NuipRequired else if Utf16Length(Trim(nuip)) < 10 then NuipTooShort else ""
  }

  function EditErrorsFor(form: AccountForm): AccountErrors {
    AccountErrors(NameError(form.name), EmailError(form.email), PhoneError(form.phone), NuipError(form.nuip))
  }

  predicate HasEditErrors(e: AccountErrors) {
    e.name != "" || e.email != "" || e.phone != "" || e.nuip != ""
  }

  /** `s.trim() || undefined`. */
  function TrimmedOrNone(s: string): (r: Option<string>)
    ensures r.None? <==> AllSpaces(s)
    ensures r.Some? ==> r.value == Trim(s) && r.value != []
  {
    if IsBlank(s) then None else Some(Trim(s))
  }

  /** `handleEditSubmit`: the four messages, then the update when none is set. */
  method HandleEditSubmit(form: AccountForm) returns (errors: AccountErrors, update: Option<AccountUpdate>)
    ensures errors == EditErrorsFor(form)
    ensures update.Some? <==> !HasEditErrors(errors)
    ensures update.Some? ==>
      update.value == AccountUpdate(Trim(form.name), Trim(form.email), TrimmedOrNone(form.phone), Trim(form.nuip))
  {
    errors := AccountErrors("", "", "", "");
    if IsBlank(form.name) {
      errors := errors.(name := NameRequired);
    } else if Utf16Length(Trim(form.name)) < 3 {
      errors := errors.(name := NameTooShort);
    }
    assert errors == AccountErrors(NameError(form.name), "", "", "");
    if IsBlank(form.email) {
      errors := errors.(email := EmailRequired);
    } else if !ValidateEmail(Trim(form.email)) {
      errors := errors.(email := EmailInvalid);
    }
    assert errors == AccountErrors(NameError(form.name), EmailError(form.email), "", "");
    if !IsBlank(form.phone) && !ValidatePhone(form.phone) {
      errors := errors.(phone := PhoneInvalid);
    }
    if IsBlank(form.nuip) {
      errors := errors.(nuip := NuipRequired);
    } else if Utf16Length(Trim(form.nuip)) < 10 {
      errors := errors.(nuip := NuipTooShort);
    }
    if HasEditErrors(errors) {
      update := None;
      return;
    }
    var phone := if IsBlank(form.phone) then None else Some(Trim(form.phone));
    update := Some(AccountUpdate(Trim(form.name), Trim(form.email), phone, Trim(form.nuip)));
  }

  /** The update is sent exactly when the trimmed name has at least 3
      characters, the trimmed e-mail matches, the phone is blank or has ten
      digits, and the trimmed identification has at least 10 characters. */
  lemma EditGate(form: AccountForm)
    ensures !HasEditErrors(EditErrorsFor(form)) <==>
      && Utf16Length(Trim(form.name)) >= 3 && IsEmailShape(Trim(form.email))
      && (AllSpaces(form.phone) || ValidatePhone(form.phone))
      && Utf16Length(Trim(form.nuip)) >= 10
  {
    ValidateEmailCorrect(Trim(form.email));
  }

  // ---------------------------------------------------------------------
  // Delivery address

  /** `tag` is the form's `label` field (a reserved word here). */
  datatype AddressForm = AddressForm(
    tag: string, addressLine: string, city: string,
    department: string, phone: string, isDefault: bool)

  /** The body of the create and update requests; `tag` is `label`. */
  datatype AddressData = AddressData(
    tag: string, addressLine: string, city: string,
    department: Option<string>, phone: Option<string>, isDefault: bool)

  datatype AddressAction =
    | CreateAddress(data: AddressData)
    | UpdateAddress(id: int, data: AddressData)

  /** The keys the `err` record can hold. */
  datatype AddressField = LabelField | AddressLineField | CityField

  const LabelRequired: string := "Nombre o etiqueta es requerido"
  const AddressLineRequired: string := "La dirección es requerida"
  const CityRequired: string := "La ciudad es requerida"

  /** The `err` record for the three "is blank" answers. */
  function ErrorsForBlanks(blankLabel: bool, blankAddressLine: bool, blankCity: bool): map<AddressField, string> {
    var e0: map<AddressField, string> := map[];
    var e1 := if blankLabel then e0[LabelField := LabelRequired] else e0;
    var e2 := if blankAddressLine then e1[AddressLineField := AddressLineRequired] else e1;
    if blankCity then e2[CityField := CityRequired] else e2
  }

  /** The `err` record: one entry per blank required field. */
  function AddressErrorsFor(form: AddressForm): map<AddressField, string> {
    ErrorsForBlanks(IsBlank(form.tag), IsBlank(form.addressLine), IsBlank(form.city))
  }

  /** A field has an entry exactly when it is blank (white space only). */
  lemma AddressErrorKeys(form: AddressForm)
    ensures LabelField in AddressErrorsFor(form) <==> AllSpaces(form.tag)
    ensures AddressLineField in AddressErrorsFor(form) <==> AllSpaces(form.addressLine)
    ensures CityField in AddressErrorsFor(form) <==> AllSpaces(form.city)
  {
  }

  function AddressDataFor(form: AddressForm): AddressData {
    AddressData(Trim(form.tag), Trim(form.addressLine), Trim(form.city),
                TrimmedOrNone(form.department), TrimmedOrNone(form.phone), form.isDefault)
  }

  /** The `err` record, filled one blank field at a time. */
  method BuildAddressErrors(form: AddressForm) returns (err: map<AddressField, string>)
    ensures err == AddressErrorsFor(form)
  {
    var blankLabel, blankAddressLine, blankCity := IsBlank(form.tag), IsBlank(form.addressLine), IsBlank(form.city);
    err := map[];
    if blankLabel {
      err := err[LabelField := LabelRequired];
    }
    if blankAddressLine {
      err := err[AddressLineField := AddressLineRequired];
    }
    if blankCity {
      err := err[CityField := CityRequired];
    }
    assert err == ErrorsForBlanks(blankLabel, blankAddressLine, blankCity);
  }

  /** `handleAddressSubmit`; `editing` is the id of the address being
      edited, if any. */
  method HandleAddressSubmit(form: AddressForm, editing: Option<int>)
    returns (err: map<AddressField, string>, action: Option<AddressAction>)
    ensures err == AddressErrorsFor(form)
    ensures action.Some? <==> |err| == 0
    ensures action.Some? && editing.Some? ==> action.value == UpdateAddress(editing.value, AddressDataFor(form))
    ensures action.Some? && editing.None? ==> action.value == CreateAddress(AddressDataFor(form))
  {
    err := BuildAddressErrors(form);
    if |err| > 0 {
      action := None;
      return;
    }
    if editing.Some? {
      action := Some(UpdateAddress(editing.value, AddressDataFor(form)));
    } else {
      action := Some(CreateAddress(AddressDataFor(form)));
    }
  }

  /** A request is made exactly when label, address line and city are all
      non-blank; the optional fields are then sent only when non-blank. */
  lemma AddressGate(form: AddressForm)
    ensures |AddressErrorsFor(form)| == 0 <==>
      !AllSpaces(form.tag) && !AllSpaces(form.addressLine) && !AllSpaces(form.city)
    ensures AddressDataFor(form).department.None? <==> AllSpaces(form.department)
    ensures AddressDataFor(form).phone.None? <==> AllSpaces(form.phone)
  {
    var err := AddressErrorsFor(form);
    AddressErrorKeys(form);
    if |err| == 0 {
      assert err == map[];
    }
  }
}

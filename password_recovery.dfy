/** The three-step password recovery page: an e-mail form that requests a
    code, a six-digit code form that verifies it, and a new-password form
    that resets the password and then goes to the login page. Each submit
    handler first recomputes only its own messages; a message stops the
    handler before any request, and a step is left only when its request
    succeeds. The back button, shown from step 2 on, goes one step back.

    The outcome of each request is a parameter (`ok`). The transitions are
    the pure functions `AfterStep1`, `AfterStep2`, `AfterStep3` and
    `AfterBack` over `Page`; the class `RecoveryPage` holds the page's
    state variables and its handlers assign them as those functions say. */
module PasswordRecovery {
  import opened Text
  import opened Validators
  import opened FormChecks

  datatype Errors = Errors(email: string, code: string, password: string, confirmPassword: string)

  /** Everything the page keeps in its state variables. */
  datatype Page = Page(
    step: int,
    email: string,
    code: string,
    password: string,
    confirmPassword: string,
    isLoading: bool,
    errors: Errors)

  const CodeInvalid: string := "Ingresa el código de 6 dígitos"

  function InitialPage(): Page {
    Page(1, "", "", "", "", false, Errors("", "", "", ""))
  }

  /** `type Step = 1 | 2 | 3`. */
  predicate ValidStep(p: Page) {
    1 <= p.step <= 3
  }

  /** The message of step 2. */
  function CodeError(code: string): (e: string)
    ensures e == "" <==> Utf16Length(code) == 6
    ensures e == CodeInvalid <==> Utf16Length(code) != 6
  {
    if code == "" || Utf16Length(code) != 6 then CodeInvalid else ""
  }

  /** The state after a request has been made: loading is over, and the
      step is `next` when the request succeeded. */
  function AfterRequest(p: Page, ok: bool, next: int): Page {
    p.(step := if ok then next else p.step, isLoading := false)
  }

  /** `handleStep1`. */
  function AfterStep1(p: Page, ok: bool): Page {
    var q := p.(errors := p.errors.(email := EmailError(p.email)));
    if q.errors.email != "" then q else AfterRequest(q, ok, 2)
  }

  /** `handleStep2`. */
  function AfterStep2(p: Page, ok: bool): Page {
    var q := p.(errors := p.errors.(code := CodeError(p.code)));
    if q.errors.code != "" then q else AfterRequest(q, ok, 3)
  }

  /** `handleStep3`: the step does not change; success leaves the page. */
  function AfterStep3(p: Page, ok: bool): Page {
    var q := p.(errors := p.errors.(password := PasswordError(p.password),
                                    confirmPassword := ConfirmError(p.password, p.confirmPassword)));
    if q.errors.password != "" || q.errors.confirmPassword != "" then q else AfterRequest(q, ok, p.step)
  }

  /** Whether `handleStep3` calls the reset request. */
  predicate ResetRequested(p: Page) {
    PasswordError(p.password) == "" && ConfirmError(p.password, p.confirmPassword) == ""
  }

  /** Whether `handleStep3` navigates to the login page. */
  predicate NavigatesToLogin(p: Page, ok: bool) {
    ResetRequested(p) && ok
  }

  /** The back button: `setStep((s) => s - 1)`. */
  function AfterBack(p: Page): Page {
    p.(step := p.step - 1)
  }

  /** The back button is rendered in place of the home link when the step is not 1. */
  predicate BackShown(p: Page) {
    p.step != 1
  }

  /** The code form's submit button is disabled while loading or while the
      code does not have six characters. */
  predicate Step2SubmitDisabled(p: Page) {
    p.isLoading || Utf16Length(p.code) != 6
  }

  /** The page starts on step 1 and every transition keeps the step in
      {1, 2, 3} (the back button only where it is shown). */
  lemma StepStaysInRange(p: Page, ok: bool)
    requires ValidStep(p)
    ensures ValidStep(InitialPage())
    ensures ValidStep(AfterStep1(p, ok)) && ValidStep(AfterStep2(p, ok)) && ValidStep(AfterStep3(p, ok))
    ensures BackShown(p) ==> ValidStep(AfterBack(p))
  {
  }

  /** A validation failure changes only the handler's own messages: the
      step and the loading flag stay and no request is made. */
  lemma ValidationFailureKeepsStep(p: Page, ok: bool)
    ensures !ValidateEmail(p.email) ==>
      AfterStep1(p, ok) == p.(errors := p.errors.(email := EmailError(p.email)))
    ensures Utf16Length(p.code) != 6 ==>
      AfterStep2(p, ok) == p.(errors := p.errors.(code := CodeError(p.code)))
    ensures !ResetRequested(p) ==>
      AfterStep3(p, ok) == p.(errors := p.errors.(password := PasswordError(p.password),
                                                  confirmPassword := ConfirmError(p.password, p.confirmPassword)))
  {
  }

  /** Step 1 moves to step 2, and step 2 to step 3, exactly when the input
      is valid and the request succeeds; otherwise the step stays. */
  lemma StepAdvances(p: Page, ok: bool)
    requires p.step == 1 || p.step == 2
    ensures p.step == 1 ==> (AfterStep1(p, ok).step == 2 <==> ValidateEmail(p.email) && ok)
    ensures p.step == 1 ==> (AfterStep1(p, ok).step == 1 <==> !(ValidateEmail(p.email) && ok))
    ensures p.step == 2 ==> (AfterStep2(p, ok).step == 3 <==> Utf16Length(p.code) == 6 && ok)
    ensures p.step == 2 ==> (AfterStep2(p, ok).step == 2 <==> !(Utf16Length(p.code) == 6 && ok))
  {
  }

  /** The reset is requested exactly when the password has at least eight
      characters and the confirmation equals it. */
  lemma ResetRequestedIff(p: Page)
    ensures ResetRequested(p) <==> Utf16Length(p.password) >= 8 && p.confirmPassword == p.password
  {
  }

  /** Each handler leaves the other handlers' messages, and the form's
      inputs, as they were. */
  lemma HandlersKeepOtherMessages(p: Page, ok: bool)
    ensures var q := AfterStep1(p, ok);
      q.errors.code == p.errors.code && q.errors.password == p.errors.password
      && q.errors.confirmPassword == p.errors.confirmPassword
    ensures var q := AfterStep2(p, ok);
      q.errors.email == p.errors.email && q.errors.password == p.errors.password
      && q.errors.confirmPassword == p.errors.confirmPassword
    ensures var q := AfterStep3(p, ok);
      q.errors.email == p.errors.email && q.errors.code == p.errors.code
      && q.step == p.step
    ensures AfterStep1(p, ok).email == p.email && AfterStep2(p, ok).code == p.code
  {
  }

  /** An enabled code button always submits a code that passes the check. */
  lemma EnabledCodeSubmitPasses(p: Page)
    requires !Step2SubmitDisabled(p)
    ensures CodeError(p.code) == ""
  {
  }

  /** Two successful submits from the start, with a valid address and a
      six-character code, reach step 3 with no messages. */
  lemma HappyPath(email: string, code: string)
    requires ValidateEmail(email) && Utf16Length(code) == 6
    ensures var p0 := InitialPage().(email := email, code := code);
      var p2 := AfterStep2(AfterStep1(p0, true), true);
      p2.step == 3 && p2.errors == Errors("", "", "", "") && !p2.isLoading
  {
  }

  /** The page's state variables and handlers. */
  class RecoveryPage {
    var step: int
    var email: string
    var code: string
    var password: string
    var confirmPassword: string
    var isLoading: bool
    var errors: Errors

    function State(): Page
      reads this
    {
      Page(step, email, code, password, confirmPassword, isLoading, errors)
    }

    constructor()
      ensures State() == InitialPage()
    {
      step, email, code, password, confirmPassword := 1, "", "", "", "";
      isLoading := false;
      errors := Errors("", "", "", "");
    }

    /** The `onChange` handlers of the three forms. */
    method SetInputs(newEmail: string, newCode: string, newPassword: string, newConfirm: string)
      modifies this
      ensures State() == old(State()).(email := newEmail, code := newCode,
                                       password := newPassword, confirmPassword := newConfirm)
    {
      email, code, password, confirmPassword := newEmail, newCode, newPassword, newConfirm;
    }

    /** `handleStep1`; `ok` says whether the code request succeeded. */
    method HandleStep1(ok: bool)
      modifies this
      ensures State() == AfterStep1(old(State()), ok)
      ensures old(ValidStep(State())) ==> ValidStep(State())
    {
      var newErrors := errors.(email := "");
      if email == "" {
        newErrors := newErrors.(email := EmailRequired);
      } else if !ValidateEmail(email) {
        newErrors := newErrors.(email := EmailInvalid);
      }
      errors := newErrors;
      if newErrors.email != "" {
        return;
      }
      isLoading := true;
      if ok {
        step := 2;
      }
      isLoading := false;
    }

    /** `handleStep2`; `ok` says whether the code was accepted. */
    method HandleStep2(ok: bool)
      modifies this
      ensures State() == AfterStep2(old(State()), ok)
      ensures old(ValidStep(State())) ==> ValidStep(State())
    {
      var newErrors := errors.(code := "");
      if code == "" || Utf16Length(code) != 6 {
        newErrors := newErrors.(code := CodeInvalid);
      }
      errors := newErrors;
      if newErrors.code != "" {
        return;
      }
      isLoading := true;
      if ok {
        step := 3;
      }
      isLoading := false;
    }

    /** `handleStep3`; `ok` says whether the reset succeeded, and
        `toLogin` whether the page then goes to the login page. */
    method HandleStep3(ok: bool) returns (toLogin: bool)
      modifies this
      ensures State() == AfterStep3(old(State()), ok)
      ensures toLogin <==> NavigatesToLogin(old(State()), ok)
      ensures step == old(step)
    {
      var newErrors := errors.(password := "", confirmPassword := "");
      if password == "" {
        newErrors := newErrors.(password := PasswordRequired);
      } else if Utf16Length(password) < 8 {
        newErrors := newErrors.(password := PasswordTooShort);
      }
      if confirmPassword == "" {
        newErrors := newErrors.(confirmPassword := ConfirmRequired);
      } else if password != confirmPassword {
        newErrors := newErrors.(confirmPassword := ConfirmMismatch);
      }
      errors := newErrors;
      toLogin := false;
      if newErrors.password != "" || newErrors.confirmPassword != "" {
        return;
      }
      isLoading := true;
      if ok {
        toLogin := true;
      }
      isLoading := false;
    }

    /** The back button, which exists only when the step is not 1. */
    method Back()
      requires BackShown(State())
      modifies this
      ensures State() == AfterBack(old(State()))
      ensures old(ValidStep(State())) ==> ValidStep(State())
    {
      step := step - 1;
    }
  }
}

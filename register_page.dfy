/**
 * The registration page: its password-confirmation form validator and the
 * two callbacks `register()` subscribes to the registration request.
 */
module RegisterPage {
  import opened Wrappers
  import opened Ui
  import opened Services

  /** A form group's controls: control name to current text value. */
  type Controls = map<string, string>

  /** `control.get(name)?.value`: `undefined` for a control the group does not hold. */
  function ControlValue(control: Controls, name: string): Option<string>
  {
    if name in control then Some(control[name]) else None
  }

  /** The error object `{passwordMismatch: true}`. */
  const PasswordMismatch: map<string, bool> := map["passwordMismatch" := true]

  /**
   * `passwordMatchValidator`: `null` when the two fields hold the same value,
   * the mismatch error otherwise. JavaScript's `!=` on two strings, two
   * `undefined`s, or a string and `undefined` agrees with equality on Option.
   */
  function PasswordMatchValidator(control: Controls): (r: Option<map<string, bool>>)
    ensures r.None? <==> ControlValue(control, "password") == ControlValue(control, "confirmPassword")
    ensures r.Some? <==> ControlValue(control, "password") != ControlValue(control, "confirmPassword")
    ensures r.Some? ==> r.value == PasswordMismatch
  {
    var password := ControlValue(control, "password");
    var confirmPassword := ControlValue(control, "confirmPassword");
    if password != confirmPassword then Some(PasswordMismatch) else None
  }

  /** Swapping the two password fields does not change the verdict. */
  lemma ValidatorIsSymmetric(control: Controls, swapped: Controls)
    requires ControlValue(swapped, "password") == ControlValue(control, "confirmPassword")
    requires ControlValue(swapped, "confirmPassword") == ControlValue(control, "password")
    ensures PasswordMatchValidator(swapped) == PasswordMatchValidator(control)
  {
  }

  /** Only the two password fields matter: email, fullName and roles are ignored. */
  lemma ValidatorReadsOnlyPasswords(control: Controls, other: Controls)
    requires ControlValue(other, "password") == ControlValue(control, "password")
    requires ControlValue(other, "confirmPassword") == ControlValue(control, "confirmPassword")
    ensures PasswordMatchValidator(other) == PasswordMatchValidator(control)
  {
  }

  /** One entry of the server's validation-error list. */
  datatype ValidationError = ValidationError(code: string, description: string)

  /** The part of an `HttpErrorResponse` the page reads. */
  datatype HttpErrorResponse = HttpErrorResponse(status: int, error: seq<ValidationError>)

  const ValidationStatus: int := 400
  const CloseAction: string := "Close"
  const ValidationNotice: string := "Validations error"

  /** `errors` as the error callback leaves it. */
  function ErrorsAfter(errors: Option<seq<ValidationError>>, err: HttpErrorResponse): (r: Option<seq<ValidationError>>)
    ensures err.status == ValidationStatus ==> r == Some(err.error)
    ensures err.status != ValidationStatus ==> r == errors
  {
    if err.status == ValidationStatus then Some(err.error) else errors
  }

  class RegisterComponent {
    /** The router and snack bar the component injects. */
    const fx: Effects
    /** `errors!: ValidationError[]`, unassigned until a 400 response arrives. */
    var errors: Option<seq<ValidationError>>

    constructor (fx: Effects)
      ensures this.fx == fx && errors == None
    {
      this.fx := fx;
      errors := None;
    }

    /** The `next` callback: show the server's message and go to the login page. */
    method OnRegisterNext(response: AuthResponse)
      modifies fx
      ensures fx.log == old(fx.log) + [Notification(response.message, CloseAction, NoticeDuration), Navigation([LoginPath])]
    {
      fx.Open(response.message, CloseAction, NoticeDuration);
      fx.Navigate([LoginPath]);
    }

    /** The `error` callback: on status 400 only, capture the error list and notify. */
    method OnRegisterError(err: HttpErrorResponse)
      modifies this, fx
      ensures errors == ErrorsAfter(old(errors), err)
      ensures fx.log == old(fx.log) +
        (if err.status == ValidationStatus then [Notification(ValidationNotice, CloseAction, NoticeDuration)] else [])
    {
      if err.status == ValidationStatus {
        errors := Some(err.error);
        fx.Open(ValidationNotice, CloseAction, NoticeDuration);
      }
    }
  }
}

/**
 * The sign-in form: its per-field validator, the typing trigger, the
 * submit gating and where a successful sign-in goes.
 */
module LoginForm {
  import opened Options
  import opened Text
  import opened Validation
  import Session
  import opened Guards

  /** The sign-in "password" rule: present and at least six UTF-16 code units, nothing more. */
  function PasswordError(value: string): (e: Option<Message>)
    ensures e.None? <==> Utf16Length(value) >= 6
    ensures value == "" ==> e == Some(PasswordRequired)
    ensures value != "" && Utf16Length(value) < 6 ==> e == Some(PasswordUnder6)
  {
    if value == "" then Some(PasswordRequired)
    else if Utf16Length(value) < 6 then Some(PasswordUnder6)
    else None
  }

  /** What `validateField(name, value)` leaves in its copy of `errors`. */
  predicate Validated(errors: Errors, next: Errors, name: string, value: string) {
    if name == "email" then Recorded(errors, next, "email", EmailError(value))
    else if name == "password" then Recorded(errors, next, "password", PasswordError(value))
    else next == errors
  }

  /** `validateField` reports success only when no field at all has an entry left. */
  method ValidateField(errors: Errors, name: string, value: string)
    returns (next: Errors, valid: bool)
    ensures Validated(errors, next, name, value)
    ensures valid <==> |next| == 0
  {
    next := errors;
    if name == "email" {
      if value == "" {
        next := next["email" := EmailRequired];
      } else if !EmailPatternTest(value) {
        next := next["email" := EmailInvalid];
      } else {
        next := next - {"email"};
      }
      assert Recorded(errors, next, "email", EmailError(value));
    } else if name == "password" {
      if value == "" {
        next := next["password" := PasswordRequired];
      } else if Utf16Length(value) < 6 {
        next := next["password" := PasswordUnder6];
      } else {
        next := next - {"password"};
      }
      assert Recorded(errors, next, "password", PasswordError(value));
    }
    valid := |next| == 0;
  }

  /**
   * The copy `validateField` returns is empty exactly when the field passed
   * its rule and no other field had an entry; an unknown field name changes
   * nothing.
   */
  lemma ValidatedEmpty(errors: Errors, next: Errors, name: string, value: string)
    requires Validated(errors, next, name, value)
    ensures name == "email" ==> (|next| == 0 <==> EmailError(value).None? && errors.Keys <= {"email"})
    ensures name == "password" ==>
              (|next| == 0 <==> PasswordError(value).None? && errors.Keys <= {"password"})
    ensures name != "email" && name != "password" ==> next == errors
  {
    if name == "email" {
      RecordedEmpty(errors, next, "email", EmailError(value));
    } else if name == "password" {
      RecordedEmpty(errors, next, "password", PasswordError(value));
    }
  }

  /** `handleFieldChange`: typing validates the field only when the new value is non-empty. */
  method HandleFieldChange(errors: Errors, name: string, value: string)
    returns (next: Errors, validated: bool)
    ensures validated <==> value != ""
    ensures !validated ==> next == errors
    ensures validated ==> Validated(errors, next, name, value)
  {
    next := errors;
    validated := value != "";
    if validated {
      var ok;
      next, ok := ValidateField(errors, name, value);
    }
  }

  /**
   * `onSubmit`: both validations start from the same render-time `errors`
   * and each needs the whole map empty, so `login` is called only when both
   * fields pass and no entry at all was showing; the password's copy is the
   * one the form keeps.
   */
  method Submit(errors: Errors, email: string, password: string)
    returns (next: Errors, callLogin: bool)
    ensures callLogin <==> |errors| == 0 && EmailError(email).None? && PasswordError(password).None?
    ensures Recorded(errors, next, "password", PasswordError(password))
  {
    var e1, emailValid := ValidateField(errors, "email", email);
    ValidatedEmpty(errors, e1, "email", email);
    var passwordValid;
    next, passwordValid := ValidateField(errors, "password", password);
    ValidatedEmpty(errors, next, "password", password);
    callLogin := emailValid && passwordValid;
    assert callLogin ==> errors.Keys == {} by {
      if callLogin {
        assert errors.Keys <= {"email"} && errors.Keys <= {"password"};
      }
    }
  }

  /** `location.state?.from?.pathname || "/"`: the page a guard sent the visitor away from. */
  function RedirectTarget(from: Option<Location>): (path: string)
    ensures path != ""
    ensures from.Some? && from.value.pathname != "" ==> path == from.value.pathname
    ensures from.None? || from.value.pathname == "" ==> path == "/"
  {
    if from.Some? && from.value.pathname != "" then from.value.pathname else "/"
  }

  /** After `login` settles: back to where the visitor came from, replacing history, or the message. */
  function AfterLogin(result: Session.AuthResult, from: Option<Location>): (n: Navigation)
    ensures result.Succeeded? ==> n == Navigate(RedirectTarget(from), true)
    ensures result.Failed? ==> n == ShowError(result.message)
  {
    match result
    case Succeeded => Navigate(RedirectTarget(from), true)
    case Failed(message) => ShowError(message)
  }

  /**
   * A visitor `Protected` turned away comes back to the page they asked
   * for once they sign in.
   */
  lemma SignInReturnsToProtectedPage(role: string, location: Location)
    requires location.pathname != ""
    ensures AfterLogin(Session.Succeeded, Protected(None, role, location).from)
            == Navigate(location.pathname, true)
  {
  }
}

/**
 * The registration form: its per-field validator, the typing trigger, the
 * submit gating and the password-strength meter.
 */
module RegisterForm {
  import opened Options
  import opened Text
  import opened Validation
  import Session
  import Guards

  /** The "name" rule: at least two UTF-16 code units, the empty name reported as missing. */
  function NameError(value: string): (e: Option<Message>)
    ensures e.None? <==> Utf16Length(value) >= 2
    ensures value == "" ==> e == Some(NameRequired)
    ensures value != "" && Utf16Length(value) < 2 ==> e == Some(NameTooShort)
  {
    if value == "" then Some(NameRequired)
    else if Utf16Length(value) < 2 then Some(NameTooShort)
    else None
  }

  /** The "password" rule, checked in order: present, 8 code units, the three classes on one line. */
  function PasswordError(value: string): (e: Option<Message>)
    ensures e.None? <==> Utf16Length(value) >= 8 && CompositionTest(value)
    ensures value == "" ==> e == Some(PasswordRequired)
    ensures value != "" && Utf16Length(value) < 8 ==> e == Some(PasswordUnder8)
    ensures Utf16Length(value) >= 8 && !CompositionTest(value) ==> e == Some(PasswordWeak)
  {
    if value == "" then Some(PasswordRequired)
    else if Utf16Length(value) < 8 then Some(PasswordUnder8)
    else if !CompositionTest(value) then Some(PasswordWeak)
    else None
  }

  /** The "confirmPassword" rule against the password currently typed. */
  function ConfirmError(value: string, password: string): (e: Option<Message>)
    ensures e.None? <==> value != "" && value == password
    ensures value == "" ==> e == Some(ConfirmRequired)
    ensures value != "" && value != password ==> e == Some(PasswordsDiffer)
  {
    if value == "" then Some(ConfirmRequired)
    else if value != password then Some(PasswordsDiffer)
    else None
  }

  /**
   * What `validateField(name, value, confirmValue)` leaves in its copy of
   * `errors`. `confirmValue` is "" when the caller passes none (`null`);
   * `password` is the password field's current value.
   */
  predicate Validated(errors: Errors, next: Errors, name: string, value: string,
                      confirmValue: string, password: string)
  {
    if name == "name" then Recorded(errors, next, "name", NameError(value))
    else if name == "email" then Recorded(errors, next, "email", EmailError(value))
    else if name == "password" then
      var mid := Record(errors, "password", PasswordError(value));
      if confirmValue == "" then next == mid
      else Recorded(mid, next, "confirmPassword",
                    if value != confirmValue then Some(PasswordsDiffer) else None)
    else if name == "confirmPassword" then
      Recorded(errors, next, "confirmPassword", ConfirmError(value, password))
    else next == errors
  }

  method ValidateField(errors: Errors, name: string, value: string, confirmValue: string,
                       password: string)
    returns (next: Errors, valid: bool)
    ensures Validated(errors, next, name, value, confirmValue, password)
    ensures valid <==> !HasError(next, name)
  {
    next := errors;
    if name == "name" {
      if value == "" {
        next := next["name" := NameRequired];
      } else if Utf16Length(value) < 2 {
        next := next["name" := NameTooShort];
      } else {
        next := next - {"name"};
      }
      assert Recorded(errors, next, "name", NameError(value));
      valid := !HasError(next, "name");
    } else if name == "email" {
      if value == "" {
        next := next["email" := EmailRequired];
      } else if !EmailPatternTest(value) {
        next := next["email" := EmailInvalid];
      } else {
        next := next - {"email"};
      }
      assert Recorded(errors, next, "email", EmailError(value));
      valid := !HasError(next, "email");
    } else if name == "password" {
      if value == "" {
        next := next["password" := PasswordRequired];
      } else if Utf16Length(value) < 8 {
        next := next["password" := PasswordUnder8];
      } else if !CompositionTest(value) {
        next := next["password" := PasswordWeak];
      } else {
        next := next - {"password"};
      }
      assert Recorded(errors, next, "password", PasswordError(value));
      // Re-validate the confirmation when one is given.
      if confirmValue != "" && value != confirmValue {
        next := next["confirmPassword" := PasswordsDiffer];
      } else if confirmValue != "" {
        next := next - {"confirmPassword"};
      }
      valid := !HasError(next, "password");
    } else if name == "confirmPassword" {
      if value == "" {
        next := next["confirmPassword" := ConfirmRequired];
      } else if value != password {
        next := next["confirmPassword" := PasswordsDiffer];
      } else {
        next := next - {"confirmPassword"};
      }
      assert Recorded(errors, next, "confirmPassword", ConfirmError(value, password));
      valid := !HasError(next, "confirmPassword");
    } else {
      valid := !HasError(next, name);
    }
  }

  /**
   * What `validateField` returns: the field passed exactly when its rule
   * holds, and a password edit touches only the password entry and, when a
   * confirmation is given, the confirmation's, which then shows an error
   * exactly when the two differ.
   */
  lemma ValidatedMeans(errors: Errors, next: Errors, name: string, value: string,
                       confirmValue: string, password: string)
    requires Validated(errors, next, name, value, confirmValue, password)
    ensures name == "name" ==> (!HasError(next, name) <==> NameError(value).None?)
    ensures name == "email" ==> (!HasError(next, name) <==> EmailError(value).None?)
    ensures name == "password" ==> (!HasError(next, name) <==> PasswordError(value).None?)
    ensures name == "confirmPassword" ==>
              (!HasError(next, name) <==> ConfirmError(value, password).None?)
    ensures name == "password" ==>
              next - {"password", "confirmPassword"} == errors - {"password", "confirmPassword"}
    ensures name == "password" && confirmValue == "" ==> next - {"password"} == errors - {"password"}
    ensures name == "password" && confirmValue != "" ==>
              (HasError(next, "confirmPassword") <==> value != confirmValue)
  {
    if name == "password" {
      var mid := Record(errors, "password", PasswordError(value));
      RecordedFrame(errors, mid, "password", PasswordError(value));
      if confirmValue != "" {
        var e := if value != confirmValue then Some(PasswordsDiffer) else None;
        RecordedFrame(mid, next, "confirmPassword", e);
        assert next - {"password", "confirmPassword"} == (next - {"confirmPassword"}) - {"password"};
        assert errors - {"password", "confirmPassword"} == (errors - {"password"}) - {"confirmPassword"};
      }
    }
  }

  /**
   * `handleFieldChange`: typing re-validates the field when the new value is
   * non-empty or the field already shows an error; a password edit also
   * re-checks the confirmation typed so far.
   */
  method HandleFieldChange(errors: Errors, name: string, value: string, confirmPassword: string,
                           password: string)
    returns (next: Errors, validated: bool)
    ensures validated <==> value != "" || HasError(errors, name)
    ensures !validated ==> next == errors
    ensures validated && name == "password" ==>
              Validated(errors, next, name, value, confirmPassword, password)
    ensures validated && name != "password" ==> Validated(errors, next, name, value, "", password)
  {
    next := errors;
    validated := value != "" || HasError(errors, name);
    if validated {
      var ok;
      if name == "password" {
        next, ok := ValidateField(errors, name, value, confirmPassword, password);
      } else {
        next, ok := ValidateField(errors, name, value, "", password);
      }
    }
  }

  /**
   * `onSubmit`: the four validations each start from the same render-time
   * `errors`, the last one written (confirmPassword's) is what the form
   * shows, and `register` is called only when all four pass.
   */
  method Submit(errors: Errors, name: string, email: string, password: string,
                confirmPassword: string)
    returns (next: Errors, callRegister: bool)
    ensures callRegister <==> NameError(name).None? && EmailError(email).None?
                              && PasswordError(password).None?
                              && ConfirmError(confirmPassword, password).None?
    ensures callRegister <==> Utf16Length(name) >= 2 && email != "" && EmailShape(email)
                              && Utf16Length(password) >= 8 && CompositionTest(password)
                              && confirmPassword == password
    ensures Recorded(errors, next, "confirmPassword", ConfirmError(confirmPassword, password))
  {
    var e1, nameValid := ValidateField(errors, "name", name, "", password);
    ValidatedMeans(errors, e1, "name", name, "", password);
    var e2, emailValid := ValidateField(errors, "email", email, "", password);
    ValidatedMeans(errors, e2, "email", email, "", password);
    var e3, passwordValid := ValidateField(errors, "password", password, confirmPassword, password);
    ValidatedMeans(errors, e3, "password", password, confirmPassword, password);
    var confirmValid;
    next, confirmValid := ValidateField(errors, "confirmPassword", confirmPassword, "", password);
    ValidatedMeans(errors, next, "confirmPassword", confirmPassword, "", password);
    callRegister := nameValid && emailValid && passwordValid && confirmValid;
    EmailRule(email);
  }

  /** After `register` settles: home on success, the message shown otherwise. */
  function AfterRegister(result: Session.AuthResult): (n: Guards.Navigation)
    ensures result.Succeeded? ==> n == Guards.Navigate("/", false)
    ensures result.Failed? ==> n == Guards.ShowError(result.message)
  {
    match result
    case Succeeded => Guards.Navigate("/", false)
    case Failed(message) => Guards.ShowError(message)
  }

  // ---------------------------------------------------------------------
  // The strength meter
  // ---------------------------------------------------------------------

  /** The five criteria `getPasswordStrength` tests, in its order. */
  function Criteria(password: string): seq<bool> {
    [Utf16Length(password) >= 8, LookaheadTest(password, Lower), LookaheadTest(password, Upper),
     LookaheadTest(password, Digit), LookaheadTest(password, Special)]
  }

  function CountTrue(bs: seq<bool>): (n: nat)
    ensures n <= |bs|
    ensures n == |bs| <==> forall k | 0 <= k < |bs| :: bs[k]
  {
    if bs == [] then 0 else (if bs[0] then 1 else 0) + CountTrue(bs[1..])
  }

  method PasswordStrength(password: string) returns (strength: nat)
    ensures strength == CountTrue(Criteria(password))
    ensures strength <= 5
  {
    strength := 0;
    if Utf16Length(password) >= 8 { strength := strength + 1; }
    if LookaheadTest(password, Lower) { strength := strength + 1; }
    if LookaheadTest(password, Upper) { strength := strength + 1; }
    if LookaheadTest(password, Digit) { strength := strength + 1; }
    if LookaheadTest(password, Special) { strength := strength + 1; }
    CountFive(Criteria(password));
  }

  lemma CountFive(c: seq<bool>)
    requires |c| == 5
    ensures CountTrue(c) == (if c[0] then 1 else 0) + (if c[1] then 1 else 0)
                            + (if c[2] then 1 else 0) + (if c[3] then 1 else 0)
                            + (if c[4] then 1 else 0)
  {
    assert CountTrue(c[4..]) == if c[4] then 1 else 0;
    assert CountTrue(c[3..]) == (if c[3] then 1 else 0) + CountTrue(c[4..]);
    assert CountTrue(c[2..]) == (if c[2] then 1 else 0) + CountTrue(c[3..]);
    assert CountTrue(c[1..]) == (if c[1] then 1 else 0) + CountTrue(c[2..]);
  }

  function StrengthColor(strength: int): (color: string)
    ensures strength <= 2 ==> color == "bg-error-500"
    ensures strength == 3 ==> color == "bg-warning-500"
    ensures strength > 3 ==> color == "bg-success-500"
  {
    if strength <= 2 then "bg-error-500"
    else if strength == 3 then "bg-warning-500"
    else "bg-success-500"
  }

  function StrengthText(strength: int): (text: string)
    ensures strength <= 2 ==> text == "Weak"
    ensures strength == 3 ==> text == "Good"
    ensures strength > 3 ==> text == "Strong"
  {
    if strength <= 2 then "Weak"
    else if strength == 3 then "Good"
    else "Strong"
  }

  /** A password the validator accepts meets at least four criteria, so the meter says "Strong". */
  lemma AcceptedPasswordIsStrong(password: string)
    requires PasswordError(password).None?
    ensures CountTrue(Criteria(password)) >= 4
    ensures StrengthText(CountTrue(Criteria(password))) == "Strong"
    ensures StrengthColor(CountTrue(Criteria(password))) == "bg-success-500"
  {
    CompositionNeedsAllClasses(password);
    LookaheadTestIsContains(password, Lower);
    LookaheadTestIsContains(password, Upper);
    LookaheadTestIsContains(password, Digit);
    var c := Criteria(password);
    assert c[0] && c[1] && c[2] && c[3];
    assert CountTrue(c[3..]) >= 1;
    assert CountTrue(c[2..]) >= 2;
    assert CountTrue(c[1..]) >= 3;
  }
}

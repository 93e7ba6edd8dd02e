/**
 * The field-error map the three forms keep (`fieldErrors`), and the rule
 * the registration and sign-in forms share for the e-mail field.
 */
module Validation {
  import opened Options
  import opened Text

  /** Every message a validator of the three forms can write into the map. */
  datatype Message =
    | EmailRequired | EmailInvalid
    | NameRequired | NameTooShort
    | PasswordRequired | PasswordUnder8 | PasswordWeak | PasswordUnder6
    | ConfirmRequired | PasswordsDiffer
    | TitleRequired | TitleTooShort | InstructorRequired | SeatsTooFew
    | StartNotBeforeEnd | EndNotAfterStart

  /** The text the form shows for each message; none is empty, so each is truthy. */
  function Display(m: Message): string {
    match m
    case EmailRequired => "Email is required"
    case EmailInvalid => "Please enter a valid email address"
    case NameRequired => "Name is required"
    case NameTooShort => "Name must be at least 2 characters"
    case PasswordRequired => "Password is required"
    case PasswordUnder8 => "Password must be at least 8 characters"
    case PasswordWeak => "Password must contain uppercase, lowercase, and number"
    case PasswordUnder6 => "Password must be at least 6 characters"
    case ConfirmRequired => "Please confirm your password"
    case PasswordsDiffer => "Passwords do not match"
    case TitleRequired => "Course title is required"
    case TitleTooShort => "Title must be at least 3 characters"
    case InstructorRequired => "Instructor name is required"
    case SeatsTooFew => "Must have at least 1 seat available"
    case StartNotBeforeEnd => "Start date must be before end date"
    case EndNotAfterStart => "End date must be after start date"
  }

  /** Field name to message; a missing key means "no error shown". */
  type Errors = map<string, Message>

  /**
   * JavaScript truthiness of `errors[key]`: the key is present, since every
   * message `Display` gives is a non-empty string.
   */
  predicate HasError(errors: Errors, key: string) {
    key in errors
  }

  /** A validator's outcome `e` for `key` written into the copy: the message assigned, or the key deleted. */
  function Record(errors: Errors, key: string, e: Option<Message>): Errors {
    if e.Some? then errors[key := e.value] else errors - {key}
  }

  /** `next` is the copy of `errors` after a validator handled `key` with outcome `e`. */
  predicate Recorded(errors: Errors, next: Errors, key: string, e: Option<Message>) {
    next == Record(errors, key, e)
  }

  /** Recording touches only its own key, and leaves an error there exactly on failure. */
  lemma RecordedFrame(errors: Errors, next: Errors, key: string, e: Option<Message>)
    requires Recorded(errors, next, key, e)
    ensures next - {key} == errors - {key}
    ensures HasError(next, key) <==> e.Some?
  {
  }

  /** The copy is empty exactly when the field passed and no other field had an entry. */
  lemma RecordedEmpty(errors: Errors, next: Errors, key: string, e: Option<Message>)
    requires Recorded(errors, next, key, e)
    ensures |next| == 0 <==> e.None? && errors.Keys <= {key}
  {
    if |next| == 0 {
      RecordedFrame(errors, next, key, e);
      assert (errors - {key}).Keys == {};
    }
    if e.None? && errors.Keys <= {key} {
      assert next.Keys == {};
    }
  }

  /** The "email" rule of both forms: required first, then `/\S+@\S+\.\S+/`. */
  function EmailError(value: string): Option<Message> {
    if value == "" then Some(EmailRequired)
    else if !EmailPatternTest(value) then Some(EmailInvalid)
    else None
  }

  /** An address passes when it is present and has the shape the pattern looks for. */
  lemma EmailRule(value: string)
    ensures EmailError(value).None? <==> value != "" && EmailShape(value)
    ensures value == "" ==> EmailError(value) == Some(EmailRequired)
    ensures value != "" && !EmailShape(value) ==> EmailError(value) == Some(EmailInvalid)
  {
    EmailPatternIsShape(value);
  }
}

/**
 * The course editor: its per-field validator, the five-way submit check,
 * the payload `normalize` builds, and the edit-mode loading that reads a
 * stored course back into the form. Dates are day numbers; an empty date
 * input is `None`.
 */
module CourseForm {
  import opened Options
  import opened Text
  import opened Validation

  type Day = int

  /** The form state: `seats` is already a number, `parseInt(...) || 0` being left to the input. */
  datatype Draft = Draft(title: string, description: string, instructor: string, seats: int,
                         startsAt: Option<Day>, endsAt: Option<Day>)

  /** The empty form a new course starts from. */
  const Blank := Draft("", "", "", 0, None, None)

  /** One `validateField(name, value)` call: the field named with its value. */
  datatype Edit =
    | Title(text: string)
    | Description(text: string)
    | Instructor(text: string)
    | Seats(count: int)
    | StartsAt(date: Option<Day>)
    | EndsAt(date: Option<Day>)

  function Key(edit: Edit): string {
    match edit
    case Title(_) => "title"
    case Description(_) => "description"
    case Instructor(_) => "instructor"
    case Seats(_) => "seats"
    case StartsAt(_) => "startsAt"
    case EndsAt(_) => "endsAt"
  }

  /** The "title" rule: blank after trimming first, then at least three code units untrimmed. */
  function TitleError(value: string): (e: Option<Message>)
    ensures e.None? <==> !IsBlank(value) && Utf16Length(value) >= 3
    ensures IsBlank(value) ==> e == Some(TitleRequired)
    ensures !IsBlank(value) && Utf16Length(value) < 3 ==> e == Some(TitleTooShort)
  {
    TrimSpec(value);
    if Trim(value) == "" then Some(TitleRequired)
    else if Utf16Length(value) < 3 then Some(TitleTooShort)
    else None
  }

  /** The "instructor" rule: only a blank name is refused; there is no length limit. */
  function InstructorError(value: string): (e: Option<Message>)
    ensures e.None? <==> !IsBlank(value)
    ensures e.Some? ==> e.value == InstructorRequired
  {
    TrimSpec(value);
    if Trim(value) == "" then Some(InstructorRequired) else None
  }

  function SeatsError(count: int): (e: Option<Message>)
    ensures e.None? <==> count >= 1
    ensures e.Some? ==> e.value == SeatsTooFew
  {
    if count < 1 then Some(SeatsTooFew) else None
  }

  /** Two given dates in the wrong order; an empty date is never wrong. */
  predicate Misordered(start: Option<Day>, end: Option<Day>) {
    start.Some? && end.Some? && start.value >= end.value
  }

  /**
   * What `validateField` leaves in its copy of `errors`; `form` is the form
   * as rendered, which the date checks read the other date from. A date
   * that passes clears the entries of both dates.
   */
  predicate Validated(errors: Errors, next: Errors, edit: Edit, form: Draft) {
    match edit
    case Title(v) => Recorded(errors, next, "title", TitleError(v))
    case Description(_) => next == errors
    case Instructor(v) => Recorded(errors, next, "instructor", InstructorError(v))
    case Seats(n) => Recorded(errors, next, "seats", SeatsError(n))
    case StartsAt(d) =>
      next == if Misordered(d, form.endsAt) then errors["startsAt" := StartNotBeforeEnd]
              else errors - {"startsAt", "endsAt"}
    case EndsAt(d) =>
      next == if Misordered(form.startsAt, d) then errors["endsAt" := EndNotAfterStart]
              else errors - {"endsAt", "startsAt"}
  }

  method ValidateField(errors: Errors, edit: Edit, form: Draft) returns (next: Errors, valid: bool)
    ensures Validated(errors, next, edit, form)
    ensures valid <==> !HasError(next, Key(edit))
  {
    next := errors;
    match edit {
      case Title(v) =>
        if Trim(v) == "" {
          next := next["title" := TitleRequired];
        } else if Utf16Length(v) < 3 {
          next := next["title" := TitleTooShort];
        } else {
          next := next - {"title"};
        }
        assert Recorded(errors, next, "title", TitleError(v));
        valid := !HasError(next, "title");
      case Description(_) =>
        valid := !HasError(next, "description");
      case Instructor(v) =>
        if Trim(v) == "" {
          next := next["instructor" := InstructorRequired];
        } else {
          next := next - {"instructor"};
        }
        assert Recorded(errors, next, "instructor", InstructorError(v));
        valid := !HasError(next, "instructor");
      case Seats(n) =>
        if n < 1 {
          next := next["seats" := SeatsTooFew];
        } else {
          next := next - {"seats"};
        }
        assert Recorded(errors, next, "seats", SeatsError(n));
        valid := !HasError(next, "seats");
      case StartsAt(d) =>
        if d.Some? && form.endsAt.Some? && d.value >= form.endsAt.value {
          next := next["startsAt" := StartNotBeforeEnd];
        } else {
          next := next - {"startsAt"};
          next := next - {"endsAt"};
          assert next == errors - {"startsAt", "endsAt"};
        }
        valid := !HasError(next, "startsAt");
      case EndsAt(d) =>
        if d.Some? && form.startsAt.Some? && d.value <= form.startsAt.value {
          next := next["endsAt" := EndNotAfterStart];
        } else {
          next := next - {"endsAt"};
          next := next - {"startsAt"};
          assert next == errors - {"endsAt", "startsAt"};
        }
        valid := !HasError(next, "endsAt");
    }
  }

  /**
   * What `validateField` returns: the field passed its rule (a description
   * keeps whatever entry it had), and only the entry of that field, or of
   * the two dates, changed.
   */
  lemma ValidatedMeans(errors: Errors, next: Errors, edit: Edit, form: Draft)
    requires Validated(errors, next, edit, form)
    ensures edit.Title? ==> (!HasError(next, "title") <==> TitleError(edit.text).None?)
    ensures edit.Instructor? ==> (!HasError(next, "instructor") <==> InstructorError(edit.text).None?)
    ensures edit.Seats? ==> (!HasError(next, "seats") <==> edit.count >= 1)
    ensures edit.StartsAt? ==> (!HasError(next, "startsAt") <==> !Misordered(edit.date, form.endsAt))
    ensures edit.EndsAt? ==> (!HasError(next, "endsAt") <==> !Misordered(form.startsAt, edit.date))
    ensures edit.Description? ==> (HasError(next, "description") <==> HasError(errors, "description"))
    ensures !edit.StartsAt? && !edit.EndsAt? ==> next - {Key(edit)} == errors - {Key(edit)}
    ensures edit.StartsAt? || edit.EndsAt? ==>
              next - {"startsAt", "endsAt"} == errors - {"startsAt", "endsAt"}
  {
    match edit
    case Title(v) => RecordedFrame(errors, next, "title", TitleError(v));
    case Description(_) =>
    case Instructor(v) => RecordedFrame(errors, next, "instructor", InstructorError(v));
    case Seats(n) => RecordedFrame(errors, next, "seats", SeatsError(n));
    case StartsAt(d) =>
    case EndsAt(d) =>
  }

  /** `setForm({ ...form, [name]: value })`: the edited field takes the new value. */
  function Apply(form: Draft, edit: Edit): Draft {
    match edit
    case Title(v) => form.(title := v)
    case Description(v) => form.(description := v)
    case Instructor(v) => form.(instructor := v)
    case Seats(n) => form.(seats := n)
    case StartsAt(d) => form.(startsAt := d)
    case EndsAt(d) => form.(endsAt := d)
  }

  /** `value !== ""` for the value an input hands over; the seats input always hands over a number. */
  predicate Filled(edit: Edit) {
    match edit
    case Title(v) => v != ""
    case Description(v) => v != ""
    case Instructor(v) => v != ""
    case Seats(_) => true
    case StartsAt(d) => d.Some?
    case EndsAt(d) => d.Some?
  }

  /**
   * `handleFieldChange`: the form takes the new value, and the field is
   * validated, against the form as rendered, when the value is non-empty or
   * the field already shows an error.
   */
  method HandleFieldChange(errors: Errors, edit: Edit, form: Draft)
    returns (newForm: Draft, next: Errors, validated: bool)
    ensures newForm == Apply(form, edit)
    ensures validated <==> Filled(edit) || HasError(errors, Key(edit))
    ensures validated ==> Validated(errors, next, edit, form)
    ensures !validated ==> next == errors
  {
    newForm := Apply(form, edit);
    next := errors;
    validated := Filled(edit) || HasError(errors, Key(edit));
    if validated {
      var ok;
      next, ok := ValidateField(errors, edit, form);
    }
  }

  /** The dates of a form the submit check lets through: either is empty, or start precedes end. */
  predicate DatesOrdered(form: Draft) {
    form.startsAt.Some? && form.endsAt.Some? ==> form.startsAt.value < form.endsAt.value
  }

  /**
   * `onSubmit`: title, instructor and seats are always checked; an empty
   * date counts as valid without being validated. Every check starts from
   * the same render-time `errors`, and the last one run is what the form
   * keeps. Saving proceeds only when all five pass.
   */
  method Submit(errors: Errors, form: Draft) returns (next: Errors, save: bool)
    ensures save <==> TitleError(form.title).None? && InstructorError(form.instructor).None?
                      && form.seats >= 1 && DatesOrdered(form)
    ensures save <==> !IsBlank(form.title) && Utf16Length(form.title) >= 3
                      && !IsBlank(form.instructor) && form.seats >= 1 && DatesOrdered(form)
    ensures form.endsAt.Some? ==> Validated(errors, next, EndsAt(form.endsAt), form)
    ensures form.endsAt.None? && form.startsAt.Some? ==>
              Validated(errors, next, StartsAt(form.startsAt), form)
    ensures form.endsAt.None? && form.startsAt.None? ==> Validated(errors, next, Seats(form.seats), form)
  {
    var titleValid, instructorValid, seatsValid;
    next, titleValid := ValidateField(errors, Title(form.title), form);
    ValidatedMeans(errors, next, Title(form.title), form);
    next, instructorValid := ValidateField(errors, Instructor(form.instructor), form);
    ValidatedMeans(errors, next, Instructor(form.instructor), form);
    next, seatsValid := ValidateField(errors, Seats(form.seats), form);
    ValidatedMeans(errors, next, Seats(form.seats), form);
    var startDateValid := true;
    if form.startsAt.Some? {
      next, startDateValid := ValidateField(errors, StartsAt(form.startsAt), form);
      ValidatedMeans(errors, next, StartsAt(form.startsAt), form);
    }
    var endDateValid := true;
    if form.endsAt.Some? {
      next, endDateValid := ValidateField(errors, EndsAt(form.endsAt), form);
      ValidatedMeans(errors, next, EndsAt(form.endsAt), form);
    }
    save := titleValid && instructorValid && seatsValid && startDateValid && endDateValid;
  }

  // ---------------------------------------------------------------------
  // The payload sent to the backend, and the form loaded back from a course
  // ---------------------------------------------------------------------

  /** A JSON field value; `Date(None)` is the empty date input `""`. */
  datatype Value = Str(s: string) | Number(n: int) | Date(d: Option<Day>)

  type Course = map<string, Value>

  const TextKeys: set<string> := {"title", "description", "instructor"}

  /**
   * `normalize`: a copy of the form with `seats` as a number, from which an
   * empty start or end date is deleted.
   */
  method Normalize(form: Draft) returns (data: Course)
    ensures data.Keys == TextKeys + {"seats"}
                         + (if form.startsAt.Some? then {"startsAt"} else {})
                         + (if form.endsAt.Some? then {"endsAt"} else {})
    ensures data["title"] == Str(form.title) && data["description"] == Str(form.description)
    ensures data["instructor"] == Str(form.instructor) && data["seats"] == Number(form.seats)
    ensures "startsAt" in data ==> data["startsAt"] == Date(form.startsAt)
    ensures "endsAt" in data ==> data["endsAt"] == Date(form.endsAt)
    ensures Date(None) !in data.Values
    ensures Loaded(data) == form
  {
    data := map["title" := Str(form.title), "description" := Str(form.description),
                "instructor" := Str(form.instructor), "seats" := Number(form.seats),
                "startsAt" := Date(form.startsAt), "endsAt" := Date(form.endsAt)];
    if form.startsAt.None? {
      data := data - {"startsAt"};
    }
    if form.endsAt.None? {
      data := data - {"endsAt"};
    }
  }

  /** `c.title || ""` and the like: a missing or non-text field reads as "". */
  function TextField(c: Course, key: string): string {
    if key in c && c[key].Str? then c[key].s else ""
  }

  /** `c.seats || 0`. */
  function SeatsField(c: Course): int {
    if "seats" in c && c["seats"].Number? then c["seats"].n else 0
  }

  /** `c.startsAt ? c.startsAt.slice(0, 10) : ""`, with dates already day numbers. */
  function DateField(c: Course, key: string): Option<Day> {
    if key in c && c[key].Date? then c[key].d else None
  }

  /** The form the edit page fills from a stored course. */
  function Loaded(c: Course): (form: Draft)
    ensures c == map[] ==> form == Blank
    ensures "title" in c && c["title"].Str? ==> form.title == c["title"].s
    ensures "title" !in c ==> form.title == ""
    ensures "description" in c && c["description"].Str? ==> form.description == c["description"].s
    ensures "description" !in c ==> form.description == ""
    ensures "instructor" in c && c["instructor"].Str? ==> form.instructor == c["instructor"].s
    ensures "instructor" !in c ==> form.instructor == ""
    ensures "seats" in c && c["seats"].Number? ==> form.seats == c["seats"].n
    ensures "seats" !in c ==> form.seats == 0
    ensures "startsAt" in c && c["startsAt"].Date? ==> form.startsAt == c["startsAt"].d
    ensures "startsAt" !in c ==> form.startsAt.None?
    ensures "endsAt" in c && c["endsAt"].Date? ==> form.endsAt == c["endsAt"].d
    ensures "endsAt" !in c ==> form.endsAt.None?
  {
    Draft(TextField(c, "title"), TextField(c, "description"), TextField(c, "instructor"),
          SeatsField(c), DateField(c, "startsAt"), DateField(c, "endsAt"))
  }
}

/** frontend/src/pages/organizer/CreateEvent.jsx: the organizer's event
    form. Its state is the form data (a text input holds a string, a
    checkbox a flag; a name that was never set is undefined), the error
    messages shown under the fields, and the loading flag. */
module CreateEventPage {
  import opened Common
  import opened JsNumbers
  import JsStrings

  datatype FieldValue = Text(text: string) | Flag(flag: bool)

  type Form = map<string, FieldValue>

  type Errors = map<string, string>

  /** `formData[name]`, `None` when undefined. */
  function Field(form: Form, name: string): Option<FieldValue>
  {
    if name in form then Some(form[name]) else None
  }

  /** JavaScript truthiness of a form value. */
  predicate Filled(v: Option<FieldValue>)
  {
    match v
    case None => false
    case Some(Text(s)) => |s| > 0
    case Some(Flag(b)) => b
  }

  /** The number a form value compares as; `None` for NaN. */
  function NumberValue(v: Option<FieldValue>): Option<real>
  {
    match v
    case None => None
    case Some(Text(s)) => NumberOf(s)
    case Some(Flag(b)) => Some(if b then 1.0 else 0.0)
  }

  /** `v < bound`, which is false when `v` is NaN. */
  predicate Below(v: Option<FieldValue>, bound: real)
  {
    NumberValue(v).Some? && NumberValue(v).value < bound
  }

  /** `parseInt(v)`, which reads the value's string form: undefined and the
      flags give NaN. */
  function IntValue(v: Option<FieldValue>): Option<int>
  {
    match v
    case Some(Text(s)) => ParseInt(s)
    case _ => None
  }

  /** The seven fields `validateForm` checks. */
  datatype Checked = Title | Description | Date | Venue | BasePrice | TotalSeats | AvailableSeats

  /** The field's name in the form data and in the errors. */
  function Key(c: Checked): string
  {
    match c
    case Title => "title"
    case Description => "description"
    case Date => "date"
    case Venue => "venue"
    case BasePrice => "basePrice"
    case TotalSeats => "totalSeats"
    case AvailableSeats => "availableSeats"
  }

  const CheckedKeys: set<string> := {"title", "description", "date", "venue", "basePrice", "totalSeats", "availableSeats"}

  /** `parseInt(availableSeats) > parseInt(totalSeats)`, false when either
      side is NaN. */
  predicate Exceeds(form: Form)
  {
    var available := IntValue(Field(form, "availableSeats"));
    var total := IntValue(Field(form, "totalSeats"));
    available.Some? && total.Some? && available.value > total.value
  }

  const ExceedMessage: string := "Available seats cannot exceed total seats"

  /** The message `validateForm` leaves on a checked field, if any: the
      text fields must be filled in; the price must be given and not below
      0; the total must be given and not below 1; the available seats must
      be given and not below 0, and not above the total, a failure that
      replaces the other message. */
  function FieldError(form: Form, c: Checked): Option<string>
  {
    var v := Field(form, Key(c));
    match c
    case Title => if Filled(v) then None else Some("Title is required")
    case Description => if Filled(v) then None else Some("Description is required")
    case Date => if Filled(v) then None else Some("Date is required")
    case Venue => if Filled(v) then None else Some("Venue is required")
    case BasePrice => if !Filled(v) || Below(v, 0.0) then Some("Valid price is required") else None
    case TotalSeats => if !Filled(v) || Below(v, 1.0) then Some("Valid total seats is required") else None
    case AvailableSeats =>
      if Exceeds(form) then Some(ExceedMessage)
      else if !Filled(v) || Below(v, 0.0) then Some("Valid available seats is required")
      else None
  }

  /** The form passes validation: no checked field has a message. */
  predicate FormValid(form: Form)
  {
    && FieldError(form, Title).None? && FieldError(form, Description).None?
    && FieldError(form, Date).None? && FieldError(form, Venue).None?
    && FieldError(form, BasePrice).None? && FieldError(form, TotalSeats).None?
    && FieldError(form, AvailableSeats).None?
  }

  /** The position of the field's check in `validateForm`. */
  function Rank(c: Checked): nat
  {
    match c
    case Title => 0
    case Description => 1
    case Date => 2
    case Venue => 3
    case BasePrice => 4
    case TotalSeats => 5
    case AvailableSeats => 6
  }

  /** `errors` holds exactly the messages `validateForm` finds on the first
      `n` fields it checks, and nothing else. */
  ghost predicate ShowsErrorsUpTo(errors: Errors, form: Form, n: nat)
  {
    && (forall c :: Key(c) in errors <==> Rank(c) < n && FieldError(form, c).Some?)
    && (forall c :: Key(c) in errors ==> errors[Key(c)] == FieldError(form, c).value)
    && (forall k :: k in errors ==> k in CheckedKeys)
  }

  /** `errors` holds exactly the messages `validateForm` finds in `form`:
      one per failing checked field, and nothing else. */
  ghost predicate ShowsErrors(errors: Errors, form: Form)
  {
    ShowsErrorsUpTo(errors, form, 7)
  }

  /** `errors` with the field's message set, when it has one. */
  function Noted(errors: Errors, c: Checked, message: Option<string>): Errors
  {
    if message.Some? then errors[Key(c) := message.value] else errors
  }

  /** Different fields have different names. */
  lemma KeyInjective(c: Checked, d: Checked)
    ensures Key(c) == Key(d) ==> c == d
  {
    if c != d {
      assert |Key(c)| != |Key(d)| || Key(c)[0] != Key(d)[0];
    }
  }

  /** Setting one more field's message extends what the errors show. */
  lemma NotedShows(errors: Errors, form: Form, n: nat, c: Checked)
    requires n == Rank(c) && ShowsErrorsUpTo(errors, form, n)
    ensures ShowsErrorsUpTo(Noted(errors, c, FieldError(form, c)), form, n + 1)
  {
    var after := Noted(errors, c, FieldError(form, c));
    forall d
      ensures Key(d) in after <==> Rank(d) < Rank(c) + 1 && FieldError(form, d).Some?
      ensures Key(d) in after ==> after[Key(d)] == FieldError(form, d).value
    {
      KeyInjective(c, d);
    }
  }

  /** The messages `validateForm` collects on the four text fields. */
  function TextErrors(form: Form): Errors
  {
    var e0 := Noted(map[], Title, FieldError(form, Title));
    var e1 := Noted(e0, Description, FieldError(form, Description));
    var e2 := Noted(e1, Date, FieldError(form, Date));
    Noted(e2, Venue, FieldError(form, Venue))
  }

  /** The messages collected up to the price check. */
  function PriceErrors(form: Form): Errors
  {
    Noted(TextErrors(form), BasePrice, FieldError(form, BasePrice))
  }

  /** The messages collected up to the total seats check. */
  function TotalErrors(form: Form): Errors
  {
    Noted(PriceErrors(form), TotalSeats, FieldError(form, TotalSeats))
  }

  /** The messages `validateForm` collects, field by field in its order. */
  function Collected(form: Form): Errors
  {
    Noted(TotalErrors(form), AvailableSeats, FieldError(form, AvailableSeats))
  }

  /** The text fields' messages show exactly the text fields' errors. */
  lemma TextErrorsShown(form: Form)
    ensures ShowsErrorsUpTo(TextErrors(form), form, 4)
  {
    var e: Errors := map[];
    NotedShows(e, form, 0, Title);
    e := Noted(e, Title, FieldError(form, Title));
    NotedShows(e, form, 1, Description);
    e := Noted(e, Description, FieldError(form, Description));
    NotedShows(e, form, 2, Date);
    e := Noted(e, Date, FieldError(form, Date));
    NotedShows(e, form, 3, Venue);
  }

  /** The messages up to the price check show exactly those fields' errors. */
  lemma PriceErrorsShown(form: Form)
    ensures ShowsErrorsUpTo(PriceErrors(form), form, 5)
  {
    TextErrorsShown(form);
    NotedShows(TextErrors(form), form, 4, BasePrice);
  }

  /** The messages up to the total seats check show exactly those fields' errors. */
  lemma TotalErrorsShown(form: Form)
    ensures ShowsErrorsUpTo(TotalErrors(form), form, 6)
  {
    PriceErrorsShown(form);
    NotedShows(PriceErrors(form), form, 5, TotalSeats);
  }

  /** Collecting the messages in order shows exactly the form's errors. */
  lemma CollectedShows(form: Form)
    ensures ShowsErrors(Collected(form), form)
  {
    TotalErrorsShown(form);
    NotedShows(TotalErrors(form), form, 6, AvailableSeats);
  }

  /** The form data as the page first shows it. */
  function InitialForm(): Form
  {
    map["title" := Text(""), "description" := Text(""), "date" := Text(""), "venue" := Text(""),
        "basePrice" := Text(""), "dynamicPrice" := Flag(false), "totalSeats" := Text(""),
        "availableSeats" := Text(""), "image" := Text("")]
  }

  /** The input that fired a change event. */
  datatype Target = Target(name: string, value: string, isCheckbox: bool, checked: bool)

  /** The form data after `handleChange`: the named field takes the
      checkbox's `checked` or the input's `value`; no other field changes. */
  function ChangedForm(form: Form, t: Target): (r: Form)
    ensures Field(r, t.name) == Some(if t.isCheckbox then Flag(t.checked) else Text(t.value))
    ensures forall k :: k != t.name ==> Field(r, k) == Field(form, k)
  {
    form[t.name := if t.isCheckbox then Flag(t.checked) else Text(t.value)]
  }

  /** The errors after `handleChange` on field `name`: its message, if it
      has one, becomes ""; no other entry changes. */
  function ChangedErrors(errors: Errors, name: string): (r: Errors)
    ensures name in r <==> name in errors
    ensures name in r ==> r[name] == ""
    ensures forall k :: k != name ==> (k in r <==> k in errors) && (k in r ==> r[k] == errors[k])
  {
    if name in errors && errors[name] != "" then errors[name := ""] else errors
  }

  /** How the POST to /api/organizer/events ended: accepted, or rejected
      with the message the server's body carried, if any. */
  datatype PostOutcome = Posted | Rejected(message: Option<string>)

  class Page {
    var formData: Form
    var errors: Errors
    var loading: bool

    constructor ()
      ensures formData == InitialForm() && errors == map[] && !loading
    {
      formData := InitialForm();
      errors := map[];
      loading := false;
    }

    /** `validateForm`: checks the fields in order, setting each failing
        field's message (`FieldError` holds the conditions of the
        successive `if` statements, the seat comparison overwriting the
        available seats' first message), shows the messages, and reports
        whether there were none. */
    method ValidateForm() returns (valid: bool)
      modifies this`errors
      ensures ShowsErrors(errors, formData)
      ensures valid <==> FormValid(formData)
    {
      var form := formData;
      var newErrors: Errors := map[];
      newErrors := Noted(newErrors, Title, FieldError(form, Title));
      newErrors := Noted(newErrors, Description, FieldError(form, Description));
      newErrors := Noted(newErrors, Date, FieldError(form, Date));
      newErrors := Noted(newErrors, Venue, FieldError(form, Venue));
      newErrors := Noted(newErrors, BasePrice, FieldError(form, BasePrice));
      newErrors := Noted(newErrors, TotalSeats, FieldError(form, TotalSeats));
      newErrors := Noted(newErrors, AvailableSeats, FieldError(form, AvailableSeats));
      CollectedShows(form);
      ShownErrorsEmpty(newErrors, form);
      errors := newErrors;
      valid := |newErrors| == 0;
    }

    /** `handleSubmit`: posts the form data only when it validates; then
        leaves the page on success, or shows the server's message. */
    method HandleSubmit(outcome: PostOutcome) returns (sent: Option<Form>, navigated: bool)
      modifies this`errors, this`loading
      ensures sent.Some? <==> FormValid(formData)
      ensures sent.None? ==> !navigated && ShowsErrors(errors, formData) && loading == old(loading)
      ensures sent.Some? ==>
        && sent.value == formData && !loading
        && (navigated <==> outcome.Posted?)
        && errors == match outcome
             case Rejected(Some(m)) => if m != "" then map["submit" := m] else map[]
             case _ => map[]
    {
      var valid := ValidateForm();
      sent, navigated := None, false;
      if valid {
        ShownErrorsEmpty(errors, formData);
        loading := true;
        sent := Some(formData);
        match outcome {
          case Posted =>
            navigated := true;
          case Rejected(message) =>
            if message.Some? && message.value != "" {
              errors := map["submit" := message.value];
            }
        }
        loading := false;
      }
    }

    /** `handleChange`. */
    method HandleChange(t: Target)
      modifies this`formData, this`errors
      ensures formData == ChangedForm(old(formData), t)
      ensures errors == ChangedErrors(old(errors), t.name)
    {
      formData := ChangedForm(formData, t);
      errors := ChangedErrors(errors, t.name);
    }
  }

  /** Errors that show a form's messages are empty exactly when the form
      passes validation. */
  lemma ShownErrorsEmpty(errors: Errors, form: Form)
    requires ShowsErrors(errors, form)
    ensures errors == map[] <==> FormValid(form)
    ensures |errors| == 0 <==> FormValid(form)
  {
    if errors != map[] {
      var k :| k in errors;
      assert k in CheckedKeys;
      var c :| Key(c) == k by {
        if k == "title" { assert Key(Title) == k; }
        else if k == "description" { assert Key(Description) == k; }
        else if k == "date" { assert Key(Date) == k; }
        else if k == "venue" { assert Key(Venue) == k; }
        else if k == "basePrice" { assert Key(BasePrice) == k; }
        else if k == "totalSeats" { assert Key(TotalSeats) == k; }
        else { assert Key(AvailableSeats) == k; }
      }
      assert FieldError(form, c).Some?;
    } else {
      forall c ensures FieldError(form, c).None? {
        assert Key(c) !in errors;
      }
    }
  }

  /** The form validates exactly when the four text fields are filled, the
      price is given and not negative, the total is given and at least 1,
      the available seats are given, not negative and, read as integers, not
      above the total. */
  lemma ValidIff(form: Form)
    ensures FormValid(form) <==>
      && Filled(Field(form, "title")) && Filled(Field(form, "description"))
      && Filled(Field(form, "date")) && Filled(Field(form, "venue"))
      && Filled(Field(form, "basePrice")) && !Below(Field(form, "basePrice"), 0.0)
      && Filled(Field(form, "totalSeats")) && !Below(Field(form, "totalSeats"), 1.0)
      && Filled(Field(form, "availableSeats")) && !Below(Field(form, "availableSeats"), 0.0)
      && !Exceeds(form)
  {
  }

  /** `image`, `dynamicPrice` and every other unchecked name never carry a
      message. */
  lemma UncheckedFieldsNeverErr(errors: Errors, form: Form, name: string)
    requires ShowsErrors(errors, form)
    ensures name in {"image", "dynamicPrice"} ==> name !in errors
    ensures name !in CheckedKeys ==> name !in errors
  {
  }

  /** Each field's message depends on that field alone, except that the
      available seats also read the total: a change to one field leaves
      every other field's message as it was. */
  lemma ErrorsAreLocal(form: Form, t: Target, c: Checked)
    requires Key(c) != t.name
    requires c == AvailableSeats ==> t.name != "totalSeats"
    ensures FieldError(ChangedForm(form, t), c) == FieldError(form, c)
  {
    var changed := ChangedForm(form, t);
    assert Field(changed, Key(c)) == Field(form, Key(c));
    if c == AvailableSeats {
      assert Field(changed, "totalSeats") == Field(form, "totalSeats");
      assert Exceeds(changed) == Exceeds(form);
    }
  }

  /** A form value holding a numeral compares as the numeral's value and
      reads, through `parseInt`, as that value truncated toward zero. */
  lemma NumeralReadings(v: Option<FieldValue>, s: string, k: nat, p: nat)
    requires v == Some(Text(s)) && IsNumeral(s, k, p)
    ensures NumberValue(v) == Some(NumeralValue(s, k, p))
    ensures IntValue(v) == Some(TruncateTowardZero(NumeralValue(s, k, p)))
  {
    ParseIntTruncatesNumber(s, k, p);
  }

  /** Any price written as a numeral of value 0 or more, "0" among them, is
      accepted. */
  lemma NumeralPriceAccepted(form: Form, s: string, k: nat, p: nat)
    requires Field(form, "basePrice") == Some(Text(s)) && IsNumeral(s, k, p)
    requires NumeralValue(s, k, p) >= 0.0
    ensures FieldError(form, BasePrice).None?
  {
    NumeralReadings(Field(form, "basePrice"), s, k, p);
  }

  /** When the available seats read as a larger integer than the total, the
      available seats carry the "cannot exceed" message, whatever else is
      wrong with them. */
  lemma ExceedOverrides(form: Form)
    requires Exceeds(form)
    ensures FieldError(form, AvailableSeats) == Some(ExceedMessage)
  {
  }

  /** For numerals, the seat comparison is between the values truncated
      toward zero: "5.5" available against "5" in total passes it. */
  lemma ExceedsTruncated(form: Form, a: string, ka: nat, pa: nat, t: string, kt: nat, pt: nat)
    requires Field(form, "availableSeats") == Some(Text(a)) && IsNumeral(a, ka, pa)
    requires Field(form, "totalSeats") == Some(Text(t)) && IsNumeral(t, kt, pt)
    ensures Exceeds(form) <==> TruncateTowardZero(NumeralValue(a, ka, pa)) > TruncateTowardZero(NumeralValue(t, kt, pt))
    ensures NumberValue(Field(form, "availableSeats")) == Some(NumeralValue(a, ka, pa))
  {
    NumeralReadings(Field(form, "availableSeats"), a, ka, pa);
    NumeralReadings(Field(form, "totalSeats"), t, kt, pt);
  }

  /** The form as first shown fails on every checked field. */
  lemma InitialFormErrs(c: Checked)
    ensures FieldError(InitialForm(), c).Some?
  {
    var form := InitialForm();
    assert Field(form, Key(c)) == Some(Text(""));
    if c == AvailableSeats {
      assert JsStrings.TrimStart("") == "";
      assert IntValue(Field(form, "availableSeats")).None?;
    }
  }
}

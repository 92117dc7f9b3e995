/**
 * The create-case form: its fields and error messages, the validator, the
 * input handler that clears a field's error, the construction of the new
 * case record on submit and the reset on cancel.
 */
module CaseForm {
  import opened Base
  import opened Text
  import opened Cases

  // ---------------------------------------------------------------------------
  // Form data

  datatype FormData = FormData(
    title: string,
    description: string,
    moduleName: string,
    severity: string,
    urgentNotification: bool)

  /** The form's initial and reset state. */
  const DefaultForm := FormData("", "", "", "medium", false)

  datatype Field = TitleField | DescriptionField | ModuleField | SeverityField | UrgentNotificationField

  /** A value entered into a field: text for the text fields, a flag for the checkbox. */
  datatype FieldValue = TextValue(text: string) | FlagValue(flag: bool)

  predicate Fits(field: Field, value: FieldValue)
  {
    field.UrgentNotificationField? <==> value.FlagValue?
  }

  /** `{ ...prev, [field]: value }`. */
  function WithField(form: FormData, field: Field, value: FieldValue): (r: FormData)
    requires Fits(field, value)
    ensures field.TitleField? ==> r == form.(title := value.text)
    ensures field.DescriptionField? ==> r == form.(description := value.text)
    ensures field.ModuleField? ==> r == form.(moduleName := value.text)
    ensures field.SeverityField? ==> r == form.(severity := value.text)
    ensures field.UrgentNotificationField? ==> r == form.(urgentNotification := value.flag)
  {
    match field
    case TitleField => form.(title := value.text)
    case DescriptionField => form.(description := value.text)
    case ModuleField => form.(moduleName := value.text)
    case SeverityField => form.(severity := value.text)
    case UrgentNotificationField => form.(urgentNotification := value.flag)
  }

  // ---------------------------------------------------------------------------
  // Validation

  /** The messages `validateForm` records, and the empty message a corrected field is given. */
  datatype FormError =
    | TitleRequired | TitleTooShort
    | DescriptionRequired | DescriptionTooShort
    | ModuleRequired
    | Cleared

  function Message(e: FormError): string
  {
    match e
    case TitleRequired => "Case title is required"
    case TitleTooShort => "Title must be at least 5 characters"
    case DescriptionRequired => "Case description is required"
    case DescriptionTooShort => "Description must be at least 20 characters"
    case ModuleRequired => "Please select a module"
    case Cleared => ""
  }

  /** Only a cleared error has the empty (falsy) message. */
  lemma MessageEmptyIff(e: FormError)
    ensures Message(e) == "" <==> e.Cleared?
  {
  }

  const MinTitleLength := 5
  const MinDescriptionLength := 20

  /** A blank title is missing; otherwise its untrimmed length must reach 5. */
  function TitleError(title: string): (r: Option<FormError>)
    ensures r.Some? ==> r.value.TitleRequired? || r.value.TitleTooShort?
  {
    if Trim(title) == "" then Some(TitleRequired)
    else if |title| < MinTitleLength then Some(TitleTooShort)
    else None
  }

  /** A blank description is missing; otherwise its untrimmed length must reach 20. */
  function DescriptionError(description: string): (r: Option<FormError>)
    ensures r.Some? ==> r.value.DescriptionRequired? || r.value.DescriptionTooShort?
  {
    if Trim(description) == "" then Some(DescriptionRequired)
    else if |description| < MinDescriptionLength then Some(DescriptionTooShort)
    else None
  }

  /** The title is "required" exactly when blank, "too short" exactly when not blank but under 5 characters. */
  lemma TitleErrorIff(title: string)
    ensures TitleError(title) == Some(TitleRequired) <==> AllWhitespace(title)
    ensures TitleError(title) == Some(TitleTooShort) <==> !AllWhitespace(title) && |title| < MinTitleLength
    ensures TitleError(title).None? <==> !AllWhitespace(title) && |title| >= MinTitleLength
  {
    TrimEmptyIff(title);
  }

  /** The description is "required" exactly when blank, "too short" exactly when not blank but under 20 characters. */
  lemma DescriptionErrorIff(description: string)
    ensures DescriptionError(description) == Some(DescriptionRequired) <==> AllWhitespace(description)
    ensures DescriptionError(description) == Some(DescriptionTooShort)
            <==> !AllWhitespace(description) && |description| < MinDescriptionLength
    ensures DescriptionError(description).None? <==> !AllWhitespace(description) && |description| >= MinDescriptionLength
  {
    TrimEmptyIff(description);
  }

  /** The error map built from the outcome of each check, keyed by field. */
  function ErrorsFor(title: Option<FormError>, description: Option<FormError>, moduleMissing: bool): (e: map<Field, FormError>)
    ensures TitleField in e <==> title.Some?
    ensures title.Some? ==> e[TitleField] == title.value
    ensures DescriptionField in e <==> description.Some?
    ensures description.Some? ==> e[DescriptionField] == description.value
    ensures ModuleField in e <==> moduleMissing
    ensures moduleMissing ==> e[ModuleField] == ModuleRequired
    ensures SeverityField !in e && UrgentNotificationField !in e
  {
    var withTitle: map<Field, FormError> := if title.Some? then map[TitleField := title.value] else map[];
    var withDescription := if description.Some? then withTitle[DescriptionField := description.value] else withTitle;
    if moduleMissing then withDescription[ModuleField := ModuleRequired] else withDescription
  }

  /** A map with exactly these entries is the error map of these outcomes. */
  lemma ErrorsForUnique(e: map<Field, FormError>, title: Option<FormError>, description: Option<FormError>, moduleMissing: bool)
    requires TitleField in e <==> title.Some?
    requires title.Some? ==> e[TitleField] == title.value
    requires DescriptionField in e <==> description.Some?
    requires description.Some? ==> e[DescriptionField] == description.value
    requires ModuleField in e <==> moduleMissing
    requires moduleMissing ==> e[ModuleField] == ModuleRequired
    requires SeverityField !in e && UrgentNotificationField !in e
    ensures e == ErrorsFor(title, description, moduleMissing)
  {
    var r := ErrorsFor(title, description, moduleMissing);
    forall k ensures k in e <==> k in r {
      match k
      case TitleField =>
      case DescriptionField =>
      case ModuleField =>
      case SeverityField =>
      case UrgentNotificationField =>
    }
    assert e.Keys == r.Keys;
  }

  /** `Object.keys(m).length === 0` exactly for the empty map. */
  lemma NoKeysIffEmpty(m: map<Field, FormError>)
    ensures |m.Keys| == 0 <==> m == map[]
  {
    if |m.Keys| == 0 {
      assert m.Keys == {};
    }
  }

  /** The errors `validateForm` records. */
  function FormErrors(form: FormData): map<Field, FormError>
  {
    ErrorsFor(TitleError(form.title), DescriptionError(form.description), form.moduleName == "")
  }

  /**
   * The title error is recorded exactly when the title is blank or shorter
   * than 5 characters (untrimmed), as "required" exactly when it is blank
   * and as "too short" otherwise.
   */
  lemma TitleErrorRecorded(form: FormData)
    ensures var e := FormErrors(form);
      && (TitleField in e <==> AllWhitespace(form.title) || |form.title| < MinTitleLength)
      && (TitleField in e ==> (e[TitleField].TitleRequired? <==> AllWhitespace(form.title)))
      && (TitleField in e ==> (e[TitleField].TitleRequired? || e[TitleField].TitleTooShort?))
  {
    TitleErrorIff(form.title);
  }

  /** The same for the description, with 20 characters. */
  lemma DescriptionErrorRecorded(form: FormData)
    ensures var e := FormErrors(form);
      && (DescriptionField in e <==> AllWhitespace(form.description) || |form.description| < MinDescriptionLength)
      && (DescriptionField in e ==> (e[DescriptionField].DescriptionRequired? <==> AllWhitespace(form.description)))
      && (DescriptionField in e ==> (e[DescriptionField].DescriptionRequired? || e[DescriptionField].DescriptionTooShort?))
  {
    DescriptionErrorIff(form.description);
  }

  /** The module error is recorded exactly when no module is chosen; the severity and notification are never checked. */
  lemma ModuleErrorRecorded(form: FormData)
    ensures var e := FormErrors(form);
      && (ModuleField in e <==> form.moduleName == "")
      && (ModuleField in e ==> e[ModuleField].ModuleRequired?)
      && SeverityField !in e && UrgentNotificationField !in e
  {
  }

  /** The form is valid exactly when the title and description are not blank and long enough and a module is chosen. */
  lemma ValidIff(form: FormData)
    ensures FormErrors(form) == map[] <==>
      && !AllWhitespace(form.title) && |form.title| >= MinTitleLength
      && !AllWhitespace(form.description) && |form.description| >= MinDescriptionLength
      && form.moduleName != ""
  {
    var e := FormErrors(form);
    TitleErrorIff(form.title);
    DescriptionErrorIff(form.description);
    if e == map[] {
      assert TitleField !in e && DescriptionField !in e && ModuleField !in e;
    }
  }

  /** The initial form fails all three checks, each with its "required" message. */
  lemma DefaultFormInvalid()
    ensures var e := FormErrors(DefaultForm);
      && TitleField in e && e[TitleField].TitleRequired?
      && DescriptionField in e && e[DescriptionField].DescriptionRequired?
      && ModuleField in e && e[ModuleField].ModuleRequired?
  {
    assert TitleError("") == Some(TitleRequired);
    assert DescriptionError("") == Some(DescriptionRequired);
  }

  // ---------------------------------------------------------------------------
  // The new case

  /** `CASE-<year>-<n padded to three digits>`. */
  function FormatCaseId(year: nat, n: nat): string
  {
    "CASE-" + NatToString(year) + "-" + PadStart(NatToString(n), 3, '0')
  }

  /** Reads back an id of the form `CASE-<digits>-<three digits>`. */
  function ParseCaseId(id: string): Option<(nat, nat)>
  {
    if |id| >= 10 && id[..5] == "CASE-" && id[|id| - 4] == '-' then
      match (ParseNat(id[5..|id| - 4]), ParseNat(id[|id| - 3..]))
      case (Some(year), Some(n)) => Some((year, n))
      case _ => None
    else None
  }

  /** Padding a number below 1000 to three digits keeps its value. */
  lemma PaddedNumber(n: nat)
    requires n < 1000
    ensures var p := PadStart(NatToString(n), 3, '0');
      |p| == 3 && AllDigits(p) && DigitsValue(p) == n
  {
    var digits := NatToString(n);
    AtMostThreeDigits(n);
    var p := PadStart(digits, 3, '0');
    assert |p| == 3;
    var k := |p| - |digits|;
    var zeros := p[..k];
    assert forall i :: 0 <= i < |zeros| ==> zeros[i] == '0';
    assert p == zeros + digits by {
      assert p == p[..k] + p[k..];
    }
    LeadingZerosValue(zeros, digits);
    NatToStringRoundTrip(n);
  }

  /** The two digit groups of an assembled id read back. */
  lemma ParseAssembledId(year: string, number: string)
    requires year != [] && AllDigits(year)
    requires |number| == 3 && AllDigits(number)
    ensures ParseCaseId("CASE-" + year + "-" + number) == Some((DigitsValue(year), DigitsValue(number)))
  {
    var id := "CASE-" + year + "-" + number;
    assert id[..5] == "CASE-";
    assert id[|id| - 4] == '-';
    assert id[5..|id| - 4] == year;
    assert id[|id| - 3..] == number;
  }

  /** The number part always has three digits, and the year and number read back from the id. */
  lemma CaseIdRoundTrip(year: nat, n: nat)
    requires n < 1000
    ensures |PadStart(NatToString(n), 3, '0')| == 3
    ensures ParseCaseId(FormatCaseId(year, n)) == Some((year, n))
  {
    PaddedNumber(n);
    NatToStringRoundTrip(year);
    ParseAssembledId(NatToString(year), PadStart(NatToString(n), 3, '0'));
  }

  /**
   * The case `handleSubmit` builds: open, not accepted, the module
   * capitalised. The creation and update dates are two separate readings of
   * the clock, so they need not be equal.
   */
  function NewCase(form: FormData, year: nat, n: nat, createdAt: int, updatedAt: int): Case
  {
    Case(
      FormatCaseId(year, n),
      form.title,
      form.description,
      "open",
      CapitalizeFirst(form.moduleName),
      form.severity,
      false,
      createdAt,
      updatedAt)
  }

  /**
   * A case built from a valid form is open, not yet accepted by an expert,
   * carries the form's title, description and severity, a module equal to
   * the chosen one up to the case of its first letter, and an id that reads
   * back as the year and number, and the two clock readings as its dates.
   */
  lemma NewCaseSpec(form: FormData, year: nat, n: nat, createdAt: int, updatedAt: int)
    requires FormErrors(form) == map[]
    requires n < 1000
    ensures var c := NewCase(form, year, n, createdAt, updatedAt);
      && c.status == "open" && !c.expertAccepted
      && c.title == form.title && c.description == form.description && c.severity == form.severity
      && |c.title| >= MinTitleLength && |c.description| >= MinDescriptionLength
      && c.moduleName != "" && Lower(c.moduleName) == Lower(form.moduleName)
      && c.moduleName[1..] == form.moduleName[1..]
      && ParseCaseId(c.id) == Some((year, n))
      && c.createdAt == createdAt && c.updatedAt == updatedAt
  {
    ValidIff(form);
    CapitalizeFirstSameLower(form.moduleName);
    CaseIdRoundTrip(year, n);
  }

  /** The error map `validateForm` fills in: one entry per failed check, added field by field. */
  method RecordErrors(title: Option<FormError>, description: Option<FormError>, moduleMissing: bool)
    returns (newErrors: map<Field, FormError>)
    ensures newErrors == ErrorsFor(title, description, moduleMissing)
  {
    newErrors := map[];
    if title.Some? {
      newErrors := newErrors[TitleField := title.value];
    }
    if description.Some? {
      newErrors := newErrors[DescriptionField := description.value];
    }
    if moduleMissing {
      newErrors := newErrors[ModuleField := ModuleRequired];
    }
    ErrorsForUnique(newErrors, title, description, moduleMissing);
  }

  // ---------------------------------------------------------------------------
  // The component's state

  class CaseFormModal {
    var formData: FormData
    var errors: map<Field, FormError>

    constructor ()
      ensures formData == DefaultForm && errors == map[]
    {
      formData := DefaultForm;
      errors := map[];
    }

    /** `validateForm`: records the errors field by field, replacing the previous ones, and reports validity. */
    method ValidateForm() returns (valid: bool)
      modifies this
      ensures errors == FormErrors(formData) && formData == old(formData)
      ensures valid <==> errors == map[]
    {
      var form := formData;
      var titleError := TitleError(form.title);
      var descriptionError := DescriptionError(form.description);
      var newErrors := RecordErrors(titleError, descriptionError, form.moduleName == "");
      NoKeysIffEmpty(newErrors);
      errors := newErrors;
      valid := |newErrors.Keys| == 0;
    }

    /** Sets the field; an error with a non-empty message on that field is replaced by the empty message. */
    method HandleInputChange(field: Field, value: FieldValue)
      requires Fits(field, value)
      modifies this
      ensures formData == WithField(old(formData), field, value)
      ensures errors == if field in old(errors) && Message(old(errors)[field]) != "" then old(errors)[field := Cleared] else old(errors)
    {
      formData := WithField(formData, field, value);
      if field in errors && Message(errors[field]) != "" {
        errors := errors[field := Cleared];
      }
    }

    /**
     * `handleSubmit` for a given year, random number and the two instants
   * read for the creation and update dates: validates;
     * when valid, builds the case and returns it with the saved list it is
     * placed before; otherwise creates nothing and the saved list stays.
     */
    method HandleSubmit(year: nat, n: nat, createdAt: int, updatedAt: int, saved: seq<Case>) returns (created: Option<Case>, newSaved: seq<Case>)
      requires n < 1000
      modifies this
      ensures formData == old(formData) && errors == FormErrors(formData)
      ensures created.Some? <==> FormErrors(formData) == map[]
      ensures created.Some? ==> created.value == NewCase(formData, year, n, createdAt, updatedAt) && newSaved == [created.value] + saved
      ensures created.None? ==> newSaved == saved
    {
      var valid := ValidateForm();
      if !valid {
        return None, saved;
      }
      var caseId := "CASE-" + NatToString(year) + "-" + PadStart(NatToString(n), 3, '0');
      var newCase := Case(caseId, formData.title, formData.description, "open",
                          CapitalizeFirst(formData.moduleName), formData.severity, false, createdAt, updatedAt);
      created := Some(newCase);
      newSaved := [newCase] + saved;
    }

    method HandleCancel()
      modifies this
      ensures formData == DefaultForm && errors == map[]
    {
      formData := DefaultForm;
      errors := map[];
    }
  }
}

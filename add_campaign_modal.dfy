/** The "add campaign" dialog: its field checks, the payload it hands to
    `onSave`, and the per-field error clearing. Parsing is supplied with the
    text: `Number(targetAmount)` and `parseFloat(targetAmount)` (`None` for
    NaN), and each date as a day number (`None` for an invalid date). */
module AddCampaignModal {
  import opened Base
  import opened Text

  datatype Field = Name | Description | TargetAmount | StartDate | EndDate

  datatype CampaignForm = CampaignForm(name: string, description: string, targetAmount: string, startDate: string, endDate: string)

  /** What the browser parses out of the text fields. */
  datatype Parsed = Parsed(number: Option<real>, float: Option<real>, startDay: Option<int>, endDay: Option<int>)

  const NameRequired := "Campaign name is required"
  const NameTooShort := "Campaign name must be at least 3 characters"
  const DescriptionRequired := "Description is required"
  const TargetRequired := "Target amount is required"
  const TargetNotPositive := "Target amount must be a positive number"
  const StartRequired := "Start date is required"
  const EndRequired := "End date is required"
  const EndInPast := "End date must be in the future"
  const EndBeforeStart := "End date must be after start date"

  /** A comparison between dates is false when either is an invalid date. */
  predicate DayLess(a: Option<int>, b: Option<int>) {
    a.Some? && b.Some? && a.value < b.value
  }

  predicate DayAtLeast(a: Option<int>, b: Option<int>) {
    a.Some? && b.Some? && a.value >= b.value
  }

  function NameError(name: string): (r: Option<string>)
    ensures r.None? <==> |Trim(name)| >= 3
  {
    if Blank(name) then Some(NameRequired)
    else if |Trim(name)| < 3 then Some(NameTooShort)
    else None
  }

  function TargetError(text: string, p: Parsed): (r: Option<string>)
    ensures r.None? <==> !Blank(text) && p.number.Some? && !(p.float.Some? && p.float.value <= 0.0)
  {
    if Blank(text) then Some(TargetRequired)
    else if p.number.None? || (p.float.Some? && p.float.value <= 0.0) then Some(TargetNotPositive)
    else None
  }

  /** The end-date message: the order check runs last and overrides the
      "future" message. */
  function EndError(f: CampaignForm, p: Parsed, today: int): (r: Option<string>)
    ensures f.endDate == "" ==> r == Some(EndRequired)
    ensures f.endDate != "" && f.startDate != "" && DayAtLeast(p.startDay, p.endDay) ==> r == Some(EndBeforeStart)
    ensures r.None? <==> f.endDate != "" && !DayLess(p.endDay, Some(today)) && !(f.startDate != "" && DayAtLeast(p.startDay, p.endDay))
  {
    var first := if f.endDate == "" then Some(EndRequired) else if DayLess(p.endDay, Some(today)) then Some(EndInPast) else None;
    if f.startDate != "" && f.endDate != "" && DayAtLeast(p.startDay, p.endDay) then Some(EndBeforeStart) else first
  }

  /** The message `validateForm` records for one field, if any. */
  function FieldError(f: CampaignForm, p: Parsed, today: int, field: Field): Option<string> {
    match field
    case Name => NameError(f.name)
    case Description => if Blank(f.description) then Some(DescriptionRequired) else None
    case TargetAmount => TargetError(f.targetAmount, p)
    case StartDate => if f.startDate == "" then Some(StartRequired) else None
    case EndDate => EndError(f, p, today)
  }

  /** `validateForm`'s error object: one entry per field whose rule fails. */
  function ValidateForm(f: CampaignForm, p: Parsed, today: int): (r: map<Field, string>)
    ensures forall k :: k in r <==> FieldError(f, p, today, k).Some?
    ensures forall k :: k in r ==> r[k] == FieldError(f, p, today, k).value
  {
    map k: Field | FieldError(f, p, today, k).Some? :: FieldError(f, p, today, k).value
  }

  /** The form is valid exactly when every field passes its own rule. */
  lemma ValidIffAllFieldsPass(f: CampaignForm, p: Parsed, today: int)
    ensures ValidateForm(f, p, today) == map[] <==>
      && |Trim(f.name)| >= 3 && !Blank(f.description)
      && !Blank(f.targetAmount) && p.number.Some? && !(p.float.Some? && p.float.value <= 0.0)
      && f.startDate != "" && f.endDate != ""
      && !DayLess(p.endDay, Some(today)) && !DayAtLeast(p.startDay, p.endDay)
  {
    EmptyIffNoFieldError(f, p, today);
  }

  /** The error object is empty exactly when none of the five fields has a
      message. */
  lemma EmptyIffNoFieldError(f: CampaignForm, p: Parsed, today: int)
    ensures ValidateForm(f, p, today) == map[] <==>
      && FieldError(f, p, today, Name).None? && FieldError(f, p, today, Description).None?
      && FieldError(f, p, today, TargetAmount).None? && FieldError(f, p, today, StartDate).None?
      && FieldError(f, p, today, EndDate).None?
  {
    var r := ValidateForm(f, p, today);
    if r == map[] {
      assert Name !in r && Description !in r && TargetAmount !in r && StartDate !in r && EndDate !in r;
    } else {
      var k :| k in r;
      assert FieldError(f, p, today, k).Some?;
      assert k == Name || k == Description || k == TargetAmount || k == StartDate || k == EndDate;
    }
  }

  /** A start date on or after the end date always ends up as "after start
      date", whether or not the end date is also in the past. */
  lemma OrderMessageOverrides(f: CampaignForm, p: Parsed, today: int)
    requires f.startDate != "" && f.endDate != "" && DayAtLeast(p.startDay, p.endDay)
    ensures EndDate in ValidateForm(f, p, today) && ValidateForm(f, p, today)[EndDate] == EndBeforeStart
  {
    assert FieldError(f, p, today, EndDate) == Some(EndBeforeStart);
  }

  /** The object handed to `onSave`. */
  datatype CampaignPayload = CampaignPayload(name: string, description: string, targetAmount: Option<real>, startDate: string, endDate: string)

  function Payload(f: CampaignForm, p: Parsed): CampaignPayload {
    CampaignPayload(Trim(f.name), Trim(f.description), p.float, f.startDate, f.endDate)
  }

  /** `parseFloat` reads a number wherever `Number` does. */
  predicate ParsersAgree(p: Parsed) {
    p.number.Some? ==> p.float.Some?
  }

  /** A payload built from a valid form has a name of at least 3 characters
      and a non-empty description, both without surrounding blanks, and a
      positive target amount. */
  lemma ValidPayload(f: CampaignForm, p: Parsed, today: int)
    requires ValidateForm(f, p, today) == map[] && ParsersAgree(p)
    ensures var c := Payload(f, p);
      && |c.name| >= 3 && c.description != "" && Trim(c.name) == c.name
      && c.targetAmount.Some? && c.targetAmount.value > 0.0
  {
    ValidIffAllFieldsPass(f, p, today);
    TrimIdempotent(f.name);
  }

  lemma TrimIdempotent(s: string)
    ensures Trim(Trim(s)) == Trim(s)
  {
    var t := Trim(s);
    if t != [] {
      assert TrimStart(t) == t;
      assert TrimEnd(t) == t;
    }
  }

  function Set(f: CampaignForm, field: Field, value: string): CampaignForm {
    match field
    case Name => f.(name := value)
    case Description => f.(description := value)
    case TargetAmount => f.(targetAmount := value)
    case StartDate => f.(startDate := value)
    case EndDate => f.(endDate := value)
  }

  function Value(f: CampaignForm, field: Field): string {
    match field
    case Name => f.name
    case Description => f.description
    case TargetAmount => f.targetAmount
    case StartDate => f.startDate
    case EndDate => f.endDate
  }

  /** The dialog's state. */
  class AddCampaignForm {
    var form: CampaignForm
    var errors: map<Field, string>
    var isSubmitting: bool
    var showSuccess: bool
    var saved: seq<CampaignPayload>

    constructor (today: string)
      ensures form == CampaignForm("", "", "", today, "") && errors == map[] && !isSubmitting && !showSuccess && saved == []
    {
      form := CampaignForm("", "", "", today, "");
      errors := map[];
      isSubmitting := false;
      showSuccess := false;
      saved := [];
    }

    /** `handleChange`: stores the value and blanks that field's error only. */
    method HandleChange(field: Field, value: string)
      modifies this
      ensures Value(form, field) == value
      ensures forall g :: g != field ==> Value(form, g) == Value(old(form), g)
      ensures errors.Keys == old(errors).Keys
      ensures field in errors && old(errors)[field] != "" ==> errors[field] == ""
      ensures forall g :: g in errors && (g != field || old(errors)[g] == "") ==> errors[g] == old(errors)[g]
      ensures saved == old(saved) && isSubmitting == old(isSubmitting) && showSuccess == old(showSuccess)
    {
      form := Set(form, field, value);
      if field in errors && errors[field] != "" {
        errors := errors[field := ""];
      }
    }

    /** `handleSubmit` up to the success timer: an invalid form records its
        errors and saves nothing; a valid one hands exactly one payload to
        `onSave`, shows success when `onSave` resolves (`saveOk`), and is no
        longer submitting either way. */
    method HandleSubmit(p: Parsed, today: int, saveOk: bool)
      modifies this`errors, this`isSubmitting, this`showSuccess, this`saved
      ensures errors == ValidateForm(old(form), p, today)
      ensures ValidateForm(old(form), p, today) != map[] ==>
        saved == old(saved) && isSubmitting == old(isSubmitting) && showSuccess == old(showSuccess)
      ensures ValidateForm(old(form), p, today) == map[] ==>
        saved == old(saved) + [Payload(old(form), p)] && !isSubmitting && showSuccess == (saveOk || old(showSuccess))
    {
      var newErrors := ValidateForm(form, p, today);
      errors := newErrors;
      if newErrors == map[] {
        isSubmitting := true;
        var campaignData := Payload(form, p);
        saved := saved + [campaignData];
        if saveOk {
          showSuccess := true;
        }
        isSubmitting := false;
      }
    }
  }
}

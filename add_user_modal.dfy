/** The admin's "add user" dialog: name and email checks, per-field error
    clearing, the save sequence and the cancel reset. */
module AddUserModal {
  import opened Base
  import opened Text

  datatype Field = Name | Email | Role

  datatype UserForm = UserForm(name: string, email: string, role: string)

  const EmptyForm := UserForm("", "", "User")
  const MinNameLength := 2

  /** The message `validateForm` records for one field, if any. */
  function FieldError(f: UserForm, field: Field): Option<string> {
    match field
    case Name =>
      if Blank(f.name) then Some("Name is required")
      else if |Trim(f.name)| < MinNameLength then Some("Name must be at least 2 characters")
      else None
    case Email =>
      if Blank(f.email) then Some("Email is required")
      else if !IsEmail(f.email) then Some("Please enter a valid email address")
      else None
    case Role => None
  }

  /** `validateForm`'s error object. */
  function ValidateForm(f: UserForm): (r: map<Field, string>)
    ensures forall k :: k in r <==> FieldError(f, k).Some?
    ensures forall k :: k in r ==> r[k] == FieldError(f, k).value
  {
    map k: Field | FieldError(f, k).Some? :: FieldError(f, k).value
  }

  /** Valid exactly when the trimmed name has at least two characters and
      the email is filled in and well formed; the role is never checked. */
  lemma ValidIffRulesPass(f: UserForm)
    ensures ValidateForm(f) == map[] <==> |Trim(f.name)| >= MinNameLength && !Blank(f.email) && IsEmail(f.email)
  {
    var r := ValidateForm(f);
    if r == map[] {
      assert Name !in r && Email !in r;
    } else {
      var k :| k in r;
      match k {
        case Name =>
        case Email =>
        case Role => assert false;
      }
    }
  }

  /** A one-character name is refused however it is padded, a two-character
      one is accepted. */
  lemma NameLengthBoundary(f: UserForm)
    ensures |Trim(f.name)| == 1 ==> Name in ValidateForm(f)
    ensures |Trim(f.name)| == 2 ==> Name !in ValidateForm(f)
  {
    assert FieldError(f, Name).Some? <==> |Trim(f.name)| < 2;
  }

  function Set(f: UserForm, field: Field, value: string): UserForm {
    match field
    case Name => f.(name := value)
    case Email => f.(email := value)
    case Role => f.(role := value)
  }

  /** The dialog's state; `saved` lists the forms handed to `onSave` and
      `closed` records a call to `onClose`. */
  class AddUserDialog {
    var form: UserForm
    var errors: map<Field, string>
    var isSubmitting: bool
    var showSuccess: bool
    var saved: seq<UserForm>
    var closed: bool

    constructor ()
      ensures form == EmptyForm && errors == map[] && !isSubmitting && !showSuccess && saved == [] && !closed
    {
      form := EmptyForm;
      errors := map[];
      isSubmitting := false;
      showSuccess := false;
      saved := [];
      closed := false;
    }

    /** `handleChange`: stores the value and blanks that field's error only. */
    method HandleChange(field: Field, value: string)
      modifies this
      ensures form == Set(old(form), field, value)
      ensures errors.Keys == old(errors).Keys
      ensures field in errors ==> errors[field] == ""
      ensures forall g :: g in errors && g != field ==> errors[g] == old(errors)[g]
      ensures saved == old(saved) && isSubmitting == old(isSubmitting) && closed == old(closed)
    {
      form := Set(form, field, value);
      if field in errors && errors[field] != "" {
        errors := errors[field := ""];
      }
    }

    /** `handleSubmit`: an invalid form records its errors and saves nothing;
        a valid one is handed to `onSave` once, and success is shown when
        `onSave` does not throw. */
    method HandleSubmit(saveSucceeds: bool)
      modifies this
      ensures form == old(form) && errors == ValidateForm(old(form))
      ensures errors != map[] ==> saved == old(saved) && showSuccess == old(showSuccess) && isSubmitting == old(isSubmitting)
      ensures errors == map[] ==> saved == old(saved) + [old(form)] && !isSubmitting
      ensures errors == map[] ==> showSuccess == (saveSucceeds || old(showSuccess))
      ensures closed == old(closed)
    {
      var newErrors := ValidateForm(form);
      errors := newErrors;
      if newErrors == map[] {
        isSubmitting := true;
        saved := saved + [form];
        if saveSucceeds {
          showSuccess := true;
        }
        isSubmitting := false;
      }
    }

    /** The timer after a successful save: the form is emptied and the
        dialog closes. */
    method AfterSuccess()
      modifies this
      ensures form == EmptyForm && !showSuccess && closed
      ensures errors == old(errors) && saved == old(saved) && isSubmitting == old(isSubmitting)
    {
      form := EmptyForm;
      showSuccess := false;
      closed := true;
    }

    /** `handleCancel`: back to the empty form with no errors, then close. */
    method HandleCancel()
      modifies this
      ensures form == EmptyForm && errors == map[] && closed
      ensures saved == old(saved) && isSubmitting == old(isSubmitting) && showSuccess == old(showSuccess)
    {
      form := EmptyForm;
      errors := map[];
      closed := true;
    }
  }

  /** The form `handleCancel` leaves behind would be refused as it stands:
      both the name and the email are reported missing, and nothing else. */
  lemma CancelledFormIsIncomplete()
    ensures forall k :: k in ValidateForm(EmptyForm) <==> k != Role
    ensures ValidateForm(EmptyForm)[Name] == "Name is required" && ValidateForm(EmptyForm)[Email] == "Email is required"
  {
    EmptyFormMessages();
    forall k ensures k in ValidateForm(EmptyForm) <==> k != Role {
      match k {
        case Name =>
        case Email =>
        case Role =>
      }
    }
  }

  /** The message each field of the empty form gets. */
  lemma EmptyFormMessages()
    ensures FieldError(EmptyForm, Name) == Some("Name is required")
    ensures FieldError(EmptyForm, Email) == Some("Email is required")
    ensures FieldError(EmptyForm, Role) == None
  {
    assert Blank("");
  }
}

/** The add/edit user dialog: the checks, which depend on the mode, the
    form it resets to when opened, and the payload it hands to `onSave`.
    `initialData` is a map from field names to strings; a missing key, a
    `null` and an empty string all read as falsy. */
module UserModal {
  import opened Base
  import opened Text

  datatype Field = FirstName | LastName | Email | ContactNumber | Password | Role

  datatype UserForm = UserForm(firstName: string, lastName: string, email: string,
                               contactNumber: string, password: string, role: string)

  /** The `mode` prop, 'add' or 'edit'. */
  datatype Mode = AddMode | EditMode
  const DefaultRole := "donor"

  /** The form the dialog resets to whenever it opens. */
  function Opened(initial: map<string, string>): UserForm {
    UserForm(OrText(Lookup(initial, "firstName"), ""), OrText(Lookup(initial, "lastName"), ""), OrText(Lookup(initial, "email"), ""),
             OrText(Lookup(initial, "contactNumber"), ""), "", OrText(Lookup(initial, "role"), DefaultRole))
  }

  /** The message `validate` records for one field, if any. Contact number
      and role are never checked; the password only in "add" mode. */
  function FieldError(data: UserForm, mode: Mode, field: Field): Option<string> {
    match field
    case FirstName => if Blank(data.firstName) then Some("First name is required") else None
    case LastName => if Blank(data.lastName) then Some("Last name is required") else None
    case Email =>
      if Blank(data.email) then Some("Email is required")
      else if !IsEmail(data.email) then Some("Invalid email")
      else None
    case Password =>
      if mode == EditMode then None
      else if data.password == "" then Some("Password is required")
      else if |data.password| < 6 then Some("Password must be at least 6 characters")
      else None
    case ContactNumber => None
    case Role => None
  }

  /** `validate(data)`: one entry per failing field. */
  function Validate(data: UserForm, mode: Mode): (r: map<Field, string>)
    ensures forall f :: f in r <==> FieldError(data, mode, f).Some?
    ensures forall f :: f in r ==> r[f] == FieldError(data, mode, f).value
  {
    map f: Field | FieldError(data, mode, f).Some? :: FieldError(data, mode, f).value
  }

  /** The form passes exactly when both names and the email are filled in,
      the email is well formed, and, when adding, the password has at least
      six characters. */
  lemma ValidIffRulesPass(data: UserForm, mode: Mode)
    ensures Validate(data, mode) == map[] <==>
      && !Blank(data.firstName) && !Blank(data.lastName) && !Blank(data.email) && IsEmail(data.email)
      && (mode == AddMode ==> |data.password| >= 6)
  {
    var r := Validate(data, mode);
    if r == map[] {
      assert FirstName !in r && LastName !in r && Email !in r && Password !in r;
    } else {
      var f :| f in r;
      match f {
        case FirstName =>
        case LastName =>
        case Email =>
        case Password =>
        case ContactNumber => assert false;
        case Role => assert false;
      }
    }
  }

  /** Outside "add" mode the password never matters. */
  lemma PasswordIgnoredOutsideAdd(data: UserForm, mode: Mode, password: string)
    requires mode == EditMode
    ensures Validate(data.(password := password), mode) == Validate(data, mode)
    ensures Password !in Validate(data, mode)
  {
    var a := Validate(data.(password := password), mode);
    var b := Validate(data, mode);
    assert forall f :: FieldError(data.(password := password), mode, f) == FieldError(data, mode, f);
    assert a.Keys == b.Keys;
  }

  /** The dialog never pre-fills a password and falls back to the "donor"
      role; so a freshly opened "add" form cannot be submitted until a
      password is typed. */
  lemma OpenedForm(initial: map<string, string>)
    ensures Opened(initial).password == ""
    ensures !("role" in initial && initial["role"] != "") ==> Opened(initial).role == DefaultRole
    ensures Opened(initial).role != ""
    ensures Password in Validate(Opened(initial), AddMode)
    ensures Validate(Opened(initial), AddMode)[Password] == "Password is required"
  {
  }

  /** The object handed to `onSave`: the form, with the password removed in
      "edit" mode. */
  datatype Submitted = Submitted(firstName: string, lastName: string, email: string,
                                 contactNumber: string, password: Option<string>, role: string)

  function SubmitData(data: UserForm, mode: Mode): Submitted {
    Submitted(data.firstName, data.lastName, data.email, data.contactNumber,
              if mode == EditMode then None else Some(data.password), data.role)
  }

  /** What a submitted payload guarantees: an edit never carries a password,
      an addition always carries one of at least six characters, and the
      names and email are those that passed the checks. */
  lemma SubmittedPayload(data: UserForm, mode: Mode)
    requires Validate(data, mode) == map[]
    ensures var s := SubmitData(data, mode);
      && (mode == EditMode ==> s.password.None?)
      && (mode == AddMode ==> s.password.Some? && |s.password.value| >= 6)
      && !Blank(s.firstName) && !Blank(s.lastName) && IsEmail(s.email)
  {
    ValidIffRulesPass(data, mode);
  }

  function Set(data: UserForm, field: Field, value: string): UserForm {
    match field
    case FirstName => data.(firstName := value)
    case LastName => data.(lastName := value)
    case Email => data.(email := value)
    case ContactNumber => data.(contactNumber := value)
    case Password => data.(password := value)
    case Role => data.(role := value)
  }

  /** The dialog's state; `saved` lists the payloads handed to `onSave`. */
  class UserDialog {
    const mode: Mode
    var form: UserForm
    var errors: map<Field, string>
    var touched: set<Field>
    var saved: seq<Submitted>

    constructor (mode: Mode)
      ensures this.mode == mode && form == UserForm("", "", "", "", "", DefaultRole)
      ensures errors == map[] && touched == {} && saved == []
    {
      this.mode := mode;
      form := UserForm("", "", "", "", "", DefaultRole);
      errors := map[];
      touched := {};
      saved := [];
    }

    /** The effect run when the dialog opens. */
    method Open(initial: map<string, string>)
      modifies this
      ensures form == Opened(initial) && errors == map[] && touched == {} && saved == old(saved)
    {
      form := Opened(initial);
      errors := map[];
      touched := {};
    }

    /** `handleChange`: the field takes the value and the whole form is
        checked again. */
    method HandleChange(field: Field, value: string)
      modifies this
      ensures form == Set(old(form), field, value)
      ensures touched == old(touched) + {field}
      ensures errors == Validate(form, mode) && saved == old(saved)
    {
      var next := Set(form, field, value);
      form := next;
      touched := touched + {field};
      errors := Validate(next, mode);
    }

    /** `handleBlur`: the field is marked touched and the form checked. */
    method HandleBlur(field: Field)
      modifies this
      ensures form == old(form) && touched == old(touched) + {field}
      ensures errors == Validate(form, mode) && saved == old(saved)
    {
      touched := touched + {field};
      errors := Validate(form, mode);
    }

    /** `handleSubmit`: every field is marked touched; only an error-free
        form reaches `onSave`. */
    method HandleSubmit()
      modifies this
      ensures form == old(form) && errors == Validate(old(form), mode)
      ensures touched == {FirstName, LastName, Email, Password, ContactNumber, Role}
      ensures errors != map[] ==> saved == old(saved)
      ensures errors == map[] ==> saved == old(saved) + [SubmitData(old(form), mode)]
    {
      var validationErrors := Validate(form, mode);
      errors := validationErrors;
      touched := {FirstName, LastName, Email, Password, ContactNumber, Role};
      if validationErrors == map[] {
        var submitData := SubmitData(form, mode);
        saved := saved + [submitData];
      }
    }
  }
}

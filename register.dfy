/** The donor sign-up form: its checks, the request it sends, and what the
    registration endpoint makes of that request. The form is the JSON object
    the page posts, a map from field names to strings. */
module Register {
  import opened Base
  import opened Text
  import opened Repositories
  import UserController

  type Form = map<string, string>

  /** The keys the form uses for the two name fields. */
  datatype NameKeys = NameKeys(first: string, last: string)

  /** The keys the page declares. */
  const AsWrittenKeys := NameKeys("firstName", "lastName")
  /** The keys the registration endpoint reads. */
  const EndpointKeys := NameKeys("first_name", "last_name")

  /** The name keys are two fields of their own. */
  predicate Distinct(keys: NameKeys) {
    keys.first != keys.last && keys.first !in {"email", "password", "confirmPassword"}
    && keys.last !in {"email", "password", "confirmPassword"}
  }

  function InitialForm(keys: NameKeys): Form {
    map[keys.first := "", keys.last := "", "email" := "", "contactNumber" := "", "password" := "",
        "confirmPassword" := "", "role" := "DONOR"]
  }

  /** Every field the checks call `.trim()` on is present. Reading an absent
      one throws a `TypeError`, so `validateForm` then records nothing. */
  predicate HasFields(form: Form, keys: NameKeys) {
    keys.first in form && keys.last in form && "email" in form
  }

  /** A field as the page reads it: `undefined` (`None`) when absent. */
  function Field(form: Form, key: string): (r: Option<string>)
    ensures r.Some? <==> key in form
    ensures r.Some? ==> r.value == form[key]
  {
    if key in form then Some(form[key]) else None
  }

  const MinPasswordLength := 6

  /** The message the checks record for one field, if any. */
  function PersonalError(form: Form, keys: NameKeys, key: string): Option<string>
    requires HasFields(form, keys)
  {
    if key == keys.first then (if Blank(form[keys.first]) then Some("First name is required") else None)
    else if key == keys.last then (if Blank(form[keys.last]) then Some("Last name is required") else None)
    else if key == "email" then
      (if Blank(form["email"]) then Some("Email is required")
       else if !IsEmail(form["email"]) then Some("Invalid email")
       else None)
    else if key == "password" then
      (if "password" !in form || form["password"] == "" then Some("Password is required")
       else if |form["password"]| < MinPasswordLength then Some("Password must be at least 6 characters")
       else None)
    else if key == "confirmPassword" then
      (if Field(form, "password") != Field(form, "confirmPassword") then Some("Passwords do not match") else None)
    else None
  }

  function PersonalKeys(keys: NameKeys): set<string> {
    {keys.first, keys.last, "email", "password", "confirmPassword"}
  }

  /** `validateForm`'s error object for the personal fields. */
  function ValidateForm(form: Form, keys: NameKeys): (r: map<string, string>)
    requires HasFields(form, keys)
    ensures forall k :: k in r <==> k in PersonalKeys(keys) && PersonalError(form, keys, k).Some?
    ensures forall k :: k in r ==> r[k] == PersonalError(form, keys, k).value
  {
    map k | k in PersonalKeys(keys) && PersonalError(form, keys, k).Some? :: PersonalError(form, keys, k).value
  }

  /** The rules every sign-up form shares. */
  predicate PersonalFieldsPass(form: Form, keys: NameKeys)
    requires HasFields(form, keys)
  {
    && !Blank(form[keys.first]) && !Blank(form[keys.last])
    && !Blank(form["email"]) && IsEmail(form["email"])
    && "password" in form && |form["password"]| >= MinPasswordLength
    && Field(form, "password") == Field(form, "confirmPassword")
  }

  /** The form is valid exactly when every personal rule passes, and the
      confirmation error appears exactly when the two passwords differ. */
  lemma ValidIffRulesPass(form: Form, keys: NameKeys)
    requires HasFields(form, keys) && Distinct(keys)
    ensures ValidateForm(form, keys) == map[] <==> PersonalFieldsPass(form, keys)
    ensures "confirmPassword" in ValidateForm(form, keys) <==> Field(form, "password") != Field(form, "confirmPassword")
  {
    EmptyIffNoMessage(form, keys);
    NoMessageIffRulesPass(form, keys);
    assert "confirmPassword" in PersonalKeys(keys);
  }

  /** The error object is empty exactly when no field has a message. */
  lemma EmptyIffNoMessage(form: Form, keys: NameKeys)
    requires HasFields(form, keys)
    ensures ValidateForm(form, keys) == map[] <==> forall k :: k in PersonalKeys(keys) ==> PersonalError(form, keys, k).None?
  {
    var r := ValidateForm(form, keys);
    if r != map[] {
      var k :| k in r;
      assert PersonalError(form, keys, k).Some?;
      assert k == keys.first || k == keys.last || k == "email" || k == "password" || k == "confirmPassword";
    }
  }

  /** No field has a message exactly when every personal rule passes. */
  lemma NoMessageIffRulesPass(form: Form, keys: NameKeys)
    requires HasFields(form, keys) && Distinct(keys)
    ensures (forall k :: k in PersonalKeys(keys) ==> PersonalError(form, keys, k).None?) <==> PersonalFieldsPass(form, keys)
  {
    var ks := PersonalKeys(keys);
    if PersonalFieldsPass(form, keys) {
      forall k | k in ks ensures PersonalError(form, keys, k).None? {
        if k == keys.first {
        } else if k == keys.last {
        } else if k == "email" {
        } else if k == "password" {
        }
      }
    }
    if forall k :: k in ks ==> PersonalError(form, keys, k).None? {
      assert keys.first in ks && keys.last in ks && "email" in ks && "password" in ks && "confirmPassword" in ks;
      assert PersonalError(form, keys, keys.first).None? && PersonalError(form, keys, keys.last).None?;
      assert PersonalError(form, keys, "email").None? && PersonalError(form, keys, "password").None?;
      assert PersonalError(form, keys, "confirmPassword").None?;
    }
  }

  /** Six characters are enough, five are not. */
  lemma PasswordLengthBoundary(form: Form, keys: NameKeys)
    requires HasFields(form, keys) && Distinct(keys)
    ensures "password" in form && |form["password"]| == 6 ==> "password" !in ValidateForm(form, keys)
    ensures "password" in form && |form["password"]| == 5 ==> "password" in ValidateForm(form, keys)
  {
    assert "password" in PersonalKeys(keys);
  }

  datatype FetchReply = Ok | NotOk | NetworkError

  const Registered := "User registered successfully!"

  /** What a sign-up page shows once its registration fetch settles. */
  datatype Shown = Shown(errors: map<string, string>, message: string)

  /** The reply handling both sign-up pages share: an ok reply shows the
      page's success message and no error; a failed reply or a network
      error shows one general error and no message. */
  function Settled(reply: FetchReply, success: string): (r: Shown)
    ensures r.message == (if reply == Ok then success else "")
    ensures r.errors.Keys == if reply == Ok then {} else {"general"}
  {
    match reply
    case Ok => Shown(map[], success)
    case NotOk => Shown(map["general" := "Registration failed."], "")
    case NetworkError => Shown(map["general" := "Network error. Try again later."], "")
  }

  /** The sign-up page's state; `sent` lists the bodies posted to the
      registration endpoint. */
  class RegisterForm {
    const keys: NameKeys
    var form: Form
    var errors: map<string, string>
    var isLoading: bool
    var successMessage: string
    var sent: seq<Form>

    constructor (keys: NameKeys)
      ensures this.keys == keys && form == InitialForm(keys) && errors == map[] && sent == []
      ensures !isLoading && successMessage == ""
    {
      this.keys := keys;
      form := InitialForm(keys);
      errors := map[];
      isLoading := false;
      successMessage := "";
      sent := [];
    }

    /** `handleChange`: stores the value and blanks that field's error only. */
    method HandleChange(name: string, value: string)
      modifies this
      ensures form == old(form)[name := value]
      ensures errors == if name in old(errors) && old(errors)[name] != "" then old(errors)[name := ""] else old(errors)
      ensures sent == old(sent)
    {
      form := form[name := value];
      if name in errors && errors[name] != "" {
        errors := errors[name := ""];
      }
    }

    /** `validateForm`: stores the error object and answers whether it is
        empty. With a trimmed field absent it throws before storing
        anything; `ok` is then false and the submit stops there. */
    method Validate() returns (ok: bool)
      modifies this`errors
      ensures !HasFields(form, keys) ==> !ok && errors == old(errors)
      ensures HasFields(form, keys) ==> errors == ValidateForm(form, keys)
      ensures ok <==> HasFields(form, keys) && ValidateForm(form, keys) == map[]
    {
      if HasFields(form, keys) {
        errors := ValidateForm(form, keys);
        ok := errors == map[];
      } else {
        ok := false;
      }
    }

    /** `handleSubmit`: the error object and the message are cleared first.
        An invalid form, or one whose validation throws, is never sent; a
        valid one is posted whole, once, and the reply decides what is
        shown. `valid` is the answer validation gave. */
    method HandleSubmit(reply: FetchReply) returns (valid: bool)
      modifies this`errors, this`isLoading, this`successMessage, this`sent
      ensures valid <==> HasFields(form, keys) && ValidateForm(form, keys) == map[]
      ensures !valid ==> sent == old(sent) && successMessage == "" && isLoading == old(isLoading)
      ensures !valid ==> errors == if HasFields(form, keys) then ValidateForm(form, keys) else map[]
      ensures valid ==> sent == old(sent) + [form] && !isLoading
      ensures valid ==> errors == Settled(reply, Registered).errors && successMessage == Settled(reply, Registered).message
    {
      errors, successMessage := map[], "";
      valid := Validate();
      if valid {
        Post(reply);
      }
    }

    /** The fetch a valid form goes on to: the body is posted once and the
        settled reply decides the error object and the message. */
    method Post(reply: FetchReply)
      modifies this`errors, this`isLoading, this`successMessage, this`sent
      ensures sent == old(sent) + [form] && !isLoading
      ensures errors == Settled(reply, Registered).errors && successMessage == Settled(reply, Registered).message
    {
      isLoading := true;
      sent := sent + [form];
      var shown := Settled(reply, Registered);
      errors, successMessage := shown.errors, shown.message;
      isLoading := false;
    }
  }

  /** The page as written posts the names under camelCase keys, which the
      endpoint does not read: the stored user has no first or last name even
      though the form insisted on both. */
  lemma AsWrittenLosesNames(st: Store, form: Form)
    requires HasFields(form, AsWrittenKeys) && form.Keys == InitialForm(AsWrittenKeys).Keys
    requires PersonalFieldsPass(form, AsWrittenKeys)
    ensures var u := UserController.Register(st, form).users[st.nextUserId];
      u.firstName.None? && u.lastName.None?
    ensures form[AsWrittenKeys.first] != ""
  {
    EndpointNamesNotDeclared();
  }

  /** The page's initial form has neither of the keys the endpoint reads for
      the names. */
  lemma EndpointNamesNotDeclared()
    ensures "first_name" !in InitialForm(AsWrittenKeys) && "last_name" !in InitialForm(AsWrittenKeys)
  {
    forall k | k in InitialForm(AsWrittenKeys) ensures k != "first_name" && k != "last_name" {
      assert |k| != 9 || k[0] == 'f';
    }
  }

  /** With the endpoint's keys the names the form checked are the names stored. */
  lemma EndpointKeysKeepNames(st: Store, form: Form)
    requires HasFields(form, EndpointKeys) && PersonalFieldsPass(form, EndpointKeys)
    ensures var u := UserController.Register(st, form).users[st.nextUserId];
      && u.firstName == Some(form["first_name"]) && !Blank(u.firstName.value)
      && u.lastName == Some(form["last_name"]) && !Blank(u.lastName.value)
      && u.email == Some(form["email"]) && u.password == Some(form["password"])
  {
  }
}

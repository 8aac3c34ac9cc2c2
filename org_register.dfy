/** The organization sign-up form: the donor form's personal checks under the
    endpoint's snake_case name keys, three organization fields on top, and
    the role fixed to "ORGANIZATION", so that registration also creates a
    pending organization linked to the new user. */
module OrgRegister {
  import opened Base
  import opened Text
  import opened Entities
  import opened Repositories
  import UserController
  import Register

  type Form = map<string, string>

  const Keys := Register.EndpointKeys

  function InitialForm(): Form {
    map["first_name" := "", "last_name" := "", "email" := "", "contactNumber" := "", "password" := "",
        "confirmPassword" := "", "role" := "ORGANIZATION", "organization_name" := "",
        "organization_description" := "", "organization_address" := ""]
  }

  function OrganizationKeys(): set<string> {
    {"organization_name", "organization_description", "organization_address"}
  }

  /** Every field the checks call `.trim()` on is present. */
  predicate HasFields(form: Form) {
    Register.HasFields(form, Keys) && "organization_name" in form && "organization_description" in form && "organization_address" in form
  }

  /** The message for one organization field, if any. */
  function OrganizationError(form: Form, key: string): Option<string>
    requires HasFields(form)
  {
    if key == "organization_name" then
      (if Blank(form["organization_name"]) then Some("Organization name is required") else None)
    else if key == "organization_description" then
      (if Blank(form["organization_description"]) then Some("Organization description is required") else None)
    else if key == "organization_address" then
      (if Blank(form["organization_address"]) then Some("Organization address is required") else None)
    else None
  }

  /** The organization part of the error object. */
  function OrganizationErrors(form: Form): (r: map<string, string>)
    requires HasFields(form)
    ensures forall k :: k in r <==> k in OrganizationKeys() && OrganizationError(form, k).Some?
    ensures forall k :: k in r ==> r[k] == OrganizationError(form, k).value
  {
    map k | k in OrganizationKeys() && OrganizationError(form, k).Some? :: OrganizationError(form, k).value
  }

  /** `validateForm`'s error object: the personal entries, then the
      organization entries (the two key sets are disjoint). */
  function ValidateForm(form: Form): (r: map<string, string>)
    requires HasFields(form)
    ensures r.Keys == Register.ValidateForm(form, Keys).Keys + OrganizationErrors(form).Keys
    ensures forall k :: k in OrganizationErrors(form) ==> r[k] == OrganizationErrors(form)[k]
  {
    Register.ValidateForm(form, Keys) + OrganizationErrors(form)
  }

  /** `validateForm` returns true: no entry in either part. */
  predicate Valid(form: Form)
    requires HasFields(form)
  {
    Register.ValidateForm(form, Keys) == map[] && OrganizationErrors(form) == map[]
  }

  /** The organization fields the endpoint stores are all filled in. */
  predicate OrganizationFieldsPass(form: Form)
    requires HasFields(form)
  {
    !Blank(form["organization_name"]) && !Blank(form["organization_description"]) && !Blank(form["organization_address"])
  }

  /** The personal keys and the organization keys are disjoint. */
  lemma KeysDisjoint()
    ensures forall k :: k in Register.PersonalKeys(Keys) ==> k !in OrganizationKeys()
  {
    forall k | k in Register.PersonalKeys(Keys) ensures k !in OrganizationKeys() {
      assert |k| <= 15;
    }
  }

  lemma PersonalErrorsShared(form: Form)
    requires HasFields(form)
    ensures forall k :: k in Register.ValidateForm(form, Keys) ==> k !in OrganizationErrors(form)
    ensures forall k :: k in Register.ValidateForm(form, Keys) ==>
      k in ValidateForm(form) && ValidateForm(form)[k] == Register.ValidateForm(form, Keys)[k]
  {
    var p := Register.ValidateForm(form, Keys);
    KeysDisjoint();
    forall k | k in p ensures k !in OrganizationErrors(form) {
      assert k in Register.PersonalKeys(Keys);
    }
  }

  /** The organization part is empty exactly when the three organization
      fields are filled in. */
  lemma OrganizationErrorsIffFieldsPass(form: Form)
    requires HasFields(form)
    ensures OrganizationErrors(form) == map[] <==> OrganizationFieldsPass(form)
  {
    var o := OrganizationErrors(form);
    var ks := OrganizationKeys();
    assert "organization_name" in ks && "organization_description" in ks && "organization_address" in ks;
    if o == map[] {
      assert "organization_name" !in o && "organization_description" !in o && "organization_address" !in o;
    } else {
      var k :| k in o;
      assert OrganizationError(form, k).Some?;
      assert k == "organization_name" || k == "organization_description" || k == "organization_address";
    }
  }

  /** The form is valid exactly when the personal rules and the three
      organization rules all pass. */
  lemma ValidIffRulesPass(form: Form)
    requires HasFields(form)
    ensures ValidateForm(form) == map[] <==> Register.PersonalFieldsPass(form, Keys) && OrganizationFieldsPass(form)
  {
    Register.ValidIffRulesPass(form, Keys);
    OrganizationErrorsIffFieldsPass(form);
  }

  /** A valid form, posted as it stands, registers a user whose names are
      the checked ones and an organization that is pending, linked to that
      user and carries the three non-blank organization fields. */
  lemma ValidFormCreatesOrganization(st: Store, form: Form)
    requires HasFields(form) && "role" in form && form["role"] == "ORGANIZATION"
    requires ValidateForm(form) == map[]
    ensures var r := UserController.Register(st, form);
      var u := r.users[st.nextUserId];
      && st.nextOrganizationId in r.organizations
      && var o := r.organizations[st.nextOrganizationId];
      && o.userId == Some(st.nextUserId) && o.approvalStatus == Some("pending")
      && o.name.Some? && !Blank(o.name.value)
      && o.description.Some? && !Blank(o.description.value)
      && o.address.Some? && !Blank(o.address.value)
      && u.firstName.Some? && !Blank(u.firstName.value)
      && u.lastName.Some? && !Blank(u.lastName.value)
  {
    ValidIffRulesPass(form);
  }
}

/** The organization sign-up page's state and its submit handler. */
module OrgRegisterPage {
  import opened OrgRegister
  import Register

  const Registered := "Organization registered successfully!"

  /** The page's state; `sent` lists the bodies posted to the registration
      endpoint. */
  class OrgRegisterForm {
    var form: Form
    var errors: map<string, string>
    var isLoading: bool
    var successMessage: string
    var sent: seq<Form>

    constructor ()
      ensures form == InitialForm() && errors == map[] && sent == [] && !isLoading && successMessage == ""
    {
      form := InitialForm();
      errors := map[];
      isLoading := false;
      successMessage := "";
      sent := [];
    }

    /** `handleChange`: stores the value and blanks that field's error only. */
    method HandleChange(name: string, value: string)
      modifies this
      ensures form == old(form)[name := value]
      ensures errors == if name in old(errors) && old(errors)[name] != "" then old(errors)[name := ""] else old(errors)
      ensures sent == old(sent)
    {
      form := form[name := value];
      if name in errors && errors[name] != "" {
        errors := errors[name := ""];
      }
    }

    /** `validateForm`: stores the error object and answers whether it is
        empty. With a trimmed field absent it throws before storing
        anything; `ok` is then false and the submit stops there. */
    method Validate() returns (ok: bool)
      modifies this`errors
      ensures !HasFields(form) ==> !ok && errors == old(errors)
      ensures HasFields(form) ==> errors == ValidateForm(form)
      ensures ok <==> HasFields(form) && ValidateForm(form) == map[]
    {
      if HasFields(form) {
        errors := ValidateForm(form);
        ok := errors == map[];
      } else {
        ok := false;
      }
    }

    /** `handleSubmit`: the error object and the message are cleared first.
        An invalid form, or one whose validation throws, is never sent; a
        valid one is posted whole, once, and the reply decides what is
        shown. `valid` is the answer validation gave. */
    method HandleSubmit(reply: Register.FetchReply) returns (valid: bool)
      modifies this`errors, this`isLoading, this`successMessage, this`sent
      ensures valid <==> HasFields(form) && ValidateForm(form) == map[]
      ensures !valid ==> sent == old(sent) && successMessage == "" && isLoading == old(isLoading)
      ensures !valid ==> errors == if HasFields(form) then ValidateForm(form) else map[]
      ensures valid ==> sent == old(sent) + [form] && !isLoading
      ensures valid ==> errors == Register.Settled(reply, Registered).errors && successMessage == Register.Settled(reply, Registered).message
    {
      errors, successMessage := map[], "";
      valid := Validate();
      if valid {
        Post(reply);
      }
    }

    /** The fetch a valid form goes on to: the body is posted once and the
        settled reply decides the error object and the message. */
    method Post(reply: Register.FetchReply)
      modifies this`errors, this`isLoading, this`successMessage, this`sent
      ensures sent == old(sent) + [form] && !isLoading
      ensures errors == Register.Settled(reply, Registered).errors && successMessage == Register.Settled(reply, Registered).message
    {
      isLoading := true;
      sent := sent + [form];
      var shown := Register.Settled(reply, Registered);
      errors, successMessage := shown.errors, shown.message;
      isLoading := false;
    }
  }
}

/** The admin's add/edit organization dialog: a single name check, the form
    it resets to when opened, and the save gate. `initialData` is a map
    from field names to strings; a missing key, a `null` and an empty string
    all read as falsy. */
module OrganizationModal {
  import opened Base
  import opened Text

  datatype Field = Name | ContactDetails | EligibilityProof | ApprovalStatus

  datatype OrganizationForm = OrganizationForm(name: string, contactDetails: string, eligibilityProof: string, approvalStatus: string)

  const DefaultStatus := "pending"
  const NameRequired := "Organization name is required"

  /** The form the dialog resets to whenever it opens. */
  function Opened(initial: map<string, string>): OrganizationForm {
    OrganizationForm(OrText(Lookup(initial, "name"), ""), OrText(Lookup(initial, "contactDetails"), ""),
                     OrText(Lookup(initial, "eligibilityProof"), ""), OrText(Lookup(initial, "approvalStatus"), DefaultStatus))
  }

  /** A missing status opens as "pending", and no field opens as anything
      but the given value or its default. */
  lemma OpenedForm(initial: map<string, string>)
    ensures Opened(initial).approvalStatus != ""
    ensures !("approvalStatus" in initial && initial["approvalStatus"] != "") ==> Opened(initial).approvalStatus == DefaultStatus
    ensures "name" !in initial ==> Opened(initial).name == "" && Validate(Opened(initial)) == map[Name := NameRequired]
  {
    if "name" !in initial {
      assert Blank("");
    }
  }

  /** `validate(data)`: only the name is checked. */
  function Validate(data: OrganizationForm): (r: map<Field, string>)
    ensures r == map[] <==> !Blank(data.name)
    ensures r != map[] ==> r == map[Name := NameRequired]
  {
    if Blank(data.name) then
      var m := map[Name := NameRequired];
      assert Name in m;
      m
    else map[]
  }

  /** Contact details, eligibility proof and approval status never produce
      an error, whatever they hold. */
  lemma OnlyNameChecked(data: OrganizationForm, contactDetails: string, eligibilityProof: string, approvalStatus: string)
    ensures Validate(data.(contactDetails := contactDetails, eligibilityProof := eligibilityProof, approvalStatus := approvalStatus))
         == Validate(data)
    ensures ContactDetails !in Validate(data) && EligibilityProof !in Validate(data) && ApprovalStatus !in Validate(data)
  {
    var edited := data.(contactDetails := contactDetails, eligibilityProof := eligibilityProof, approvalStatus := approvalStatus);
    assert edited.name == data.name;
  }

  function Set(data: OrganizationForm, field: Field, value: string): OrganizationForm {
    match field
    case Name => data.(name := value)
    case ContactDetails => data.(contactDetails := value)
    case EligibilityProof => data.(eligibilityProof := value)
    case ApprovalStatus => data.(approvalStatus := value)
  }

  /** The dialog's state; `saved` lists the forms handed to `onSave`. */
  class OrganizationDialog {
    var form: OrganizationForm
    var errors: map<Field, string>
    var touched: set<Field>
    var saved: seq<OrganizationForm>

    constructor ()
      ensures form == OrganizationForm("", "", "", DefaultStatus) && errors == map[] && touched == {} && saved == []
    {
      form := OrganizationForm("", "", "", DefaultStatus);
      errors := map[];
      touched := {};
      saved := [];
    }

    /** The effect run when the dialog opens. */
    method Open(initial: map<string, string>)
      modifies this
      ensures form == Opened(initial) && errors == map[] && touched == {} && saved == old(saved)
    {
      form := Opened(initial);
      errors := map[];
      touched := {};
    }

    /** `handleChange`: the field takes the value and the form is checked
        again. */
    method HandleChange(field: Field, value: string)
      modifies this
      ensures form == Set(old(form), field, value) && touched == old(touched) + {field}
      ensures errors == Validate(form) && saved == old(saved)
    {
      var next := Set(form, field, value);
      form := next;
      touched := touched + {field};
      errors := Validate(next);
    }

    /** `handleBlur`: the field is marked touched and the form checked. */
    method HandleBlur(field: Field)
      modifies this
      ensures form == old(form) && touched == old(touched) + {field}
      ensures errors == Validate(form) && saved == old(saved)
    {
      touched := touched + {field};
      errors := Validate(form);
    }

    /** `handleSubmit`: every field is marked touched; only a form with a
        name reaches `onSave`, unchanged. */
    method HandleSubmit()
      modifies this
      ensures form == old(form) && errors == Validate(old(form))
      ensures touched == {Name, ContactDetails, EligibilityProof, ApprovalStatus}
      ensures Blank(old(form).name) ==> saved == old(saved)
      ensures !Blank(old(form).name) ==> saved == old(saved) + [old(form)]
    {
      var validationErrors := Validate(form);
      errors := validationErrors;
      touched := {Name, ContactDetails, EligibilityProof, ApprovalStatus};
      if validationErrors == map[] {
        saved := saved + [form];
      }
    }
  }
}

// The customer picker and creation form: the customer list, the five text
// inputs kept in a dictionary keyed by input name, the per-field errors, the
// required-and-loose-email validation, and creation through the service.
// Failures go to the quotes store's error, modelled as a field.
module CustomerForm {
  import opened Wrappers
  import opened Text
  import opened FormState
  import Validation

  /** A customer as the service returns it. */
  datatype SavedCustomer = SavedCustomer(id: int, company_name: String, contact_person: String, email: String)

  /** `{ company_name: '', contact_person: '', email: '', phone: '', address: '' }`. */
  const EmptyForm: map<String, String> :=
    map["company_name" := "", "contact_person" := "", "email" := "", "phone" := "", "address" := ""]

  /** `/\S+@\S+\.\S+/.test(s)`, unanchored: some `@` has a non-space before
      it, and a later dot has at least one non-space character between them
      and one after it. */
  predicate LooseEmail(s: String)
  {
    exists b, c :: 0 < b < c - 1 && c < |s| - 1 && LooseAt(s, b, c)
  }

  predicate LooseAt(s: String, b: int, c: int)
  {
    0 < b < c - 1 && c < |s| - 1 && s[b] == '@' && s[c] == '.'
    && !IsSpace(s[b - 1]) && !IsSpace(s[c + 1])
    && forall k :: b < k < c ==> !IsSpace(s[k])
  }

  /** Every address the anchored rule of the validation utilities accepts
      also passes this form's loose test. */
  lemma {:induction false} AnchoredImpliesLoose(s: String)
    requires Validation.EmailCheck(s)
    ensures LooseEmail(s)
  {
    Validation.EmailCheckSound(s);
    var i, j :| Validation.SplitsAt(s, i, j);
    assert Validation.IsLocalChar(s[..i][i - 1]);
    assert Validation.IsLetter(s[j + 1..][0]);
    forall k | i < k < j ensures !IsSpace(s[k]) {
      assert Validation.IsDomainChar(s[i + 1..j][k - i - 1]);
    }
    assert LooseAt(s, i, j);
  }

  /** The loose test is strictly weaker: a one-letter top-level domain and
      spaces around the address pass it. */
  lemma {:induction false} LooseAcceptsMore()
    ensures LooseEmail("a@b.c") && !Validation.EmailCheck("a@b.c")
    ensures LooseEmail("x a@b.c")
  {
    assert LooseAt("a@b.c", 1, 3);
    assert LooseAt("x a@b.c", 3, 5);
    Validation.EmailExamples();
  }

  /** `validateForm`'s error dictionary. */
  function FormErrors(form: map<String, String>): (r: map<String, String>)
    ensures r.Keys <= {"company_name", "contact_person", "email"}
    ensures "company_name" in r <==> Field(form, "company_name") == ""
    ensures "contact_person" in r <==> Field(form, "contact_person") == ""
    ensures "email" in r <==> !LooseEmail(Field(form, "email"))
    ensures "company_name" in r ==> r["company_name"] == "Company name is required"
    ensures "contact_person" in r ==> r["contact_person"] == "Contact person is required"
    ensures "email" in r ==> r["email"] == if Field(form, "email") == "" then "Email is required" else "Email is invalid"
  {
    var e1: map<String, String> := if Field(form, "company_name") == "" then map["company_name" := "Company name is required"] else map[];
    var e2 := if Field(form, "contact_person") == "" then e1["contact_person" := "Contact person is required"] else e1;
    var email := Field(form, "email");
    if email == "" then e2["email" := "Email is required"]
    else if !LooseEmail(email) then e2["email" := "Email is invalid"]
    else e2
  }

  /** The form passes exactly when both names are filled in and the email
      passes the loose test; phone and address are never checked. */
  lemma {:induction false} FormValidIff(form: map<String, String>)
    ensures FormErrors(form) == map[] <==>
              Field(form, "company_name") != "" && Field(form, "contact_person") != ""
              && LooseEmail(Field(form, "email"))
  {
    if FormErrors(form) != map[] {
      var k :| k in FormErrors(form);
    }
  }

  class CustomerPicker {
    var customers: seq<SavedCustomer>
    var isLoading: bool
    var isCreating: bool
    var formData: map<String, String>
    var errors: map<String, String>
    /** The quotes store's `error`, set through `dispatch(setError(...))`. */
    var storeError: Option<String>
    /** The customers passed to `onCustomerSelect`, in order. */
    var selections: seq<SavedCustomer>

    constructor()
      ensures customers == [] && !isLoading && !isCreating && formData == EmptyForm
      ensures errors == map[] && storeError.None? && selections == []
    {
      customers, isLoading, isCreating, formData := [], false, false, EmptyForm;
      errors, storeError, selections := map[], None, [];
    }

    /** `fetchCustomers`: the reply is kept as it is; a failure is reported
        to the store. Loading ends either way. */
    method FetchCustomers(reply: Option<seq<SavedCustomer>>)
      modifies this
      ensures !isLoading
      ensures reply.Some? ==> customers == reply.value && storeError == old(storeError)
      ensures reply.None? ==> customers == old(customers) && storeError == Some("Failed to fetch customers")
      ensures formData == old(formData) && errors == old(errors) && isCreating == old(isCreating)
      ensures selections == old(selections)
    {
      isLoading := true;
      if reply.Some? {
        customers := reply.value;
      } else {
        storeError := Some("Failed to fetch customers");
      }
      isLoading := false;
    }

    /** `handleInputChange`: the input's value is stored under its name and
        a shown error for that field is blanked. */
    method HandleInputChange(name: String, value: String)
      modifies this
      ensures formData == old(formData)[name := value]
      ensures errors == ClearError(old(errors), name)
      ensures customers == old(customers) && isLoading == old(isLoading) && isCreating == old(isCreating)
      ensures storeError == old(storeError) && selections == old(selections)
    {
      formData := formData[name := value];
      errors := ClearError(errors, name);
    }

    /** `validateForm`: records the errors and reports whether there are
        none. */
    method ValidateForm() returns (ok: bool)
      modifies this
      ensures errors == FormErrors(formData) && (ok <==> errors == map[])
      ensures ok <==> Field(formData, "company_name") != "" && Field(formData, "contact_person") != ""
                      && LooseEmail(Field(formData, "email"))
      ensures formData == old(formData) && customers == old(customers) && isCreating == old(isCreating)
      ensures isLoading == old(isLoading) && storeError == old(storeError) && selections == old(selections)
    {
      var newErrors := FormErrors(formData);
      errors := newErrors;
      FormValidIff(formData);
      ok := |newErrors| == 0;
      assert ok <==> newErrors == map[];
    }

    /** `handleCreateCustomer`: an invalid form only shows its errors. A
        created customer is selected, appended and the form emptied and
        closed; a failure is reported to the store and the input kept. */
    method HandleCreateCustomer(created: Option<SavedCustomer>)
      modifies this
      ensures errors == FormErrors(old(formData))
      ensures errors != map[] ==>
                customers == old(customers) && formData == old(formData) && isCreating == old(isCreating)
                && selections == old(selections) && storeError == old(storeError) && isLoading == old(isLoading)
      ensures errors == map[] ==> !isLoading
      ensures errors == map[] && created.Some? ==>
                customers == old(customers) + [created.value] && selections == old(selections) + [created.value]
                && !isCreating && formData == EmptyForm && storeError == old(storeError)
      ensures errors == map[] && created.None? ==>
                customers == old(customers) && selections == old(selections) && formData == old(formData)
                && isCreating == old(isCreating) && storeError == Some("Failed to create customer")
    {
      var ok := ValidateForm();
      if !ok {
        return;
      }
      isLoading := true;
      if created.Some? {
        selections := selections + [created.value];
        customers := customers + [created.value];
        isCreating := false;
        formData := EmptyForm;
      } else {
        storeError := Some("Failed to create customer");
      }
      isLoading := false;
    }

    /** The "Create New Customer" and "Cancel" buttons. */
    method SetCreating(creating: bool)
      modifies this
      ensures isCreating == creating
      ensures formData == old(formData) && errors == old(errors) && customers == old(customers)
      ensures isLoading == old(isLoading) && storeError == old(storeError) && selections == old(selections)
    {
      isCreating := creating;
    }

    /** Clicking a listed customer selects it. */
    method SelectCustomer(i: nat)
      requires i < |customers|
      modifies this
      ensures selections == old(selections) + [old(customers)[i]]
      ensures customers == old(customers) && formData == old(formData) && isCreating == old(isCreating)
      ensures isLoading == old(isLoading) && errors == old(errors) && storeError == old(storeError)
    {
      selections := selections + [customers[i]];
    }
  }
}

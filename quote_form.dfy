// The quote-details form: two required text areas, the per-field errors,
// and submission through the parent's `onSubmit`, whose outcome is an
// input. A failure goes to the quotes store's error, modelled as a field.
module QuoteForm {
  import opened Wrappers
  import opened Text
  import opened FormState

  datatype InitialData = InitialData(specifications: String, context: String)

  /** `validateForm`'s error dictionary. */
  function QuoteFormErrors(form: map<String, String>): (r: map<String, String>)
    ensures r.Keys <= {"specifications", "context"}
    ensures "specifications" in r <==> Field(form, "specifications") == ""
    ensures "context" in r <==> Field(form, "context") == ""
    ensures "specifications" in r ==> r["specifications"] == "Product specifications are required"
    ensures "context" in r ==> r["context"] == "Communication context is required"
  {
    var e: map<String, String> :=
      if Field(form, "specifications") == "" then map["specifications" := "Product specifications are required"]
      else map[];
    if Field(form, "context") == "" then e["context" := "Communication context is required"] else e
  }

  /** The form passes exactly when both text areas are filled in. */
  lemma {:induction false} QuoteFormValidIff(form: map<String, String>)
    ensures QuoteFormErrors(form) == map[] <==>
              Field(form, "specifications") != "" && Field(form, "context") != ""
  {
    if QuoteFormErrors(form) != map[] {
      var k :| k in QuoteFormErrors(form);
    }
  }

  class QuoteDetailsForm {
    const hasInitialData: bool
    var formData: map<String, String>
    var isLoading: bool
    var errors: map<String, String>
    /** The quotes store's `error`, set through `dispatch(setError(...))`. */
    var storeError: Option<String>
    /** The values passed to `onSubmit`, in order. */
    var submitted: seq<map<String, String>>

    /** The fields start from `initialData` or "". */
    constructor(initial: Option<InitialData>)
      ensures hasInitialData == initial.Some?
      ensures formData.Keys == {"specifications", "context"}
      ensures formData["specifications"] == if initial.Some? then initial.value.specifications else ""
      ensures formData["context"] == if initial.Some? then initial.value.context else ""
      ensures !isLoading && errors == map[] && storeError.None? && submitted == []
    {
      hasInitialData := initial.Some?;
      formData := map["specifications" := if initial.Some? then initial.value.specifications else "",
                      "context" := if initial.Some? then initial.value.context else ""];
      isLoading, errors, storeError, submitted := false, map[], None, [];
    }

    /** `handleInputChange`: only the named field changes, and its error is
        blanked. */
    method HandleInputChange(name: String, value: String)
      modifies this
      ensures formData == old(formData)[name := value]
      ensures errors == ClearError(old(errors), name)
      ensures isLoading == old(isLoading) && submitted == old(submitted) && storeError == old(storeError)
    {
      formData := formData[name := value];
      errors := ClearError(errors, name);
    }

    /** `handleSubmit`: an invalid form only shows its errors and never
        calls `onSubmit`; otherwise the values are submitted and a failure
        is reported to the store. Loading ends either way. */
    method HandleSubmit(saved: bool)
      modifies this
      ensures errors == QuoteFormErrors(old(formData)) && formData == old(formData)
      ensures errors != map[] ==>
                submitted == old(submitted) && storeError == old(storeError) && isLoading == old(isLoading)
      ensures errors == map[] ==>
                Field(formData, "specifications") != "" && Field(formData, "context") != ""
                && submitted == old(submitted) + [old(formData)] && !isLoading
                && storeError == if saved then old(storeError) else Some("Failed to save quote details")
    {
      var newErrors := QuoteFormErrors(formData);
      errors := newErrors;
      QuoteFormValidIff(formData);
      if |newErrors| != 0 {
        return;
      }
      isLoading := true;
      submitted := submitted + [formData];
      if !saved {
        storeError := Some("Failed to save quote details");
      }
      isLoading := false;
    }

    /** The submit button names the action. */
    function SubmitLabel(): (r: String)
      reads this
      ensures r == "Update Quote" <==> hasInitialData
      ensures r == "Create Quote" <==> !hasInitialData
    {
      if hasInitialData then "Update Quote" else "Create Quote"
    }
  }
}

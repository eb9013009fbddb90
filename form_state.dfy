// The input-state idiom shared by the customer and quote-details forms:
// values and errors are dictionaries keyed by the input's `name`.
module FormState {
  import opened Text

  /** `formData[name]`; a missing key reads as `undefined`, which is falsy
      like "". */
  function Field(form: map<String, String>, name: String): (r: String)
    ensures name in form ==> r == form[name]
    ensures name !in form ==> r == ""
  {
    if name in form then form[name] else ""
  }

  /** `if (errors[name]) setErrors(prev => ({ ...prev, [name]: '' }))`: the
      field's error is blanked, every other error is kept, and no key is
      added or dropped. */
  function ClearError(errors: map<String, String>, name: String): (r: map<String, String>)
    ensures r.Keys == errors.Keys
    ensures Field(r, name) == ""
    ensures forall k :: k in errors && k != name ==> r[k] == errors[k]
  {
    if name in errors && errors[name] != "" then errors[name := ""] else errors
  }
}

// The product-specification form of the quote wizard: the field rules it
// registers, and `getFormData`, which validates every field and then either
// returns the values (numbers coerced) or null.
module SpecForm {
  import opened Wrappers
  import opened Text
  import opened Schemas

  /** The form's current values. The two number inputs are read with
      `valueAsNumber`, so an empty input is `NaN` (`None`). */
  datatype SpecFormValues = SpecFormValues(
    description: String,
    profile_type: String,
    alloy: String,
    weight_per_meter: Option<real>,
    total_length: Option<real>,
    surface_treatment: String,
    machining_complexity: String)

  const MinWeight: real := 0.01
  const MinLength: real := 1.0
  const MustBePositive := "Must be positive"

  const FieldNames: set<String> := {"description", "profile_type", "alloy", "weight_per_meter",
                                     "total_length", "surface_treatment", "machining_complexity"}

  /** The error of a required text field. */
  function TextError(value: String, message: String): (r: Option<String>)
    ensures r.Some? <==> value == ""
  {
    if value == "" then Some(message) else None
  }

  /** The error of a number field: `required` first, then `min`. */
  function NumberError(value: Option<real>, min: real, message: String): (r: Option<String>)
    ensures r.Some? <==> value.None? || value.value < min
    ensures value.Some? && r.Some? ==> r.value == MustBePositive
  {
    if value.None? then Some(message)
    else if value.value < min then Some(MustBePositive)
    else None
  }

  /** The rule registered for each field, applied to the current value. */
  function ErrorOf(f: SpecFormValues, name: String): Option<String>
  {
    if name == "description" then TextError(f.description, "Description is required")
    else if name == "profile_type" then TextError(f.profile_type, "Profile Type is required")
    else if name == "alloy" then TextError(f.alloy, "Alloy is required")
    else if name == "weight_per_meter" then NumberError(f.weight_per_meter, MinWeight, "Weight per Meter is required")
    else if name == "total_length" then NumberError(f.total_length, MinLength, "Total Length is required")
    else if name == "surface_treatment" then TextError(f.surface_treatment, "Surface Treatment is required")
    else if name == "machining_complexity" then TextError(f.machining_complexity, "Machining Complexity is required")
    else None
  }

  /** The errors `trigger()` records, by field name. */
  function SpecErrors(f: SpecFormValues): (r: map<String, String>)
    ensures forall name :: name in r <==> name in FieldNames && ErrorOf(f, name).Some?
    ensures forall name :: name in r ==> r[name] == ErrorOf(f, name).value
  {
    map name | name in FieldNames && ErrorOf(f, name).Some? :: ErrorOf(f, name).value
  }

  /** What `trigger()` resolves to: every field passes its rule, so the
      text fields are filled in, the weight is at least 0.01 and the length
      at least 1. */
  predicate AllFieldsValid(f: SpecFormValues)
  {
    f.description != "" && f.profile_type != "" && f.alloy != ""
    && f.surface_treatment != "" && f.machining_complexity != ""
    && f.weight_per_meter.Some? && f.weight_per_meter.value >= MinWeight
    && f.total_length.Some? && f.total_length.value >= MinLength
  }

  /** `trigger()` resolves true exactly when it records no error. */
  lemma {:induction false} NoErrorsIff(f: SpecFormValues)
    ensures SpecErrors(f) == map[] <==> AllFieldsValid(f)
  {
    var e := SpecErrors(f);
    if e == map[] {
      assert ErrorOf(f, "description").None? && ErrorOf(f, "profile_type").None?;
      assert ErrorOf(f, "alloy").None? && ErrorOf(f, "surface_treatment").None?;
      assert ErrorOf(f, "machining_complexity").None?;
      assert ErrorOf(f, "weight_per_meter").None? && ErrorOf(f, "total_length").None?;
    } else {
      var k :| k in e;
      if AllFieldsValid(f) {
        ValidFieldsPass(f, k);
        assert false;
      }
    }
  }

  /** When every field is valid, no rule fails, whatever the name. */
  lemma {:induction false} ValidFieldsPass(f: SpecFormValues, name: String)
    requires AllFieldsValid(f)
    ensures ErrorOf(f, name).None?
  {
  }

  /** `getFormData`: null when any field fails; otherwise the values, with
      both numbers passed through `Number` (which keeps a number as it is). */
  function GetFormData(f: SpecFormValues): (r: Option<ProductSpec>)
    ensures r.Some? ==> r.value.description != "" && r.value.profile_type != "" && r.value.alloy != ""
                        && r.value.surface_treatment != "" && r.value.machining_complexity != ""
                        && r.value.weight_per_meter >= MinWeight && r.value.total_length >= MinLength
    ensures r.Some? ==> f.weight_per_meter.Some? && f.total_length.Some?
                        && r.value == ProductSpec(f.description, f.profile_type, f.alloy,
                                               f.weight_per_meter.value, f.total_length.value,
                                               f.surface_treatment, f.machining_complexity)
  {
    if AllFieldsValid(f) then
      Some(ProductSpec(f.description, f.profile_type, f.alloy,
                       f.weight_per_meter.value, f.total_length.value,
                       f.surface_treatment, f.machining_complexity))
    else None
  }

  /** The form yields data exactly when `trigger()` records no error. */
  lemma {:induction false} GetFormDataIff(f: SpecFormValues)
    ensures GetFormData(f).None? <==> SpecErrors(f) != map[]
  {
    NoErrorsIff(f);
  }

  /** The wizard's initial values: dashes, alloy 6060, raw, low, and zero
      for both numbers. */
  const WizardDefault := SpecFormValues("-", "-", "6060", Some(0.0), Some(0.0), "raw", "low")

  /** The initial values never validate: both numbers are below their
      minimum, so the user must edit them first. */
  lemma {:induction false} WizardDefaultInvalid()
    ensures GetFormData(WizardDefault).None?
    ensures SpecErrors(WizardDefault)["weight_per_meter"] == MustBePositive
    ensures SpecErrors(WizardDefault)["total_length"] == MustBePositive
  {
    assert ErrorOf(WizardDefault, "weight_per_meter").Some?;
    assert ErrorOf(WizardDefault, "total_length").Some?;
  }

  // The options of the three selects; "" is the placeholder.
  const AlloyOptions: seq<String> := ["", "6060", "6063", "6082"]
  const SurfaceOptions: seq<String> := ["", "anodized", "painted", "raw"]
  const ComplexityOptions: seq<String> := ["", "low", "medium", "high"]

  /** Values a user can pick from the three selects pass the server's
      `Literal` checks once the form validates. */
  lemma {:induction false} SelectedOptionsAreLiterals(f: SpecFormValues)
    requires f.alloy in AlloyOptions && f.surface_treatment in SurfaceOptions
    requires f.machining_complexity in ComplexityOptions
    requires GetFormData(f).Some?
    ensures SpecLiteralErrors(GetFormData(f).value) == []
  {
  }
}

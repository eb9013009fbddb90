// The key/value editor for free-form product specifications: a dictionary
// with add (trimmed key and value) and remove, each change emitted to the
// parent. JSON parsing and serialisation are left abstract: the parsed
// initial value is an input, and the emitted dictionaries are recorded.
module SpecMapEditor {
  import opened Wrappers
  import opened Text

  /** The starting dictionary: {} for an empty value or one that does not
      parse, otherwise what it parses to. */
  function InitialSpecs(value: String, parsed: Option<map<String, String>>): (r: map<String, String>)
    ensures value == "" || parsed.None? ==> r == map[]
    ensures value != "" && parsed.Some? ==> r == parsed.value
  {
    if value == "" then map[] else parsed.GetOr(map[])
  }

  /** The Add button: enabled exactly when the trimmed key and the trimmed
      value are both non-empty. */
  predicate AddEnabled(newKey: String, newValue: String)
  {
    Trim(newKey) != "" && Trim(newValue) != ""
  }

  /** The Add button is enabled exactly when neither input is blank. */
  lemma {:induction false} AddEnabledIff(newKey: String, newValue: String)
    ensures AddEnabled(newKey, newValue) <==> !IsBlank(newKey) && !IsBlank(newValue)
  {
    TrimEmptyIffBlank(newKey);
    TrimEmptyIffBlank(newValue);
  }

  class SpecificationEditor {
    var specifications: map<String, String>
    var newKey: String
    var newValue: String
    var isLoading: bool
    /** The quotes store's `error`. */
    var storeError: Option<String>
    /** The dictionaries passed to `onChange`, in order. */
    var emitted: seq<map<String, String>>

    constructor(value: String, parsed: Option<map<String, String>>)
      ensures specifications == InitialSpecs(value, parsed)
      ensures newKey == "" && newValue == "" && !isLoading && storeError.None? && emitted == []
    {
      specifications := InitialSpecs(value, parsed);
      newKey, newValue, isLoading, storeError, emitted := "", "", false, None, [];
    }

    method SetNewKey(k: String)
      modifies this
      ensures newKey == k && newValue == old(newValue) && specifications == old(specifications)
      ensures emitted == old(emitted) && isLoading == old(isLoading) && storeError == old(storeError)
    {
      newKey := k;
    }

    method SetNewValue(v: String)
      modifies this
      ensures newValue == v && newKey == old(newKey) && specifications == old(specifications)
      ensures emitted == old(emitted) && isLoading == old(isLoading) && storeError == old(storeError)
    {
      newValue := v;
    }

    /** `handleAddSpecification`: with a blank key or value nothing
        happens; otherwise the trimmed key maps to the trimmed value
        (replacing any earlier value), the new dictionary is emitted and
        both inputs are cleared. */
    method HandleAddSpecification()
      modifies this
      ensures !AddEnabled(old(newKey), old(newValue)) ==>
                specifications == old(specifications) && emitted == old(emitted)
                && newKey == old(newKey) && newValue == old(newValue)
      ensures AddEnabled(old(newKey), old(newValue)) ==>
                specifications == old(specifications)[Trim(old(newKey)) := Trim(old(newValue))]
                && emitted == old(emitted) + [specifications] && newKey == "" && newValue == ""
      ensures forall k :: k in old(specifications) && k != Trim(old(newKey)) ==>
                k in specifications && specifications[k] == old(specifications)[k]
      ensures isLoading == old(isLoading) && storeError == old(storeError)
    {
      if Trim(newKey) == "" || Trim(newValue) == "" {
        return;
      }
      var updatedSpecifications := specifications[Trim(newKey) := Trim(newValue)];
      specifications := updatedSpecifications;
      emitted := emitted + [updatedSpecifications];
      newKey := "";
      newValue := "";
    }

    /** `handleRemoveSpecification`: only that key goes; the new dictionary
        is emitted. */
    method HandleRemoveSpecification(key: String)
      modifies this
      ensures specifications == old(specifications) - {key}
      ensures key !in specifications
      ensures forall k :: k in old(specifications) && k != key ==>
                k in specifications && specifications[k] == old(specifications)[k]
      ensures emitted == old(emitted) + [specifications]
      ensures newKey == old(newKey) && newValue == old(newValue)
      ensures isLoading == old(isLoading) && storeError == old(storeError)
    {
      var updatedSpecifications := specifications - {key};
      specifications := updatedSpecifications;
      emitted := emitted + [updatedSpecifications];
    }

    /** `handleFileUpload`: without a file or a callback nothing happens;
        otherwise the upload runs and a failure is reported to the store.
        Loading ends either way. */
    method HandleFileUpload(hasFile: bool, hasCallback: bool, succeeded: bool)
      modifies this
      ensures !(hasFile && hasCallback) ==> isLoading == old(isLoading) && storeError == old(storeError)
      ensures hasFile && hasCallback ==>
                !isLoading && storeError == if succeeded then old(storeError)
                                            else Some("Failed to upload specification file")
      ensures specifications == old(specifications) && emitted == old(emitted)
      ensures newKey == old(newKey) && newValue == old(newValue)
    {
      if !hasFile || !hasCallback {
        return;
      }
      isLoading := true;
      if !succeeded {
        storeError := Some("Failed to upload specification file");
      }
      isLoading := false;
    }
  }

  /** Removing a key just added leaves the dictionary without that key,
      whatever it held before. */
  lemma {:induction false} AddThenRemove(m: map<String, String>, key: String, value: String)
    ensures (m[Trim(key) := Trim(value)]) - {Trim(key)} == m - {Trim(key)}
  {
  }
}

// The generic rule engine of the front end (`utils/validation.ts`): a
// field value, the rule predicates with their default messages, the
// first-failure search of `validateField` and the error map of
// `validateForm`.
module Validation {
  import opened Wrappers
  import opened Text
  import opened Numerals

  /** A form value as JavaScript sees it. Numbers are integers here. */
  datatype Value = Str(s: String) | Num(n: int) | Bool(b: bool) | List(items: seq<String>) | Null | Undefined

  /** `String(value)`. */
  function ToText(v: Value): String
  {
    match v
    case Str(s) => s
    case Num(n) => IntToString(n)
    case Bool(b) => if b then "true" else "false"
    case List(items) => JoinWith(items, ',')
    case Null => "null"
    case Undefined => "undefined"
  }

  /** `Number(value)`, with `NaN` as `None`. */
  function ToNumber(v: Value): Option<real>
  {
    match v
    case Str(s) => JsNumber(s)
    case Num(n) => Some(n as real)
    case Bool(b) => Some(if b then 1.0 else 0.0)
    case List(items) => JsNumber(JoinWith(items, ','))
    case Null => Some(0.0)
    case Undefined => None
  }

  predicate IsLetter(c: char)
  {
    'A' <= c <= 'Z' || 'a' <= c <= 'z'
  }

  /** `[A-Z0-9._%+-]` under the `i` flag. */
  predicate IsLocalChar(c: char)
  {
    IsLetter(c) || IsDigit(c) || c == '.' || c == '_' || c == '%' || c == '+' || c == '-'
  }

  /** `[A-Z0-9.-]` under the `i` flag. */
  predicate IsDomainChar(c: char)
  {
    IsLetter(c) || IsDigit(c) || c == '.' || c == '-'
  }

  predicate AllLocal(s: String) { forall k :: 0 <= k < |s| ==> IsLocalChar(s[k]) }
  predicate AllDomain(s: String) { forall k :: 0 <= k < |s| ==> IsDomainChar(s[k]) }
  predicate AllLetters(s: String) { forall k :: 0 <= k < |s| ==> IsLetter(s[k]) }

  /** `s` splits at `i` and `j` into a local part, `@`, a domain, a dot and
      a top-level domain of two or more letters. */
  predicate SplitsAt(s: String, i: int, j: int)
  {
    0 < i && i + 1 < j && j + 3 <= |s| && s[i] == '@' && s[j] == '.'
    && AllLocal(s[..i]) && AllDomain(s[i + 1..j]) && AllLetters(s[j + 1..])
  }

  /** What `/^[A-Z0-9._%+-]+@[A-Z0-9.-]+\.[A-Z]{2,}$/i` accepts, read off the
      pattern: some split of the whole text as above. */
  ghost predicate EmailPattern(s: String)
  {
    exists i, j :: SplitsAt(s, i, j)
  }

  /** The same test computed without a search: the local part ends at the
      first `@`, the top-level domain starts after the last dot. */
  predicate EmailCheck(s: String)
  {
    var local := FirstField(s, '@');
    0 < |local| < |s| && AfterAt(local, s[|local| + 1..])
  }

  /** The part of `EmailCheck` after the `@`. */
  predicate AfterAt(local: String, rest: String)
  {
    var tld := LastField(rest, '.');
    2 <= |tld| && |tld| + 1 < |rest|
    && AllLocal(local) && AllDomain(rest[..|rest| - |tld| - 1]) && AllLetters(tld)
  }

  /** The computed test accepts only what the pattern describes. */
  lemma {:induction false} EmailCheckSound(s: String)
    requires EmailCheck(s)
    ensures EmailPattern(s)
  {
    var local := FirstField(s, '@');
    var rest := s[|local| + 1..];
    var tld := LastField(rest, '.');
    var i := |local|;
    var j := i + |rest| - |tld|;
    assert s[..i] == local;
    assert s[i + 1..j] == rest[..|rest| - |tld| - 1];
    assert s[j + 1..] == tld;
    assert SplitsAt(s, i, j);
  }

  /** Under a split, the local part is the text before the first `@`. */
  lemma {:induction false} LocalPartAt(s: String, i: int, j: int)
    requires SplitsAt(s, i, j)
    ensures FirstField(s, '@') == s[..i]
  {
    assert forall c :: c in s[..i] ==> IsLocalChar(c);
    FirstFieldAt(s, '@', i);
  }

  /** Under a split, the text after the `@` passes the domain test. */
  lemma {:induction false} DomainPartAt(s: String, i: int, j: int)
    requires SplitsAt(s, i, j)
    ensures AfterAt(s[..i], s[i + 1..])
  {
    var rest := s[i + 1..];
    var k := j - i - 1;
    var tld := s[j + 1..];
    assert rest[k] == '.';
    assert rest[k + 1..] == tld;
    assert '.' !in tld by {
      forall c | c in tld ensures c != '.' {
        var n :| 0 <= n < |tld| && tld[n] == c;
        assert IsLetter(tld[n]);
      }
    }
    LastFieldAt(rest, '.', k);
    assert LastField(rest, '.') == tld && |rest| - |tld| - 1 == k;
    assert rest[..k] == s[i + 1..j];
  }

  /** The computed test accepts everything the pattern describes. */
  lemma {:induction false} EmailCheckComplete(s: String, i: int, j: int)
    requires SplitsAt(s, i, j)
    ensures EmailCheck(s)
  {
    LocalPartAt(s, i, j);
    DomainPartAt(s, i, j);
  }

  /** The computed test is the pattern. */
  lemma {:induction false} EmailCheckIff(s: String)
    ensures EmailCheck(s) <==> EmailPattern(s)
  {
    if EmailCheck(s) {
      EmailCheckSound(s);
    }
    if EmailPattern(s) {
      var i, j :| SplitsAt(s, i, j);
      EmailCheckComplete(s, i, j);
    }
  }

  predicate IsPhoneChar(c: char)
  {
    IsDigit(c) || IsSpace(c) || c == '-' || c == '(' || c == ')'
  }

  /** `/^\+?[\d\s-()]{10,}$/`: an optional plus, then ten or more digits,
      spaces, hyphens or parentheses. */
  predicate PhoneMatches(s: String)
  {
    var body := if |s| > 0 && s[0] == '+' then s[1..] else s;
    |body| >= 10 && forall k :: 0 <= k < |body| ==> IsPhoneChar(body[k])
  }

  /** A `ValidationRule`: a test on the value and the message it reports. */
  datatype ValidationRule = ValidationRule(test: Value -> bool, message: String)

  predicate RequiredTest(v: Value)
  {
    match v
    case Str(s) => |Trim(s)| > 0
    case List(items) => |items| > 0
    case Null => false
    case Undefined => false
    case _ => true
  }

  // The factories of the `rules` object, with their default messages.

  function Required(message: String := "This field is required"): (r: ValidationRule)
    ensures r.message == message && forall v :: r.test(v) == RequiredTest(v)
  {
    ValidationRule(v => RequiredTest(v), message)
  }

  function Email(message: String := "Please enter a valid email address"): (r: ValidationRule)
    ensures r.message == message && forall v :: r.test(v) == EmailCheck(ToText(v))
  {
    ValidationRule(v => EmailCheck(ToText(v)), message)
  }

  function Phone(message: String := "Please enter a valid phone number"): (r: ValidationRule)
    ensures r.message == message && forall v :: r.test(v) == PhoneMatches(ToText(v))
  {
    ValidationRule(v => PhoneMatches(ToText(v)), message)
  }

  /** `String(value).length >= length`, counting UTF-16 code units. */
  function MinLength(length: int, message: String := "Must be at least " + IntToString(length) + " characters"): (r: ValidationRule)
    ensures r.message == message && forall v :: r.test(v) == (Utf16Length(ToText(v)) >= length)
  {
    ValidationRule(v => Utf16Length(ToText(v)) >= length, message)
  }

  /** `String(value).length <= length`, counting UTF-16 code units. */
  function MaxLength(length: int, message: String := "Must be no more than " + IntToString(length) + " characters"): (r: ValidationRule)
    ensures r.message == message && forall v :: r.test(v) == (Utf16Length(ToText(v)) <= length)
  {
    ValidationRule(v => Utf16Length(ToText(v)) <= length, message)
  }

  /** One emoji is two code units long: it passes `minLength(2)` and fails
      `maxLength(1)`. */
  lemma {:induction false} LengthCountsCodeUnits()
    ensures MinLength(2).test(Str("\U{1F600}"))
    ensures !MaxLength(1).test(Str("\U{1F600}"))
  {
    var e := "\U{1F600}";
    assert e[0] as int >= 0x1_0000 && e[1..] == [];
    assert Utf16Length(e) == 2;
    assert ToText(Str(e)) == e;
  }

  /** Text of Basic Multilingual Plane characters is measured by its
      character count. */
  lemma {:induction false} BmpLengthIsCount(s: String, n: int)
    requires forall i :: 0 <= i < |s| ==> s[i] as int < 0x1_0000
    ensures MinLength(n).test(Str(s)) <==> |s| >= n
    ensures MaxLength(n).test(Str(s)) <==> |s| <= n
  {
    Utf16LengthOfBmp(s);
    assert ToText(Str(s)) == s;
  }


  function IsNumber(message: String := "Must be a valid number"): (r: ValidationRule)
    ensures r.message == message && forall v :: r.test(v) == ToNumber(v).Some?
  {
    ValidationRule(v => ToNumber(v).Some?, message)
  }

  function Positive(message: String := "Must be a positive number"): (r: ValidationRule)
    ensures r.message == message && forall v :: r.test(v) == (ToNumber(v).Some? && ToNumber(v).value > 0.0)
  {
    ValidationRule(v => ToNumber(v).Some? && ToNumber(v).value > 0.0, message)
  }

  /** `required` on a string passes exactly when it is not all whitespace. */
  lemma {:induction false} RequiredStringIff(s: String, message: String)
    ensures Required(message).test(Str(s)) <==> !IsBlank(s)
  {
    TrimEmptyIffBlank(s);
  }

  /** `positive` and `number` read a printed integer as that integer. */
  lemma {:induction false} PositiveOfNumeral(i: int, message: String)
    ensures Positive(message).test(Str(IntToString(i))) <==> i > 0
    ensures IsNumber(message).test(Str(IntToString(i)))
  {
    JsNumberRoundTrip(i);
  }

  /** The first rule in list order that fails, if any. */
  function FirstFailing(v: Value, rules: seq<ValidationRule>): (r: Option<nat>)
    ensures r.Some? ==> r.value < |rules| && !rules[r.value].test(v)
                        && forall k :: 0 <= k < r.value ==> rules[k].test(v)
    ensures r.None? <==> forall k :: 0 <= k < |rules| ==> rules[k].test(v)
  {
    if |rules| == 0 then None
    else if !rules[0].test(v) then Some(0)
    else match FirstFailing(v, rules[1..])
         case None => None
         case Some(k) => Some(k + 1)
  }

  /** The text `validateField` reports. */
  function FieldError(v: Value, rules: seq<ValidationRule>): String
  {
    match FirstFailing(v, rules)
    case None => ""
    case Some(k) => rules[k].message
  }

  /** `validateField`: the rules are tried in order and the first failure's
      message is returned; all passing (or no rules) gives "". */
  method ValidateField(v: Value, rules: seq<ValidationRule>) returns (msg: String)
    ensures msg == FieldError(v, rules)
  {
    for i := 0 to |rules|
      invariant forall k :: 0 <= k < i ==> rules[k].test(v)
    {
      if !rules[i].test(v) {
        return rules[i].message;
      }
    }
    return "";
  }

  /** With messages that are not empty, a field has an error exactly when
      some rule fails. */
  lemma {:induction false} FieldErrorIff(v: Value, rules: seq<ValidationRule>)
    requires forall k :: 0 <= k < |rules| ==> rules[k].message != ""
    ensures FieldError(v, rules) == "" <==> forall k :: 0 <= k < |rules| ==> rules[k].test(v)
  {
  }

  /** `values[field]`, `undefined` when absent. */
  function FieldValue(values: map<String, Value>, field: String): Value
  {
    if field in values then values[field] else Undefined
  }

  /** `validateForm`: every ruled field whose `validateField` result is not
      empty gets that result; no other field appears. */
  method ValidateForm(values: map<String, Value>, ruleSets: map<String, seq<ValidationRule>>) returns (errors: map<String, String>)
    ensures errors.Keys == set f | f in ruleSets && FieldError(FieldValue(values, f), ruleSets[f]) != ""
    ensures forall f :: f in errors ==> f in ruleSets && errors[f] == FieldError(FieldValue(values, f), ruleSets[f])
  {
    errors := map[];
    var remaining := ruleSets.Keys;
    while remaining != {}
      invariant remaining <= ruleSets.Keys
      invariant forall f :: f in errors ==> f in ruleSets && f !in remaining
                                             && errors[f] == FieldError(FieldValue(values, f), ruleSets[f]) != ""
      invariant forall f :: f in ruleSets && f !in remaining && FieldError(FieldValue(values, f), ruleSets[f]) != "" ==> f in errors
      decreases |remaining|
    {
      var field :| field in remaining;
      var error := ValidateField(FieldValue(values, field), ruleSets[field]);
      if error != "" {
        errors := errors[field := error];
      }
      remaining := remaining - {field};
    }
  }

  /** Two inputs of the anchored email rule. */
  lemma {:induction false} EmailExamples()
    ensures EmailPattern("a@b.co")
    ensures !EmailCheck("a@b.c")
  {
    var s := "a@b.co";
    assert s[..1] == "a" && s[2..3] == "b" && s[4..] == "co";
    assert SplitsAt(s, 1, 3);
    var t := "a@b.c";
    FirstFieldAt(t, '@', 1);
    assert t[2..] == "b.c";
    LastFieldAt("b.c", '.', 1);
  }
}

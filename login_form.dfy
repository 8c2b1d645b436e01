/** `validateField` of the sign-in form: the same copy, set-or-delete
    discipline as registration, over two fields, with a six-character
    password minimum and no composition rule. */
module LoginForm {
  import opened Wrappers
  import opened JsText
  import opened AuthRules
  import opened ErrorMap

  const PasswordTooShort := "Password must be at least 6 characters"

  /** The sign-in password rule: present and at least six UTF-16 code units
      of the untrimmed value. */
  function PasswordError(value: string): (r: Option<string>)
    ensures r == Some(PasswordRequired) <==> IsBlank(value)
    ensures r == Some(PasswordTooShort) <==> !IsBlank(value) && Utf16Length(value) < 6
    ensures r == None <==> !IsBlank(value) && Utf16Length(value) >= 6
  {
    if IsBlank(value) then Some(PasswordRequired)
    else if Utf16Length(value) < 6 then Some(PasswordTooShort)
    else None
  }

  /** `validateField(field, value)` over the current `errors`; the result is
      what the form passes to `setErrors`.  Only the validated field's entry
      can change, and a field other than `email` and `password` leaves the
      map as it was. */
  method ValidateField(errors: map<string, string>, field: string, value: string)
    returns (newErrors: map<string, string>)
    ensures field != "email" && field != "password" ==> newErrors == errors
    ensures forall k :: k != field ==> ErrorOf(newErrors, k) == ErrorOf(errors, k)
    ensures field == "email" ==> ErrorOf(newErrors, "email") == EmailError(value)
    ensures field == "password" ==> ErrorOf(newErrors, "password") == PasswordError(value)
  {
    newErrors := errors;
    if field == "email" {
      if IsBlank(value) {
        newErrors := newErrors["email" := EmailRequired];
      } else if !AcceptedEmail(value) {
        newErrors := newErrors["email" := EmailInvalid];
      } else {
        newErrors := newErrors - {"email"};
      }
    } else if field == "password" {
      if IsBlank(value) {
        newErrors := newErrors["password" := PasswordRequired];
      } else if Utf16Length(value) < 6 {
        newErrors := newErrors["password" := PasswordTooShort];
      } else {
        newErrors := newErrors - {"password"};
      }
    }
  }

  /** A password of six or more white-space characters is still missing:
      blankness is decided before length. */
  lemma BlankPasswordIsMissing(value: string)
    requires |value| >= 6 && forall k :: 0 <= k < |value| ==> value[k] == ' '
    ensures PasswordError(value) == Some(PasswordRequired)
  {
    assert AllSpace(value);
  }

  /** A value the sign-in form accepts as an email address has exactly one
      `@` and no white space. */
  lemma AcceptedEmailHasOneAt(value: string)
    requires EmailError(value) == None
    ensures multiset(value)['@'] == 1 && NoSpace(value)
  {
    EmailPatternShape(value);
  }
}

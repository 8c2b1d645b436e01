/** `validateField` of the registration form: it copies the error map, sets
    or deletes the entry of the validated field according to the first rule
    that fails, and hands the copy to `setErrors`.  Validating the password
    also rechecks the confirmation once that field has been touched and
    holds something. */
module RegisterForm {
  import opened Wrappers
  import opened JsText
  import opened AuthRules
  import opened ErrorMap

  const NameRequired := "Full name is required"
  const NameTooShort := "Name must be at least 2 characters"
  const PasswordTooShort := "Password must be at least 8 characters"
  const PasswordTooWeak := "Password must contain uppercase, lowercase, and number"
  const ConfirmRequired := "Please confirm your password"
  const PasswordsDiffer := "Passwords do not match"

  /** The keys of `RegisterFormData` that the switch handles. */
  predicate IsFormField(field: string) {
    field == "name" || field == "email" || field == "password" || field == "confirmPassword"
  }

  /** The name rule: the trimmed value must be at least two UTF-16 code
      units long; a blank value is reported as missing. */
  function NameError(value: string): (r: Option<string>)
    ensures r == None <==> Utf16Length(Trim(value)) >= 2
    ensures r == Some(NameRequired) <==> IsBlank(value)
    ensures r.Some? ==> r.value == NameRequired || r.value == NameTooShort
  {
    if IsBlank(value) then Some(NameRequired)
    else if Utf16Length(Trim(value)) < 2 then Some(NameTooShort)
    else None
  }

  /** The password rule: present, at least eight UTF-16 code units of the
      untrimmed value, and matching the composition pattern. */
  function PasswordError(value: string): (r: Option<string>)
    ensures r == Some(PasswordRequired) <==> IsBlank(value)
    ensures r == Some(PasswordTooShort) <==> !IsBlank(value) && Utf16Length(value) < 8
    ensures r == None <==> Utf16Length(value) >= 8 && PasswordPatternMatches(value)
    ensures r.Some? ==> r.value in {PasswordRequired, PasswordTooShort, PasswordTooWeak}
  {
    PasswordCheckIsPattern(value);
    if IsBlank(value) then BlankFailsComposition(value); Some(PasswordRequired)
    else if Utf16Length(value) < 8 then Some(PasswordTooShort)
    else if !Composed(value) then Some(PasswordTooWeak)
    else None
  }

  /** The confirmation rule: present and equal to the password. */
  function ConfirmError(value: string, password: string): (r: Option<string>)
    ensures r == Some(ConfirmRequired) <==> IsBlank(value)
    ensures r == Some(PasswordsDiffer) <==> !IsBlank(value) && value != password
    ensures r == None <==> value == password && !IsBlank(password)
  {
    if IsBlank(value) then Some(ConfirmRequired)
    else if value != password then Some(PasswordsDiffer)
    else None
  }

  /** `touched.confirmPassword && confirmPassword`: the confirmation field was
      visited and is not the empty string. */
  predicate RechecksConfirmation(touched: map<string, bool>, confirmPassword: string) {
    "confirmPassword" in touched && touched["confirmPassword"] && confirmPassword != ""
  }

  /** The confirmation error that validating the password `value` leaves. */
  function ConfirmAfterPassword(errors: map<string, string>, touched: map<string, bool>,
                                confirmPassword: string, value: string): (r: Option<string>)
    ensures !RechecksConfirmation(touched, confirmPassword) ==> r == ErrorOf(errors, "confirmPassword")
    ensures RechecksConfirmation(touched, confirmPassword) ==> (r == None <==> value == confirmPassword)
    ensures RechecksConfirmation(touched, confirmPassword) && value != confirmPassword ==> r == Some(PasswordsDiffer)
  {
    if !RechecksConfirmation(touched, confirmPassword) then ErrorOf(errors, "confirmPassword")
    else if value != confirmPassword then Some(PasswordsDiffer)
    else None
  }

  /** Every entry of `b` other than those at `keys` is the entry of `a`. */
  ghost predicate SameExcept(a: map<string, string>, b: map<string, string>, keys: set<string>) {
    forall k :: k !in keys ==> ErrorOf(a, k) == ErrorOf(b, k)
  }

  /** `case "name"` of the switch, on the copied map. */
  method ValidateName(errors: map<string, string>, value: string) returns (newErrors: map<string, string>)
    ensures SameExcept(newErrors, errors, {"name"})
    ensures ErrorOf(newErrors, "name") == NameError(value)
  {
    newErrors := errors;
    if IsBlank(value) {
      newErrors := newErrors["name" := NameRequired];
    } else if Utf16Length(Trim(value)) < 2 {
      newErrors := newErrors["name" := NameTooShort];
    } else {
      newErrors := newErrors - {"name"};
    }
  }

  /** `case "email"` of the switch. */
  method ValidateEmail(errors: map<string, string>, value: string) returns (newErrors: map<string, string>)
    ensures SameExcept(newErrors, errors, {"email"})
    ensures ErrorOf(newErrors, "email") == EmailError(value)
  {
    newErrors := errors;
    if IsBlank(value) {
      newErrors := newErrors["email" := EmailRequired];
    } else if !AcceptedEmail(value) {
      newErrors := newErrors["email" := EmailInvalid];
    } else {
      newErrors := newErrors - {"email"};
    }
  }

  /** `case "password"` of the switch: the password entry, then the
      confirmation recheck. */
  method ValidatePassword(errors: map<string, string>, touched: map<string, bool>, confirmPassword: string,
                          value: string)
    returns (newErrors: map<string, string>)
    ensures SameExcept(newErrors, errors, {"password", "confirmPassword"})
    ensures ErrorOf(newErrors, "password") == PasswordError(value)
    ensures ErrorOf(newErrors, "confirmPassword") == ConfirmAfterPassword(errors, touched, confirmPassword, value)
  {
    var withPassword := SetPasswordEntry(errors, value);
    assert |"password"| != |"confirmPassword"|;
    newErrors := RecheckConfirmation(withPassword, touched, confirmPassword, value);
  }

  /** The password entry set at the start of `case "password"`. */
  method SetPasswordEntry(errors: map<string, string>, value: string) returns (newErrors: map<string, string>)
    ensures SameExcept(newErrors, errors, {"password"})
    ensures ErrorOf(newErrors, "password") == PasswordError(value)
  {
    newErrors := errors;
    if IsBlank(value) {
      newErrors := newErrors["password" := PasswordRequired];
    } else if Utf16Length(value) < 8 {
      newErrors := newErrors["password" := PasswordTooShort];
    } else if !Composed(value) {
      newErrors := newErrors["password" := PasswordTooWeak];
    } else {
      newErrors := newErrors - {"password"};
    }
  }

  /** The confirmation recheck at the end of `case "password"`. */
  method RecheckConfirmation(errors: map<string, string>, touched: map<string, bool>, confirmPassword: string,
                             value: string)
    returns (newErrors: map<string, string>)
    ensures SameExcept(newErrors, errors, {"confirmPassword"})
    ensures ErrorOf(newErrors, "confirmPassword") == ConfirmAfterPassword(errors, touched, confirmPassword, value)
  {
    newErrors := errors;
    if "confirmPassword" in touched && touched["confirmPassword"] && confirmPassword != "" {
      if value != confirmPassword {
        newErrors := newErrors["confirmPassword" := PasswordsDiffer];
      } else {
        newErrors := newErrors - {"confirmPassword"};
      }
    }
  }

  /** `case "confirmPassword"` of the switch. */
  method ValidateConfirmation(errors: map<string, string>, password: string, value: string)
    returns (newErrors: map<string, string>)
    ensures SameExcept(newErrors, errors, {"confirmPassword"})
    ensures ErrorOf(newErrors, "confirmPassword") == ConfirmError(value, password)
  {
    newErrors := errors;
    if IsBlank(value) {
      newErrors := newErrors["confirmPassword" := ConfirmRequired];
    } else if value != password {
      newErrors := newErrors["confirmPassword" := PasswordsDiffer];
    } else {
      newErrors := newErrors - {"confirmPassword"};
    }
  }

  /** `validateField(field, value)` over the current `errors`, `touched`,
      `password` and `confirmPassword` state; the result is what the form
      passes to `setErrors`.  Only the validated field's entry changes, and
      the confirmation entry when the password is validated; a field the
      switch does not handle leaves the map as it was. */
  method ValidateField(errors: map<string, string>, touched: map<string, bool>, password: string,
                       confirmPassword: string, field: string, value: string)
    returns (newErrors: map<string, string>)
    ensures !IsFormField(field) ==> newErrors == errors
    ensures field != "password" ==> SameExcept(newErrors, errors, {field})
    ensures field == "password" ==> SameExcept(newErrors, errors, {"password", "confirmPassword"})
    ensures field == "name" ==> ErrorOf(newErrors, "name") == NameError(value)
    ensures field == "email" ==> ErrorOf(newErrors, "email") == EmailError(value)
    ensures field == "password" ==> ErrorOf(newErrors, "password") == PasswordError(value)
    ensures field == "password" ==>
              ErrorOf(newErrors, "confirmPassword") == ConfirmAfterPassword(errors, touched, confirmPassword, value)
    ensures field == "confirmPassword" ==> ErrorOf(newErrors, "confirmPassword") == ConfirmError(value, password)
  {
    newErrors := errors;
    if field == "name" {
      newErrors := ValidateName(newErrors, value);
    } else if field == "email" {
      newErrors := ValidateEmail(newErrors, value);
    } else if field == "password" {
      newErrors := ValidatePassword(newErrors, touched, confirmPassword, value);
    } else if field == "confirmPassword" {
      newErrors := ValidateConfirmation(newErrors, password, value);
    }
  }

  /** Rechecking the confirmation from the password side agrees with the
      confirmation rule itself whenever the confirmation is not blank. */
  lemma RecheckAgreesWithConfirmRule(errors: map<string, string>, touched: map<string, bool>,
                                     confirmPassword: string, value: string)
    requires RechecksConfirmation(touched, confirmPassword) && !IsBlank(confirmPassword)
    ensures ConfirmAfterPassword(errors, touched, confirmPassword, value) == ConfirmError(confirmPassword, value)
  {
  }

  /** A confirmation of white space only passes the recheck's non-empty test:
      validating a different password then reports a mismatch, while the
      confirmation rule reports the field as missing. */
  lemma BlankConfirmationRecheckedAsMismatch(errors: map<string, string>, touched: map<string, bool>,
                                             confirmPassword: string, value: string)
    requires "confirmPassword" in touched && touched["confirmPassword"]
    requires confirmPassword != "" && IsBlank(confirmPassword) && value != confirmPassword
    ensures ConfirmAfterPassword(errors, touched, confirmPassword, value) == Some(PasswordsDiffer)
    ensures ConfirmError(confirmPassword, value) == Some(ConfirmRequired)
  {
  }

  /** A password that passes the rule has all three classes and eight code units. */
  lemma AcceptedPasswordIsStrong(value: string)
    requires PasswordError(value) == None
    ensures Utf16Length(value) >= 8
    ensures HasClass(value, Lowercase) && HasClass(value, Uppercase) && HasClass(value, DecimalDigit)
  {
    PasswordPatternNeedsAllClasses(value);
  }
}

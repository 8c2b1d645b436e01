# Form-field suggestions and authentication-form validation, in Dafny

This project models two parts of a web assistant that helps users fill in forms.

**The suggestion matcher** (`AssistantService.php`). For each field of a submitted form, the service builds a numbered list of suggested values:

- It lower-cases the field name and scans a fixed table of nine categories. Each category has snake-case synonyms. The first synonym that contains the name, or that the name contains, decides the category.
- A `name` or `email` category gives one profile suggestion (score 95) holding the user's name or email.
- Every completed document of the user is then searched. Each extracted key that fuzzily matches the field (`isFieldMatch`) and has a non-empty value gives a document suggestion, scored randomly in [75, 90]. Fuzzy matching strips `_`, `-` and spaces, lower-cases, and checks containment either way.
- `getFormSuggestions` concatenates the per-field lists. The ids restart at 1 for every field.
- `getDocumentSuggestions` does the same for one document and a list of fields. Its ids run across the whole call, and its scores lie in [80, 95].

**The client-side validators** (`RegisterForm.tsx`, `LoginForm.tsx`). `validateField` copies the error map. It then sets or deletes the entry of the validated field, according to the first rule that fails, and passes the copy to `setErrors`:

- Name: trimmed length at least 2.
- Email: the pattern `^[^\s@]+@[^\s@]+\.[^\s@]+$`.
- Password: at least 8 code units and the lookahead pattern `(?=.*[a-z])(?=.*[A-Z])(?=.*\d)`. Sign-in only asks for 6 code units.
- Confirmation: equal to the password.

Validating the registration password also rechecks the confirmation once that field has been touched and holds something.

The theme button of both forms cycles light → dark → system. A theme that is not listed goes to light.

Module layout:

- `Php`: `strtolower`, `str_replace`, `str_contains`, `empty()`, and the decoded JSON values.
- `FieldMatcher`: the service.
- `JsText`: `trim`, the `\s` class, UTF-16 `length`, `indexOf`.
- `AuthRules`: both regular expressions, each given twice. One version is the pattern's meaning, as an existential over match positions. The other is a direct check that the validators evaluate. An equivalence lemma connects the two.
- `ErrorMap`: `ErrorOf`, which reads one entry of an error map. It is the notation the validators' contracts are written in, not a model of a source line.
- `RegisterForm` and `LoginForm`: the two `validateField` functions.
- `ThemeCycle`: the shared handler.
- `Wrappers`: `Option`.

Things the model inputs or abstracts:

- **The database.** Documents are an input sequence `stored`. The two Eloquent queries are the functions `CompletedDocuments` and `FindDocument`.
- **`rand`.** The score is chosen nondeterministically within the documented range.
- **React state.** `errors`, `touched`, `password` and `confirmPassword` are parameters. The new error map is the result.

## Model

| member | source | states |
|---|---|---|
| Php.StripSeparators | larave-api/app/Services/AssistantService.php:189-190 | the result holds no `_`, `-` or space, keeps every other character, and is no longer than the input |
| Php.StripOnlySeparators | larave-api/app/Services/AssistantService.php:189-190 | a name made only of separators strips to the empty string |
| Php.LowerKeepsLowercase | larave-api/app/Services/AssistantService.php:125 | `strtolower` leaves a string without ASCII capitals unchanged |
| Php.ToLower | larave-api/app/Services/AssistantService.php:125 | same length, and no ASCII capital is left |
| Php.StrContains | larave-api/app/Services/AssistantService.php:130 | a contained needle is never longer than the haystack |
| Php.IsEmpty | larave-api/app/Services/AssistantService.php:170 | PHP `empty()` on a decoded JSON value: null, false, 0, "", "0" and the empty array; no contract of its own, it is the definition the match lemmas use |
| Php.StrContainsIsOccurrence | larave-api/app/Services/AssistantService.php:130 | the left-to-right `str_contains` scan succeeds exactly when the needle occurs at some offset |
| Php.EmptyNeedleIsContained | larave-api/app/Services/AssistantService.php:193-194 | PHP 8 `str_contains` finds the empty needle in every string |
| Php.StrContainsReflexive | larave-api/app/Services/AssistantService.php:192-194 | every string contains itself |
| Php.MissingCharNotContained | larave-api/app/Services/AssistantService.php:130 | a needle with a character the haystack lacks is not contained |
| FieldMatcher.FieldMatchReflexive | larave-api/app/Services/AssistantService.php:187-195 | every key matches itself |
| FieldMatcher.FieldMatchSymmetric | larave-api/app/Services/AssistantService.php:187-195 | matching does not depend on argument order |
| FieldMatcher.IsFieldMatch | larave-api/app/Services/AssistantService.php:187-195 | a match is exactly an occurrence of either normalised name inside the other |
| FieldMatcher.SeparatorOnlyFieldMatchesEverything | larave-api/app/Services/AssistantService.php:189-194 | a field name of separators only normalises to "" and so matches every key |
| FieldMatcher.FirstHitNone | larave-api/app/Services/AssistantService.php:128-135 | the scan finds no category exactly when no row from `k` on has a hitting synonym |
| FieldMatcher.FirstHitRow | larave-api/app/Services/AssistantService.php:128-135 | a found category belongs to a hit row, and no earlier row from `k` on is hit |
| FieldMatcher.SkipMissedRows | larave-api/app/Services/AssistantService.php:128-135 | rows without a hit do not change where the scan stops |
| FieldMatcher.MissThenHit | larave-api/app/Services/AssistantService.php:128-133 | a miss at one row and a hit at the next stops the scan at the second |
| FieldMatcher.CategoryOf | larave-api/app/Services/AssistantService.php:124-135 | the category of a field: the table scan of the lower-cased name; no contract of its own, `FieldMatcher.CategoryOfIsFirstHit` proves its meaning |
| FieldMatcher.CategoryOfIsFirstHit | larave-api/app/Services/AssistantService.php:124-135 | first match wins: the category is that of the earliest hit row of the lower-cased name, or none when no row hits |
| FieldMatcher.MatchCategory | larave-api/app/Services/AssistantService.php:124-135 | the nested loop with `break 2` returns exactly the first-hit category |
| FieldMatcher.ProfileMatches | larave-api/app/Services/AssistantService.php:137-161 | at most one profile match; one exactly for the name and email categories, carrying the user's name or email and id |
| FieldMatcher.DocumentsMatches | larave-api/app/Services/AssistantService.php:164-182 | the document matches of one field, in document-then-key order; no contract of its own, `FieldMatcher.DocumentMatchIff` proves its meaning |
| FieldMatcher.FieldMatches | larave-api/app/Services/AssistantService.php:137-184 | the profile match, if any, followed by the document matches; no contract of its own, `FieldMatcher.FieldMatchesNameTheField` and `FieldMatcher.ProfileMatchComesFirst` prove its properties |
| FieldMatcher.EntryMatchesExactly | larave-api/app/Services/AssistantService.php:169-179 | a match comes from an entry exactly when its key matches the field and its value is not empty |
| FieldMatcher.DocumentsMatchesExactly | larave-api/app/Services/AssistantService.php:164-182 | a document match belongs to one of the documents' own match lists |
| FieldMatcher.DocumentMatchIff | larave-api/app/Services/AssistantService.php:164-182 | document matches are exactly the non-empty values under matching keys of documents with extracted data, each citing its document |
| FieldMatcher.FieldMatchesNameTheField | larave-api/app/Services/AssistantService.php:141-178 | every match of a field carries that field's name |
| FieldMatcher.ProfileMatchComesFirst | larave-api/app/Services/AssistantService.php:137-182 | only position 0 of a field's list can come from the profile |
| FieldMatcher.EntryMatchesStep | larave-api/app/Services/AssistantService.php:169-179 | one more entry appends its match, if any, at the end |
| FieldMatcher.DocumentsMatchesStep | larave-api/app/Services/AssistantService.php:164-182 | one more document appends its matches at the end |
| FieldMatcher.ScoredAppend | larave-api/app/Services/AssistantService.php:171-178 | appending a suggestion with the next id and a valid score keeps the list scored |
| FieldMatcher.AppendEntrySuggestion | larave-api/app/Services/AssistantService.php:170-179 | a matching key with a non-empty value appends one suggestion with the next id and a score in range; otherwise the list is returned unchanged; the list passed in is always kept as a prefix |
| FieldMatcher.AppendEntrySuggestions | larave-api/app/Services/AssistantService.php:169-180 | the inner loop realises the entries' matches in order, ids continuing from the counter, and only appends to the list passed in |
| FieldMatcher.AppendDocumentSuggestion | larave-api/app/Services/AssistantService.php:165-181 | a document without extracted data leaves the list unchanged; one with data only appends its entries' suggestions |
| FieldMatcher.AppendDocumentSuggestions | larave-api/app/Services/AssistantService.php:164-182 | the outer loop realises all document matches in document-then-key order, and only appends to the list passed in |
| FieldMatcher.ProfileSuggestions | larave-api/app/Services/AssistantService.php:137-161 | suggestion 1 is the profile match with score 95, when there is one |
| FieldMatcher.GenerateFieldSuggestions | larave-api/app/Services/AssistantService.php:106-185 | the list realises the field's matches with ids 1..n, score 95 for the profile and [75, 90] for documents |
| FieldMatcher.CompletedDocuments | larave-api/app/Services/AssistantService.php:91-93 | keeps exactly the stored documents of this user whose status is "completed" |
| FieldMatcher.CompletedDocumentsAppend | larave-api/app/Services/AssistantService.php:91-93 | the query filter distributes over concatenation |
| FieldMatcher.NonCompletedDocumentIgnored | larave-api/app/Services/AssistantService.php:91-93 | a document that is not completed never changes any field's matches |
| FieldMatcher.DocumentMatchCitesFetchedDocument | larave-api/app/Services/AssistantService.php:164-177 | every document suggestion cites a completed document of this user with extracted data |
| FieldMatcher.FlattenMember | larave-api/app/Services/AssistantService.php:100 | an element of the merged list lies in one of the per-field lists |
| FieldMatcher.FlattenAppend | larave-api/app/Services/AssistantService.php:100 | `array_merge` with one more list appends it at the end |
| FieldMatcher.IdsRepeatAcrossFields | larave-api/app/Services/AssistantService.php:97-109 | two non-empty fields each start at id 1 in the merged list |
| FieldMatcher.FormMatchLists | larave-api/app/Services/AssistantService.php:97-101 | one match list per form-data key |
| FieldMatcher.BlocksScoredAppend | larave-api/app/Services/AssistantService.php:97-101 | appending the next field's scored list keeps all lists scored |
| FieldMatcher.AppendFieldBlock | larave-api/app/Services/AssistantService.php:99-100 | one iteration appends the next field's scored list to the merged list |
| FieldMatcher.GetFormSuggestions | larave-api/app/Services/AssistantService.php:88-104 | the result is the concatenation, in key order, of each field's scored list over the completed documents; every suggestion names a form key |
| FieldMatcher.BlocksNameTheirFields | larave-api/app/Services/AssistantService.php:97-101 | every merged suggestion names one of the form's keys |
| FieldMatcher.PassesRequestRules | larave-api/app/Http/Requests/FormSuggestionsRequest.php:17-18 | `required\|array` and `nullable\|string\|max:1024` on the form data; no contract of its own, `FieldMatcher.NullValuePassesRulesButFailsAsWritten` uses it |
| FieldMatcher.GetFormSuggestionsAsWritten | larave-api/app/Services/AssistantService.php:97-106 | a TypeError occurs exactly when some value is null, and it names the first null key; otherwise the result is that of GetFormSuggestions |
| FieldMatcher.NullValuePassesRulesButFailsAsWritten | larave-api/app/Http/Requests/FormSuggestionsRequest.php:17-18 | `{"email": null}` passes the request rules but not the `string` parameter |
| FieldMatcher.FindDocument | larave-api/app/Services/AssistantService.php:299-302 | a stored document with that id, this user and status completed, or none exactly when there is no such document |
| FieldMatcher.FieldsDocumentMatches | larave-api/app/Services/AssistantService.php:311-323 | the matches of one document, field-major and key-minor; no contract of its own, `FieldMatcher.FieldsDocumentMatchesCiteDocument` proves its meaning |
| FieldMatcher.GetDocumentSuggestions | larave-api/app/Services/AssistantService.php:297-327 | empty when the document is missing or has no data; otherwise field-major, key-minor document matches with ids 1..n across the call and scores in [80, 95] |
| FieldMatcher.FieldsWithoutDataMatchNothing | larave-api/app/Services/AssistantService.php:304-306 | a document without extracted data yields no match for any fields |
| FieldMatcher.FieldsDocumentMatchesCiteDocument | larave-api/app/Services/AssistantService.php:311-323 | every suggestion cites the requested document and names a requested field |
| FieldMatcher.PatternMissed | larave-api/app/Services/AssistantService.php:130 | a character missing on each side means neither contains the other |
| FieldMatcher.TableIsSnakeCase | larave-api/app/Services/AssistantService.php:112-122 | every synonym is lower-case snake case |
| FieldMatcher.RowMissed | larave-api/app/Services/AssistantService.php:128-135 | a spaced name written in an alphabet that every synonym of the row leaves is not hit by that row |
| FieldMatcher.EmailAddressHitsNoRow | larave-api/app/Services/AssistantService.php:124-135 | a spaced name in the letters of "email address" falls in no category |
| FieldMatcher.SpacedEmailAddressMatchesNoCategory | larave-api/app/Services/AssistantService.php:124-161 | a field whose lower-case form is "email address" has no category and gets no profile suggestion |
| FieldMatcher.EmailAddressMatchesNoCategory | larave-api/app/Services/AssistantService.php:124-161 | "Email Address" gets only document suggestions |
| FieldMatcher.EmailHitsEmailRow | larave-api/app/Services/AssistantService.php:112-135 | "email" misses the name row and hits the email row through `email_address` |
| FieldMatcher.EmailFieldGetsProfileEmail | larave-api/app/Services/AssistantService.php:124-159 | the field "email" gets the user's email as its first match |
| FieldMatcher.SingleEntryDocument | larave-api/app/Services/AssistantService.php:311-323 | a one-entry document gives exactly one suggestion for its own key |
| JsText.LineTerminatorIsSpace | src/components/auth/RegisterForm.tsx:76 | the line terminators that stop `.` are white space for `trim` |
| JsText.LeadingSpaces | src/components/auth/RegisterForm.tsx:54 | the prefix `trim` removes is white space and ends before a non-space |
| JsText.TrailingSpaces | src/components/auth/RegisterForm.tsx:54 | the suffix `trim` removes is white space and starts after a non-space |
| JsText.Trim | src/components/auth/RegisterForm.tsx:54 | empty exactly for all-white-space strings; otherwise it starts and ends with a non-space and is the slice between the removed prefix and suffix |
| JsText.TrimDropsOnlySpace | src/components/auth/RegisterForm.tsx:54 | every non-space character lies inside the trimmed slice |
| JsText.Utf16Length | src/components/auth/RegisterForm.tsx:74 | between one and two code units per character, zero only for "" |
| JsText.Utf16LengthOfBmp | src/components/auth/RegisterForm.tsx:74 | a string of Basic Multilingual Plane characters has one code unit each |
| JsText.IndexOf | src/components/auth/RegisterForm.tsx:222 | -1 exactly when absent; otherwise the first position of the element |
| AuthRules.AcceptedEmail | src/components/auth/RegisterForm.tsx:65 | the direct email check; no contract of its own, `AuthRules.EmailCheckIsPattern` proves it equal to the pattern |
| AuthRules.EmailSplitIsAccepted | src/components/auth/RegisterForm.tsx:65 | every match of the email pattern passes the direct check |
| AuthRules.AcceptedHasEmailSplit | src/components/auth/RegisterForm.tsx:65 | every value the direct check accepts matches the pattern |
| AuthRules.EmailCheckIsPattern | src/components/auth/RegisterForm.tsx:65 | the direct check accepts exactly what the pattern matches |
| AuthRules.EmailPatternShape | src/components/auth/RegisterForm.tsx:65 | a matching value has exactly one `@`, no white space, and is not blank |
| AuthRules.EmailError | src/components/auth/RegisterForm.tsx:62-70 | "Email is required" exactly for blank values; no error exactly when the pattern matches; otherwise the invalid-address message |
| AuthRules.ComposedFrom | src/components/auth/RegisterForm.tsx:76 | once the current line has shown all three classes, the test succeeds whatever follows; what the scan means as a whole is carried by `AuthRules.ComposedFromIsPatternFrom` |
| AuthRules.Composed | src/components/auth/RegisterForm.tsx:76 | the direct password composition check; no contract of its own, `AuthRules.PasswordCheckIsPattern` proves it equal to the pattern |
| AuthRules.ComposedFromIsPatternFrom | src/components/auth/RegisterForm.tsx:76 | the line-by-line scan agrees with the lookahead semantics, given what the current line has shown |
| AuthRules.PasswordCheckIsPattern | src/components/auth/RegisterForm.tsx:76 | the scan accepts exactly what `(?=.*[a-z])(?=.*[A-Z])(?=.*\d)` matches |
| AuthRules.SingleLinePassword | src/components/auth/RegisterForm.tsx:76 | without line terminators, a match means one lower-case letter, one upper-case letter and one digit anywhere |
| AuthRules.PasswordPatternNeedsAllClasses | src/components/auth/RegisterForm.tsx:76 | a match always has all three classes and is not blank |
| AuthRules.ClassesOnSeparateLinesRejected | src/components/auth/RegisterForm.tsx:76 | "Aa", a line feed, "1" has all three classes yet does not match |
| AuthRules.BlankFailsComposition | src/components/auth/RegisterForm.tsx:72-76 | a blank value never matches the composition pattern |
| RegisterForm.NameError | src/components/auth/RegisterForm.tsx:53-61 | no error exactly when the trimmed value has at least 2 code units; "required" exactly when blank |
| RegisterForm.PasswordError | src/components/auth/RegisterForm.tsx:71-82 | "required" exactly when blank; "too short" exactly when not blank and under 8 code units; no error exactly at 8 or more code units with the pattern matched |
| RegisterForm.ConfirmError | src/components/auth/RegisterForm.tsx:92-100 | "please confirm" exactly when blank; mismatch exactly when not blank and different; no error exactly when equal to a non-blank password |
| RegisterForm.ConfirmAfterPassword | src/components/auth/RegisterForm.tsx:83-90 | untouched or empty confirmation keeps its entry; otherwise "Passwords do not match" when it differs from the new password, and no error when it equals it |
| RegisterForm.ValidateName | src/components/auth/RegisterForm.tsx:53-61 | only the name entry changes, to the name rule's verdict |
| RegisterForm.ValidateEmail | src/components/auth/RegisterForm.tsx:62-70 | only the email entry changes, to the email rule's verdict |
| RegisterForm.SetPasswordEntry | src/components/auth/RegisterForm.tsx:72-81 | only the password entry changes, to the password rule's verdict |
| RegisterForm.RecheckConfirmation | src/components/auth/RegisterForm.tsx:83-90 | only the confirmation entry changes, as the recheck decides |
| RegisterForm.ValidatePassword | src/components/auth/RegisterForm.tsx:71-91 | only the password and confirmation entries change: the password to its verdict, the confirmation as the recheck decides |
| RegisterForm.ValidateConfirmation | src/components/auth/RegisterForm.tsx:92-100 | only the confirmation entry changes, to the confirmation rule's verdict |
| RegisterForm.ValidateField | src/components/auth/RegisterForm.tsx:49-104 | an unhandled field leaves the map as it was; otherwise only the validated entries change, each to its rule's verdict |
| RegisterForm.RecheckAgreesWithConfirmRule | src/components/auth/RegisterForm.tsx:84-99 | for a touched, non-blank confirmation, the recheck equals the confirmation rule |
| RegisterForm.BlankConfirmationRecheckedAsMismatch | src/components/auth/RegisterForm.tsx:84-94 | a non-empty white-space confirmation is a mismatch for the recheck against any different new password, but "please confirm" for its own rule |
| RegisterForm.AcceptedPasswordIsStrong | src/components/auth/RegisterForm.tsx:71-82 | an accepted password has 8 or more code units and all three character classes |
| LoginForm.PasswordError | src/components/auth/LoginForm.tsx:58-66 | "required" exactly when blank; "too short" exactly when not blank and under 6 code units; otherwise no error |
| LoginForm.ValidateField | src/components/auth/LoginForm.tsx:45-70 | an unhandled field leaves the map as it was; otherwise only the validated entry changes, to its rule's verdict |
| LoginForm.BlankPasswordIsMissing | src/components/auth/LoginForm.tsx:59-62 | six or more spaces are "required", not "too short": blankness is checked first |
| LoginForm.AcceptedEmailHasOneAt | src/components/auth/LoginForm.tsx:49-57 | an accepted email has exactly one `@` and no white space |
| ThemeCycle.NextTheme | src/components/auth/RegisterForm.tsx:216-224 | the next theme is always one of the three listed themes, and never the current one |
| ThemeCycle.NextThemeSteps | src/components/auth/RegisterForm.tsx:217-223 | light → dark → system → light |
| ThemeCycle.UnknownThemeGoesToLight | src/components/auth/LoginForm.tsx:193-194 | `indexOf` gives -1 for an unlisted theme, which then moves to light |
| ThemeCycle.NextThemeFollowsList | src/components/auth/LoginForm.tsx:188-195 | a listed theme moves to the following list entry, cyclically |
| ThemeCycle.NextThemePeriodThree | src/components/auth/RegisterForm.tsx:216-224 | three presses return to the starting theme |
| ThemeCycle.UnknownThemeJoinsCycle | src/components/auth/LoginForm.tsx:187-196 | an unlisted theme joins the cycle at light after one press |

## Left out

- Eloquent queries and the database: the stored documents are an input sequence, and the queries are the filters `CompletedDocuments` and `FindDocument`.
- `rand`: the score is any value in the documented range, chosen nondeterministically. No random-number generator is modelled.
- GenerateFieldSuggestions: does not take `currentValue`, because the source never reads it. The parameter matters only for its `string` type declaration, which GetFormSuggestionsAsWritten models.
- JSON numbers with a fraction: floats are left out, and JSON numbers are integers. `empty()` therefore knows no `0.0`.
- An `extracted_data` that decodes to a scalar rather than an array is left out. The model's extracted data is null or an ordered list of string-keyed entries. Integer array keys, and the coercion of numeric-string form keys to integers, are left out too.
- Duplicate keys: a PHP array has unique keys, but the model's `extracted` entries and `FormData` are sequences of pairs, so they can also hold a key twice. No property depends on uniqueness, so every result holds for the inputs PHP can build.
- `strtolower` before PHP 8.2, which maps bytes by locale, is left out. The model lower-cases ASCII only.
- PHP strings are bytes and JavaScript strings are UTF-16 code units; the model's strings are sequences of Unicode scalar values. JavaScript lone surrogates are left out. `length` counts characters above U+FFFF as two units.
- `setErrors` and React's state scheduling: each `validateField` returns the new map instead of storing it. Touch handlers, change handlers and `handleSubmit` are not part of this model.
- JavaScript object key order in the error map is not modelled: the map is a Dafny `map`.
- `setTheme` and persisting the theme: `NextTheme` returns the new theme.
- The `switch` of the registration form's `validateField` is split into one helper method per case, which the dispatcher calls; the sign-in form keeps both cases inline. Only the proof is split this way; the behaviour is the same.
- Controllers, routes, request authorisation, mock AI replies, session analytics, the other services and the UI components are not part of this model.

## Findings

| source | as written | input that shows it | evidently intended | confidence | as-written member | corrected member |
|---|---|---|---|---|---|---|
| larave-api/app/Services/AssistantService.php:97-106 | `getFormSuggestions` passes each form value to `generateFieldSuggestions(..., string $currentValue)`. The request rules (`FormSuggestionsRequest.php:18`, `nullable\|string`) let null values through, and a null then raises a TypeError. | `{"form_data": {"email": null}}` | a null value is accepted like any other value, and the field still gets its suggestions | not executed | FieldMatcher.GetFormSuggestionsAsWritten, FieldMatcher.NullValuePassesRulesButFailsAsWritten | FieldMatcher.GetFormSuggestions |

## Notes on behaviour

- The category scan lower-cases the field name but does not strip separators, unlike `isFieldMatch`. So "Email Address" falls in no category and gets no profile suggestion (`FieldMatcher.EmailAddressMatchesNoCategory`). The model follows the code.
- The password lookaheads use `.`, which stops at line terminators. So the three classes must appear after one common position on one line (`AuthRules.ClassesOnSeparateLinesRejected`). On single-line input this is the same as "somewhere in the value" (`AuthRules.SingleLinePassword`).
- The confirmation recheck inside `case "password"` tests `confirmPassword` for being non-empty, not for being non-blank. A non-empty confirmation of white space is rechecked as a mismatch against any different new password (`RegisterForm.BlankConfirmationRecheckedAsMismatch`).

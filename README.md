# Form controller of the traffic-manager application form

This project is a Dafny model of the validation and submission logic in
`script.js`, the script behind the "gestor de tráfego LATAM" application
form. It models these parts:

- **The `validators` object and the `errorMessages` table.** The regular
  expressions are written out as explicit character-level matches. Each
  comes with a lemma that states the same test in plain terms.
- **The form's error state**, as a class `Controller.Form` with these fields:
  - the text of every `error_<name>` slot;
  - the set of fields that carry the `error` class;
  - the inline `display` of the success message;
  - the loading state of the submit button;
  - the record held under the local-storage key;
  - the events pushed onto `window.dataLayer`.
- **The handlers that change that state:** `showError`, `clearError`,
  `validateField`, `validateForm`, `saveToLocalStorage`, `sendToDataLayer`,
  the submit handler and the `beforeunload` listener.
- **`collectFormData`, and the `hasData` test** the unload listener applies
  before it saves a draft.

The page is represented by `Surface.Inputs`. It maps the id of every text
input to its value, and the `name` of every radio or checkbox group to its
inputs in document order (each input has a value and a checked flag). The
script only reads it, so it is a `const` of the class.

Module layout:

- `Strings`: ECMAScript whitespace, `trim()` and `replace(/[\s-]/g, '')`.
- `Surface`: the input surface.
- `Validators`: the validators and the messages.
- `Validation`: the decision `validateField` makes, as a function of the
  surface, and the eleven fields `validateForm` checks.
- `FormRecords`: the collected record, and the draft test.
- `ErrorState`: what the handlers leave in the slots and the marks.
- `Controller`: the class and its methods. Each method is proved against
  the functions of the modules above.

`validateForm` runs its eleven `validateField` calls in three commented
blocks: text fields, radio groups, checkbox groups. The model gives each
block its own method, and `ValidateForm` calls the three in order. The
calls, their order and the accumulation of the flag are those of the
script.

The submit handler's two sinks are boolean parameters. `storageWorks` says
whether `localStorage.setItem` succeeds, and `queueWorks` whether the
`dataLayer` push does. The clock reading `new Date().toISOString()` is the
parameter `timestamp`.

The spread copy `{ ...formData, draft: true }` is modelled by a `draft`
flag on the record; a record with `draft == false` has no `draft` key.

## Model

| member | source | states |
|---|---|---|
| Strings.IsWhitespace | script.js:18-26 | definition: ECMAScript's `\s` class, listed by code point: TAB to CR, SPACE, NO-BREAK SPACE, the category Zs spaces, LINE and PARAGRAPH SEPARATOR and the byte order mark |
| Strings.Strip | script.js:26 | the cleaned WhatsApp value is no longer than the input and contains no whitespace and no hyphen |
| Strings.StripAppend | script.js:26 | deleting separators works character by character, so it distributes over concatenation |
| Strings.StripNoSeparators | script.js:26 | a value without separators is left unchanged, so the cleaning is idempotent |
| Strings.StripFrom | script.js:26 | every character of the cleaned value is a character of the raw value |
| Strings.TrimStart | script.js:31 | the result is a suffix of the value, everything cut before it is whitespace, and it does not start with whitespace |
| Strings.TrimEnd | script.js:31 | the result is a prefix of the value, everything cut after it is whitespace, and it does not end with whitespace |
| Strings.Trim | script.js:31 | definition: `trim()` as `TrimStart` followed by `TrimEnd` |
| Strings.TrimCharacterised | script.js:31 | `trim()` returns exactly the infix left after cutting an all-whitespace prefix and an all-whitespace suffix, with no whitespace at either end, and no other string is such an infix |
| Strings.TrimIdempotent | script.js:31 | trimming a trimmed value changes nothing |
| Strings.TrimEmptyIff | script.js:31 | the trimmed value is empty exactly when every character is whitespace |
| Validators.Required | script.js:30-32 | definition: `value && value.trim().length > 0` as a non-empty trimmed value; the empty string fails both tests, and a non-string value cannot occur |
| Validators.RequiredIffNonBlank | script.js:30-32 | `required(value)` holds exactly when the value has a non-whitespace character, so both empty and all-blank values fail |
| Validators.RequiredOfTrim | script.js:30-32 | the presence test gives the same answer on the trimmed value as on the raw one |
| Validators.ValidEmail | script.js:17-20 | definition: `/^[^\s@]+@[^\s@]+\.[^\s@]+$/` as a split of the whole value at an `@` position `a` and a `.` position `b > a + 1` into three non-empty runs without whitespace or `@` |
| Validators.EmailIffShape | script.js:17-20 | the email pattern matches exactly a value with no whitespace, exactly one `@`, a non-empty part before it, and a `.` after it that is neither the first nor the last character of the domain |
| Validators.EmailIsRequired | script.js:17-20 | a value the email pattern accepts always passes the presence test |
| Validators.ValidWhatsApp | script.js:22-28 | definition: the value with every `\s` and `-` deleted is `+`, then a run of 1 to 4 digits, then a run of 6 to 14 digits, for some split of the digits; the unused `whatsappRegex` plays no part |
| Validators.WhatsAppIffShape | script.js:22-28 | the WhatsApp test passes exactly when, once whitespace and hyphens are deleted, the value is `+` followed by 7 to 18 digits |
| Validators.WhatsAppIsRequired | script.js:22-28 | a value the WhatsApp test accepts always passes the presence test |
| Validators.MessageText | script.js:46-52 | definition: the five `errorMessages` strings, one per message kind |
| Validators.MessagesDistinct | script.js:46-52 | the five messages are non-empty and pairwise distinct |
| Surface.CheckedValues | script.js:191 | the checked values of a group are at most as many as its inputs |
| Surface.CheckedValuesAppend | script.js:191 | the checked values of two runs of inputs are the checked values of the first run followed by those of the second, kept in document order |
| Surface.CheckedValuesMembership | script.js:195 | a value is collected exactly when some checked input of the group carries it |
| Surface.HasSelection | script.js:34-42 | definition: some input of the group is checked, which is both `checkboxes.length > 0` and `radio !== null` |
| Surface.HasSelectionIffCollected | script.js:34-37 | `validators.checkbox` holds exactly when the list of checked values is non-empty |
| Surface.SelectedValue | script.js:189-190 | the first `:checked` input of a group gives the collected value; with none checked the value is `''` |
| Validation.FieldError | script.js:93-131 | definition: the message `validateField` shows, by type: presence and then the pattern for email and WhatsApp, presence for text and textarea, a selection for checkbox and radio groups; no message when the checks of the type pass, or for any other type |
| Validation.RequiredType | script.js:209-223 | definition: the type `validateForm` passes for each of its eleven names, in the order of `CheckOrder`, and no type for any other name |
| Validation.BlankGetsRequiredMessage | script.js:93-119 | a text, email or WhatsApp field gets the `required` message exactly when its value is blank |
| Validation.ShapeMessageNeedsPresence | script.js:93-112 | the email or WhatsApp message is shown exactly when the value passes presence and fails its shape test |
| Validation.MessageMatchesType | script.js:93-131 | every message belongs to the field's type: `required` or its shape message for a text check, the checkbox or radio message for a group, none for an unrecognised type |
| Validation.EmailFieldPassesIff | script.js:93-102 | an email field passes exactly when the email pattern matches its value |
| Validation.WhatsappFieldPassesIff | script.js:103-112 | a WhatsApp field passes exactly when the WhatsApp test accepts its value |
| Validation.TextFieldPassesIff | script.js:113-119 | a text or textarea field passes exactly when its value has a non-whitespace character |
| Validation.GroupFieldPassesIff | script.js:120-131 | a checkbox or radio group passes exactly when some input of it is checked |
| Validation.UntrimmedEmailRejected | script.js:93-101 | `" a@b.c"` passes presence but gets the invalid-email message, because the pattern sees the untrimmed value |
| Validation.MissingAtRejected | script.js:93-101 | a present value without `@` gets the invalid-email message |
| Validation.NotAnEmailRejected | script.js:93-101 | the value `not-an-email` gets the invalid-email message |
| Validation.SampleEmailAccepted | script.js:93-101 | `ana@test.com` passes the email check |
| Validation.WhatsappIgnoresSeparator | script.js:22-28 | inserting a whitespace character or a hyphen anywhere never changes the WhatsApp verdict |
| Validation.FormValid | script.js:205-226 | definition: the conjunction of the four text checks, the five radio checks and the two checkbox checks, each `FieldError` being none |
| Validation.FailingFieldFailsForm | script.js:205-226 | one failing checked field makes `validateForm` return false |
| Validation.FormValidIffNoOutcome | script.js:205-226 | `validateForm` returns true exactly when none of its fields has an error |
| Validation.OptionalFieldsNotValidated | script.js:205-226 | `instagram`, `desafio_principal` and `medicion_resultados` are never checked |
| FormRecords.Collect | script.js:182-202 | the collected record carries the given timestamp and is not a draft |
| FormRecords.AsDraft | script.js:389 | the draft copy is the collected record with `draft: true` added and nothing else changed |
| FormRecords.Entries | script.js:380 | `Object.entries(formData)` lists fifteen pairs, beginning with the timestamp |
| FormRecords.HasData | script.js:380-384 | definition: some entry other than `timestamp` is a non-empty list or a string with a non-whitespace character |
| FormRecords.HasDataIff | script.js:380-384 | `hasData` holds exactly when some field other than the timestamp is a non-empty list or a non-blank string |
| FormRecords.CollectTrimsTexts | script.js:185-198 | each of the seven text values of the record is the trim of the input's value |
| FormRecords.CollectCheckedValues | script.js:191-195 | a value is in `plataformas` or `intereses` exactly when a checked box of that group carries it |
| FormRecords.CollectHasDataIff | script.js:378-385 | the collected record has data exactly when some input is non-blank, some radio group has a non-blank selected value, or some checkbox group has a checked box |
| ErrorState.WriteSlotTwice | script.js:88-135 | clearing a slot and then writing it is writing it |
| ErrorState.SetMarkTwice | script.js:88-135 | removing the `error` class and then adding it is adding it |
| ErrorState.FieldSlotsMeaning | script.js:87-138 | after `validateField` the field's slot is non-empty exactly when the check failed, and then holds that failure's message; no other slot changes and none is added or dropped |
| ErrorState.FieldMarksMeaning | script.js:87-138 | after `validateField` the field is marked exactly when the check failed; no other mark changes |
| ErrorState.ChecksSlotsAt | script.js:205-226 | a run of checks writes exactly the slots of the fields it checks, each to that field's outcome |
| ErrorState.ChecksMarksAt | script.js:205-226 | a run of checks changes exactly the marks of the fields it checks that have an element |
| ErrorState.ChecksSlotsAppend | script.js:205-226 | running two blocks of checks one after the other is running their concatenation |
| ErrorState.ChecksMarksAppend | script.js:205-226 | the same for the marks |
| ErrorState.CheckedFieldsAreRequired | script.js:205-226 | the fields `validateForm` checks are exactly those given a type |
| ErrorState.FormSlotsMeaning | script.js:205-226 | after `validateForm`, since no call is skipped after a failure, every checked field with a slot shows a message exactly when its check failed; the other slots keep their text |
| ErrorState.FormMarksMeaning | script.js:205-226 | after `validateForm`, a checked field with an element is marked exactly when its check failed; the other marks stay as they were |
| Controller.SubmitEvent | script.js:243-247 | the pushed event carries the collected record |
| Controller.ClearedSlots | script.js:333 | every `.error-message` slot is emptied and none is added or dropped |
| Controller.Form.ShowError | script.js:55-70 | the slot is written if it exists, the field is marked if it has an element, and nothing else changes |
| Controller.Form.ClearError | script.js:73-84 | the slot is emptied if it exists, the mark is removed if the field has an element, and nothing else changes |
| Controller.Form.ValidateField | script.js:87-138 | returns true exactly when the field has no error (always for an unrecognised type); leaves its slot and mark as `FieldSlots` and `FieldMarks` say, with the clear done first |
| Controller.Form.ValidateTextFields | script.js:209-212 | the four text checks run in order; the result is their conjunction |
| Controller.Form.ValidateRadioGroups | script.js:215-219 | the five radio checks run in order; the result is their conjunction |
| Controller.Form.ValidateCheckboxGroups | script.js:222-223 | the two checkbox checks run in order; the result is their conjunction |
| Controller.Form.ValidateForm | script.js:204-226 | returns `FormValid`; all eleven calls run, so the slots and marks are those of the whole run of checks |
| Controller.Form.ClearAllErrors | script.js:333-334 | every error slot is emptied and every mark removed; nothing else changes |
| Controller.Form.SaveToLocalStorage | script.js:229-238 | stores the record and returns true, or returns false and leaves storage as it was |
| Controller.Form.SendToDataLayer | script.js:241-258 | appends the submit event and returns true, or returns false and pushes nothing |
| Controller.Form.HandleSubmit | script.js:293-338 | returns Rejected exactly when validation fails, and then nothing is collected, stored or pushed and the loading state is untouched; otherwise both sinks are tried; success (both sinks true) shows the message and clears every slot and mark, failure leaves the message hidden |
| Controller.Form.Deliver | script.js:311-337 | after validation passes: loading on, store, push, loading off; the message is shown and errors cleared exactly when both sinks succeed |
| Controller.Form.BeforeUnload | script.js:377-391 | a draft copy of the collected record is stored exactly when `hasData` holds, the success message is hidden and storage accepts it; nothing else changes |

## Left out

- DOM wiring is not modelled: `addEventListener`, `setupRealtimeValidation` with its blur handlers (script.js:141-179), `init` and the `DOMContentLoaded` test. They only connect handlers to events.
- `setButtonLoading` is modelled as one boolean. The `disabled` flag, the `loading` class and the two inline displays it sets are not.
- The one-second `await` of a `setTimeout` promise in the submit handler (script.js:311) is not modelled. The model assumes that nothing runs during that delay. In the script, the blur, input and change handlers (script.js:153-176), user edits and the `beforeunload` listener can all run between `validateForm()` and `collectFormData()`. So the record that is stored and pushed can differ from the one that was validated, and the error state can change in between; the model does not capture that.
- The submit handler turns the loading state on before `collectFormData`. `Deliver` turns it on after, which makes no difference because collecting changes no state.
- `event.preventDefault`, `scrollToFirstError`, `scrollIntoView`, `alert` and `console` output are not modelled. They are I/O with no effect on the modelled state.
- `JSON.stringify` is not modelled: storage holds the record itself.
- The `try`/`catch` around `setItem` and `push` is modelled by the `storageWorks`, `queueWorks` and `works` parameters.
- `loadSavedData` is not modelled. It reads storage and only logs.
- Entries that other scripts put on `window.dataLayer` are not modelled: `dataLayer` holds only this script's events.
- The `whatsappRegex` of script.js:24 is never used by the script, so it is not modelled.
- User edits are not modelled. Each `Form` object describes one fixed input surface. It cannot resume after an edit, because the constructor always starts with no marks, no loading state and an empty `dataLayer`.
- In the script, a missing text input makes `collectFormData`, or `validateField` for a text type, throw. The model states these inputs as preconditions.
- The success message's inline `display` before the first submit comes from the page markup, which is not part of this model. It is a constructor parameter, and a draft is saved before the first submit only if it is `'none'`.
- The default `fieldType = 'text'` of `validateField` (script.js:87) has no counterpart, because `FieldType` is always passed explicitly. No behaviour is lost: every call in the script passes a type.
- `ClearedSlots` and `ClearAllErrors` assume that the `.error-message` elements emptied at script.js:333 are exactly the `error_<name>` slots that `showError` writes. Both are the key set of `errors`.
- Strings.IsWhitespace: the Unicode space separators follow the current Unicode table, written out by code point. Other versions of the table are not covered.

## Notes

- `validateForm` never checks `instagram`, `desafio_principal` or `medicion_resultados` (`Validation.OptionalFieldsNotValidated`).

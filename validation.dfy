/**
 * What `validateField` decides for one field, and which fields `validateForm`
 * submits to it. The decision is a function of the input surface; the
 * state-changing methods of `Controller.Form` are proved against it.
 */
module Validation {
  import opened Wrappers
  import opened Strings
  import opened Surface
  import opened Validators

  /** The `fieldType` argument of `validateField`; any other string is `Unrecognised`. */
  datatype FieldType = Text | Textarea | Email | Whatsapp | Checkbox | Radio | Unrecognised {
    /** The types whose check reads `document.getElementById(fieldName).value`. */
    predicate ReadsText() {
      Text? || Textarea? || Email? || Whatsapp?
    }
  }

  /**
   * `document.getElementById(name).value`. The script throws when the element
   * is missing; every method that reads a text field requires it, so the
   * empty string here is never observed by them.
   */
  function TextValue(inputs: Inputs, name: string): string {
    if name in inputs.texts then inputs.texts[name] else ""
  }

  /**
   * The message `validateField(name, kind)` shows, or `None` when it returns true.
   * Presence is tested before shape, and the shape test sees the untrimmed value.
   */
  function FieldError(inputs: Inputs, name: string, kind: FieldType): Option<ErrorKind> {
    match kind
    case Email =>
      var value := TextValue(inputs, name);
      if !Required(value) then Some(RequiredMsg)
      else if !ValidEmail(value) then Some(EmailMsg)
      else None
    case Whatsapp =>
      var value := TextValue(inputs, name);
      if !Required(value) then Some(RequiredMsg)
      else if !ValidWhatsApp(value) then Some(WhatsappMsg)
      else None
    case Text => if !Required(TextValue(inputs, name)) then Some(RequiredMsg) else None
    case Textarea => if !Required(TextValue(inputs, name)) then Some(RequiredMsg) else None
    case Checkbox => if !HasSelection(Group(inputs, name)) then Some(CheckboxMsg) else None
    case Radio => if !HasSelection(Group(inputs, name)) then Some(RadioMsg) else None
    case Unrecognised => None
  }

  /** The text of a field's error slot after `validateField`: empty when it passed. */
  function SlotText(e: Option<ErrorKind>): string {
    match e
    case None => ""
    case Some(kind) => MessageText(kind)
  }

  /** The eleven fields `validateForm` checks, with the type it passes for each. */
  function RequiredType(name: string): Option<FieldType> {
    if name == "nombre_completo" then Some(Text)
    else if name == "email" then Some(Email)
    else if name == "whatsapp" then Some(Whatsapp)
    else if name == "referentes" then Some(Textarea)
    else if name == "nivel_trafico" then Some(Radio)
    else if name == "experiencia_clientes" then Some(Radio)
    else if name == "presupuesto" then Some(Radio)
    else if name == "formacion" then Some(Radio)
    else if name == "disponibilidad" then Some(Radio)
    else if name == "plataformas" then Some(Checkbox)
    else if name == "intereses" then Some(Checkbox)
    else None
  }

  /** The calls of `validateForm` in its three blocks, in order: text fields, radio groups, checkbox groups. */
  const TextOrder: seq<string> := ["nombre_completo", "email", "whatsapp", "referentes"]
  const RadioOrder: seq<string> := ["nivel_trafico", "experiencia_clientes", "presupuesto", "formacion", "disponibilidad"]
  const CheckboxOrder: seq<string> := ["plataformas", "intereses"]
  const CheckOrder: seq<string> := TextOrder + RadioOrder + CheckboxOrder

  /** The type `validateForm` gives each field it checks. */
  lemma RequiredTypes()
    ensures RequiredType("nombre_completo") == Some(Text) && RequiredType("email") == Some(Email)
    ensures RequiredType("whatsapp") == Some(Whatsapp) && RequiredType("referentes") == Some(Textarea)
    ensures RequiredType("nivel_trafico") == Some(Radio) && RequiredType("experiencia_clientes") == Some(Radio)
    ensures RequiredType("presupuesto") == Some(Radio) && RequiredType("formacion") == Some(Radio)
    ensures RequiredType("disponibilidad") == Some(Radio)
    ensures RequiredType("plataformas") == Some(Checkbox) && RequiredType("intereses") == Some(Checkbox)
  {
  }

  /** What `validateForm` finds for field `name`; a field it does not check has no error. */
  function Outcome(inputs: Inputs, name: string): Option<ErrorKind> {
    match RequiredType(name)
    case Some(kind) => FieldError(inputs, name, kind)
    case None => None
  }

  /** The four text inputs `validateForm` reads; without one of them the script throws. */
  predicate ValidatedTextsPresent(inputs: Inputs) {
    "nombre_completo" in inputs.texts && "email" in inputs.texts &&
    "whatsapp" in inputs.texts && "referentes" in inputs.texts
  }

  // ----- properties of a single field's check -----

  /** A blank text, email or WhatsApp value always gets the `required` message, never a shape message. */
  lemma BlankGetsRequiredMessage(inputs: Inputs, name: string, kind: FieldType)
    requires kind.ReadsText() && name in inputs.texts
    ensures !Required(inputs.texts[name]) <==> FieldError(inputs, name, kind) == Some(RequiredMsg)
  {
  }

  /** A shape message is shown exactly when the value is present and fails its shape test. */
  lemma ShapeMessageNeedsPresence(inputs: Inputs, name: string, kind: FieldType)
    requires kind.ReadsText() && name in inputs.texts
    ensures FieldError(inputs, name, kind) == Some(EmailMsg) <==>
      kind == Email && Required(inputs.texts[name]) && !ValidEmail(inputs.texts[name])
    ensures FieldError(inputs, name, kind) == Some(WhatsappMsg) <==>
      kind == Whatsapp && Required(inputs.texts[name]) && !ValidWhatsApp(inputs.texts[name])
  {
  }

  /** The message always belongs to the field's type. */
  lemma MessageMatchesType(inputs: Inputs, name: string, kind: FieldType)
    ensures match FieldError(inputs, name, kind)
      case None => true
      case Some(e) =>
        match kind
        case Email => e == RequiredMsg || e == EmailMsg
        case Whatsapp => e == RequiredMsg || e == WhatsappMsg
        case Text => e == RequiredMsg
        case Textarea => e == RequiredMsg
        case Checkbox => e == CheckboxMsg
        case Radio => e == RadioMsg
        case Unrecognised => false
  {
  }

  /** An email field passes exactly when the email pattern matches; presence adds only the message choice. */
  lemma EmailFieldPassesIff(inputs: Inputs, name: string)
    requires name in inputs.texts
    ensures FieldError(inputs, name, Email) == None <==> ValidEmail(inputs.texts[name])
  {
    if ValidEmail(inputs.texts[name]) {
      EmailIsRequired(inputs.texts[name]);
    }
  }

  /** A WhatsApp field passes exactly when the WhatsApp pattern matches. */
  lemma WhatsappFieldPassesIff(inputs: Inputs, name: string)
    requires name in inputs.texts
    ensures FieldError(inputs, name, Whatsapp) == None <==> ValidWhatsApp(inputs.texts[name])
  {
    if ValidWhatsApp(inputs.texts[name]) {
      WhatsAppIsRequired(inputs.texts[name]);
    }
  }

  /** A text or textarea field passes exactly when it has a non-whitespace character. */
  lemma TextFieldPassesIff(inputs: Inputs, name: string, kind: FieldType)
    requires (kind == Text || kind == Textarea) && name in inputs.texts
    ensures FieldError(inputs, name, kind) == None <==>
      exists i :: 0 <= i < |inputs.texts[name]| && !IsWhitespace(inputs.texts[name][i])
  {
    RequiredIffNonBlank(inputs.texts[name]);
  }

  /** A checkbox or radio group passes exactly when the collected list of its values is non-empty. */
  lemma GroupFieldPassesIff(inputs: Inputs, name: string, kind: FieldType)
    requires kind == Checkbox || kind == Radio
    ensures FieldError(inputs, name, kind) == None <==> CheckedValues(Group(inputs, name)) != []
  {
    HasSelectionIffCollected(Group(inputs, name));
  }

  /** The shape test sees the untrimmed value: a leading space passes presence but fails the email pattern. */
  lemma UntrimmedEmailRejected(inputs: Inputs)
    requires "email" in inputs.texts && inputs.texts["email"] == " a@b.c"
    ensures FieldError(inputs, "email", Email) == Some(EmailMsg)
  {
    var v := inputs.texts["email"];
    assert !IsWhitespace(v[1]);
    RequiredIffNonBlank(v);
    EmailIffShape(v);
    assert !NoWhitespace(v) by { assert IsWhitespace(v[0]); }
  }

  /** A present value without `@` gets the invalid-email message. */
  lemma MissingAtRejected(inputs: Inputs, name: string)
    requires name in inputs.texts && Required(inputs.texts[name])
    requires forall k :: 0 <= k < |inputs.texts[name]| ==> inputs.texts[name][k] != '@'
    ensures FieldError(inputs, name, Email) == Some(EmailMsg)
  {
    EmailIffShape(inputs.texts[name]);
  }

  /** The value `not-an-email` gets the invalid-email message. */
  lemma NotAnEmailRejected(inputs: Inputs)
    requires "email" in inputs.texts && inputs.texts["email"] == "not-an-email"
    ensures FieldError(inputs, "email", Email) == Some(EmailMsg)
  {
    var v := inputs.texts["email"];
    assert !IsWhitespace(v[0]);
    RequiredIffNonBlank(v);
    EmailIffShape(v);
    assert forall k :: 0 <= k < |v| ==> v[k] != '@';
  }

  /** A well-formed address passes. */
  lemma SampleEmailAccepted(inputs: Inputs)
    requires "email" in inputs.texts && inputs.texts["email"] == "ana@test.com"
    ensures FieldError(inputs, "email", Email) == None
  {
    var v := inputs.texts["email"];
    assert EmailMatch(v, 3, 8) by {
      assert v[..3] == "ana" && v[4..8] == "test" && v[9..] == "com";
    }
    EmailFieldPassesIff(inputs, "email");
  }

  /** Inserting a space or a hyphen anywhere never changes the WhatsApp verdict. */
  lemma WhatsappIgnoresSeparator(a: string, c: char, b: string)
    requires Separator(c)
    ensures ValidWhatsApp(a + [c] + b) == ValidWhatsApp(a + b)
  {
    StripAppend(a + [c], b);
    StripAppend(a, [c]);
    StripAppend(a, b);
    assert [c][1..] == [];
    assert Strip([c]) == [];
    assert Strip(a + [c] + b) == Strip(a + b);
  }

  // ----- properties of the whole-form check -----

  /** The text block of `validateForm` passes. */
  predicate TextFieldsValid(inputs: Inputs) {
    FieldError(inputs, "nombre_completo", Text).None? &&
    FieldError(inputs, "email", Email).None? &&
    FieldError(inputs, "whatsapp", Whatsapp).None? &&
    FieldError(inputs, "referentes", Textarea).None?
  }

  /** The radio block of `validateForm` passes. */
  predicate RadioGroupsValid(inputs: Inputs) {
    FieldError(inputs, "nivel_trafico", Radio).None? &&
    FieldError(inputs, "experiencia_clientes", Radio).None? &&
    FieldError(inputs, "presupuesto", Radio).None? &&
    FieldError(inputs, "formacion", Radio).None? &&
    FieldError(inputs, "disponibilidad", Radio).None?
  }

  /** The checkbox block of `validateForm` passes. */
  predicate CheckboxGroupsValid(inputs: Inputs) {
    FieldError(inputs, "plataformas", Checkbox).None? &&
    FieldError(inputs, "intereses", Checkbox).None?
  }

  /** What `validateForm()` returns: every one of its eleven checks passes. */
  predicate FormValid(inputs: Inputs) {
    TextFieldsValid(inputs) && RadioGroupsValid(inputs) && CheckboxGroupsValid(inputs)
  }

  /** Any single failing checked field makes the whole-form check fail. */
  lemma FailingFieldFailsForm(inputs: Inputs, name: string)
    requires Outcome(inputs, name).Some?
    ensures !FormValid(inputs)
  {
    if name == "nombre_completo" {
    } else if name == "email" {
    } else if name == "whatsapp" {
    } else if name == "referentes" {
    } else if name == "nivel_trafico" {
    } else if name == "experiencia_clientes" {
    } else if name == "presupuesto" {
    } else if name == "formacion" {
    } else if name == "disponibilidad" {
    } else if name == "plataformas" {
    } else {
    }
  }

  /** The whole form passes exactly when no field has an outcome. */
  lemma FormValidIffNoOutcome(inputs: Inputs)
    ensures FormValid(inputs) <==> forall name :: Outcome(inputs, name).None?
  {
    if FormValid(inputs) {
      forall name ensures Outcome(inputs, name).None? {
        if Outcome(inputs, name).Some? {
          FailingFieldFailsForm(inputs, name);
        }
      }
    }
    if forall name :: Outcome(inputs, name).None? {
      AllRequiredPassForm(inputs);
    }
  }

  lemma AllRequiredPassForm(inputs: Inputs)
    requires forall name :: Outcome(inputs, name).None?
    ensures FormValid(inputs)
  {
    TextChecksPass(inputs);
    RadioChecksPass(inputs);
    CheckboxChecksPass(inputs);
  }

  lemma TextChecksPass(inputs: Inputs)
    requires forall name :: Outcome(inputs, name).None?
    ensures FieldError(inputs, "nombre_completo", Text).None?
    ensures FieldError(inputs, "email", Email).None?
    ensures FieldError(inputs, "whatsapp", Whatsapp).None?
    ensures FieldError(inputs, "referentes", Textarea).None?
  {
    ListedFieldPasses(inputs, "nombre_completo", Text);
    ListedFieldPasses(inputs, "email", Email);
    ListedFieldPasses(inputs, "whatsapp", Whatsapp);
    ListedFieldPasses(inputs, "referentes", Textarea);
  }

  lemma RadioChecksPass(inputs: Inputs)
    requires forall name :: Outcome(inputs, name).None?
    ensures FieldError(inputs, "nivel_trafico", Radio).None?
    ensures FieldError(inputs, "experiencia_clientes", Radio).None?
    ensures FieldError(inputs, "presupuesto", Radio).None?
    ensures FieldError(inputs, "formacion", Radio).None?
    ensures FieldError(inputs, "disponibilidad", Radio).None?
  {
    ListedFieldPasses(inputs, "nivel_trafico", Radio);
    ListedFieldPasses(inputs, "experiencia_clientes", Radio);
    ListedFieldPasses(inputs, "presupuesto", Radio);
    ListedFieldPasses(inputs, "formacion", Radio);
    ListedFieldPasses(inputs, "disponibilidad", Radio);
  }

  lemma CheckboxChecksPass(inputs: Inputs)
    requires forall name :: Outcome(inputs, name).None?
    ensures FieldError(inputs, "plataformas", Checkbox).None?
    ensures FieldError(inputs, "intereses", Checkbox).None?
  {
    ListedFieldPasses(inputs, "plataformas", Checkbox);
    ListedFieldPasses(inputs, "intereses", Checkbox);
  }

  lemma ListedFieldPasses(inputs: Inputs, name: string, kind: FieldType)
    requires forall name :: Outcome(inputs, name).None?
    requires RequiredType(name) == Some(kind)
    ensures FieldError(inputs, name, kind).None?
  {
    assert Outcome(inputs, name).None?;
  }

  /** The optional fields are never part of the whole-form check. */
  lemma OptionalFieldsNotValidated()
    ensures RequiredType("instagram") == None
    ensures RequiredType("desafio_principal") == None
    ensures RequiredType("medicion_resultados") == None
  {
  }
}

/**
 * The page state the form script changes, and the handlers that change it:
 * `showError`, `clearError`, `validateField`, `validateForm`,
 * `saveToLocalStorage`, `sendToDataLayer`, the submit handler and the
 * `beforeunload` listener.
 */
module Controller {
  import opened Wrappers
  import opened Strings
  import opened Surface
  import opened Validators
  import opened Validation
  import opened FormRecords
  import opened ErrorState

  /** The object `sendToDataLayer` pushes onto `window.dataLayer`. */
  datatype AnalyticsEvent = AnalyticsEvent(event: string, formName: string, formData: FormRecord)

  /** How a submit ends: stopped by validation, shown as sent, or reported with the failure alert. */
  datatype SubmitOutcome = Rejected | Succeeded | Failed

  /** The event `sendToDataLayer(data)` pushes. */
  function SubmitEvent(data: FormRecord): (e: AnalyticsEvent)
    ensures e.formData == data
  {
    AnalyticsEvent("form_submit", "gestor_trafego_latam", data)
  }

  /** Every slot emptied, as the `.error-message` loop of the submit handler leaves them. */
  function ClearedSlots(slots: map<string, string>): (m: map<string, string>)
    ensures m.Keys == slots.Keys
    ensures forall k | k in m :: m[k] == ""
  {
    map k | k in slots :: ""
  }

  class Form {
    /** What the user has entered; the script only reads it. */
    const inputs: Inputs
    /** The text of each existing `error_<name>` element, by field name. */
    var errors: map<string, string>
    /** The fields whose element carries the `error` class. */
    var marked: set<string>
    /** `successMessage.style.display`. */
    var successDisplay: string
    /** Whether the submit button shows its loading state (`setButtonLoading`). */
    var loading: bool
    /** The record stored under `localStorage['gestor_trafego_form_data']`, if any. */
    var stored: Option<FormRecord>
    /** The events this script pushed onto `window.dataLayer`, oldest first. */
    var dataLayer: seq<AnalyticsEvent>

    /**
     * The invariant of the page: marks sit only on fields that have an
     * element, since `showError` marks only a field it finds. The constructor
     * establishes it and every method keeps it.
     */
    ghost predicate Valid()
      reads this
    {
      marked <= Elements(inputs)
    }

    /**
     * The page as loaded: the given inputs, error slots and inline display of
     * the success message, what storage already holds, and no marks, no
     * loading state and no events of this script.
     */
    constructor (inputs: Inputs, slots: map<string, string>, successDisplay: string, stored: Option<FormRecord>)
      ensures Valid()
      ensures this.inputs == inputs && errors == slots && marked == {}
      ensures this.successDisplay == successDisplay && !loading
      ensures this.stored == stored && dataLayer == []
    {
      this.inputs := inputs;
      errors := slots;
      marked := {};
      this.successDisplay := successDisplay;
      loading := false;
      this.stored := stored;
      dataLayer := [];
    }

    /** `showError(name, message)`: writes the slot if it exists and marks the field if it exists. */
    method ShowError(name: string, message: string)
      requires Valid()
      modifies this
      ensures Valid()
      ensures name !in Elements(inputs) ==> name !in marked
      ensures errors == WriteSlot(old(errors), name, message)
      ensures marked == SetMark(old(marked), Elements(inputs), name, true)
      ensures successDisplay == old(successDisplay) && loading == old(loading)
      ensures stored == old(stored) && dataLayer == old(dataLayer)
    {
      if name in errors {
        errors := errors[name := message];
      }
      if name in Elements(inputs) {
        marked := marked + {name};
      }
    }

    /** `clearError(name)`: empties the slot if it exists and unmarks the field if it exists. */
    method ClearError(name: string)
      requires Valid()
      modifies this
      ensures Valid()
      ensures errors == WriteSlot(old(errors), name, "")
      ensures marked == SetMark(old(marked), Elements(inputs), name, false)
      ensures successDisplay == old(successDisplay) && loading == old(loading)
      ensures stored == old(stored) && dataLayer == old(dataLayer)
    {
      if name in errors {
        errors := errors[name := ""];
      }
      if name in Elements(inputs) {
        marked := marked - {name};
      }
    }

    /**
     * `validateField(name, kind)`. The script throws when a text check finds no
     * element, hence the precondition. It returns true exactly when the field
     * has no error, and leaves the field's slot and mark as `FieldSlots` and
     * `FieldMarks` say.
     */
    method ValidateField(name: string, kind: FieldType) returns (ok: bool)
      requires Valid()
      requires kind.ReadsText() ==> name in inputs.texts
      modifies this
      ensures Valid()
      ensures name !in Elements(inputs) ==> name !in marked
      ensures ok <==> FieldError(inputs, name, kind).None?
      ensures errors == FieldSlots(old(errors), inputs, name, kind)
      ensures marked == FieldMarks(old(marked), inputs, name, kind)
      ensures RequiredType(name) == Some(kind) ==>
        errors == CheckSlot(old(errors), inputs, name) && marked == CheckMark(old(marked), inputs, name)
      ensures successDisplay == old(successDisplay) && loading == old(loading)
      ensures stored == old(stored) && dataLayer == old(dataLayer)
    {
      ClearError(name);
      ok := true;
      var errorMsg := "";
      ghost var e: Option<ErrorKind> := None;
      match kind {
        case Email =>
          var value := inputs.texts[name];
          if !Required(value) {
            ok, errorMsg, e := false, MessageText(RequiredMsg), Some(RequiredMsg);
          } else if !ValidEmail(value) {
            ok, errorMsg, e := false, MessageText(EmailMsg), Some(EmailMsg);
          }
        case Whatsapp =>
          var value := inputs.texts[name];
          if !Required(value) {
            ok, errorMsg, e := false, MessageText(RequiredMsg), Some(RequiredMsg);
          } else if !ValidWhatsApp(value) {
            ok, errorMsg, e := false, MessageText(WhatsappMsg), Some(WhatsappMsg);
          }
        case Text =>
          if !Required(inputs.texts[name]) {
            ok, errorMsg, e := false, MessageText(RequiredMsg), Some(RequiredMsg);
          }
        case Textarea =>
          if !Required(inputs.texts[name]) {
            ok, errorMsg, e := false, MessageText(RequiredMsg), Some(RequiredMsg);
          }
        case Checkbox =>
          if !HasSelection(Group(inputs, name)) {
            ok, errorMsg, e := false, MessageText(CheckboxMsg), Some(CheckboxMsg);
          }
        case Radio =>
          if !HasSelection(Group(inputs, name)) {
            ok, errorMsg, e := false, MessageText(RadioMsg), Some(RadioMsg);
          }
        case Unrecognised =>
      }
      assert e == FieldError(inputs, name, kind);
      assert ok <==> e.None?;
      assert errorMsg == SlotText(e);
      if !ok {
        ShowError(name, errorMsg);
        WriteSlotTwice(old(errors), name, "", errorMsg);
        SetMarkTwice(old(marked), Elements(inputs), name);
      }
    }

    /** The calls of the text block of `validateForm()`, each run whatever the others found. */
    method ValidateTextFields() returns (ok: bool)
      requires Valid() && ValidatedTextsPresent(inputs)
      modifies this
      ensures Valid()
      ensures ok == TextFieldsValid(inputs)
      ensures errors == ChecksSlots(old(errors), inputs, TextOrder)
      ensures marked == ChecksMarks(old(marked), inputs, TextOrder)
      ensures successDisplay == old(successDisplay) && loading == old(loading)
      ensures stored == old(stored) && dataLayer == old(dataLayer)
    {
      RequiredTypes();
      ok := true;
      var nombreCompletoOk := ValidateField("nombre_completo", Text);
      if !nombreCompletoOk { ok := false; }
      var emailOk := ValidateField("email", Email);
      if !emailOk { ok := false; }
      var whatsappOk := ValidateField("whatsapp", Whatsapp);
      if !whatsappOk { ok := false; }
      var referentesOk := ValidateField("referentes", Textarea);
      if !referentesOk { ok := false; }
      TextBlockSteps(old(errors), old(marked), inputs);
    }

    /** The calls of the radio block of `validateForm()`, each run whatever the others found. */
    method ValidateRadioGroups() returns (ok: bool)
      requires Valid()
      modifies this
      ensures Valid()
      ensures ok == RadioGroupsValid(inputs)
      ensures errors == ChecksSlots(old(errors), inputs, RadioOrder)
      ensures marked == ChecksMarks(old(marked), inputs, RadioOrder)
      ensures successDisplay == old(successDisplay) && loading == old(loading)
      ensures stored == old(stored) && dataLayer == old(dataLayer)
    {
      RequiredTypes();
      ok := true;
      var nivelTraficoOk := ValidateField("nivel_trafico", Radio);
      if !nivelTraficoOk { ok := false; }
      var experienciaClientesOk := ValidateField("experiencia_clientes", Radio);
      if !experienciaClientesOk { ok := false; }
      var presupuestoOk := ValidateField("presupuesto", Radio);
      if !presupuestoOk { ok := false; }
      var formacionOk := ValidateField("formacion", Radio);
      if !formacionOk { ok := false; }
      var disponibilidadOk := ValidateField("disponibilidad", Radio);
      if !disponibilidadOk { ok := false; }
      RadioBlockSteps(old(errors), old(marked), inputs);
    }

    /** The calls of the checkbox block of `validateForm()`, each run whatever the others found. */
    method ValidateCheckboxGroups() returns (ok: bool)
      requires Valid()
      modifies this
      ensures Valid()
      ensures ok == CheckboxGroupsValid(inputs)
      ensures errors == ChecksSlots(old(errors), inputs, CheckboxOrder)
      ensures marked == ChecksMarks(old(marked), inputs, CheckboxOrder)
      ensures successDisplay == old(successDisplay) && loading == old(loading)
      ensures stored == old(stored) && dataLayer == old(dataLayer)
    {
      RequiredTypes();
      ok := true;
      var plataformasOk := ValidateField("plataformas", Checkbox);
      if !plataformasOk { ok := false; }
      var interesesOk := ValidateField("intereses", Checkbox);
      if !interesesOk { ok := false; }
      CheckboxBlockSteps(old(errors), old(marked), inputs);
    }

    /**
     * `validateForm()`: all eleven checks run, none skipped after a failure, and
     * the result is their conjunction.
     */
    method ValidateForm() returns (isValid: bool)
      requires Valid() && ValidatedTextsPresent(inputs)
      modifies this
      ensures Valid()
      ensures isValid == FormValid(inputs)
      ensures errors == ChecksSlots(old(errors), inputs, CheckOrder)
      ensures marked == ChecksMarks(old(marked), inputs, CheckOrder)
      ensures successDisplay == old(successDisplay) && loading == old(loading)
      ensures stored == old(stored) && dataLayer == old(dataLayer)
    {
      isValid := true;
      var textOk := ValidateTextFields();
      if !textOk { isValid := false; }
      var radioOk := ValidateRadioGroups();
      if !radioOk { isValid := false; }
      var checkboxOk := ValidateCheckboxGroups();
      if !checkboxOk { isValid := false; }
      ChecksSlotsAppend(old(errors), inputs, TextOrder, RadioOrder);
      ChecksSlotsAppend(old(errors), inputs, TextOrder + RadioOrder, CheckboxOrder);
      ChecksMarksAppend(old(marked), inputs, TextOrder, RadioOrder);
      ChecksMarksAppend(old(marked), inputs, TextOrder + RadioOrder, CheckboxOrder);
    }

    /**
     * The two `forEach` loops after a successful submit: every `.error-message`
     * element emptied, then the `error` class taken off every marked element.
     */
    method ClearAllErrors()
      requires Valid()
      modifies this
      ensures Valid()
      ensures errors == ClearedSlots(old(errors)) && marked == {}
      ensures successDisplay == old(successDisplay) && loading == old(loading)
      ensures stored == old(stored) && dataLayer == old(dataLayer)
    {
      var pending := errors.Keys;
      while pending != {}
        invariant pending <= errors.Keys == old(errors).Keys
        invariant forall k | k in errors :: errors[k] == if k in pending then old(errors)[k] else ""
        invariant marked == old(marked)
        invariant successDisplay == old(successDisplay) && loading == old(loading)
        invariant stored == old(stored) && dataLayer == old(dataLayer)
        decreases pending
      {
        var k :| k in pending;
        errors := errors[k := ""];
        pending := pending - {k};
      }
      var remaining := marked;
      while remaining != {}
        invariant marked == remaining <= old(marked)
        invariant errors == ClearedSlots(old(errors))
        invariant successDisplay == old(successDisplay) && loading == old(loading)
        invariant stored == old(stored) && dataLayer == old(dataLayer)
        decreases remaining
      {
        var k :| k in remaining;
        marked := marked - {k};
        remaining := remaining - {k};
      }
    }

    /**
     * `saveToLocalStorage(data)`: stores the record under the form's key, or,
     * when `setItem` throws (`works` false), leaves storage as it was and
     * returns false.
     */
    method SaveToLocalStorage(data: FormRecord, works: bool) returns (ok: bool)
      requires Valid()
      modifies this
      ensures Valid()
      ensures ok == works
      ensures stored == if works then Some(data) else old(stored)
      ensures errors == old(errors) && marked == old(marked)
      ensures successDisplay == old(successDisplay) && loading == old(loading) && dataLayer == old(dataLayer)
    {
      if works {
        stored := Some(data);
        ok := true;
      } else {
        ok := false;
      }
    }

    /**
     * `sendToDataLayer(data)`: pushes the submit event, or, when the push throws
     * (`works` false), pushes nothing and returns false.
     */
    method SendToDataLayer(data: FormRecord, works: bool) returns (ok: bool)
      requires Valid()
      modifies this
      ensures Valid()
      ensures ok == works
      ensures dataLayer == old(dataLayer) + if works then [SubmitEvent(data)] else []
      ensures errors == old(errors) && marked == old(marked)
      ensures successDisplay == old(successDisplay) && loading == old(loading) && stored == old(stored)
    {
      if works {
        dataLayer := dataLayer + [SubmitEvent(data)];
        ok := true;
      } else {
        ok := false;
      }
    }

    /**
     * The submit handler. It hides the success message and validates; an
     * invalid form stops there, with nothing stored or sent. Otherwise the
     * record is collected at `timestamp`, stored and sent; only when both
     * succeed is the success message shown and every error cleared.
     * `storageWorks` and `queueWorks` say whether `setItem` and `push` succeed.
     */
    method HandleSubmit(timestamp: string, storageWorks: bool, queueWorks: bool) returns (outcome: SubmitOutcome)
      requires Valid() && HasTextFields(inputs)
      modifies this
      ensures Valid()
      ensures outcome == Rejected <==> !FormValid(inputs)
      ensures outcome == Succeeded <==> FormValid(inputs) && storageWorks && queueWorks
      ensures successDisplay == if outcome == Succeeded then "block" else "none"
      ensures loading == if outcome == Rejected then old(loading) else false
      ensures outcome == Succeeded ==> errors == ClearedSlots(ChecksSlots(old(errors), inputs, CheckOrder)) && marked == {}
      ensures outcome != Succeeded ==>
        errors == ChecksSlots(old(errors), inputs, CheckOrder) && marked == ChecksMarks(old(marked), inputs, CheckOrder)
      ensures outcome == Rejected ==> stored == old(stored) && dataLayer == old(dataLayer)
      ensures outcome != Rejected ==>
        var formData := Collect(inputs, timestamp);
        && stored == (if storageWorks then Some(formData) else old(stored))
        && dataLayer == old(dataLayer) + if queueWorks then [SubmitEvent(formData)] else []
    {
      successDisplay := "none";
      var isValid := ValidateForm();
      if !isValid {
        return Rejected;
      }
      var formData := Collect(inputs, timestamp);
      var sent := Deliver(formData, storageWorks, queueWorks);
      outcome := if sent then Succeeded else Failed;
    }

    /**
     * The part of the submit handler after a passing validation, given the
     * collected record: loading state on, store, send, loading state off, and
     * on double success the success message shown and every error cleared.
     */
    method Deliver(formData: FormRecord, storageWorks: bool, queueWorks: bool) returns (sent: bool)
      requires Valid()
      modifies this
      ensures Valid()
      ensures sent == (storageWorks && queueWorks)
      ensures !loading
      ensures stored == if storageWorks then Some(formData) else old(stored)
      ensures dataLayer == old(dataLayer) + if queueWorks then [SubmitEvent(formData)] else []
      ensures sent ==> successDisplay == "block" && errors == ClearedSlots(old(errors)) && marked == {}
      ensures !sent ==> successDisplay == old(successDisplay) && errors == old(errors) && marked == old(marked)
    {
      loading := true;
      var savedToStorage := SaveToLocalStorage(formData, storageWorks);
      var sentToDataLayer := SendToDataLayer(formData, queueWorks);
      loading := false;
      sent := savedToStorage && sentToDataLayer;
      if sent {
        successDisplay := "block";
        ClearAllErrors();
      }
    }

    /**
     * The `beforeunload` listener: when the collected record has data and the
     * success message is hidden, the record is stored again as a draft
     * (`works` says whether `setItem` succeeds). Nothing else changes.
     */
    method BeforeUnload(timestamp: string, works: bool)
      requires Valid() && HasTextFields(inputs)
      modifies this
      ensures Valid()
      ensures stored ==
        var formData := Collect(inputs, timestamp);
        if HasData(formData) && successDisplay == "none" && works then Some(AsDraft(formData)) else old(stored)
      ensures errors == old(errors) && marked == old(marked)
      ensures successDisplay == old(successDisplay) && loading == old(loading) && dataLayer == old(dataLayer)
    {
      var formData := Collect(inputs, timestamp);
      if HasData(formData) && successDisplay == "none" {
        var _ := SaveToLocalStorage(AsDraft(formData), works);
      }
    }
  }
}

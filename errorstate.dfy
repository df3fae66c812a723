/**
 * The error bookkeeping of the form: the text of each `error_<name>` slot and
 * the set of fields whose element carries the `error` class, with what
 * `showError`, `clearError`, `validateField` and `validateForm` leave in them.
 * The methods of `Controller.Form` are proved against these functions.
 */
module ErrorState {
  import opened Wrappers
  import opened Surface
  import opened Validators
  import opened Validation

  /**
   * Setting `textContent` of the element `error_<name>`: `slots` maps each field
   * name whose error element exists to its text, and a name without one is skipped.
   */
  function WriteSlot(slots: map<string, string>, name: string, text: string): map<string, string> {
    if name in slots then slots[name := text] else slots
  }

  /** Clearing a slot and then writing it is writing it. */
  lemma WriteSlotTwice(slots: map<string, string>, name: string, first: string, second: string)
    ensures WriteSlot(WriteSlot(slots, name, first), name, second) == WriteSlot(slots, name, second)
  {
    if name in slots {
      assert slots[name := first][name := second] == slots[name := second];
    }
  }

  /**
   * `classList.add('error')` (`on`) or `classList.remove('error')` on the field
   * element, which exists exactly when `name` is among `elements`.
   */
  function SetMark(marked: set<string>, elements: set<string>, name: string, on: bool): set<string> {
    if name !in elements then marked
    else if on then marked + {name}
    else marked - {name}
  }

  /** Removing a mark and then adding it is adding it. */
  lemma SetMarkTwice(marked: set<string>, elements: set<string>, name: string)
    ensures SetMark(SetMark(marked, elements, name, false), elements, name, true) == SetMark(marked, elements, name, true)
  {
    if name in elements {
      assert marked - {name} + {name} == marked + {name};
    }
  }

  /** The slots after `validateField(name, kind)`: cleared, then given the message if the check failed. */
  function FieldSlots(slots: map<string, string>, inputs: Inputs, name: string, kind: FieldType): map<string, string> {
    WriteSlot(slots, name, SlotText(FieldError(inputs, name, kind)))
  }

  /** The marks after `validateField(name, kind)`: removed, then added again if the check failed. */
  function FieldMarks(marked: set<string>, inputs: Inputs, name: string, kind: FieldType): set<string> {
    SetMark(marked, Elements(inputs), name, FieldError(inputs, name, kind).Some?)
  }

  /** The slots after `validateForm`'s call for `name`, with the type it gives that name. */
  function CheckSlot(slots: map<string, string>, inputs: Inputs, name: string): map<string, string> {
    WriteSlot(slots, name, SlotText(Outcome(inputs, name)))
  }

  /** The marks after `validateForm`'s call for `name`. */
  function CheckMark(marked: set<string>, inputs: Inputs, name: string): set<string> {
    SetMark(marked, Elements(inputs), name, Outcome(inputs, name).Some?)
  }

  /** The slots after `validateForm`'s calls for `names`, one after the other. */
  function ChecksSlots(slots: map<string, string>, inputs: Inputs, names: seq<string>): map<string, string>
    decreases |names|
  {
    if names == [] then slots else ChecksSlots(CheckSlot(slots, inputs, names[0]), inputs, names[1..])
  }

  /** The marks after `validateForm`'s calls for `names`, one after the other. */
  function ChecksMarks(marked: set<string>, inputs: Inputs, names: seq<string>): set<string>
    decreases |names|
  {
    if names == [] then marked else ChecksMarks(CheckMark(marked, inputs, names[0]), inputs, names[1..])
  }

  /** Running the checks from position `j` on is running the check at `j` and then those after it. */
  lemma ChecksFrom(slots: map<string, string>, marked: set<string>, inputs: Inputs, names: seq<string>, j: nat)
    requires j < |names|
    ensures ChecksSlots(slots, inputs, names[j..]) == ChecksSlots(CheckSlot(slots, inputs, names[j]), inputs, names[j + 1..])
    ensures ChecksMarks(marked, inputs, names[j..]) == ChecksMarks(CheckMark(marked, inputs, names[j]), inputs, names[j + 1..])
  {
    assert names[j..][0] == names[j] && names[j..][1..] == names[j + 1..];
  }

  /** The checks of the text block, one call after the other. */
  lemma TextBlockSteps(slots: map<string, string>, marked: set<string>, inputs: Inputs)
    ensures ChecksSlots(slots, inputs, TextOrder) == CheckSlot(CheckSlot(CheckSlot(CheckSlot(slots, inputs, "nombre_completo"), inputs, "email"), inputs, "whatsapp"), inputs, "referentes")
    ensures ChecksMarks(marked, inputs, TextOrder) == CheckMark(CheckMark(CheckMark(CheckMark(marked, inputs, "nombre_completo"), inputs, "email"), inputs, "whatsapp"), inputs, "referentes")
  {
    ChecksFrom(slots, marked, inputs, TextOrder, 0);
    var slots1, marked1 := CheckSlot(slots, inputs, "nombre_completo"), CheckMark(marked, inputs, "nombre_completo");
    ChecksFrom(slots1, marked1, inputs, TextOrder, 1);
    var slots2, marked2 := CheckSlot(slots1, inputs, "email"), CheckMark(marked1, inputs, "email");
    ChecksFrom(slots2, marked2, inputs, TextOrder, 2);
    var slots3, marked3 := CheckSlot(slots2, inputs, "whatsapp"), CheckMark(marked2, inputs, "whatsapp");
    ChecksFrom(slots3, marked3, inputs, TextOrder, 3);
    assert TextOrder[0..] == TextOrder && TextOrder[4..] == [];
  }

  /** The checks of the radio block, one call after the other. */
  lemma RadioBlockSteps(slots: map<string, string>, marked: set<string>, inputs: Inputs)
    ensures ChecksSlots(slots, inputs, RadioOrder) == CheckSlot(CheckSlot(CheckSlot(CheckSlot(CheckSlot(slots, inputs, "nivel_trafico"), inputs, "experiencia_clientes"), inputs, "presupuesto"), inputs, "formacion"), inputs, "disponibilidad")
    ensures ChecksMarks(marked, inputs, RadioOrder) == CheckMark(CheckMark(CheckMark(CheckMark(CheckMark(marked, inputs, "nivel_trafico"), inputs, "experiencia_clientes"), inputs, "presupuesto"), inputs, "formacion"), inputs, "disponibilidad")
  {
    ChecksFrom(slots, marked, inputs, RadioOrder, 0);
    var slots1, marked1 := CheckSlot(slots, inputs, "nivel_trafico"), CheckMark(marked, inputs, "nivel_trafico");
    ChecksFrom(slots1, marked1, inputs, RadioOrder, 1);
    var slots2, marked2 := CheckSlot(slots1, inputs, "experiencia_clientes"), CheckMark(marked1, inputs, "experiencia_clientes");
    ChecksFrom(slots2, marked2, inputs, RadioOrder, 2);
    var slots3, marked3 := CheckSlot(slots2, inputs, "presupuesto"), CheckMark(marked2, inputs, "presupuesto");
    ChecksFrom(slots3, marked3, inputs, RadioOrder, 3);
    var slots4, marked4 := CheckSlot(slots3, inputs, "formacion"), CheckMark(marked3, inputs, "formacion");
    ChecksFrom(slots4, marked4, inputs, RadioOrder, 4);
    assert RadioOrder[0..] == RadioOrder && RadioOrder[5..] == [];
  }

  /** The checks of the checkbox block, one call after the other. */
  lemma CheckboxBlockSteps(slots: map<string, string>, marked: set<string>, inputs: Inputs)
    ensures ChecksSlots(slots, inputs, CheckboxOrder) == CheckSlot(CheckSlot(slots, inputs, "plataformas"), inputs, "intereses")
    ensures ChecksMarks(marked, inputs, CheckboxOrder) == CheckMark(CheckMark(marked, inputs, "plataformas"), inputs, "intereses")
  {
    ChecksFrom(slots, marked, inputs, CheckboxOrder, 0);
    var slots1, marked1 := CheckSlot(slots, inputs, "plataformas"), CheckMark(marked, inputs, "plataformas");
    ChecksFrom(slots1, marked1, inputs, CheckboxOrder, 1);
    assert CheckboxOrder[0..] == CheckboxOrder && CheckboxOrder[2..] == [];
  }

  /**
   * A run of checks writes exactly the slots of the fields it checks, each to
   * that field's outcome, and adds or drops no slot.
   */
  lemma {:induction false} ChecksSlotsAt(slots: map<string, string>, inputs: Inputs, names: seq<string>, k: string)
    requires k in slots
    ensures ChecksSlots(slots, inputs, names).Keys == slots.Keys
    ensures ChecksSlots(slots, inputs, names)[k] == if k in names then SlotText(Outcome(inputs, k)) else slots[k]
    decreases |names|
  {
    if names != [] {
      ChecksSlotsAt(CheckSlot(slots, inputs, names[0]), inputs, names[1..], k);
      assert k in names <==> k == names[0] || k in names[1..];
    }
  }

  /** A run of checks changes exactly the marks of the fields it checks that have an element. */
  lemma {:induction false} ChecksMarksAt(marked: set<string>, inputs: Inputs, names: seq<string>, k: string)
    ensures k in ChecksMarks(marked, inputs, names) <==>
      if k in names && k in Elements(inputs) then Outcome(inputs, k).Some? else k in marked
    decreases |names|
  {
    if names != [] {
      ChecksMarksAt(CheckMark(marked, inputs, names[0]), inputs, names[1..], k);
      assert k in names <==> k == names[0] || k in names[1..];
    }
  }

  /** Running two blocks of checks one after the other is running their concatenation. */
  lemma {:induction false} ChecksSlotsAppend(slots: map<string, string>, inputs: Inputs, a: seq<string>, b: seq<string>)
    ensures ChecksSlots(slots, inputs, a + b) == ChecksSlots(ChecksSlots(slots, inputs, a), inputs, b)
    decreases |a|
  {
    if a == [] {
      assert a + b == b;
    } else {
      assert (a + b)[0] == a[0] && (a + b)[1..] == a[1..] + b;
      ChecksSlotsAppend(CheckSlot(slots, inputs, a[0]), inputs, a[1..], b);
    }
  }

  lemma {:induction false} ChecksMarksAppend(marked: set<string>, inputs: Inputs, a: seq<string>, b: seq<string>)
    ensures ChecksMarks(marked, inputs, a + b) == ChecksMarks(ChecksMarks(marked, inputs, a), inputs, b)
    decreases |a|
  {
    if a == [] {
      assert a + b == b;
    } else {
      assert (a + b)[0] == a[0] && (a + b)[1..] == a[1..] + b;
      ChecksMarksAppend(CheckMark(marked, inputs, a[0]), inputs, a[1..], b);
    }
  }

  /**
   * After `validateField(name, kind)` the field's slot is non-empty exactly when
   * the check failed, and then holds that failure's message; no other slot
   * changes and none is added or dropped.
   */
  lemma FieldSlotsMeaning(slots: map<string, string>, inputs: Inputs, name: string, kind: FieldType)
    requires name in slots
    ensures FieldSlots(slots, inputs, name, kind).Keys == slots.Keys
    ensures FieldSlots(slots, inputs, name, kind)[name] != "" <==> FieldError(inputs, name, kind).Some?
    ensures FieldError(inputs, name, kind).Some? ==>
      FieldSlots(slots, inputs, name, kind)[name] == MessageText(FieldError(inputs, name, kind).value)
    ensures forall k | k in slots && k != name :: FieldSlots(slots, inputs, name, kind)[k] == slots[k]
  {
    OutcomeSlot(slots, name, FieldError(inputs, name, kind));
  }

  /** Writing an outcome into a slot: non-empty exactly for a failure, and nothing else touched. */
  lemma OutcomeSlot(slots: map<string, string>, name: string, e: Option<ErrorKind>)
    requires name in slots
    ensures WriteSlot(slots, name, SlotText(e)).Keys == slots.Keys
    ensures WriteSlot(slots, name, SlotText(e))[name] != "" <==> e.Some?
    ensures e.Some? ==> WriteSlot(slots, name, SlotText(e))[name] == MessageText(e.value)
    ensures forall k | k in slots && k != name :: WriteSlot(slots, name, SlotText(e))[k] == slots[k]
  {
    if e.Some? {
      MessagesDistinct(e.value, RequiredMsg);
    }
  }

  /** After `validateField(name, kind)` the field is marked exactly when the check failed; no other mark changes. */
  lemma FieldMarksMeaning(marked: set<string>, inputs: Inputs, name: string, kind: FieldType)
    requires name in Elements(inputs)
    ensures name in FieldMarks(marked, inputs, name, kind) <==> FieldError(inputs, name, kind).Some?
    ensures forall k | k != name :: k in FieldMarks(marked, inputs, name, kind) <==> k in marked
  {
  }

  /** The fields `validateForm` checks are exactly those `RequiredType` gives a type. */
  lemma CheckedFieldsAreRequired(name: string)
    ensures name in CheckOrder <==> RequiredType(name).Some?
  {
  }

  /**
   * After `validateForm()` every checked field with a slot shows a message
   * exactly when its check failed, since no call is skipped after a failure;
   * the slots of the other fields keep their text.
   */
  lemma FormSlotsMeaning(slots: map<string, string>, inputs: Inputs, k: string)
    requires k in slots
    ensures ChecksSlots(slots, inputs, CheckOrder).Keys == slots.Keys
    ensures k in CheckOrder ==> (ChecksSlots(slots, inputs, CheckOrder)[k] != "" <==> Outcome(inputs, k).Some?)
    ensures k !in CheckOrder ==> ChecksSlots(slots, inputs, CheckOrder)[k] == slots[k]
  {
    ChecksSlotsAt(slots, inputs, CheckOrder, k);
    if Outcome(inputs, k).Some? {
      MessagesDistinct(Outcome(inputs, k).value, RequiredMsg);
    }
  }

  /** After `validateForm()` a checked field with an element is marked exactly when its check failed. */
  lemma FormMarksMeaning(marked: set<string>, inputs: Inputs, k: string)
    ensures k in CheckOrder && k in Elements(inputs) ==> (k in ChecksMarks(marked, inputs, CheckOrder) <==> Outcome(inputs, k).Some?)
    ensures !(k in CheckOrder && k in Elements(inputs)) ==> (k in ChecksMarks(marked, inputs, CheckOrder) <==> k in marked)
  {
    ChecksMarksAt(marked, inputs, CheckOrder, k);
  }
}

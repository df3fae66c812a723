/**
 * The object `collectFormData` builds, and the `hasData` test the
 * `beforeunload` listener applies to it before saving a draft.
 */
module FormRecords {
  import opened Strings
  import opened Surface
  import opened Validators

  /**
   * The fifteen keys of `formData`, in the order the object literal lists them,
   * and `draft`, set only on the copy `{ ...formData, draft: true }` that
   * `beforeunload` stores (a record with `draft == false` has no such key).
   */
  datatype FormRecord = FormRecord(
    timestamp: string,
    nombreCompleto: string,
    email: string,
    whatsapp: string,
    instagram: string,
    nivelTrafico: string,
    experienciaClientes: string,
    plataformas: seq<string>,
    presupuesto: string,
    formacion: string,
    referentes: string,
    intereses: seq<string>,
    disponibilidad: string,
    desafioPrincipal: string,
    medicionResultados: string,
    draft: bool)

  /**
   * `collectFormData()`. The clock reading `new Date().toISOString()` is the
   * parameter `timestamp`. The script throws when one of the seven text inputs
   * is missing, hence the precondition; a radio or checkbox group nobody
   * carries reads as nothing selected.
   */
  function Collect(inputs: Inputs, timestamp: string): (r: FormRecord)
    requires HasTextFields(inputs)
    ensures r.timestamp == timestamp && !r.draft
  {
    FormRecord(
      timestamp,
      Trim(inputs.texts["nombre_completo"]),
      Trim(inputs.texts["email"]),
      Trim(inputs.texts["whatsapp"]),
      Trim(inputs.texts["instagram"]),
      SelectedValue(Group(inputs, "nivel_trafico")),
      SelectedValue(Group(inputs, "experiencia_clientes")),
      CheckedValues(Group(inputs, "plataformas")),
      SelectedValue(Group(inputs, "presupuesto")),
      SelectedValue(Group(inputs, "formacion")),
      Trim(inputs.texts["referentes"]),
      CheckedValues(Group(inputs, "intereses")),
      SelectedValue(Group(inputs, "disponibilidad")),
      Trim(inputs.texts["desafio_principal"]),
      Trim(inputs.texts["medicion_resultados"]),
      false)
  }

  /** The copy `{ ...formData, draft: true }`. */
  function AsDraft(r: FormRecord): (d: FormRecord)
    ensures d.draft && d.(draft := false) == r.(draft := false)
  {
    r.(draft := true)
  }

  /** A value of `formData`: a string, or the array a checkbox group yields. */
  datatype Value = Scalar(text: string) | List(items: seq<string>)

  /** `Object.entries(formData)`: the keys in insertion order with their values. */
  function Entries(r: FormRecord): (es: seq<(string, Value)>)
    ensures |es| == 15 && es[0] == ("timestamp", Scalar(r.timestamp))
  {
    [("timestamp", Scalar(r.timestamp)),
     ("nombre_completo", Scalar(r.nombreCompleto)),
     ("email", Scalar(r.email)),
     ("whatsapp", Scalar(r.whatsapp)),
     ("instagram", Scalar(r.instagram)),
     ("nivel_trafico", Scalar(r.nivelTrafico)),
     ("experiencia_clientes", Scalar(r.experienciaClientes)),
     ("plataformas", List(r.plataformas)),
     ("presupuesto", Scalar(r.presupuesto)),
     ("formacion", Scalar(r.formacion)),
     ("referentes", Scalar(r.referentes)),
     ("intereses", List(r.intereses)),
     ("disponibilidad", Scalar(r.disponibilidad)),
     ("desafio_principal", Scalar(r.desafioPrincipal)),
     ("medicion_resultados", Scalar(r.medicionResultados))]
  }

  /** The callback of `some`: an array counts when non-empty, a string when not blank. */
  predicate Filled(v: Value) {
    match v
    case List(items) => |items| > 0
    case Scalar(s) => Required(s)
  }

  /** The `hasData` test: some entry other than `timestamp` is filled. */
  predicate HasData(r: FormRecord) {
    exists i | 0 <= i < |Entries(r)| :: Entries(r)[i].0 != "timestamp" && Filled(Entries(r)[i].1)
  }

  /** Whether the record holds data, field by field: the fourteen non-timestamp fields each count. */
  predicate AnyFieldFilled(r: FormRecord) {
    Required(r.nombreCompleto) ||
      Required(r.email) ||
      Required(r.whatsapp) ||
      Required(r.instagram) ||
      Required(r.nivelTrafico) ||
      Required(r.experienciaClientes) ||
      |r.plataformas| > 0 ||
      Required(r.presupuesto) ||
      Required(r.formacion) ||
      Required(r.referentes) ||
      |r.intereses| > 0 ||
      Required(r.disponibilidad) ||
      Required(r.desafioPrincipal) ||
      Required(r.medicionResultados)
  }

  /** `hasData` holds exactly when one of the fourteen fields other than `timestamp` is filled. */
  lemma HasDataIff(r: FormRecord)
    ensures HasData(r) <==> AnyFieldFilled(r)
  {
    if HasData(r) {
      var i :| 0 <= i < |Entries(r)| && Entries(r)[i].0 != "timestamp" && Filled(Entries(r)[i].1);
      FilledEntryField(r, i);
    }
    if AnyFieldFilled(r) {
      FieldsHaveData(r);
    }
  }

  lemma FieldsHaveData(r: FormRecord)
    requires AnyFieldFilled(r)
    ensures HasData(r)
  {
    EntryValues(r);
    if Required(r.nombreCompleto) { FilledEntry(r, 1); }
    if Required(r.email) { FilledEntry(r, 2); }
    if Required(r.whatsapp) { FilledEntry(r, 3); }
    if Required(r.instagram) { FilledEntry(r, 4); }
    if Required(r.nivelTrafico) { FilledEntry(r, 5); }
    if Required(r.experienciaClientes) { FilledEntry(r, 6); }
    if |r.plataformas| > 0 { FilledEntry(r, 7); }
    if Required(r.presupuesto) { FilledEntry(r, 8); }
    if Required(r.formacion) { FilledEntry(r, 9); }
    if Required(r.referentes) { FilledEntry(r, 10); }
    if |r.intereses| > 0 { FilledEntry(r, 11); }
    if Required(r.disponibilidad) { FilledEntry(r, 12); }
    if Required(r.desafioPrincipal) { FilledEntry(r, 13); }
    if Required(r.medicionResultados) { FilledEntry(r, 14); }
  }

  lemma FilledEntry(r: FormRecord, i: int)
    requires 0 < i < 15 && Filled(Entries(r)[i].1)
    ensures HasData(r)
  {
    assert Entries(r)[i].0 != "timestamp";
  }

  lemma FilledEntryField(r: FormRecord, i: int)
    requires 0 < i < 15 && Filled(Entries(r)[i].1)
    ensures AnyFieldFilled(r)
  {
    if i == 1 {
      assert Entries(r)[1].1 == Scalar(r.nombreCompleto);
    } else if i == 2 {
      assert Entries(r)[2].1 == Scalar(r.email);
    } else if i == 3 {
      assert Entries(r)[3].1 == Scalar(r.whatsapp);
    } else if i == 4 {
      assert Entries(r)[4].1 == Scalar(r.instagram);
    } else if i == 5 {
      assert Entries(r)[5].1 == Scalar(r.nivelTrafico);
    } else if i == 6 {
      assert Entries(r)[6].1 == Scalar(r.experienciaClientes);
    } else if i == 7 {
      assert Entries(r)[7].1 == List(r.plataformas);
    } else if i == 8 {
      assert Entries(r)[8].1 == Scalar(r.presupuesto);
    } else if i == 9 {
      assert Entries(r)[9].1 == Scalar(r.formacion);
    } else if i == 10 {
      assert Entries(r)[10].1 == Scalar(r.referentes);
    } else if i == 11 {
      assert Entries(r)[11].1 == List(r.intereses);
    } else if i == 12 {
      assert Entries(r)[12].1 == Scalar(r.disponibilidad);
    } else if i == 13 {
      assert Entries(r)[13].1 == Scalar(r.desafioPrincipal);
    } else {
      assert Entries(r)[14].1 == Scalar(r.medicionResultados);
    }
  }

  /** The value `Object.entries` pairs with each of the fourteen keys after `timestamp`. */
  lemma EntryValues(r: FormRecord)
    ensures Entries(r)[1].1 == Scalar(r.nombreCompleto)
    ensures Entries(r)[2].1 == Scalar(r.email)
    ensures Entries(r)[3].1 == Scalar(r.whatsapp)
    ensures Entries(r)[4].1 == Scalar(r.instagram)
    ensures Entries(r)[5].1 == Scalar(r.nivelTrafico)
    ensures Entries(r)[6].1 == Scalar(r.experienciaClientes)
    ensures Entries(r)[7].1 == List(r.plataformas)
    ensures Entries(r)[8].1 == Scalar(r.presupuesto)
    ensures Entries(r)[9].1 == Scalar(r.formacion)
    ensures Entries(r)[10].1 == Scalar(r.referentes)
    ensures Entries(r)[11].1 == List(r.intereses)
    ensures Entries(r)[12].1 == Scalar(r.disponibilidad)
    ensures Entries(r)[13].1 == Scalar(r.desafioPrincipal)
    ensures Entries(r)[14].1 == Scalar(r.medicionResultados)
  {
  }

  /**
   * The inputs hold data: a text input with a non-whitespace character, a
   * radio group whose selected value is not blank, or a checkbox group with
   * a checked box.
   */
  predicate InputsFilled(inputs: Inputs)
    requires HasTextFields(inputs)
  {
    Required(inputs.texts["nombre_completo"]) ||
    Required(inputs.texts["email"]) ||
    Required(inputs.texts["whatsapp"]) ||
    Required(inputs.texts["instagram"]) ||
    Required(SelectedValue(Group(inputs, "nivel_trafico"))) ||
    Required(SelectedValue(Group(inputs, "experiencia_clientes"))) ||
    HasSelection(Group(inputs, "plataformas")) ||
    Required(SelectedValue(Group(inputs, "presupuesto"))) ||
    Required(SelectedValue(Group(inputs, "formacion"))) ||
    Required(inputs.texts["referentes"]) ||
    HasSelection(Group(inputs, "intereses")) ||
    Required(SelectedValue(Group(inputs, "disponibilidad"))) ||
    Required(inputs.texts["desafio_principal"]) ||
    Required(inputs.texts["medicion_resultados"])
  }

  /** `collectFormData` trims every text input: each collected text is the declarative trim of the raw value. */
  lemma CollectTrimsTexts(inputs: Inputs, timestamp: string)
    requires HasTextFields(inputs)
    ensures TrimOf(inputs.texts["nombre_completo"], Collect(inputs, timestamp).nombreCompleto)
    ensures TrimOf(inputs.texts["email"], Collect(inputs, timestamp).email)
    ensures TrimOf(inputs.texts["whatsapp"], Collect(inputs, timestamp).whatsapp)
    ensures TrimOf(inputs.texts["instagram"], Collect(inputs, timestamp).instagram)
    ensures TrimOf(inputs.texts["referentes"], Collect(inputs, timestamp).referentes)
    ensures TrimOf(inputs.texts["desafio_principal"], Collect(inputs, timestamp).desafioPrincipal)
    ensures TrimOf(inputs.texts["medicion_resultados"], Collect(inputs, timestamp).medicionResultados)
  {
    TrimIsTrimOf(inputs.texts["nombre_completo"]);
    TrimIsTrimOf(inputs.texts["email"]);
    TrimIsTrimOf(inputs.texts["whatsapp"]);
    TrimIsTrimOf(inputs.texts["instagram"]);
    TrimIsTrimOf(inputs.texts["referentes"]);
    TrimIsTrimOf(inputs.texts["desafio_principal"]);
    TrimIsTrimOf(inputs.texts["medicion_resultados"]);
  }

  /** A checkbox group yields exactly the values of its checked boxes. */
  lemma CollectCheckedValues(inputs: Inputs, timestamp: string, x: string)
    requires HasTextFields(inputs)
    ensures var g := Group(inputs, "plataformas");
      x in Collect(inputs, timestamp).plataformas <==> exists i :: 0 <= i < |g| && g[i].checked && g[i].value == x
    ensures var g := Group(inputs, "intereses");
      x in Collect(inputs, timestamp).intereses <==> exists i :: 0 <= i < |g| && g[i].checked && g[i].value == x
  {
    CheckedValuesMembership(Group(inputs, "plataformas"), x);
    CheckedValuesMembership(Group(inputs, "intereses"), x);
  }

  /**
   * The `beforeunload` test, read on the inputs: the collected record has data
   * exactly when the inputs hold data. The timestamp never counts.
   */
  lemma CollectHasDataIff(inputs: Inputs, timestamp: string)
    requires HasTextFields(inputs)
    ensures HasData(Collect(inputs, timestamp)) <==> InputsFilled(inputs)
  {
    HasDataIff(Collect(inputs, timestamp));
    RequiredOfTrim(inputs.texts["nombre_completo"]);
    RequiredOfTrim(inputs.texts["email"]);
    RequiredOfTrim(inputs.texts["whatsapp"]);
    RequiredOfTrim(inputs.texts["instagram"]);
    RequiredOfTrim(inputs.texts["referentes"]);
    RequiredOfTrim(inputs.texts["desafio_principal"]);
    RequiredOfTrim(inputs.texts["medicion_resultados"]);
    HasSelectionIffCollected(Group(inputs, "plataformas"));
    HasSelectionIffCollected(Group(inputs, "intereses"));
  }
}

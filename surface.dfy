/**
 * The input surface the script reads through `document.getElementById`
 * and `document.querySelector(All)('input[name="…"]…')`: text inputs by id,
 * and radio or checkbox groups by name, each an ordered list of inputs.
 */
module Surface {

  /** One radio button or checkbox: its `value` and whether it is `:checked`. */
  datatype ChoiceInput = ChoiceInput(value: string, checked: bool)

  /**
   * `texts` maps the id of each text input or textarea to its current `value`;
   * `groups` maps a `name` attribute to the inputs carrying it, in document order.
   */
  datatype Inputs = Inputs(texts: map<string, string>, groups: map<string, seq<ChoiceInput>>)

  /** The inputs named `name`, in document order; a name nobody carries has none. */
  function Group(inputs: Inputs, name: string): seq<ChoiceInput> {
    if name in inputs.groups then inputs.groups[name] else []
  }

  /** At least one input of the group is checked (`:checked` matches something). */
  predicate HasSelection(g: seq<ChoiceInput>) {
    exists i :: 0 <= i < |g| && g[i].checked
  }

  /**
   * `Array.from(querySelectorAll('input[name="…"]:checked')).map(cb => cb.value)`:
   * the values of the checked inputs, in document order.
   */
  function CheckedValues(g: seq<ChoiceInput>): (r: seq<string>)
    ensures |r| <= |g|
  {
    if g == [] then [] else (if g[0].checked then [g[0].value] else []) + CheckedValues(g[1..])
  }

  /** Input `i` is the first checked input of the group. */
  predicate FirstCheckedAt(g: seq<ChoiceInput>, i: int) {
    0 <= i < |g| && g[i].checked && forall k :: 0 <= k < i ==> !g[k].checked
  }

  /**
   * `querySelector('input[name="…"]:checked')?.value || ''`: the value of the
   * first checked input, or the empty string when none is checked.
   */
  function SelectedValue(g: seq<ChoiceInput>): (r: string)
    ensures !HasSelection(g) ==> r == ""
    ensures HasSelection(g) ==> exists i :: FirstCheckedAt(g, i) && r == g[i].value
  {
    if g == [] then ""
    else if g[0].checked then (assert FirstCheckedAt(g, 0); g[0].value)
    else
      var r := SelectedValue(g[1..]);
      assert HasSelection(g) ==> exists i :: FirstCheckedAt(g, i) && r == g[i].value by {
        if HasSelection(g) {
          var i :| 0 <= i < |g| && g[i].checked;
          assert g[1..][i - 1].checked;
          var j :| FirstCheckedAt(g[1..], j) && r == g[1..][j].value;
          forall k | 0 <= k < j + 1 ensures !g[k].checked {
            if k > 0 { assert g[k] == g[1..][k - 1]; }
          }
          assert FirstCheckedAt(g, j + 1);
        }
      }
      r
  }

  /** Collecting the checked values goes input by input, so it keeps document order. */
  lemma {:induction false} CheckedValuesAppend(g1: seq<ChoiceInput>, g2: seq<ChoiceInput>)
    ensures CheckedValues(g1 + g2) == CheckedValues(g1) + CheckedValues(g2)
    decreases |g1|
  {
    if g1 == [] {
      assert g1 + g2 == g2;
    } else {
      var head := if g1[0].checked then [g1[0].value] else [];
      assert (g1 + g2)[0] == g1[0];
      assert (g1 + g2)[1..] == g1[1..] + g2;
      CheckedValuesAppend(g1[1..], g2);
      assert CheckedValues(g1 + g2) == head + CheckedValues(g1[1..] + g2);
      assert CheckedValues(g1) == head + CheckedValues(g1[1..]);
    }
  }

  /** A value is collected exactly when some checked input carries it. */
  lemma {:induction false} CheckedValuesMembership(g: seq<ChoiceInput>, x: string)
    ensures x in CheckedValues(g) <==> exists i :: 0 <= i < |g| && g[i].checked && g[i].value == x
    decreases |g|
  {
    if g != [] {
      CheckedValuesMembership(g[1..], x);
      if exists i :: 0 <= i < |g[1..]| && g[1..][i].checked && g[1..][i].value == x {
        var i :| 0 <= i < |g[1..]| && g[1..][i].checked && g[1..][i].value == x;
        assert g[i + 1] == g[1..][i];
      }
      if exists i :: 0 <= i < |g| && g[i].checked && g[i].value == x {
        var i :| 0 <= i < |g| && g[i].checked && g[i].value == x;
        if i > 0 { assert g[1..][i - 1] == g[i]; }
      }
    }
  }

  /** The checkbox test and the radio test agree: a group has a selection iff it yields values. */
  lemma {:induction false} HasSelectionIffCollected(g: seq<ChoiceInput>)
    ensures HasSelection(g) <==> CheckedValues(g) != []
    decreases |g|
  {
    if g != [] {
      HasSelectionIffCollected(g[1..]);
      if HasSelection(g) && !g[0].checked {
        var i :| 0 <= i < |g| && g[i].checked;
        assert g[1..][i - 1].checked;
      }
      if HasSelection(g[1..]) {
        var i :| 0 <= i < |g[1..]| && g[1..][i].checked;
        assert g[i + 1].checked;
      }
    }
  }

  /**
   * The field names that resolve to an element through
   * `document.getElementById(name) || document.querySelector('input[name="…"]')`.
   */
  function Elements(inputs: Inputs): set<string> {
    inputs.texts.Keys + set g | g in inputs.groups && inputs.groups[g] != []
  }

  /** The seven text inputs whose `value` the script reads unconditionally. */
  predicate HasTextFields(inputs: Inputs) {
    "nombre_completo" in inputs.texts && "email" in inputs.texts &&
    "whatsapp" in inputs.texts && "instagram" in inputs.texts &&
    "referentes" in inputs.texts && "desafio_principal" in inputs.texts &&
    "medicion_resultados" in inputs.texts
  }
}

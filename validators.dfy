/**
 * The `validators` object and the `errorMessages` table of the form script.
 * Each regular-expression validator is written as the match it asks for (a
 * decomposition of the string into the pieces of the pattern); a lemma beside
 * it states the same test as a plain condition on the characters.
 */
module Validators {
  import opened Strings

  /** `validators.required`: the value is non-empty after `trim()`. */
  predicate Required(value: string) {
    |Trim(value)| > 0
  }

  /** A required value is exactly one with a character that is not whitespace. */
  lemma RequiredIffNonBlank(value: string)
    ensures Required(value) <==> exists i :: 0 <= i < |value| && !IsWhitespace(value[i])
  {
    TrimEmptyIff(value);
  }

  /** Trimming first never changes the presence test. */
  lemma RequiredOfTrim(value: string)
    ensures Required(Trim(value)) <==> Required(value)
  {
    TrimIdempotent(value);
  }

  // ----- validators.email: /^[^\s@]+@[^\s@]+\.[^\s@]+$/ -----

  /** A run of `[^\s@]`. */
  predicate Plain(s: string) {
    forall k :: 0 <= k < |s| ==> !IsWhitespace(s[k]) && s[k] != '@'
  }

  /** `value` matches the email pattern with its `@` at `a` and the literal `.` at `b`. */
  predicate EmailMatch(value: string, a: int, b: int) {
    0 < a && a + 1 < b && b + 1 < |value| &&
    value[a] == '@' && value[b] == '.' &&
    Plain(value[..a]) && Plain(value[a + 1..b]) && Plain(value[b + 1..])
  }

  /** `validators.email`. */
  predicate ValidEmail(value: string) {
    exists a, b | 0 <= a < |value| && 0 <= b < |value| :: EmailMatch(value, a, b)
  }

  /** Position `a` holds the only `@` of `value`. */
  ghost predicate SoleAt(value: string, a: int) {
    0 <= a < |value| && value[a] == '@' &&
    forall k :: 0 <= k < |value| && k != a ==> value[k] != '@'
  }

  /** `domain` has a `.` that is neither its first nor its last character. */
  ghost predicate InnerDot(domain: string) {
    exists j :: 0 < j < |domain| - 1 && domain[j] == '.'
  }

  /**
   * The email test in plain terms: no whitespace, exactly one `@`, something
   * before it, and after it a `.` that is neither first nor last.
   */
  ghost predicate EmailShape(value: string) {
    NoWhitespace(value) &&
    exists a :: SoleAt(value, a) && 0 < a && InnerDot(value[a + 1..])
  }

  lemma EmailMatchShape(value: string, a: int, b: int)
    requires EmailMatch(value, a, b)
    ensures NoWhitespace(value) && SoleAt(value, a) && InnerDot(value[a + 1..])
  {
    forall k | 0 <= k < |value| && k != a && k != b
      ensures !IsWhitespace(value[k]) && value[k] != '@'
    {
      if k < a {
        assert value[..a][k] == value[k];
      } else if k < b {
        assert value[a + 1..b][k - a - 1] == value[k];
      } else {
        assert value[b + 1..][k - b - 1] == value[k];
      }
    }
    assert value[a + 1..][b - a - 1] == '.';
  }

  lemma PlainSlice(value: string, lo: int, hi: int, a: int)
    requires 0 <= lo <= hi <= |value| && NoWhitespace(value) && SoleAt(value, a)
    requires a < lo || hi <= a
    ensures Plain(value[lo..hi])
  {
    forall k | lo <= k < hi ensures !IsWhitespace(value[k]) && value[k] != '@' {
    }
    forall k | 0 <= k < hi - lo ensures value[lo..hi][k] == value[lo + k] {
    }
  }

  lemma ShapeEmailMatch(value: string, a: int, j: int)
    requires NoWhitespace(value) && SoleAt(value, a) && 0 < a
    requires 0 < j < |value[a + 1..]| - 1 && value[a + 1..][j] == '.'
    ensures EmailMatch(value, a, a + 1 + j)
  {
    var b := a + 1 + j;
    assert value[b] == '.';
    PlainSlice(value, 0, a, a);
    assert value[0..a] == value[..a];
    PlainSlice(value, a + 1, b, a);
    PlainSlice(value, b + 1, |value|, a);
    assert value[b + 1..|value|] == value[b + 1..];
  }

  /** The email pattern accepts exactly the strings of `EmailShape`. */
  lemma EmailIffShape(value: string)
    ensures ValidEmail(value) <==> EmailShape(value)
  {
    if ValidEmail(value) {
      var a, b :| 0 <= a < |value| && 0 <= b < |value| && EmailMatch(value, a, b);
      EmailMatchShape(value, a, b);
    }
    if EmailShape(value) {
      var a :| SoleAt(value, a) && 0 < a && InnerDot(value[a + 1..]);
      var j :| 0 < j < |value[a + 1..]| - 1 && value[a + 1..][j] == '.';
      ShapeEmailMatch(value, a, j);
    }
  }

  /** An accepted email address is never blank, so the presence test never hides a shape failure. */
  lemma EmailIsRequired(value: string)
    requires ValidEmail(value)
    ensures Required(value)
  {
    EmailIffShape(value);
    RequiredIffNonBlank(value);
    assert !IsWhitespace(value[0]);
  }

  // ----- validators.whatsapp: /^\+\d{1,4}\d{6,14}$/ after replace(/[\s-]/g, '') -----

  /** `clean` matches `^\+\d{1,4}\d{6,14}$` with the first digit group of length `k`. */
  predicate PhoneMatch(clean: string, k: int) {
    1 <= k <= 4 && 6 <= |clean| - 1 - k <= 14 &&
    clean[0] == '+' && AllDigits(clean[1..1 + k]) && AllDigits(clean[1 + k..])
  }

  /** `validators.whatsapp`. The pattern stored in `whatsappRegex` is never consulted. */
  predicate ValidWhatsApp(value: string) {
    var clean := Strip(value);
    exists k | 1 <= k <= 4 :: PhoneMatch(clean, k)
  }

  /** The WhatsApp test in plain terms: once separators are deleted, `+` and then 7 to 18 digits. */
  ghost predicate PhoneShape(value: string) {
    var clean := Strip(value);
    8 <= |clean| <= 19 && clean[0] == '+' && AllDigits(clean[1..])
  }

  lemma PhoneMatchShape(clean: string, k: int)
    requires PhoneMatch(clean, k)
    ensures 8 <= |clean| <= 19 && clean[0] == '+' && AllDigits(clean[1..])
  {
    forall i | 0 <= i < |clean| - 1 ensures IsDigit(clean[1..][i]) {
      if i < k {
        assert clean[1..][i] == clean[1..1 + k][i];
      } else {
        assert clean[1..][i] == clean[1 + k..][i - k];
      }
    }
  }

  lemma DigitsSlice(s: string, lo: int, hi: int)
    requires 1 <= lo <= hi <= |s| && AllDigits(s[1..])
    ensures AllDigits(s[lo..hi])
  {
    forall k | 0 <= k < hi - lo ensures IsDigit(s[lo..hi][k]) {
      assert s[lo..hi][k] == s[1..][lo - 1 + k];
    }
  }

  lemma ShapePhoneMatch(clean: string)
    requires 8 <= |clean| <= 19 && clean[0] == '+' && AllDigits(clean[1..])
    ensures PhoneMatch(clean, if |clean| > 16 then |clean| - 15 else 1)
  {
    var k := if |clean| > 16 then |clean| - 15 else 1;
    DigitsSlice(clean, 1, 1 + k);
    DigitsSlice(clean, 1 + k, |clean|);
    assert clean[1 + k..|clean|] == clean[1 + k..];
  }

  /** The WhatsApp pattern accepts exactly the strings of `PhoneShape`. */
  lemma WhatsAppIffShape(value: string)
    ensures ValidWhatsApp(value) <==> PhoneShape(value)
  {
    var clean := Strip(value);
    if ValidWhatsApp(value) {
      var k :| 1 <= k <= 4 && PhoneMatch(clean, k);
      PhoneMatchShape(clean, k);
    }
    if PhoneShape(value) {
      ShapePhoneMatch(clean);
    }
  }

  /** An accepted WhatsApp number is never blank: its `+` is a character of the raw value. */
  lemma WhatsAppIsRequired(value: string)
    requires ValidWhatsApp(value)
    ensures Required(value)
  {
    var clean := Strip(value);
    var k :| 1 <= k <= 4 && PhoneMatch(clean, k);
    StripFrom(value, 0);
    var i :| 0 <= i < |value| && value[i] == clean[0];
    RequiredIffNonBlank(value);
  }

  // ----- errorMessages -----

  /** The keys of `errorMessages`. */
  datatype ErrorKind = RequiredMsg | EmailMsg | WhatsappMsg | CheckboxMsg | RadioMsg

  /** `errorMessages[kind]`. */
  function MessageText(kind: ErrorKind): string {
    match kind
    case RequiredMsg => "Este campo es obligatorio"
    case EmailMsg => "Por favor, introduce un correo electrónico válido"
    case WhatsappMsg => "Por favor, introduce un WhatsApp válido con código de país (ej: +57 300 123 4567)"
    case CheckboxMsg => "Por favor, selecciona al menos una opción"
    case RadioMsg => "Por favor, selecciona una opción"
  }

  /** The lengths of the five messages, which differ pairwise. */
  function MessageLength(kind: ErrorKind): nat {
    match kind
    case RequiredMsg => 25
    case EmailMsg => 49
    case WhatsappMsg => 81
    case CheckboxMsg => 41
    case RadioMsg => 32
  }

  lemma MessageHasLength(kind: ErrorKind)
    ensures |MessageText(kind)| == MessageLength(kind)
  {
    match kind
    case RequiredMsg =>
    case EmailMsg =>
    case WhatsappMsg =>
    case CheckboxMsg =>
    case RadioMsg =>
  }

  /** Every message is non-empty and no two kinds share one, so the slot text tells which check failed. */
  lemma MessagesDistinct(k1: ErrorKind, k2: ErrorKind)
    ensures |MessageText(k1)| > 0
    ensures MessageText(k1) == MessageText(k2) ==> k1 == k2
  {
    MessageHasLength(k1);
    MessageHasLength(k2);
  }
}

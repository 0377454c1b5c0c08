/** The JSON values the widget reads, as Android's org.json hands them over
    once its tokenizer has run, and the org.json getters the parser uses on
    them. Strict getters (`getString`, `getDouble`, `getJSONObject`) answer
    `None` where the library throws a JSONException; `opt*` getters never
    fail and fall back to the default their caller gives. */
module Json {
  import opened Wrappers

  /** A parsed JSON value. A number keeps both its numeric value and the
      text `String.valueOf` gives for the boxed number the tokenizer made
      (org.json's `getString` on a number answers that text). */
  datatype JValue =
    | JNull
    | JBool(b: bool)
    | JNum(value: real, shown: string)
    | JStr(s: string)
    | JArr(items: seq<JValue>)
    | JObj(fields: map<string, JValue>)

  type Fields = map<string, JValue>

  /** org.json's conversion of a stored value to a string. JSON null is the
      `JSONObject.NULL` sentinel, whose string is "null". Nested arrays and
      objects are not converted here (see the README). */
  function Shown(v: JValue): Option<string> {
    match v
    case JNull => Some("null")
    case JBool(b) => Some(if b then "true" else "false")
    case JNum(_, shown) => Some(shown)
    case JStr(s) => Some(s)
    case JArr(_) => None
    case JObj(_) => None
  }

  /** `getString(key)`: throws when the key is missing. */
  function GetString(o: Fields, key: string): Option<string> {
    if key in o then Shown(o[key]) else None
  }

  /** `optString(key, fallback)`. `optString(key, null)` is `GetString`
      read as a nullable string, and `optString(key)` is this with "". */
  function OptString(o: Fields, key: string, fallback: string): string {
    GetString(o, key).GetOr(fallback)
  }

  /** Java's truncating conversion of a floating value to an integer. */
  function Trunc(r: real): int {
    if r >= 0.0 then r.Floor else -((-r).Floor)
  }

  /** org.json's conversion to double: numbers as they are, strings
      through `Double.parseDouble`. */
  function ToDouble(v: JValue): Option<real> {
    match v
    case JNum(x, _) => Some(x)
    case JStr(s) => ParseDecimal(s)
    case _ => None
  }

  /** `getDouble(key)`: throws when the key is missing or not numeric. */
  function GetDouble(o: Fields, key: string): Option<real> {
    if key in o then ToDouble(o[key]) else None
  }

  /** `optInt(key, fallback)`: the number or numeric string, truncated. */
  function OptInt(o: Fields, key: string, fallback: int): int {
    if key in o then
      match ToDouble(o[key])
      case Some(x) => Trunc(x)
      case None => fallback
    else fallback
  }

  /** Character comparison of `String.equalsIgnoreCase` for the letters of
      "true" and "false": ASCII case plus the long s, whose upper case is S. */
  predicate SameLetterIgnoringCase(c: char, lower: char)
    requires 'a' <= lower <= 'z'
  {
    c == lower || c as int == lower as int - 32 || (lower == 's' && c == '\U{017F}')
  }

  predicate EqualsIgnoreCase(s: string, lower: string)
    requires forall i :: 0 <= i < |lower| ==> 'a' <= lower[i] <= 'z'
  {
    |s| == |lower| && forall i :: 0 <= i < |s| ==> SameLetterIgnoringCase(s[i], lower[i])
  }

  /** `optBoolean(key, fallback)`: booleans, and the strings "true" and
      "false" in any case. */
  function OptBoolean(o: Fields, key: string, fallback: bool): bool {
    if key !in o then fallback
    else match o[key]
      case JBool(b) => b
      case JStr(s) =>
        if EqualsIgnoreCase(s, "true") then true
        else if EqualsIgnoreCase(s, "false") then false
        else fallback
      case _ => fallback
  }

  /** `has(key) && !isNull(key)`. */
  predicate HasNonNull(o: Fields, key: string) {
    key in o && o[key] != JNull
  }

  /** Kotlin's `Char.isWhitespace`: Java whitespace and space separators. */
  predicate IsWhitespace(c: char) {
    || ('\t' <= c <= '\r')
    || ('\U{001C}' <= c <= ' ')
    || c == '\U{00A0}' || c == '\U{1680}'
    || ('\U{2000}' <= c <= '\U{200A}')
    || c == '\U{2028}' || c == '\U{2029}' || c == '\U{202F}'
    || c == '\U{205F}' || c == '\U{3000}'
  }

  /** Kotlin's `isBlank`: empty or whitespace only. */
  predicate IsBlank(s: string) {
    forall i :: 0 <= i < |s| ==> IsWhitespace(s[i])
  }

  predicate IsDigit(c: char) { '0' <= c <= '9' }

  predicate AllDigits(s: string) {
    forall i :: 0 <= i < |s| ==> IsDigit(s[i])
  }

  function DigitsValue(s: string): nat
    requires AllDigits(s)
  {
    if s == [] then 0
    else 10 * DigitsValue(s[..|s| - 1]) + ((s[|s| - 1] as int) - ('0' as int))
  }

  function Pow10(n: nat): (p: nat)
    ensures p > 0
  {
    if n == 0 then 1 else 10 * Pow10(n - 1)
  }

  /** `String.trim`: drops leading and trailing characters up to ' '. */
  function Trim(s: string): string {
    if s != [] && s[0] <= ' ' then Trim(s[1..])
    else if s != [] && s[|s| - 1] <= ' ' then Trim(s[..|s| - 1])
    else s
  }

  /** `Double.parseDouble` on plain decimal text: an optional sign, digits,
      and an optional fraction after a '.', with at least one digit. */
  function ParseDecimal(text: string): Option<real> {
    var t := Trim(text);
    var negative := t != [] && t[0] == '-';
    var body := if t != [] && (t[0] == '-' || t[0] == '+') then t[1..] else t;
    match UnsignedDecimal(body)
    case Some(x) => Some(if negative then -x else x)
    case None => None
  }

  /** The position of the first '.' in `s`, if any. */
  function DotIndex(s: string): (k: Option<nat>)
    ensures k.Some? ==> k.value < |s| && s[k.value] == '.'
  {
    if s == [] then None
    else if s[0] == '.' then Some(0)
    else match DotIndex(s[1..])
      case Some(k) => Some(k + 1)
      case None => None
  }

  function UnsignedDecimal(s: string): Option<real> {
    if AllDigits(s) && s != [] then Some(DigitsValue(s) as real)
    else match DotIndex(s)
      case None => None
      case Some(k) =>
        var whole, fraction := s[..k], s[k + 1..];
        if AllDigits(whole) && AllDigits(fraction) && |whole| + |fraction| > 0 then
          Some(DigitsValue(whole) as real + DigitsValue(fraction) as real / Pow10(|fraction|) as real)
        else None
  }
}

/**
 * The field rules the sign-in and registration forms declare. When a rule and
 * `required` both fail on an empty field, the field shows the required message.
 */
module FormRules {
  import opened Options
  import opened JsText

  /** `string().min(min, minMessage).required(requiredMessage)`; the length is `s.length`, in UTF-16 code units. */
  function MinLength(s: string, min: nat, requiredMessage: string, minMessage: string): (r: Option<string>)
    requires min >= 1
    ensures r.None? <==> Utf16Length(s) >= min
    ensures s == "" ==> r == Some(requiredMessage)
    ensures s != "" && Utf16Length(s) < min ==> r == Some(minMessage)
  {
    if s == "" then Some(requiredMessage) else if Utf16Length(s) < min then Some(minMessage) else None
  }

  /** An emoji is two code units, so "😀a" meets `min(3)` although it has two characters. */
  lemma EmojiMeetsMinLength(requiredMessage: string, minMessage: string)
    ensures MinLength("\U{1F600}a", 3, requiredMessage, minMessage) == None
    ensures MinLength("\U{1F600}", 3, requiredMessage, minMessage) == Some(minMessage)
  {
    AstralCountsTwice();
  }

  predicate IsDigit(c: char) {
    '0' <= c <= '9'
  }

  /** `/^[0-9]{10}$/`: exactly ten ASCII digits. */
  predicate TenDigits(s: string) {
    |s| == 10 && forall i :: 0 <= i < |s| ==> IsDigit(s[i])
  }

  /** `string().matches(/^[0-9]{10}$/, patternMessage).required(requiredMessage)`. */
  function DigitsRule(s: string, requiredMessage: string, patternMessage: string): (r: Option<string>)
    ensures r.None? <==> TenDigits(s)
    ensures s == "" ==> r == Some(requiredMessage)
    ensures s != "" && !TenDigits(s) ==> r == Some(patternMessage)
  {
    if s == "" then Some(requiredMessage) else if !TenDigits(s) then Some(patternMessage) else None
  }

  /** `string().required(message)`: only the empty string fails. */
  function Required(s: string, message: string): (r: Option<string>)
    ensures r.None? <==> s != ""
    ensures r.Some? ==> r.value == message
  {
    if s == "" then Some(message) else None
  }

  /**
   * `string().email(formatMessage).required(requiredMessage)`; the library's notion of an
   * address is the parameter `isEmail`.
   */
  function EmailRule(s: string, isEmail: string -> bool, requiredMessage: string, formatMessage: string): (r: Option<string>)
    ensures r.None? <==> s != "" && isEmail(s)
    ensures s == "" ==> r == Some(requiredMessage)
    ensures s != "" && !isEmail(s) ==> r == Some(formatMessage)
  {
    if s == "" then Some(requiredMessage) else if !isEmail(s) then Some(formatMessage) else None
  }

  /** The form's errors, one entry per failing field. */
  function Put(errors: map<string, string>, key: string, error: Option<string>): map<string, string> {
    if error.Some? then errors[key := error.value] else errors
  }
}

/** The rules the registration and login forms share: the NIM format, the input cap and the key filter. */
module FormRules {
  import opened Wrappers
  import opened Text

  const NimMaxLength := 15

  /** `/^[0-9]{1,15}$/` */
  predicate IsValidNim(s: string) {
    1 <= |s| <= NimMaxLength && AllDigits(s)
  }

  /** The NIM field's `onChange`: an edit longer than 15 characters is dropped. */
  function NimEdit(current: string, value: string): (r: string)
    ensures |value| <= NimMaxLength ==> r == value
    ensures |value| > NimMaxLength ==> r == current
  {
    if |value| <= NimMaxLength then value else current
  }

  /** Starting from a short value, no sequence of edits ever makes the field longer than 15. */
  lemma {:induction false} NimEditsStayShort(start: string, edits: seq<string>)
    requires |start| <= NimMaxLength
    ensures |ApplyNimEdits(start, edits)| <= NimMaxLength
    decreases |edits|
  {
    if edits != [] {
      NimEditsStayShort(NimEdit(start, edits[0]), edits[1..]);
    }
  }

  function ApplyNimEdits(start: string, edits: seq<string>): string
    decreases |edits|
  {
    if edits == [] then start else ApplyNimEdits(NimEdit(start, edits[0]), edits[1..])
  }

  /** Backspace, Delete, Left and Right. */
  const ControlKeys: seq<int> := [8, 46, 37, 39]

  /** `handleKeyDown`: a key goes through if it is a control key or its name contains a digit. */
  predicate KeyAllowed(keyCode: int, key: string) {
    keyCode in ControlKeys || ContainsDigit(key)
  }

  /** The key filter blocks letters and punctuation and admits every digit. */
  lemma KeyFilterExamples(keyCode: int, c: char)
    requires keyCode !in ControlKeys
    ensures KeyAllowed(keyCode, [c]) <==> IsAsciiDigit(c)
  {
    if IsAsciiDigit(c) {
      assert IsAsciiDigit([c][0]);
    }
  }

  /**
   * The NIM message both forms show: the required message for an empty field, else the
   * format message for anything that is not 1 to 15 digits, else none.
   */
  function NimError(nim: string): (e: Option<string>)
    ensures e.None? <==> IsValidNim(nim)
    ensures e == Some(NimRequired) <==> nim == ""
    ensures e == Some(NimFormat) <==> nim != "" && !IsValidNim(nim)
  {
    if nim == "" then Some(NimRequired) else if !IsValidNim(nim) then Some(NimFormat) else None
  }

  /** `newErrors[key] = message` when the field has a message; the object is untouched otherwise. */
  function PutError(errors: map<string, string>, key: string, e: Option<string>): (r: map<string, string>)
    ensures r.Keys == if e.Some? then errors.Keys + {key} else errors.Keys
    ensures e.Some? ==> r[key] == e.value
    ensures forall k :: k in errors && k != key ==> r[k] == errors[k]
  {
    if e.Some? then errors[key := e.value] else errors
  }

  const NimRequired := "NIM wajib diisi"
  const NimFormat := "Format NIM tidak valid. Maksimal 15 digit angka."
  const PasswordRequired := "Password wajib diisi"
}

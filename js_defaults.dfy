/** JavaScript's `value || fallback` on an optional field: the fallback is used
    when the value is absent and also when it is present but falsy (the number
    0 or the empty string). */
module JsDefaults {
  import opened Types

  /** A number that `||` treats as false: absent (`undefined`) or zero. */
  predicate FalsyNumber(o: Option<real>) {
    o.None? || o.value == 0.0
  }

  /** A string that `||` treats as false: absent (`undefined`) or empty. */
  predicate FalsyString(o: Option<string>) {
    o.None? || o.value == ""
  }

  /** `o || fallback` for a number. */
  function OrNumber(o: Option<real>, fallback: real): (r: real)
    ensures FalsyNumber(o) ==> r == fallback
    ensures !FalsyNumber(o) ==> r == o.value
    ensures fallback != 0.0 ==> r != 0.0
  {
    if o.Some? && o.value != 0.0 then o.value else fallback
  }

  /** `o || fallback` for a string. */
  function OrString(o: Option<string>, fallback: string): (r: string)
    ensures FalsyString(o) ==> r == fallback
    ensures !FalsyString(o) ==> r == o.value
    ensures fallback != "" ==> r != ""
  {
    if o.Some? && o.value != "" then o.value else fallback
  }
}

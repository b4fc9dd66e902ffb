/** Value types shared by the document tables, and the JavaScript truthiness the services use. */
module Fields {
  import opened Wrappers

  /** A timestamp column, read and written as `Date.toISOString` text. */
  type Timestamp = string

  /** One `{description, amount}` entry of a charge list (JSON column). */
  datatype Charge = Charge(description: string, amount: real)

  /**
   * `value || null` and `value ? value : null` on an optional string: an
   * absent or empty string is stored as NULL, any other string as given.
   */
  function StringOrNull(s: Option<string>): (r: Option<string>)
    ensures r.Some? <==> s.Some? && s.value != ""
    ensures r.Some? ==> r == s
  {
    if s.Some? && s.value != "" then s else None
  }

  /** `value || null` on an optional number: an absent number or 0 is stored as NULL. */
  function NumberOrNull(n: Option<real>): (r: Option<real>)
    ensures r.Some? <==> n.Some? && n.value != 0.0
    ensures r.Some? ==> r == n
  {
    if n.Some? && n.value != 0.0 then n else None
  }

  /** `value || fallback` on an optional string. */
  function StringOr(s: Option<string>, fallback: string): (r: string)
    ensures s.Some? && s.value != "" ==> r == s.value
    ensures s.None? || s.value == "" ==> r == fallback
  {
    if s.Some? && s.value != "" then s.value else fallback
  }
}

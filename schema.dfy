/** The part of Mongoose's document validation the three schemas use:
    `required`, `min` on numbers and `enum` on strings. Validation reports
    at most one issue per path, in schema order; a missing value is only
    reported as missing (its other validators do not run). */
module Schema {
  import opened Common

  datatype Issue =
    | Required(path: string)
    | CastFailed(path: string)          // a number that is NaN
    | BelowMinimum(path: string, min: real)
    | NotInEnum(path: string)

  /** A `required` String path: a missing or empty string fails. */
  function RequiredString(path: string, v: Option<string>): (r: seq<Issue>)
    ensures r == [] <==> v.Some? && v.value != ""
  {
    if v.Some? && v.value != "" then [] else [Required(path)]
  }

  /** A `required` Number path with a `min` bound. */
  function RequiredNumberAtLeast(path: string, v: Option<real>, min: real): (r: seq<Issue>)
    ensures r == [] <==> v.Some? && v.value >= min
  {
    if v.None? then [Required(path)]
    else if v.value < min then [BelowMinimum(path, min)]
    else []
  }

  /** A `required` path whose value has no further validators. */
  function RequiredPresent<T>(path: string, v: Option<T>): (r: seq<Issue>)
    ensures r == [] <==> v.Some?
  {
    if v.Some? then [] else [Required(path)]
  }
}

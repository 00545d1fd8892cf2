// The field constraints the request schemas declare (`min_length`, `max_length`, `ge`, `le`)
// and the 422 answers the validation library gives when one of them, or a validator, fails.

module Pydantic {

  import opened Wrappers
  import opened Text

  /** A validation failure, answered with status 422 and the library's message. */
  function Invalid(msg: string): (e: Error)
    ensures e.HttpError? && e.status == 422
  {
    HttpError(422, msg)
  }

  /** A `ValueError` raised by a validator, as the library reports it. */
  function ValueError(msg: string): (e: Error)
    ensures e.HttpError? && e.status == 422 && e.detail == "Value error, " + msg
  {
    Invalid("Value error, " + msg)
  }

  function Characters(n: nat): string
  {
    IntToString(n) + (if n == 1 then " character" else " characters")
  }

  /** `Field(min_length=lo, max_length=hi)` on a string. */
  function LengthCheck(s: string, lo: nat, hi: nat): (r: Result<string>)
    ensures r.Ok? <==> lo <= |s| <= hi
    ensures r.Ok? ==> r.value == s
    ensures r.Err? ==> r.error.HttpError? && r.error.status == 422
  {
    if |s| < lo then Err(Invalid("String should have at least " + Characters(lo)))
    else if |s| > hi then Err(Invalid("String should have at most " + Characters(hi)))
    else Ok(s)
  }

  /** `Field(ge=lo, le=hi)` on an integer. */
  function RangeCheck(n: int, lo: int, hi: int): (r: Result<int>)
    ensures r.Ok? <==> lo <= n <= hi
    ensures r.Ok? ==> r.value == n
    ensures r.Err? ==> r.error.HttpError? && r.error.status == 422
  {
    if n < lo then Err(Invalid("Input should be greater than or equal to " + IntToString(lo)))
    else if n > hi then Err(Invalid("Input should be less than or equal to " + IntToString(hi)))
    else Ok(n)
  }
}

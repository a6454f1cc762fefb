/** HTTP status codes as the publishers and feed readers test them. */
module Http {
  import opened Text

  /** `StatusCode::is_success`: a 2xx status. */
  predicate IsSuccess(code: int) {
    200 <= code <= 299
  }

  const Unauthorized: int := 401
  const NotModified: int := 304

  /** A status code as it appears in an error message: its decimal digits.
      The canonical reason phrase that `StatusCode`'s `Display` appends
      ("404 Not Found") is not modelled. */
  function StatusText(code: int): (r: string)
    ensures r != [] && forall i | 0 <= i < |r| :: IsAsciiDigit(r[i])
    ensures code >= 0 ==> DigitsValue(r) == code
  {
    if code < 0 then "0"
    else
      DigitsValueOfDecimal(code);
      DecimalString(code)
  }
}

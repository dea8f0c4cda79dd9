/** Values shared by every part of the selfie workflow model. */
module Common {

  /** A value that may be absent: JavaScript's `null` / `undefined`. */
  datatype Option<+T> = None | Some(value: T)

  /** Either a value or the message of a thrown `Error`. */
  datatype Result<+T> = Success(value: T) | Failure(error: string)

  /** How an awaited call settles: it resolves with a value or it throws. */
  datatype Outcome<+T> = Ok(value: T) | Failed

  /** The backend gateways' own error when `FORMULA_E_BACKEND_URL` is unset or empty. */
  const UnconfiguredMessage: string := "Backend URL is not configured."

  /** Stand-ins for the platform's texts: `response.json()` on a body that is not JSON, a property of `null`. */
  const InvalidJsonMessage: string := "Unexpected token in JSON"
  const NullPropertyMessage: string := "Cannot read properties of null"

  /** JavaScript truthiness of a `string | null` value: `null` and `""` are falsy. */
  predicate Truthy(o: Option<string>)
  {
    o.Some? && o.value != ""
  }

  /** `s.startsWith(p)`. */
  predicate StartsWith(s: string, p: string)
  {
    |p| <= |s| && s[..|p|] == p
  }
}

/**
 * Option and Result types used across the model.
 *
 * The source reports failures by throwing `createError({ statusCode })`; the model
 * returns `Err(status)` carrying the same HTTP status code instead. A plain `Error`
 * thrown by the source (not an h3 error) is reported by h3 as status 500, and the
 * model uses 500 for it.
 */
module Wrappers {

  datatype Option<+T> = None | Some(value: T)

  /** The outcome of an operation that either yields a value or fails with a status code. */
  datatype Result<+T> = Ok(value: T) | Err(status: int)

  /** The outcome of a guard that either lets the request through or fails with a status code. */
  datatype Outcome = Pass | Fail(status: int)

  /** JavaScript truthiness of an optional string: present and not the empty string. */
  predicate Truthy(s: Option<string>)
  {
    s.Some? && s.value != ""
  }

  /** `s || ""` on an optional string. */
  function OrEmpty(s: Option<string>): (r: string)
    ensures Truthy(s) ==> r == s.value
    ensures !Truthy(s) ==> r == ""
  {
    if s.Some? then s.value else ""
  }

  /** `o ?? d` for a property that may be absent: the present value wins. */
  function Or<T>(o: Option<T>, d: T): (r: T)
    ensures o.Some? ==> r == o.value
    ensures o.None? ==> r == d
  {
    if o.Some? then o.value else d
  }

  /** The same for an optional property: an absent one keeps the old optional value. */
  function OrKeep<T>(o: Option<T>, d: Option<T>): (r: Option<T>)
    ensures o.Some? ==> r == o
    ensures o.None? ==> r == d
  {
    if o.Some? then o else d
  }
}

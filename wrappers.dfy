/** Value wrappers for the JavaScript and database values the services pass around. */
module Wrappers {

  /** A nullable value: `None` is the `null` (or `undefined`) a column or variable may hold. */
  datatype Option<+T> = None | Some(value: T)

  /** A property of a JavaScript object: missing (`undefined`), `null`, or holding a value.
      The services test these with `!== undefined`, which tells the first case from the other two. */
  datatype Field<+T> = Undefined | Null | Present(value: T)

  /** The outcome of one database query: the rows it answered, or the error it threw. */
  datatype Fetch<+T> = Fetched(value: T) | DbError(message: string)

  /** JavaScript truthiness of a nullable string: neither null/undefined nor empty. */
  predicate Truthy(s: Option<string>)
  {
    s.Some? && s.value != ""
  }

  /** JavaScript `a || b` on nullable strings, as used for environment defaults. */
  function Or(a: Option<string>, b: Option<string>): (r: Option<string>)
    ensures Truthy(a) ==> r == a
    ensures !Truthy(a) ==> r == b
    ensures Truthy(r) <==> Truthy(a) || Truthy(b)
  {
    if Truthy(a) then a else b
  }

  /** How a template literal `${x}` renders a nullable string; `absent` is "null" for a
      database null and "undefined" for an unset environment variable. */
  function Render(s: Option<string>, absent: string): string
  {
    if s.Some? then s.value else absent
  }
}

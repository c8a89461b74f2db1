/** The HTTP boundary of the backend as values: what a handler answers, and
    how a JSON or query field is judged present. */
module Http {
  import opened Wrappers

  const BadRequest: nat := 400
  const Unauthorized: nat := 401
  const Forbidden: nat := 403
  const InternalError: nat := 500

  /** A handler either answers with its JSON body or with a status code and
      the `{error}` envelope. */
  datatype Reply<T> = Ok(value: T) | Fail(status: nat, error: string)

  /** JavaScript truthiness of a string field: an absent field and the empty
      string are both falsy, every other string is truthy. */
  predicate Present(field: Option<string>) {
    field.Some? && field.value != []
  }
}

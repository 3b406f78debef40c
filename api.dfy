/** What the API route handlers share: a request body that either yields its
    fields or throws inside the handler's `try` (`request.json()` fails, or the
    body is JSON `null` and reading a field of it fails), the JSON
    reply with its HTTP status, and the truthiness of a query parameter
    (`searchParams.get` yields `null` when it is absent, and `""` is falsy). */
module Api {
  import opened Seqs

  datatype Body<T> = Malformed | Parsed(value: T)

  datatype Response<T> = Ok(status: nat, value: T) | Failure(status: nat, error: string)
  {
    function Code(): nat
    {
      match this
      case Ok(s, _) => s
      case Failure(s, _) => s
    }
  }

  predicate Truthy(param: Option<string>)
  {
    param.Some? && param.value != ""
  }
}

/** Types shared by the notification and poll services. */
module Common {

  /** Every entity of the backend is identified by a string (a UUID in practice). */
  type Id = string

  datatype Option<T> = None | Some(value: T)

  /** The HTTP exceptions the services raise to their callers; `InternalError`
      is any other exception, which the framework answers with status 500. */
  datatype HttpError = NotFound | Forbidden | InternalError

  datatype Result<T> = Ok(value: T) | Err(error: HttpError)

  /** Outcome of an operation that returns nothing on success. */
  datatype Status = Done | Failed(error: HttpError)

  /** A member's participation level in a community. `OtherLevel` stands for
      the members of the enumeration that no branch of the core names. */
  datatype MicLevel = Viewer | Commentator | Speaker | OtherLevel(name: string)

  /** JavaScript truthiness of an optional string: present and not empty. */
  predicate Truthy(s: Option<string>)
  {
    s.Some? && s.value != ""
  }
}

/**
 * The error variants the core produces.  The error module of the API crate
 * (`app_error`, `app_response`) is not part of this model: only the variants
 * named by the core appear, with the framework's own payloads left opaque.
 */
module AppErrors {
  import opened Validator

  /** `JWTError`: no credential, or a credential that could not be read or decoded. */
  datatype JwtError = Missing | Invalid

  /** The rejection a framework extractor (`Query`, `Json`, `Path`) fails with; its content is the framework's. */
  datatype Rejection = Rejection(reason: string)

  /** `ValidateError`: a source-specific deserialization rejection, or violated field rules. */
  datatype ValidateError =
    | AxumQueryRejection(query: Rejection)
    | AxumJsonRejection(json: Rejection)
    | AxumPathRejection(path: Rejection)
    | InvalidParam(errors: ValidationErrors)

  /** A failure reported by the domain or persistence layer; its content is that layer's. */
  datatype DomainError = DomainError(reason: string)

  /** `AppError`, as far as the core builds it. */
  datatype AppError =
    | Jwt(jwt: JwtError)
    | Validate(validate: ValidateError)
    | Domain(domain: DomainError)
}

/**
 * The part of the `validator` crate's data model that the request pipeline
 * touches: a violation (`ValidationError`), the per-field kinds of a
 * `ValidationErrors` collection, `ValidationErrors::add` and
 * `ValidationErrors::field_errors`.  The crate's own checks are not modelled.
 */
module Validator {
  import opened Wrappers

  /** A violation parameter; the crate stores JSON values, the rules here attach numbers and strings. */
  datatype ParamValue = Number(n: int) | Text(s: string)

  /** One violated rule: its stable code, an optional human-readable message and its parameters. */
  datatype ValidationError = ValidationError(code: string, message: Option<string>, params: map<string, ParamValue>)

  /** What a `ValidationErrors` holds under one name: a field's violations, or the errors of a nested struct or list. */
  datatype ErrorsKind =
    | Field(errors: seq<ValidationError>)
    | Struct(inner: map<string, ErrorsKind>)
    | List(items: map<nat, map<string, ErrorsKind>>)

  /** `ValidationErrors`: field name to the kind of errors recorded for it. */
  type ValidationErrors = map<string, ErrorsKind>

  /** `ValidationError::new(code)`: no message, no parameters. */
  function NewError(code: string): ValidationError
  {
    ValidationError(code, None, map[])
  }

  /** `ValidationErrors::field_errors`: only the entries of kind `Field`, with their lists. */
  function FieldErrors(e: ValidationErrors): (fe: map<string, seq<ValidationError>>)
    ensures fe.Keys == set f | f in e && e[f].Field?
    ensures forall f :: f in fe ==> fe[f] == e[f].errors
  {
    map f | f in e && e[f].Field? :: e[f].errors
  }

  /**
   * `ValidationErrors::add(field, err)`: appends `err` to the field's list,
   * creating the list when the field is new.  The crate panics when the
   * field already holds a nested kind, which the precondition excludes.
   */
  function Add(e: ValidationErrors, field: string, err: ValidationError): (r: ValidationErrors)
    requires field in e ==> e[field].Field?
    ensures r.Keys == e.Keys + {field}
    ensures r[field] == Field((if field in e then e[field].errors else []) + [err])
    ensures forall g :: g in e && g != field ==> r[g] == e[g]
  {
    e[field := Field((if field in e then e[field].errors else []) + [err])]
  }
}

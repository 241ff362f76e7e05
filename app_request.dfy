/**
 * The API's request extractors: `JwtAuth` (identity from the
 * `Authorization` header), the three validated extractors
 * `ValidatedQuery`, `ValidatedJson` and `ValidatedPath` (deserialize, then
 * validate, then wrap), and the rewrite of validation errors that replaces
 * every message by the localized text of its code.
 *
 * Everything the extractors delegate to is a parameter: reading a header
 * value as a string, decoding a token, the framework's deserializers, the
 * type's `validate` and the localization lookup `i18n`.
 */
module AppRequest {
  import opened Wrappers
  import opened Validator
  import opened AppErrors

  type Byte = b: int | 0 <= b < 256

  /** A raw header value; whether it reads as a string is the HTTP library's decision. */
  type HeaderValue = seq<Byte>

  /** True when a header name holds no upper-case ASCII letter. */
  predicate IsNormalName(name: string)
  {
    forall i :: 0 <= i < |name| ==> !('A' <= name[i] <= 'Z')
  }

  /**
   * A header map keyed by normalised (lower-case) header names: the HTTP
   * library stores names lower-cased and looks them up case-insensitively,
   * so `get("Authorization")` finds the entry stored under this key
   * whatever case the client sent.
   */
  type HeaderMap = m: map<string, HeaderValue> | forall name :: name in m ==> IsNormalName(name)

  const AuthorizationHeader := "authorization"

  /**
   * The parts of a request the extractors see.  The header map is absent
   * once another extractor has taken it; the URI and the body are consumed
   * only by the framework's deserializers.
   */
  datatype RequestParts = RequestParts(headers: Option<HeaderMap>, uri: string, body: seq<Byte>)

  /** The decoded token: the user name and the token's other fields, which the core does not read. */
  datatype Claims = Claims(name: string, fields: map<string, string>)

  /** True when the request carries an `Authorization` header. */
  predicate HasAuthorization(req: RequestParts)
  {
    req.headers.Some? && AuthorizationHeader in req.headers.value
  }

  datatype JwtAuth = JwtAuth(claims: Claims) {

    /**
     * The identity of the request: `Missing` when there is no header map or
     * no `Authorization` header, `Invalid` when the header does not read as
     * a string or does not decode, and otherwise exactly the decoded claims.
     * No anonymous identity is ever produced.
     */
    static function FromRequest(req: RequestParts, toStr: HeaderValue -> Option<string>,
                                decodeToken: string -> Option<Claims>): (r: Result<JwtAuth, AppError>)
      ensures r.Failure? ==> r.error.Jwt?
      ensures r == Failure(Jwt(Missing)) <==> !HasAuthorization(req)
      ensures r == Failure(Jwt(Invalid)) <==>
                HasAuthorization(req) &&
                var text := toStr(req.headers.value[AuthorizationHeader]);
                text.None? || decodeToken(text.value).None?
      ensures r.Success? <==>
                HasAuthorization(req) &&
                var text := toStr(req.headers.value[AuthorizationHeader]);
                text.Some? && decodeToken(text.value).Some?
      ensures r.Success? ==> decodeToken(toStr(req.headers.value[AuthorizationHeader]).value) == Some(r.value.claims)
    {
      match req.headers
      case Some(headers) =>
        if AuthorizationHeader in headers then
          var decoded := match toStr(headers[AuthorizationHeader])
                         case Some(text) => decodeToken(text)
                         case None => None;
          match decoded
          case Some(claims) => Success(JwtAuth(claims))
          case None => Failure(Jwt(Invalid))
        else
          Failure(Jwt(Missing))
      case None => Failure(Jwt(Missing))
    }
  }

  /** One violation with its message replaced by the localized text of its code. */
  function Localized(err: ValidationError, i18n: string -> string): ValidationError
  {
    err.(message := Some(i18n(err.code)))
  }

  /** A field's violations, each localized, in the original order. */
  function LocalizedAll(errs: seq<ValidationError>, i18n: string -> string): seq<ValidationError>
  {
    if errs == [] then [] else LocalizedAll(errs[..|errs| - 1], i18n) + [Localized(errs[|errs| - 1], i18n)]
  }

  /** The localized field errors of the fields in `fields` that have at least one violation. */
  function LocalizedFields(fe: map<string, seq<ValidationError>>, fields: set<string>,
                           i18n: string -> string): ValidationErrors
  {
    map f | f in fe && f in fields && fe[f] != [] :: Field(LocalizedAll(fe[f], i18n))
  }

  /** What `to_new_validation_errors` produces from `e`. */
  function Rewritten(e: ValidationErrors, i18n: string -> string): ValidationErrors
  {
    LocalizedFields(FieldErrors(e), FieldErrors(e).Keys, i18n)
  }

  /** Localizing a list keeps its length and, position by position, each violation's code and parameters. */
  lemma {:induction false} LocalizedAllShape(errs: seq<ValidationError>, i18n: string -> string)
    ensures |LocalizedAll(errs, i18n)| == |errs|
    ensures forall k :: 0 <= k < |errs| ==>
              var r := LocalizedAll(errs, i18n)[k];
              r.code == errs[k].code && r.params == errs[k].params && r.message == Some(i18n(errs[k].code))
  {
    if errs != [] {
      LocalizedAllShape(errs[..|errs| - 1], i18n);
    }
  }

  /**
   * The rewrite keeps exactly the fields `field_errors()` reports with at
   * least one violation, each with as many violations in the same order,
   * each keeping its code and parameters and carrying `i18n(code)` as its
   * message.  Nested struct and list errors are not carried over.
   */
  lemma RewrittenShape(e: ValidationErrors, i18n: string -> string)
    ensures forall f :: f in Rewritten(e, i18n) <==> f in e && e[f].Field? && e[f].errors != []
    ensures forall f :: f in Rewritten(e, i18n) ==>
              var errs := e[f].errors;
              var r := Rewritten(e, i18n)[f];
              r.Field? && |r.errors| == |errs| &&
              forall k :: 0 <= k < |errs| ==>
                r.errors[k].code == errs[k].code && r.errors[k].params == errs[k].params &&
                r.errors[k].message == Some(i18n(errs[k].code))
  {
    forall f | f in Rewritten(e, i18n) {
      LocalizedAllShape(e[f].errors, i18n);
    }
  }

  /** Localizing an already localized list changes nothing. */
  lemma {:induction false} LocalizedAllIdempotent(errs: seq<ValidationError>, i18n: string -> string)
    ensures LocalizedAll(LocalizedAll(errs, i18n), i18n) == LocalizedAll(errs, i18n)
  {
    if errs != [] {
      var init := errs[..|errs| - 1];
      var r := LocalizedAll(errs, i18n);
      LocalizedAllShape(init, i18n);
      assert r[..|r| - 1] == LocalizedAll(init, i18n);
      LocalizedAllIdempotent(init, i18n);
    }
  }

  /** Rewriting an already rewritten collection changes nothing: codes are kept, so messages come out the same. */
  lemma RewrittenIdempotent(e: ValidationErrors, i18n: string -> string)
    ensures Rewritten(Rewritten(e, i18n), i18n) == Rewritten(e, i18n)
  {
    var once := Rewritten(e, i18n);
    var fe := FieldErrors(once);
    var twice := Rewritten(once, i18n);
    forall f | f in once
      ensures f in fe && fe[f] == LocalizedAll(e[f].errors, i18n) != []
    {
      LocalizedAllShape(e[f].errors, i18n);
    }
    assert twice.Keys == once.Keys;
    forall f | f in once
      ensures twice[f] == once[f]
    {
      LocalizedAllIdempotent(e[f].errors, i18n);
    }
  }

  /** A collection holding only nested struct or list errors is rewritten to an empty one. */
  lemma RewrittenDropsNested(e: ValidationErrors, i18n: string -> string)
    requires forall f :: f in e ==> !e[f].Field?
    ensures Rewritten(e, i18n) == map[]
  {
  }

  /**
   * Taking one more field out of the fields still to do adds its localized
   * list to those done, if it has one; the fields done never include it.
   */
  lemma LocalizedFieldsStep(fe: map<string, seq<ValidationError>>, todo: set<string>, field: string,
                            i18n: string -> string)
    requires field in todo && todo <= fe.Keys
    ensures var done := LocalizedFields(fe, fe.Keys - todo, i18n);
            field !in done && (forall f :: f in done ==> done[f].Field?) &&
            LocalizedFields(fe, fe.Keys - (todo - {field}), i18n) ==
              if fe[field] == [] then done else done[field := Field(LocalizedAll(fe[field], i18n))]
  {
    assert fe.Keys - (todo - {field}) == (fe.Keys - todo) + {field};
  }

  /** The map built so far for `field` once its first `j` violations have been added. */
  function Partial(done: ValidationErrors, field: string, errs: seq<ValidationError>, j: nat,
                   i18n: string -> string): ValidationErrors
    requires j <= |errs|
  {
    if j == 0 then done else done[field := Field(LocalizedAll(errs[..j], i18n))]
  }

  /** Adding the next localized violation of `field` extends the map built so far by one violation. */
  lemma PartialStep(done: ValidationErrors, field: string, errs: seq<ValidationError>, j: nat,
                    i18n: string -> string)
    requires j < |errs| && field !in done
    ensures var r := Partial(done, field, errs, j, i18n);
            (field in r ==> r[field].Field?) &&
            Add(r, field, Localized(errs[j], i18n)) == Partial(done, field, errs, j + 1, i18n)
  {
    var r := Partial(done, field, errs, j, i18n);
    assert errs[..j + 1][..j] == errs[..j];
    var grown := LocalizedAll(errs[..j + 1], i18n);
    assert grown == LocalizedAll(errs[..j], i18n) + [Localized(errs[j], i18n)];
    if j == 0 {
      assert LocalizedAll(errs[..j], i18n) == [];
      assert Add(r, field, Localized(errs[j], i18n)) == done[field := Field(grown)];
    } else {
      assert r[field].errors == LocalizedAll(errs[..j], i18n);
      assert Add(r, field, Localized(errs[j], i18n)) == r[field := Field(grown)];
      assert r[field := Field(grown)] == done[field := Field(grown)];
    }
  }

  /** `to_new_validation_errors`: rebuilds the field errors field by field and violation by violation. */
  method ToNewValidationErrors(e: ValidationErrors, i18n: string -> string) returns (r: ValidationErrors)
    ensures r == Rewritten(e, i18n)
  {
    var fe := FieldErrors(e);
    r := map[];
    var todo := fe.Keys;
    while todo != {}
      invariant todo <= fe.Keys
      invariant r == LocalizedFields(fe, fe.Keys - todo, i18n)
      decreases todo
    {
      var field :| field in todo;
      var errs := fe[field];
      ghost var done := LocalizedFields(fe, fe.Keys - todo, i18n);
      LocalizedFieldsStep(fe, todo, field, i18n);
      var j := 0;
      while j < |errs|
        invariant 0 <= j <= |errs|
        invariant r == Partial(done, field, errs, j, i18n)
      {
        var newErr := errs[j].(message := Some(i18n(errs[j].code)));
        PartialStep(done, field, errs, j, i18n);
        r := Add(r, field, newErr);
        j := j + 1;
      }
      assert errs[..|errs|] == errs;
      todo := todo - {field};
    }
  }

  datatype ValidatedQuery<T> = ValidatedQuery(value: T) {

    /**
     * Deserializes the query, then validates: a failed deserialization is
     * rejected as a query rejection and nothing is validated, violated
     * rules give `InvalidParam` with the rewritten errors, and otherwise
     * the deserialized value is returned unchanged.
     */
    static method FromRequest(req: RequestParts, deserialize: RequestParts -> Result<T, Rejection>,
                              validate: T -> Result<(), ValidationErrors>, i18n: string -> string)
      returns (r: Result<ValidatedQuery<T>, AppError>)
      ensures deserialize(req).Failure? ==> r == Failure(Validate(AxumQueryRejection(deserialize(req).error)))
      ensures deserialize(req).Success? && validate(deserialize(req).value).Failure? ==>
                r == Failure(Validate(InvalidParam(Rewritten(validate(deserialize(req).value).error, i18n))))
      ensures deserialize(req).Success? && validate(deserialize(req).value).Success? ==>
                r == Success(ValidatedQuery(deserialize(req).value))
    {
      var parsed := deserialize(req);
      if parsed.Failure? {
        return Failure(Validate(AxumQueryRejection(parsed.error)));
      }
      var value := parsed.value;
      var checked := validate(value);
      if checked.Failure? {
        var ves := ToNewValidationErrors(checked.error, i18n);
        return Failure(Validate(InvalidParam(ves)));
      }
      return Success(ValidatedQuery(value));
    }
  }

  datatype ValidatedJson<T> = ValidatedJson(value: T) {

    /** As `ValidatedQuery.FromRequest`, for a JSON body: a failed deserialization is a JSON rejection. */
    static method FromRequest(req: RequestParts, deserialize: RequestParts -> Result<T, Rejection>,
                              validate: T -> Result<(), ValidationErrors>, i18n: string -> string)
      returns (r: Result<ValidatedJson<T>, AppError>)
      ensures deserialize(req).Failure? ==> r == Failure(Validate(AxumJsonRejection(deserialize(req).error)))
      ensures deserialize(req).Success? && validate(deserialize(req).value).Failure? ==>
                r == Failure(Validate(InvalidParam(Rewritten(validate(deserialize(req).value).error, i18n))))
      ensures deserialize(req).Success? && validate(deserialize(req).value).Success? ==>
                r == Success(ValidatedJson(deserialize(req).value))
    {
      var parsed := deserialize(req);
      if parsed.Failure? {
        return Failure(Validate(AxumJsonRejection(parsed.error)));
      }
      var value := parsed.value;
      var checked := validate(value);
      if checked.Failure? {
        var ves := ToNewValidationErrors(checked.error, i18n);
        return Failure(Validate(InvalidParam(ves)));
      }
      return Success(ValidatedJson(value));
    }
  }

  datatype ValidatedPath<T> = ValidatedPath(value: T) {

    /** As `ValidatedQuery.FromRequest`, for path parameters: a failed deserialization is a path rejection. */
    static method FromRequest(req: RequestParts, deserialize: RequestParts -> Result<T, Rejection>,
                              validate: T -> Result<(), ValidationErrors>, i18n: string -> string)
      returns (r: Result<ValidatedPath<T>, AppError>)
      ensures deserialize(req).Failure? ==> r == Failure(Validate(AxumPathRejection(deserialize(req).error)))
      ensures deserialize(req).Success? && validate(deserialize(req).value).Failure? ==>
                r == Failure(Validate(InvalidParam(Rewritten(validate(deserialize(req).value).error, i18n))))
      ensures deserialize(req).Success? && validate(deserialize(req).value).Success? ==>
                r == Success(ValidatedPath(deserialize(req).value))
    {
      var parsed := deserialize(req);
      if parsed.Failure? {
        return Failure(Validate(AxumPathRejection(parsed.error)));
      }
      var value := parsed.value;
      var checked := validate(value);
      if checked.Failure? {
        var ves := ToNewValidationErrors(checked.error, i18n);
        return Failure(Validate(InvalidParam(ves)));
      }
      return Success(ValidatedPath(value));
    }
  }
}

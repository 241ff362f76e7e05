# Request acceptance and search-index sync, modelled in Dafny

This project models the logic that the example web server adds on top of its
framework, validation library and search engine:

- **Request extractors** (`api/src/app_request.rs`).
  - `JwtAuth` turns the `Authorization` header into decoded claims, or into
    `JWTError::Missing` or `JWTError::Invalid`.
  - `ValidatedQuery`, `ValidatedJson` and `ValidatedPath` deserialize the
    request, then validate it, then wrap the value.
  - `to_new_validation_errors` rebuilds a validation-error collection and
    replaces every message with the localized text of the error's code.
- **Journey creation** (`api/src/adventures/journey.rs`).
  - `JourneyForm` has declarative field rules.
  - The `journey` handler looks up the acting user and builds a `NewJourney`
    from the form. It then asks the domain layer to add the journey and
    returns the new id.
- **Search sync bridge** (`search/src/adventures/add.rs`).
  - `add_adventure`, `add_adventures`, `delete_adventure` and
    `delete_adventures` send batches to the search index.
  - Each one reduces the index's task status to `true` (succeeded), `false`
    (any other status) or the index's own error.

External collaborators are modelled as parameters or as collaborator objects:

- **Parameters.** Reading a header value as a string, decoding a token, the
  framework's deserializers, a type's `validate`, the localization lookup
  `i18n`, the URL check, the two custom form rules and the `u8` to source
  conversion are all passed in as function parameters.
- **Collaborator objects.** The domain layer (`AppState`) and the search
  index (`SearchIndex`) are classes. The domain layer keeps a count of the
  journeys it has stored. Its reply to `add_journey` depends on that count
  as well as on the arguments, and each successful add increments it. The
  search index's replies depend only on the batch sent. A ghost `calls` log
  records every call either object receives, so the contracts can say which
  calls were made, in which order and with what arguments, or that no call
  was made.

Files:

- `wrappers.dfy`: `Option` and `Result`.
- `validator.dfy`: the part of the validator crate's data the core uses:
  violations, `ValidationErrors`, `add` and `field_errors`.
- `app_errors.dfy`: the error variants the core produces.
- `app_request.dfy`: the extractors and the error rewrite.
- `journey.dfy`: the form rules and the handler.
- `search_add.dfy`: the search bridge.

`to_new_validation_errors` is modelled as a method with two nested loops, as
in the source. It is proved equal to the function `Rewritten`, and the
properties of the rewrite are lemmas about `Rewritten`. The outer loop takes
fields in an arbitrary order (`:|`), which stands for the order of the
source's hash-map iteration.

## Model

| member | source | states |
|---|---|---|
| `AppRequest.JwtAuth.FromRequest` | api/src/app_request.rs:28-46 | Gives `Missing` exactly when there is no header map or no `Authorization` header. Gives `Invalid` exactly when the header is present but does not read as a string or does not decode. Succeeds exactly when it decodes, and then yields exactly the decoded claims. Every failure is a JWT error, so no anonymous identity is produced. |
| `AppRequest.ValidatedQuery.FromRequest` | api/src/app_request.rs:62-71 | If deserialization fails, the result is `AxumQueryRejection` with that rejection, and the result does not depend on `validate`. If validation fails, the result is `InvalidParam` with the rewritten errors. Otherwise the deserialized value is returned unchanged. |
| `AppRequest.ValidatedJson.FromRequest` | api/src/app_request.rs:87-96 | The same three outcomes for a JSON body, with `AxumJsonRejection` as the deserialization failure. |
| `AppRequest.ValidatedPath.FromRequest` | api/src/app_request.rs:110-119 | The same three outcomes for path parameters, with `AxumPathRejection` as the deserialization failure. |
| `AppRequest.ToNewValidationErrors` | api/src/app_request.rs:122-141 | The map built by the nested loops equals `Rewritten(e, i18n)`. |
| `AppRequest.RewrittenShape` | api/src/app_request.rs:124-132 | The result has exactly the fields that `field_errors()` reports with at least one error. Each field keeps its number of errors and their order. Each error keeps its code and params, and its message becomes `i18n(code)`. |
| `AppRequest.LocalizedAllShape` | api/src/app_request.rs:126-131 | Localizing one field's error list keeps its length and order, and keeps each error's code and params. Each message becomes `i18n(code)`. |
| `AppRequest.LocalizedAllIdempotent` | api/src/app_request.rs:128-131 | Localizing an already localized list changes nothing. |
| `AppRequest.RewrittenIdempotent` | api/src/app_request.rs:124-132 | Rewriting an already rewritten collection gives the same collection. |
| `Validator.FieldErrors` | api/src/app_request.rs:125 | Reports exactly the entries whose kind is a field's list of violations, each with its list. Nested struct and list entries are not reported. |
| `AppRequest.RewrittenDropsNested` | api/src/app_request.rs:125 | A collection that holds only nested struct or list errors is rewritten to an empty map. |
| `Validator.Add` | api/src/app_request.rs:132 | `add` appends the error to the named field's list, creating the list if needed. It leaves every other field unchanged. |
| `AdventuresJourney.JourneyForm.FormErrors` | api/src/adventures/journey.rs:13-29 | Every rule is checked, and no failure stops the others. Only the five form fields can be reported. A field is reported exactly when its own rule fails, and then with that rule's single violation. The codes are `adventure-journey-valid-title`, `adventure-journey-valid-image_url` and `adventure-journey-valid-link`. For `source` and `journey_destiny` the violation is the custom rule's own error. |
| `AdventuresJourney.JourneyForm.Validate` | api/src/adventures/journey.rs:12-29 | The form is valid exactly when all of these hold: the title has 5 to 40 characters, both URL fields are URLs, and both custom rules pass. When it is not valid, the errors report exactly the failing fields, each with its rule's single violation, as above. |
| `AdventuresJourney.InvalidTitleReported` | api/src/adventures/journey.rs:15 | A title outside 5 to 40 characters makes validation fail. After the extractor's rewrite, it is reported as the single `title` violation with the title code and the message `i18n(code)`. |
| `AdventuresJourney.AppState.GetUserByUsername` | api/src/adventures/journey.rs:44-46 | Records one user lookup by the given name and returns the users manager's reply. |
| `AdventuresJourney.AppState.AddJourney` | api/src/adventures/journey.rs:54 | Records one `add_journey` call with the given user and command. Returns the domain layer's reply for the current stored count. The count goes up by one exactly when the add succeeds. |
| `AdventuresJourney.Journey` | api/src/adventures/journey.rs:37-57 | The first call is the lookup of the claims' name. If the lookup fails, that is the only call and its error is returned. Otherwise exactly one `add_journey` call follows, with a `NewJourney` holding the form's title, image URL, link and destiny verbatim and the converted source. The response id is exactly the id that call returned, and its failure is returned as the handler's error. The stored count goes up by one exactly when the add succeeds; a failed lookup leaves it unchanged. |
| `AdventuresJourney.JourneyTwice` | api/src/adventures/journey.rs:44-56 | Two calls with the same form and claims for an existing user each make their own `add_journey` call. Nothing deduplicates them. Each response is the reply to its own call. When the domain layer gives distinct ids to adds made at different stored counts (`DistinctIds`), two successes carry two different ids. |
| `SearchAdventures.SearchIndex.AddDocuments` | search/src/adventures/add.rs:13 | Records one add call with exactly the batch given, and returns the index's reply. |
| `SearchAdventures.SearchIndex.DelDocuments` | search/src/adventures/add.rs:27 | Records one delete call with exactly the ids given, and returns the index's reply. |
| `SearchAdventures.Confirmed` | search/src/adventures/add.rs:15-18 | A reply of `Succeeded` gives `true`. Any other status gives `false`, not an error. An index error is passed on unchanged and is never turned into `false`. |
| `SearchAdventures.AddAdventures` | search/src/adventures/add.rs:12-19 | Sends the batch as given, in exactly one call, and returns the collapsed reply. |
| `SearchAdventures.AddAdventure` | search/src/adventures/add.rs:7-9 | Behaves exactly like `add_adventures` of the one-document batch: the same single call and the same result. |
| `SearchAdventures.DeleteAdventure` | search/src/adventures/add.rs:22-33 | An id below 1 gives `false` and contacts the index zero times. Any other id is sent as the one-id batch, and the reply is collapsed. |
| `SearchAdventures.DeleteAdventures` | search/src/adventures/add.rs:36-43 | Sends the ids as given, in exactly one call, without dropping ids below 1, and returns the collapsed reply. |

## Left out

- Token decoding and signature checks (`util::jwt::decode_token`) and the HTTP library's `to_str` are passed in as partial functions. The model does not look inside them.
- The anonymous-identity fallback is commented out in the source, so it is not modelled. The contracts of `FromRequest` show that no request gets an identity without a decoded token.
- Header maps are modelled as one value per name. The `HeaderMap` type admits only names without upper-case letters, as the HTTP library stores them. The library's case-insensitive lookup is represented by looking up the lower-case key `authorization`. Headers with several values are not modelled.
- How `Query`, `Json` and `Path` parse a request is framework behaviour, so their outcome is a function parameter. The order in which the framework runs the handler's extractors is also framework behaviour. The handler is therefore modelled as receiving an already validated form and an already decoded identity.
- The validator library's own checks are left out. The URL check and the two custom rules from the `vars` crate are parameters. The title's length is taken as its number of characters.
- Violation parameters: the model attaches `min`, `max` and `value` to the title violation and `value` to the other violations. This follows what the validator derive macro attaches; the macro's code is not part of this model.
- The contents of the i18n table, including its fallback to the code itself, are left out. `i18n` is a total function parameter.
- The domain and persistence layer (`get_user_by_username`, `add_journey`) is represented only by its replies and by a count of stored journeys. That ids are unique is the domain layer's promise, so it is stated as the predicate `DistinctIds` over the reply function, not proved. `JourneyTwice` proves that the handler keeps it: each creation makes its own call, at its own stored count.
- The search index's replies depend only on the batch sent. The index's own state is not modelled, so two identical calls get identical replies in the model.
- The `u8` to source conversion is the total `into()` the code uses. The model follows the code, so no `InvalidSource` failure exists.
- Deserialization failures are the three source-specific rejections the code returns. There is no single "malformed payload" error.
- The search engine's transport, its full status enum and its task polling are left out. Only `Succeeded` versus every other status is modelled.
- Async execution and tracing output are left out. The widths of `u8` and `i64` appear as ranges on the values. The width of the domain id is not modelled.
- `AppError`'s conversion into HTTP responses, in `app_response`, is not part of this model. Its source files are not among the modelled ones.

/**
 * The journey-creation endpoint: the field rules of `JourneyForm` and the
 * `journey` handler, which looks up the acting user, builds a `NewJourney`
 * from the form and asks the domain layer to add it.
 *
 * The URL check, the two custom rules, the `u8` to source conversion and
 * the domain layer are abstract: the first four are parameters, the domain
 * layer is the `AppState` collaborator below, whose replies are functions
 * of its stored state and the call's arguments and whose calls are
 * recorded in a ghost log.
 */
module AdventuresJourney {
  import opened Wrappers
  import opened Validator
  import opened AppErrors
  import opened AppRequest

  type UInt8 = x: int | 0 <= x < 256

  const TitleMin := 5
  const TitleMax := 40
  const TitleCode := "adventure-journey-valid-title"
  const ImageUrlCode := "adventure-journey-valid-image_url"
  const LinkCode := "adventure-journey-valid-link"

  /** The violation the length rule on `title` reports, with the bounds and the value as parameters. */
  function TitleError(title: string): ValidationError
  {
    NewError(TitleCode).(params := map["min" := Number(TitleMin), "max" := Number(TitleMax), "value" := Text(title)])
  }

  /** The violation a URL rule reports under `code`, with the value as parameter. */
  function UrlError(code: string, value: string): ValidationError
  {
    NewError(code).(params := map["value" := Text(value)])
  }

  /** A custom rule's own violation, with the checked value attached as parameter. */
  function WithValue(err: ValidationError, value: ParamValue): ValidationError
  {
    err.(params := err.params["value" := value])
  }

  /**
   * One rule's outcome recorded under a field not yet reported: a
   * violation is added under `field`, a pass leaves the errors as they were.
   */
  function Record(errs: ValidationErrors, field: string, violation: Option<ValidationError>): (r: ValidationErrors)
    requires field !in errs
    ensures r.Keys == if violation.Some? then errs.Keys + {field} else errs.Keys
    ensures violation.Some? ==> r[field] == Field([violation.value])
    ensures forall g :: g in errs ==> r[g] == errs[g]
  {
    match violation
    case None => errs
    case Some(err) => Add(errs, field, err)
  }

  /** True when the title's length (in characters) is within the rule's bounds. */
  predicate TitleLengthOk(title: string)
  {
    TitleMin <= |title| <= TitleMax
  }

  datatype JourneyForm = JourneyForm(title: string, imageUrl: string, link: string, source: UInt8,
                                     journeyDestiny: string) {

    /**
     * The errors the derived `validate` collects: every field's rule is
     * checked (none stops the others) and each violation is added under its
     * field.  A field is present exactly when its rule fails, and then with
     * that rule's single violation.
     */
    function FormErrors(isUrl: string -> bool, validateSource: UInt8 -> Result<(), ValidationError>,
                        validateJourneyDestiny: string -> Result<(), ValidationError>): (errs: ValidationErrors)
      ensures errs.Keys <= {"title", "image_url", "link", "source", "journey_destiny"}
      ensures "title" in errs <==> !TitleLengthOk(title)
      ensures "image_url" in errs <==> !isUrl(imageUrl)
      ensures "link" in errs <==> !isUrl(link)
      ensures "source" in errs <==> validateSource(source).Failure?
      ensures "journey_destiny" in errs <==> validateJourneyDestiny(journeyDestiny).Failure?
      ensures "title" in errs ==> errs["title"] == Field([TitleError(title)])
      ensures "image_url" in errs ==> errs["image_url"] == Field([UrlError(ImageUrlCode, imageUrl)])
      ensures "link" in errs ==> errs["link"] == Field([UrlError(LinkCode, link)])
      ensures "source" in errs ==> errs["source"] == Field([WithValue(validateSource(source).error, Number(source))])
      ensures "journey_destiny" in errs ==>
                errs["journey_destiny"] ==
                  Field([WithValue(validateJourneyDestiny(journeyDestiny).error, Text(journeyDestiny))])
    {
      var errs: ValidationErrors := map[];
      var errs := Record(errs, "title", if TitleLengthOk(title) then None else Some(TitleError(title)));
      var errs := Record(errs, "image_url", if isUrl(imageUrl) then None else Some(UrlError(ImageUrlCode, imageUrl)));
      var errs := Record(errs, "link", if isUrl(link) then None else Some(UrlError(LinkCode, link)));
      var errs := Record(errs, "source", match validateSource(source)
                                         case Success(_) => None
                                         case Failure(err) => Some(WithValue(err, Number(source))));
      Record(errs, "journey_destiny", match validateJourneyDestiny(journeyDestiny)
                                      case Success(_) => None
                                      case Failure(err) => Some(WithValue(err, Text(journeyDestiny))))
    }

    /**
     * The derived `validate`: the form is valid exactly when every rule
     * holds; otherwise the collected errors are returned, each failing
     * field with its rule's single violation.
     */
    function Validate(isUrl: string -> bool, validateSource: UInt8 -> Result<(), ValidationError>,
                      validateJourneyDestiny: string -> Result<(), ValidationError>): (r: Result<(), ValidationErrors>)
      ensures r.Success? <==>
                TitleLengthOk(title) && isUrl(imageUrl) && isUrl(link) &&
                validateSource(source).Success? && validateJourneyDestiny(journeyDestiny).Success?
      ensures r.Failure? ==>
                r.error.Keys <= {"title", "image_url", "link", "source", "journey_destiny"} &&
                ("title" in r.error <==> !TitleLengthOk(title)) &&
                ("image_url" in r.error <==> !isUrl(imageUrl)) &&
                ("link" in r.error <==> !isUrl(link)) &&
                ("source" in r.error <==> validateSource(source).Failure?) &&
                ("journey_destiny" in r.error <==> validateJourneyDestiny(journeyDestiny).Failure?)
      ensures r.Failure? && "title" in r.error ==> r.error["title"] == Field([TitleError(title)])
      ensures r.Failure? && "image_url" in r.error ==> r.error["image_url"] == Field([UrlError(ImageUrlCode, imageUrl)])
      ensures r.Failure? && "link" in r.error ==> r.error["link"] == Field([UrlError(LinkCode, link)])
      ensures r.Failure? && "source" in r.error ==>
                r.error["source"] == Field([WithValue(validateSource(source).error, Number(source))])
      ensures r.Failure? && "journey_destiny" in r.error ==>
                r.error["journey_destiny"] ==
                  Field([WithValue(validateJourneyDestiny(journeyDestiny).error, Text(journeyDestiny))])
    {
      var errs := FormErrors(isUrl, validateSource, validateJourneyDestiny);
      if errs == map[] then Success(()) else Failure(errs)
    }
  }

  /**
   * A title outside the length bounds reaches the client, through the JSON
   * extractor's rewrite, as the single violation under `title` whose code
   * is the title rule's and whose message is that code's localized text.
   */
  lemma InvalidTitleReported(form: JourneyForm, isUrl: string -> bool,
                             validateSource: UInt8 -> Result<(), ValidationError>,
                             validateJourneyDestiny: string -> Result<(), ValidationError>, i18n: string -> string)
    requires !TitleLengthOk(form.title)
    ensures form.Validate(isUrl, validateSource, validateJourneyDestiny).Failure?
    ensures var errs := Rewritten(form.Validate(isUrl, validateSource, validateJourneyDestiny).error, i18n);
            "title" in errs && errs["title"] == Field([TitleError(form.title).(message := Some(i18n(TitleCode)))])
  {
    var e := form.Validate(isUrl, validateSource, validateJourneyDestiny).error;
    RewrittenShape(e, i18n);
    var r := Rewritten(e, i18n)["title"];
    assert |r.errors| == 1;
    assert r.errors == [TitleError(form.title).(message := Some(i18n(TitleCode)))];
  }

  /** The domain's source enum; its variants are the domain layer's. */
  datatype JourneySource = JourneySource(name: string)

  /** The domain command built from a form. */
  datatype NewJourney = NewJourney(title: string, imageUrl: string, link: string, source: JourneySource,
                                   journeyDestiny: string)

  /** The identifier the domain layer assigns; its width is the domain layer's. */
  type Id = int

  datatype JourneyResponse = JourneyResponse(id: Id)

  /** A user of the domain layer, found by name. */
  datatype User = User(name: string)

  /** A call the handler makes on the domain layer. */
  datatype DomainCall =
    | UserLookup(name: string)
    | JourneyAdded(user: User, journey: NewJourney)

  /**
   * The application state handed to the handler: the users manager and the
   * adventures manager.  A lookup's reply is a fixed function of the name.
   * An `add_journey` reply is a function of how many journeys the domain
   * layer has already stored (`stored`) and of the call's arguments, so
   * identical calls made at different times can get different replies.
   * `calls` records every call, in order.
   */
  class AppState {
    ghost var calls: seq<DomainCall>
    var stored: nat
    const userByName: string -> Result<User, DomainError>
    const addJourneyReply: (nat, User, NewJourney) -> Result<Id, DomainError>

    constructor (userByName: string -> Result<User, DomainError>,
                 addJourneyReply: (nat, User, NewJourney) -> Result<Id, DomainError>, stored: nat)
      ensures this.userByName == userByName && this.addJourneyReply == addJourneyReply
      ensures this.stored == stored && calls == []
    {
      this.userByName := userByName;
      this.addJourneyReply := addJourneyReply;
      this.stored := stored;
      calls := [];
    }

    /**
     * The domain layer's promise about identifiers: two successful adds made
     * when different numbers of journeys were stored return different ids.
     */
    ghost predicate DistinctIds()
    {
      forall n: nat, m: nat, u, v, j, k ::
        n != m && addJourneyReply(n, u, j).Success? && addJourneyReply(m, v, k).Success? ==>
          addJourneyReply(n, u, j).value != addJourneyReply(m, v, k).value
    }

    /** `users_manager.get_user_by_username(name)`. */
    method GetUserByUsername(name: string) returns (r: Result<User, DomainError>)
      modifies this`calls
      ensures calls == old(calls) + [UserLookup(name)]
      ensures r == userByName(name)
    {
      calls := calls + [UserLookup(name)];
      r := userByName(name);
    }

    /**
     * `user.add_journey(new_journey, adventures_manager)`: either a new
     * journey is stored and its id returned, or nothing is stored.
     */
    method AddJourney(user: User, journey: NewJourney) returns (r: Result<Id, DomainError>)
      modifies this`calls, this`stored
      ensures calls == old(calls) + [JourneyAdded(user, journey)]
      ensures r == addJourneyReply(old(stored), user, journey)
      ensures stored == if r.Success? then old(stored) + 1 else old(stored)
    {
      calls := calls + [JourneyAdded(user, journey)];
      r := addJourneyReply(stored, user, journey);
      if r.Success? {
        stored := stored + 1;
      }
    }
  }

  /**
   * The `journey` handler.  The user named by the claims is looked up
   * first; when that fails its error is returned and nothing else is
   * asked of the domain layer.  Otherwise exactly one `add_journey` call
   * follows, with the form's fields copied verbatim and `source`
   * converted, and the response carries exactly the id it returned (or
   * its error).
   */
  method Journey(form: JourneyForm, auth: JwtAuth, state: AppState, sourceOf: UInt8 -> JourneySource)
    returns (r: Result<JourneyResponse, AppError>)
    modifies state`calls, state`stored
    ensures var name := auth.claims.name;
            |state.calls| > |old(state.calls)| && state.calls[|old(state.calls)|] == UserLookup(name)
    ensures var found := state.userByName(auth.claims.name);
            found.Failure? ==>
              state.calls == old(state.calls) + [UserLookup(auth.claims.name)] &&
              state.stored == old(state.stored) &&
              r == Failure(Domain(found.error))
    ensures var found := state.userByName(auth.claims.name);
            found.Success? ==>
              var command := NewJourney(form.title, form.imageUrl, form.link, sourceOf(form.source),
                                        form.journeyDestiny);
              var added := state.addJourneyReply(old(state.stored), found.value, command);
              state.calls == old(state.calls) + [UserLookup(auth.claims.name), JourneyAdded(found.value, command)] &&
              (added.Success? ==> r == Success(JourneyResponse(added.value)) && state.stored == old(state.stored) + 1) &&
              (added.Failure? ==> r == Failure(Domain(added.error)) && state.stored == old(state.stored))
  {
    var found := state.GetUserByUsername(auth.claims.name);
    if found.Failure? {
      return Failure(Domain(found.error));
    }
    var user := found.value;
    var newJourney := NewJourney(form.title, form.imageUrl, form.link, sourceOf(form.source), form.journeyDestiny);
    var added := state.AddJourney(user, newJourney);
    if added.Failure? {
      return Failure(Domain(added.error));
    }
    return Success(JourneyResponse(added.value));
  }

  /**
   * Nothing deduplicates creations: two calls with the same form and
   * identity for an existing user each make their own `add_journey` call,
   * each response carries the reply to its own call, and when the domain
   * layer keeps its promise of distinct ids two successes carry two
   * different ids.
   */
  method JourneyTwice(form: JourneyForm, auth: JwtAuth, state: AppState, sourceOf: UInt8 -> JourneySource)
    returns (first: Result<JourneyResponse, AppError>, second: Result<JourneyResponse, AppError>)
    modifies state`calls, state`stored
    ensures state.userByName(auth.claims.name).Success? ==>
              var user := state.userByName(auth.claims.name).value;
              var command := NewJourney(form.title, form.imageUrl, form.link, sourceOf(form.source),
                                        form.journeyDestiny);
              var add := JourneyAdded(user, command);
              var reply1 := state.addJourneyReply(old(state.stored), user, command);
              var between := if reply1.Success? then old(state.stored) + 1 else old(state.stored);
              var reply2 := state.addJourneyReply(between, user, command);
              |state.calls| == |old(state.calls)| + 4 &&
              state.calls[|old(state.calls)|..] == [UserLookup(auth.claims.name), add,
                                                    UserLookup(auth.claims.name), add] &&
              (reply1.Success? ==> first == Success(JourneyResponse(reply1.value))) &&
              (reply1.Failure? ==> first == Failure(Domain(reply1.error))) &&
              (reply2.Success? ==> second == Success(JourneyResponse(reply2.value))) &&
              (reply2.Failure? ==> second == Failure(Domain(reply2.error)))
    ensures state.DistinctIds() && first.Success? && second.Success? ==> first.value.id != second.value.id
  {
    first := Journey(form, auth, state, sourceOf);
    second := Journey(form, auth, state, sourceOf);
  }
}

/** The registration effect handlers: three request lifecycles, each a run of effects.

    A handler puts its `begin` action, calls a backend service, and then either puts a
    success action or, in its catch block, classifies the caught exception by HTTP status:
    it puts a failure action and logs at info level, or it logs at error level. A run is
    modelled as the sequence of effects it emits. The backend service is an input outcome;
    `camelCaseObject`, the key-casing normalizer, is an uninterpreted function parameter.
 */
module RegistrationSagas {
  import opened JsValues

  /** Stands for the `INTERNAL_SERVER_ERROR` error code of the registration data layer;
      only its being one fixed code matters here. */
  const InternalServerError: string := "internal-server-error"

  /** The payload `{ errorCode: INTERNAL_SERVER_ERROR }` of a registration failure that was
      not expected. */
  const InternalServerErrorPayload: Json := JObject(map["errorCode" := JString(InternalServerError)])

  /** Statuses for which a registration failure is expected and forwards the response body. */
  const ExpectedRegistrationStatuses: set<int> := {400, 403, 409}

  /** The single status for which the other two handlers put a failure action. */
  const Forbidden: int := 403

  /** The lifecycle actions the handlers put, one constructor per action creator. */
  datatype Action =
    | RegisterNewUserBegin
    | RegisterNewUserSuccess(authenticatedUser: Json, redirectUrl: Json, success: Json)
    | RegisterNewUserFailure(error: Json)
    | FetchRealtimeValidationsBegin
    | FetchRealtimeValidationsSuccess(fieldValidations: Json)
    | FetchRealtimeValidationsFailure
    | FetchOrganizationListBegin
    | FetchOrganizationListSuccess(organizationsList: Json)
    | FetchOrganizationListFailure

  /** The backend calls, with their arguments. */
  datatype ServiceRequest =
    | RegisterRequest(registrationInfo: Json)
    | GetFieldsValidations(formPayload: Json)
    | GetOrganizationsList

  /** How the backend call ends: it resolves with a response body or it rejects. */
  datatype ServiceOutcome = Resolved(body: Json) | Rejected(error: Exception)

  /** One effect of a handler run: a dispatched action, a service call, or a log entry. */
  datatype Effect =
    | Put(action: Action)
    | Call(request: ServiceRequest)
    | LogInfo(error: Exception)
    | LogError(error: Exception)

  /** The types of the trigger actions; any other action type starts no handler. */
  datatype ActionType =
    | RegisterNewUser
    | RegisterFormValidations
    | RegisterFormOrganizations
    | OtherAction(name: string)

  /** A dispatched trigger action: its type and its `payload` property. */
  datatype TriggerAction = TriggerAction(actionType: ActionType, payload: Json)

  datatype Handler = NewUserRegistration | RealtimeValidations | OrganizationList

  // ---------------------------------------------------------------------------
  // Classifying actions and effects

  predicate IsBeginAction(a: Action)
  {
    a.RegisterNewUserBegin? || a.FetchRealtimeValidationsBegin? || a.FetchOrganizationListBegin?
  }

  predicate IsSuccessAction(a: Action)
  {
    a.RegisterNewUserSuccess? || a.FetchRealtimeValidationsSuccess? || a.FetchOrganizationListSuccess?
  }

  predicate IsFailureAction(a: Action)
  {
    a.RegisterNewUserFailure? || a.FetchRealtimeValidationsFailure? || a.FetchOrganizationListFailure?
  }

  predicate IsBeginPut(e: Effect) { e.Put? && IsBeginAction(e.action) }
  predicate IsSuccessPut(e: Effect) { e.Put? && IsSuccessAction(e.action) }
  predicate IsFailurePut(e: Effect) { e.Put? && IsFailureAction(e.action) }
  /** A success or a failure action: the action that ends a lifecycle. */
  predicate IsTerminalPut(e: Effect) { IsSuccessPut(e) || IsFailurePut(e) }
  predicate IsCall(e: Effect) { e.Call? }
  predicate IsLog(e: Effect) { e.LogInfo? || e.LogError? }
  predicate IsErrorLog(e: Effect) { e.LogError? }

  /** The number of effects of `t` that satisfy `p`. */
  function Count(t: seq<Effect>, p: Effect -> bool): (n: nat)
    ensures n <= |t|
    ensures n == 0 <==> forall i :: 0 <= i < |t| ==> !p(t[i])
  {
    if t == [] then 0 else (if p(t[0]) then 1 else 0) + Count(t[1..], p)
  }

  lemma {:induction false} CountAppend(a: seq<Effect>, b: seq<Effect>, p: Effect -> bool)
    ensures Count(a + b, p) == Count(a, p) + Count(b, p)
  {
    if a != [] {
      assert (a + b)[1..] == a[1..] + b;
      CountAppend(a[1..], b, p);
    } else {
      assert a + b == b;
    }
  }

  /** The status of the exception's response lies in `statuses`; `e.response && ...`. */
  predicate HasStatusIn(e: Exception, statuses: set<int>): (r: bool)
    ensures r <==> e.RequestFailed? && e.response.Some? && e.response.value.status in statuses
    ensures e == TypeError || e == RequestFailed(None) ==> !r
  {
    e.ResponseOf().Some? && e.ResponseOf().value.status in statuses
  }

  // ---------------------------------------------------------------------------
  // The lifecycle every handler follows, stated once

  function BeginAction(h: Handler): (a: Action)
    ensures IsBeginAction(a)
  {
    match h
    case NewUserRegistration => RegisterNewUserBegin
    case RealtimeValidations => FetchRealtimeValidationsBegin
    case OrganizationList => FetchOrganizationListBegin
  }

  /** The service request a handler builds from the trigger action. Reading the argument
      out of the action's payload throws when the payload is `undefined` or `null`. */
  function RequestOf(h: Handler, action: TriggerAction): (c: Completion<ServiceRequest>)
    ensures c.Throw? <==> h != OrganizationList && (action.payload == JUndefined || action.payload == JNull)
    ensures c.Throw? ==> c.exception == TypeError
    ensures c.Normal? && h == NewUserRegistration ==>
              c.value == RegisterRequest(Field(action.payload, "registrationInfo"))
    ensures c.Normal? && h == RealtimeValidations ==>
              c.value == GetFieldsValidations(Field(action.payload, "formPayload"))
    ensures h == OrganizationList ==> c == Normal(GetOrganizationsList)
  {
    match h
    case NewUserRegistration =>
      (match GetProperty(action.payload, "registrationInfo")
       case Normal(info) => Normal(RegisterRequest(info))
       case Throw(e) => Throw(e))
    case RealtimeValidations =>
      (match GetProperty(action.payload, "formPayload")
       case Normal(form) => Normal(GetFieldsValidations(form))
       case Throw(e) => Throw(e))
    case OrganizationList => Normal(GetOrganizationsList)
  }

  /** The exception that reaches the handler's catch block, if any: one thrown while reading
      the request argument, the service's rejection, or the TypeError of destructuring an
      `undefined` or `null` response body. */
  function Caught(h: Handler, action: TriggerAction, service: ServiceOutcome): (r: Option<Exception>)
    ensures r.None? <==>
              RequestOf(h, action).Normal? && service.Resolved? &&
              service.body != JUndefined && service.body != JNull
    ensures r.Some? && service.Rejected? && RequestOf(h, action).Normal? ==> r.value == service.error
    ensures r.Some? && !(service.Rejected? && RequestOf(h, action).Normal?) ==> r.value == TypeError
  {
    match RequestOf(h, action)
    case Throw(e) => Some(e)
    case Normal(_) =>
      match service
      case Rejected(e) => Some(e)
      case Resolved(body) => if body == JUndefined || body == JNull then Some(TypeError) else None
  }

  /** The success action built from a response body that could be destructured. */
  function SuccessAction(h: Handler, body: Json, camelCaseObject: Json -> Json): (a: Action)
    ensures IsSuccessAction(a)
    ensures a.RegisterNewUserSuccess? <==> h == NewUserRegistration
    ensures a.FetchRealtimeValidationsSuccess? <==> h == RealtimeValidations
    ensures a.FetchOrganizationListSuccess? <==> h == OrganizationList
    ensures a.RegisterNewUserSuccess? ==>
              a.authenticatedUser == camelCaseObject(Field(body, "authenticatedUser")) &&
              a.redirectUrl == Field(body, "redirectUrl") && a.success == Field(body, "success")
    ensures a.FetchRealtimeValidationsSuccess? ==> a.fieldValidations == camelCaseObject(Field(body, "fieldValidations"))
    ensures a.FetchOrganizationListSuccess? ==> a.organizationsList == Field(body, "organizationsList")
  {
    match h
    case NewUserRegistration =>
      RegisterNewUserSuccess(
        camelCaseObject(Field(body, "authenticatedUser")), Field(body, "redirectUrl"), Field(body, "success"))
    case RealtimeValidations => FetchRealtimeValidationsSuccess(camelCaseObject(Field(body, "fieldValidations")))
    case OrganizationList => FetchOrganizationListSuccess(Field(body, "organizationsList"))
  }

  /** The payload-free failure action the realtime-validation and organization-list handlers
      put on status 403. */
  function ForbiddenFailure(h: Handler): (a: Action)
    requires h != NewUserRegistration
    ensures IsFailureAction(a)
    ensures a.FetchRealtimeValidationsFailure? <==> h == RealtimeValidations
    ensures a.FetchOrganizationListFailure? <==> h == OrganizationList
  {
    match h
    case RealtimeValidations => FetchRealtimeValidationsFailure
    case OrganizationList => FetchOrganizationListFailure
  }

  /** What a handler's catch block emits for the caught exception `e`. */
  function CatchEffects(h: Handler, e: Exception, camelCaseObject: Json -> Json): (t: seq<Effect>)
    ensures 1 <= |t| <= 2 && IsLog(t[|t| - 1]) && t[|t| - 1].error == e
  {
    match h
    case NewUserRegistration =>
      if HasStatusIn(e, ExpectedRegistrationStatuses)
      then [Put(RegisterNewUserFailure(camelCaseObject(e.ResponseOf().value.data))), LogInfo(e)]
      else [Put(RegisterNewUserFailure(InternalServerErrorPayload)), LogError(e)]
    case RealtimeValidations =>
      if HasStatusIn(e, {Forbidden}) then [Put(FetchRealtimeValidationsFailure), LogInfo(e)] else [LogError(e)]
    case OrganizationList =>
      if HasStatusIn(e, {Forbidden}) then [Put(FetchOrganizationListFailure), LogInfo(e)] else [LogError(e)]
  }

  /** The effects of one run of handler `h`: its begin action, the service call when the
      request could be built, and then the success action or what the catch block emits. */
  function HandlerTrace(h: Handler, action: TriggerAction, service: ServiceOutcome, camelCaseObject: Json -> Json)
    : (t: seq<Effect>)
    ensures 2 <= |t| <= 4 && t[0] == Put(BeginAction(h))
    ensures Caught(h, action, service).None? ==> IsSuccessPut(t[|t| - 1])
    ensures Caught(h, action, service).Some? ==> IsLog(t[|t| - 1]) && t[|t| - 1].error == Caught(h, action, service).value
  {
    [Put(BeginAction(h))] + CallPart(h, action) + Ending(h, action, service, camelCaseObject)
  }

  /** The service call, present exactly when the request argument could be read. */
  function CallPart(h: Handler, action: TriggerAction): (t: seq<Effect>)
    ensures |t| <= 1 && (forall i :: 0 <= i < |t| ==> t[i].Call?)
    ensures t != [] <==> RequestOf(h, action).Normal?
  {
    match RequestOf(h, action) case Normal(req) => [Call(req)] case Throw(_) => []
  }

  /** What follows the call: the success action, or what the catch block emits. */
  function Ending(h: Handler, action: TriggerAction, service: ServiceOutcome, camelCaseObject: Json -> Json)
    : (t: seq<Effect>)
    ensures 1 <= |t| <= 2 && (forall i :: 0 <= i < |t| ==> !t[i].Call? && !IsBeginPut(t[i]))
  {
    match Caught(h, action, service)
    case Some(e) => CatchEffects(h, e, camelCaseObject)
    case None => [Put(SuccessAction(h, service.body, camelCaseObject))]
  }

  // ---------------------------------------------------------------------------
  // The handlers, statement by statement

  /** `handleNewUserRegistration`. */
  method HandleNewUserRegistration(action: TriggerAction, service: ServiceOutcome, camelCaseObject: Json -> Json)
    returns (effects: seq<Effect>)
    ensures effects == HandlerTrace(NewUserRegistration, action, service, camelCaseObject)
  {
    effects := [Put(RegisterNewUserBegin)];
    var thrown: Option<Exception> := None;
    var registrationInfo := GetProperty(action.payload, "registrationInfo");
    if registrationInfo.Throw? {
      thrown := Some(registrationInfo.exception);
    } else {
      effects := effects + [Call(RegisterRequest(registrationInfo.value))];
      match service {
        case Rejected(e) =>
          thrown := Some(e);
        case Resolved(body) =>
          var authenticatedUser := GetProperty(body, "authenticatedUser");
          var redirectUrl := GetProperty(body, "redirectUrl");
          var success := GetProperty(body, "success");
          if authenticatedUser.Throw? {
            thrown := Some(authenticatedUser.exception);
          } else {
            effects := effects + [Put(RegisterNewUserSuccess(
              camelCaseObject(authenticatedUser.value), redirectUrl.value, success.value))];
          }
      }
    }
    if thrown.Some? {
      var e := thrown.value;
      var statusCodes := [400, 403, 409];
      if e.RequestFailed? && e.response.Some? && e.response.value.status in statusCodes {
        effects := effects + [Put(RegisterNewUserFailure(camelCaseObject(e.response.value.data)))];
        effects := effects + [LogInfo(e)];
      } else {
        effects := effects + [Put(RegisterNewUserFailure(InternalServerErrorPayload))];
        effects := effects + [LogError(e)];
      }
    }
  }

  /** `fetchRealtimeValidations`. */
  method FetchRealtimeValidations(action: TriggerAction, service: ServiceOutcome, camelCaseObject: Json -> Json)
    returns (effects: seq<Effect>)
    ensures effects == HandlerTrace(RealtimeValidations, action, service, camelCaseObject)
  {
    effects := [Put(FetchRealtimeValidationsBegin)];
    var thrown: Option<Exception> := None;
    var formPayload := GetProperty(action.payload, "formPayload");
    if formPayload.Throw? {
      thrown := Some(formPayload.exception);
    } else {
      effects := effects + [Call(GetFieldsValidations(formPayload.value))];
      match service {
        case Rejected(e) =>
          thrown := Some(e);
        case Resolved(body) =>
          var fieldValidations := GetProperty(body, "fieldValidations");
          if fieldValidations.Throw? {
            thrown := Some(fieldValidations.exception);
          } else {
            effects := effects + [Put(FetchRealtimeValidationsSuccess(camelCaseObject(fieldValidations.value)))];
          }
      }
    }
    if thrown.Some? {
      var e := thrown.value;
      if e.RequestFailed? && e.response.Some? && e.response.value.status == 403 {
        effects := effects + [Put(FetchRealtimeValidationsFailure)];
        effects := effects + [LogInfo(e)];
      } else {
        effects := effects + [LogError(e)];
      }
    }
  }

  /** `fetchOrganizationList`; it reads nothing from its trigger action. */
  method FetchOrganizationList(service: ServiceOutcome) returns (effects: seq<Effect>)
    ensures forall action: TriggerAction, camelCaseObject: Json -> Json ::
              effects == HandlerTrace(OrganizationList, action, service, camelCaseObject)
  {
    effects := [Put(FetchOrganizationListBegin)];
    var thrown: Option<Exception> := None;
    effects := effects + [Call(GetOrganizationsList)];
    match service {
      case Rejected(e) =>
        thrown := Some(e);
      case Resolved(body) =>
        var organizationsList := GetProperty(body, "organizationsList");
        if organizationsList.Throw? {
          thrown := Some(organizationsList.exception);
        } else {
          effects := effects + [Put(FetchOrganizationListSuccess(organizationsList.value))];
        }
    }
    if thrown.Some? {
      var e := thrown.value;
      if e.RequestFailed? && e.response.Some? && e.response.value.status == 403 {
        effects := effects + [Put(FetchOrganizationListFailure)];
        effects := effects + [LogInfo(e)];
      } else {
        effects := effects + [LogError(e)];
      }
    }
  }

  // ---------------------------------------------------------------------------
  // The root saga: which trigger starts which handler

  function HandlerFor(t: ActionType): (h: Option<Handler>)
    ensures h.Some? <==> !t.OtherAction?
  {
    match t
    case RegisterNewUser => Some(NewUserRegistration)
    case RegisterFormValidations => Some(RealtimeValidations)
    case RegisterFormOrganizations => Some(OrganizationList)
    case OtherAction(_) => None
  }

  /** The trigger each handler listens for. */
  function TriggerOf(h: Handler): ActionType
  {
    match h
    case NewUserRegistration => RegisterNewUser
    case RealtimeValidations => RegisterFormValidations
    case OrganizationList => RegisterFormOrganizations
  }

  /** One dispatched action delivered to the root saga: the handler registered for its type
      runs once; an action of any other type starts nothing. */
  method RunSaga(action: TriggerAction, service: ServiceOutcome, camelCaseObject: Json -> Json)
    returns (effects: seq<Effect>)
    ensures HandlerFor(action.actionType).None? ==> effects == []
    ensures HandlerFor(action.actionType).Some? ==>
              effects == HandlerTrace(HandlerFor(action.actionType).value, action, service, camelCaseObject)
  {
    match action.actionType {
      case RegisterNewUser =>
        effects := HandleNewUserRegistration(action, service, camelCaseObject);
      case RegisterFormValidations =>
        effects := FetchRealtimeValidations(action, service, camelCaseObject);
      case RegisterFormOrganizations =>
        effects := FetchOrganizationList(service);
      case OtherAction(_) =>
        effects := [];
    }
  }

  // ---------------------------------------------------------------------------
  // Properties of a handler run

  /** Counting over a run splits into its begin action, its call and its ending. */
  lemma CountHandlerTrace(
    h: Handler, action: TriggerAction, service: ServiceOutcome, camelCaseObject: Json -> Json, p: Effect -> bool)
    ensures Count(HandlerTrace(h, action, service, camelCaseObject), p)
         == Count([Put(BeginAction(h))], p) + Count(CallPart(h, action), p)
            + Count(Ending(h, action, service, camelCaseObject), p)
  {
    var b, c, e := [Put(BeginAction(h))], CallPart(h, action), Ending(h, action, service, camelCaseObject);
    CountAppend(b + c, e, p);
    CountAppend(b, c, p);
  }

  /** Every run begins with its handler's begin action, put once and before anything else;
      the service is called at most once, right after it, and only when the request argument
      could be read. */
  lemma BeginComesFirst(h: Handler, action: TriggerAction, service: ServiceOutcome, camelCaseObject: Json -> Json)
    ensures var t := HandlerTrace(h, action, service, camelCaseObject);
            2 <= |t| <= 4 && t[0] == Put(BeginAction(h)) &&
            Count(t, IsBeginPut) == 1 &&
            (forall i :: 0 <= i < |t| && t[i].Call? ==> i == 1) &&
            (Count(t, IsCall) == 1 <==> RequestOf(h, action).Normal?) &&
            Count(t, IsCall) <= 1
  {
    var t := HandlerTrace(h, action, service, camelCaseObject);
    CountHandlerTrace(h, action, service, camelCaseObject, IsBeginPut);
    CountHandlerTrace(h, action, service, camelCaseObject, IsCall);
    var c := CallPart(h, action);
    var e := Ending(h, action, service, camelCaseObject);
    assert Count(e, IsBeginPut) == 0 && Count(e, IsCall) == 0;
    assert Count(c, IsBeginPut) == 0;
  }

  /** A registration whose request goes out and whose response destructures puts begin,
      calls the service, and puts one success action carrying the normalized user and the
      untouched redirect URL and success flag; nothing is logged. */
  lemma RegistrationSuccess(action: TriggerAction, body: Json, camelCaseObject: Json -> Json)
    requires action.payload != JUndefined && action.payload != JNull
    requires body != JUndefined && body != JNull
    ensures HandlerTrace(NewUserRegistration, action, Resolved(body), camelCaseObject)
         == [Put(RegisterNewUserBegin),
             Call(RegisterRequest(Field(action.payload, "registrationInfo"))),
             Put(RegisterNewUserSuccess(
               camelCaseObject(Field(body, "authenticatedUser")), Field(body, "redirectUrl"), Field(body, "success")))]
  {
  }

  /** A registration rejected with status 400, 403 or 409 puts a failure carrying the
      normalized response body and logs the exception at info level. */
  lemma RegistrationExpectedFailure(action: TriggerAction, e: Exception, camelCaseObject: Json -> Json)
    requires action.payload != JUndefined && action.payload != JNull
    requires HasStatusIn(e, ExpectedRegistrationStatuses)
    ensures HandlerTrace(NewUserRegistration, action, Rejected(e), camelCaseObject)
         == [Put(RegisterNewUserBegin),
             Call(RegisterRequest(Field(action.payload, "registrationInfo"))),
             Put(RegisterNewUserFailure(camelCaseObject(e.ResponseOf().value.data))),
             LogInfo(e)]
  {
  }

  /** Any other exception caught by the registration handler, one without a response or a
      TypeError included, ends the run with the internal-server-error failure and an error
      log of that exception; no success action is put. */
  lemma RegistrationUnexpectedFailure(
    action: TriggerAction, service: ServiceOutcome, camelCaseObject: Json -> Json, e: Exception)
    requires Caught(NewUserRegistration, action, service) == Some(e)
    requires !HasStatusIn(e, ExpectedRegistrationStatuses)
    ensures var t := HandlerTrace(NewUserRegistration, action, service, camelCaseObject);
            |t| >= 3 && t[|t| - 2..] == [Put(RegisterNewUserFailure(InternalServerErrorPayload)), LogError(e)] &&
            Count(t, IsSuccessPut) == 0
  {
    var t := HandlerTrace(NewUserRegistration, action, service, camelCaseObject);
    CountHandlerTrace(NewUserRegistration, action, service, camelCaseObject, IsSuccessPut);
    assert t[|t| - 2..] == Ending(NewUserRegistration, action, service, camelCaseObject);
  }

  /** Every registration run puts exactly one success-or-failure action. */
  lemma RegistrationEndsWithOneTerminalAction(action: TriggerAction, service: ServiceOutcome, camelCaseObject: Json -> Json)
    ensures Count(HandlerTrace(NewUserRegistration, action, service, camelCaseObject), IsTerminalPut) == 1
  {
    CountHandlerTrace(NewUserRegistration, action, service, camelCaseObject, IsTerminalPut);
  }

  /** The realtime-validation and organization-list handlers put a failure action only for
      an exception whose response has status 403, and then log it at info level; for any
      other caught exception they put no success or failure action at all and end with an
      error log. */
  lemma OtherHandlersFailOnlyOnForbidden(
    h: Handler, action: TriggerAction, service: ServiceOutcome, camelCaseObject: Json -> Json)
    requires h != NewUserRegistration
    ensures var t := HandlerTrace(h, action, service, camelCaseObject);
            var caught := Caught(h, action, service);
            (Count(t, IsFailurePut) == 1 <==> caught.Some? && HasStatusIn(caught.value, {Forbidden})) &&
            (caught.Some? && HasStatusIn(caught.value, {Forbidden}) ==>
               |t| >= 3 && t[|t| - 2..] == [Put(ForbiddenFailure(h)), LogInfo(caught.value)]) &&
            (caught.Some? && !HasStatusIn(caught.value, {Forbidden}) ==>
               Count(t, IsTerminalPut) == 0 && t[|t| - 1] == LogError(caught.value))
  {
    var t := HandlerTrace(h, action, service, camelCaseObject);
    CountHandlerTrace(h, action, service, camelCaseObject, IsFailurePut);
    CountHandlerTrace(h, action, service, camelCaseObject, IsTerminalPut);
    var e := Ending(h, action, service, camelCaseObject);
    assert t[|t| - 1] == e[|e| - 1];
    assert |e| == 2 ==> t[|t| - 2..] == e;
  }

  /** A 403 rejection of a request that went out gives realtime validation its exact
      four-effect run: begin, the call, the payload-free failure action, and an info log. */
  lemma RealtimeValidationsForbiddenTrace(action: TriggerAction, e: Exception, camelCaseObject: Json -> Json)
    requires action.payload != JUndefined && action.payload != JNull
    requires HasStatusIn(e, {Forbidden})
    ensures HandlerTrace(RealtimeValidations, action, Rejected(e), camelCaseObject)
         == [Put(FetchRealtimeValidationsBegin), Call(GetFieldsValidations(Field(action.payload, "formPayload"))),
             Put(FetchRealtimeValidationsFailure), LogInfo(e)]
  {
  }

  /** A 403 rejection gives the organization list its exact four-effect run, whatever the
      trigger action carries: begin, the call, the payload-free failure action, and an info log. */
  lemma OrganizationListForbiddenTrace(action: TriggerAction, e: Exception, camelCaseObject: Json -> Json)
    requires HasStatusIn(e, {Forbidden})
    ensures HandlerTrace(OrganizationList, action, Rejected(e), camelCaseObject)
         == [Put(FetchOrganizationListBegin), Call(GetOrganizationsList), Put(FetchOrganizationListFailure), LogInfo(e)]
  {
  }

  /** A run logs at most once, and logs exactly when an exception was caught; so every run
      emits exactly one of a success action and a log entry. */
  lemma AtMostOneLogOnlyOnFailure(h: Handler, action: TriggerAction, service: ServiceOutcome, camelCaseObject: Json -> Json)
    ensures var t := HandlerTrace(h, action, service, camelCaseObject);
            Count(t, IsLog) <= 1 &&
            (Count(t, IsLog) == 1 <==> Caught(h, action, service).Some?) &&
            Count(t, IsLog) + Count(t, IsSuccessPut) == 1
  {
    CountHandlerTrace(h, action, service, camelCaseObject, IsLog);
    CountHandlerTrace(h, action, service, camelCaseObject, IsSuccessPut);
  }

  /** Realtime-validation success passes the field validations through `camelCaseObject`. */
  lemma RealtimeValidationsSuccessNormalized(action: TriggerAction, body: Json, camelCaseObject: Json -> Json)
    requires action.payload != JUndefined && action.payload != JNull
    requires body != JUndefined && body != JNull
    ensures HandlerTrace(RealtimeValidations, action, Resolved(body), camelCaseObject)
         == [Put(FetchRealtimeValidationsBegin),
             Call(GetFieldsValidations(Field(action.payload, "formPayload"))),
             Put(FetchRealtimeValidationsSuccess(camelCaseObject(Field(body, "fieldValidations"))))]
  {
  }

  /** Organization-list success passes the list through as the service returned it. */
  lemma OrganizationListSuccessRaw(action: TriggerAction, body: Json, camelCaseObject: Json -> Json)
    requires body != JUndefined && body != JNull
    ensures HandlerTrace(OrganizationList, action, Resolved(body), camelCaseObject)
         == [Put(FetchOrganizationListBegin), Call(GetOrganizationsList),
             Put(FetchOrganizationListSuccess(Field(body, "organizationsList")))]
  {
  }

  /** The organization-list run depends on neither the trigger action nor the normalizer. */
  lemma OrganizationListIgnoresActionAndNormalizer(
    action1: TriggerAction, action2: TriggerAction, service: ServiceOutcome,
    camelCase1: Json -> Json, camelCase2: Json -> Json)
    ensures HandlerTrace(OrganizationList, action1, service, camelCase1)
         == HandlerTrace(OrganizationList, action2, service, camelCase2)
  {
  }

  /** Registration failures by status: 409 forwards the normalized body, 500 and a
      rejection without a response are internal server errors. */
  lemma RegistrationFailureExamples(action: TriggerAction, data: Json, camelCaseObject: Json -> Json)
    requires action.payload != JUndefined && action.payload != JNull
    ensures var conflict := RequestFailed(Some(Response(409, data)));
            HandlerTrace(NewUserRegistration, action, Rejected(conflict), camelCaseObject)[2]
              == Put(RegisterNewUserFailure(camelCaseObject(data)))
    ensures var serverError := RequestFailed(Some(Response(500, data)));
            HandlerTrace(NewUserRegistration, action, Rejected(serverError), camelCaseObject)[2..]
              == [Put(RegisterNewUserFailure(InternalServerErrorPayload)), LogError(serverError)]
    ensures var noResponse := RequestFailed(None);
            HandlerTrace(NewUserRegistration, action, Rejected(noResponse), camelCaseObject)[2..]
              == [Put(RegisterNewUserFailure(InternalServerErrorPayload)), LogError(noResponse)]
  {
  }

  /** A trigger action whose payload is `undefined` or `null` makes the argument read throw
      a TypeError before any service call: registration then puts the internal-server-error
      failure and logs the TypeError as an error; realtime validation only logs it. */
  lemma MissingPayload(action: TriggerAction, service: ServiceOutcome, camelCaseObject: Json -> Json)
    requires action.payload == JUndefined || action.payload == JNull
    ensures HandlerTrace(NewUserRegistration, action, service, camelCaseObject)
         == [Put(RegisterNewUserBegin), Put(RegisterNewUserFailure(InternalServerErrorPayload)), LogError(TypeError)]
    ensures HandlerTrace(RealtimeValidations, action, service, camelCaseObject)
         == [Put(FetchRealtimeValidationsBegin), LogError(TypeError)]
  {
  }

  /** Each trigger type starts exactly one handler and each handler has exactly one trigger. */
  lemma TriggerMapping(t: ActionType, h: Handler)
    ensures HandlerFor(t) == Some(h) <==> t == TriggerOf(h)
  {
  }
}

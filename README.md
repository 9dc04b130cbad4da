# Registration form: organization validator and registration effect handlers

This project models two pieces of a user-registration front end.

- **Organization field validator** (`OrganizationValidator`, `organization_validator.dfy`). It is a pure function from the typed value, the organization list and an error message to `{ error, organizationCode, displayValue }`. The error is the supplied message when the value is blank, as JavaScript's `String.prototype.trim` defines blank, and empty otherwise. The code is always empty. The display value is the value exactly as typed. The organization list is never read. `IsWhitespace` lists the code points `trim` removes: ECMAScript WhiteSpace (TAB, VT, FF, ZWNBSP, every Unicode Zs separator) and LineTerminator (LF, CR, U+2028, U+2029). `TrimStart`, `TrimEnd` and `Trim` model `trim` itself.
- **Registration effect handlers** (`RegistrationSagas`, `registration_sagas.dfy`, with the JavaScript values they touch in `JsValues`, `js_values.dfy`). These are the three request lifecycles: new-user registration, realtime field validation and fetching the organization list.
  - Each generator is a method that builds, statement by statement, the sequence of effects it emits. An effect is a `Put` of an action, the `Call` of a service, `LogInfo` or `LogError`.
  - Every method is proved equal to `HandlerTrace`. That function states the lifecycle once for all three handlers: begin, then the call when its argument could be read, then either the success action or what the catch block emits.
  - The catch block classifies the exception it caught. Registration treats statuses 400, 403 and 409 as expected: it puts a failure carrying the normalized response body and logs at info level. Registration treats every other exception as an internal server error and logs it at error level. The other two handlers put a failure action only for status 403. For any other exception they only log an error. This asymmetry is kept as the code has it.
  - The backend call is an input (`Resolved(body)` or `Rejected(exception)`). `camelCaseObject` is a function parameter that nothing constrains.
  - Reading a property of `undefined` or `null` throws a TypeError, as in JavaScript. This covers `action.payload.registrationInfo` on an `undefined` or `null` payload and destructuring an `undefined` or `null` response body. Any other body, `{}` or `''` say, destructures to `undefined` fields. The handler's own catch block catches that error. It has no response, so it falls into the unexpected branch.
  - `RunSaga` models the root saga: the trigger type of one dispatched action selects the handler that runs.

The repository's own text promises more of the validator than the code does. The component's doc comment (`OrganizationField.jsx:18`) speaks of performing organization field validations. A test (`OrganizationField.test.jsx:142-153`) expects the resolved code `'orgX1'` for a chosen organization. The validator (`validator.js:4-13`) matches nothing against the list. This model follows the validator's code.

## Model

| member | source | states |
|---|---|---|
| `OrganizationValidator.MakeOrganization` | src/register/RegistrationFields/OrganizationField/OrganizationField.test.jsx:55-58 | a record built under the code key and the display key has exactly the keys `code` and `name` and holds both values |
| `OrganizationValidator.IsWhitespaceExactly` | src/register/RegistrationFields/OrganizationField/validator.js:9 | `IsWhitespace` holds of exactly the 25 code points `trim` removes: TAB, VT, FF, SPACE, NBSP, ZWNBSP, the Zs separators U+1680, U+2000-U+200A, U+202F, U+205F, U+3000, and LF, CR, U+2028, U+2029 |
| `OrganizationValidator.TrimStart` | src/register/RegistrationFields/OrganizationField/validator.js:9 | the result is a suffix of the input; everything removed is whitespace; the result is empty or starts with a non-whitespace character |
| `OrganizationValidator.TrimEnd` | src/register/RegistrationFields/OrganizationField/validator.js:9 | the result is a prefix of the input; everything removed is whitespace; the result is empty or ends with a non-whitespace character |
| `OrganizationValidator.Trim` | src/register/RegistrationFields/OrganizationField/validator.js:9 | `trim()` is a contiguous piece of the input with only whitespace before and after it; it is empty exactly when the input is blank, and otherwise begins and ends with a non-whitespace character |
| `OrganizationValidator.TrimIsInfix` | src/register/RegistrationFields/OrganizationField/validator.js:9 | the trimmed string sits in the input right after the removed leading whitespace, with only whitespace after it |
| `OrganizationValidator.TrimEndEmptyIffBlank` | src/register/RegistrationFields/OrganizationField/validator.js:9 | removing trailing whitespace leaves nothing if and only if the string is blank |
| `OrganizationValidator.TrimStartPreservesBlank` | src/register/RegistrationFields/OrganizationField/validator.js:9 | removing leading whitespace yields a blank string if and only if the input is blank |
| `OrganizationValidator.TrimEmptyIffBlank` | src/register/RegistrationFields/OrganizationField/validator.js:9 | `value.trim()` is empty (falsy) exactly when every character of the value is whitespace |
| `OrganizationValidator.ValidateOrganizationField` | src/register/RegistrationFields/OrganizationField/validator.js:4-13 | the code is always `''`; the display value is the input untrimmed; a blank input gets the supplied message as error, any other input gets `''` |
| `OrganizationValidator.ValidateErrorEmptyIff` | src/register/RegistrationFields/OrganizationField/validator.js:7-11 | the error is empty if and only if the value has a non-whitespace character or the supplied message is empty |
| `OrganizationValidator.ValidateIgnoresOrganizationList` | src/register/RegistrationFields/OrganizationField/validator.js:4-13 | two calls differing only in the organization list return equal triples |
| `OrganizationValidator.ValidateIdempotent` | src/register/RegistrationFields/OrganizationField/validator.js:6-12 | validating the returned display value again with the same message returns the same triple |
| `OrganizationValidator.ValidateExamples` | src/register/RegistrationFields/OrganizationField/validator.js:4-13 | `''` and a whitespace-only value get the message; `' Demo Org 1 '` against a list holding that name gets no error, no code and stays padded |
| `JsValues.Field` | src/register/data/sagas.js:26 | a property read returns the object's field when present; anything other than `undefined` comes from an object field of that key |
| `JsValues.GetProperty` | src/register/data/sagas.js:26 | a property read or destructuring throws a TypeError exactly when the value is `undefined` or `null`, and otherwise yields the property |
| `RegistrationSagas.HasStatusIn` | src/register/data/sagas.js:35 | the status test `e.response && codes.includes(e.response.status)` holds exactly when the exception is a failed request with a response whose status is in the set; never for a TypeError or a failure without response |
| `RegistrationSagas.RequestOf` | src/register/data/sagas.js:26 | building the request throws, with a TypeError, exactly when the handler reads an argument and the payload is `undefined` or `null`; otherwise it is `registerRequest(payload.registrationInfo)`, `getFieldsValidations(payload.formPayload)` or `getOrganizationsList()` |
| `RegistrationSagas.Caught` | src/register/data/sagas.js:23-33 | no exception reaches the catch block exactly when the argument was read, the service resolved, and its body was neither `undefined` nor `null`; a rejection after the call is the caught exception; every other caught exception is a TypeError |
| `RegistrationSagas.SuccessAction` | src/register/data/sagas.js:28-32 | each handler puts its own success action: registration with `camelCaseObject(authenticatedUser)` and the raw `redirectUrl` and `success`, validations with `camelCaseObject(fieldValidations)`, the organization list with the raw `organizationsList` |
| `RegistrationSagas.ForbiddenFailure` | src/register/data/sagas.js:53 | the failure action put on status 403 is the handler's own: `fetchRealtimeValidationsFailure()` for validations, `fetchOrganizationListFailure()` (line 69) for the list, and each only for its own handler |
| `RegistrationSagas.CatchEffects` | src/register/data/sagas.js:33-42 | a catch block emits one or two effects and always ends by logging the caught exception |
| `RegistrationSagas.HandlerTrace` | src/register/data/sagas.js:22-75 | a run has 2 to 4 effects, starts with its begin action, and ends with a success action when nothing was caught and with a log of the caught exception otherwise |
| `RegistrationSagas.HandleNewUserRegistration` | src/register/data/sagas.js:22-43 | the effects emitted are exactly the registration lifecycle trace for the action and the service outcome |
| `RegistrationSagas.FetchRealtimeValidations` | src/register/data/sagas.js:45-59 | the effects emitted are exactly the realtime-validation lifecycle trace |
| `RegistrationSagas.FetchOrganizationList` | src/register/data/sagas.js:61-75 | the effects emitted are exactly the organization-list lifecycle trace, whatever the trigger action and the normalizer |
| `RegistrationSagas.HandlerFor` | src/register/data/sagas.js:77-81 | an action type starts a handler exactly when it is one of the three trigger types |
| `RegistrationSagas.RunSaga` | src/register/data/sagas.js:77-81 | an action of a trigger type emits that handler's trace; any other action emits nothing |
| `RegistrationSagas.MissingPayload` | src/register/data/sagas.js:22-58 | with an `undefined` or `null` payload no service is called: registration puts the internal-server-error failure and logs the TypeError; realtime validation only logs it |
| `RegistrationSagas.TriggerMapping` | src/register/data/sagas.js:78-80 | `REGISTER_NEW_USER`, `REGISTER_FORM_VALIDATIONS` and `REGISTER_FORM_ORGANIZATIONS` map one-to-one to registration, validations and organization list |
| `RegistrationSagas.BeginComesFirst` | src/register/data/sagas.js:22-26 | every run has 2 to 4 effects and begins with its own begin action, put exactly once; the service is called at most once, only at position 1, and exactly when the request argument could be read |
| `RegistrationSagas.RegistrationSuccess` | src/register/data/sagas.js:24-32 | on success the run is begin, the call, and one success action carrying `camelCaseObject(authenticatedUser)` and the unchanged `redirectUrl` and `success`; no log |
| `RegistrationSagas.RegistrationExpectedFailure` | src/register/data/sagas.js:34-37 | a rejection with status 400, 403 or 409 yields begin, the call, a failure carrying `camelCaseObject(response.data)`, and an info log; no error log |
| `RegistrationSagas.RegistrationUnexpectedFailure` | src/register/data/sagas.js:38-41 | any other caught exception, one without a response included, ends the run with the `INTERNAL_SERVER_ERROR` failure and an error log of it; no success |
| `RegistrationSagas.RegistrationEndsWithOneTerminalAction` | src/register/data/sagas.js:28-41 | every registration run puts exactly one success-or-failure action |
| `RegistrationSagas.OtherHandlersFailOnlyOnForbidden` | src/register/data/sagas.js:51-58 | for validations and organization list, a failure action is put if and only if the caught exception has status 403, and the run then ends with that handler's own payload-free failure action and an info log; any other exception leaves no success or failure action and ends with an error log |
| `RegistrationSagas.RealtimeValidationsForbiddenTrace` | src/register/data/sagas.js:45-54 | a 403 rejection of a request that went out gives validations begin, the call, `fetchRealtimeValidationsFailure()` and an info log |
| `RegistrationSagas.OrganizationListForbiddenTrace` | src/register/data/sagas.js:61-70 | for any trigger action, a 403 rejection gives the organization list begin, the call, `fetchOrganizationListFailure()` and an info log |
| `RegistrationSagas.AtMostOneLogOnlyOnFailure` | src/register/data/sagas.js:33-42 | a run logs at most once, logs exactly when an exception was caught, and emits exactly one of a success action or a log |
| `RegistrationSagas.RealtimeValidationsSuccessNormalized` | src/register/data/sagas.js:47-50 | realtime-validation success puts `camelCaseObject(fieldValidations)` |
| `RegistrationSagas.OrganizationListSuccessRaw` | src/register/data/sagas.js:63-66 | organization-list success puts `organizationsList` exactly as returned, not normalized |
| `RegistrationSagas.OrganizationListIgnoresActionAndNormalizer` | src/register/data/sagas.js:61-75 | the organization-list run is the same for every trigger action and every normalizer |
| `RegistrationSagas.RegistrationFailureExamples` | src/register/data/sagas.js:34-41 | status 409 forwards the normalized body; status 500 and a rejection without a response put the internal-server-error failure and log an error |

## Left out

- The organization field component (`OrganizationField.jsx`) is not modelled. It is UI glue over hooks and a form-group component. Its blur handler passes `formatMessage` where the validator expects the list. It then tests the returned object, which is always truthy. It also passes no error message, so a blank value there gets `error: undefined`; the model types the message as a string. These quirks stay outside the model.
- `OrganizationField.test.jsx` is not a source of validator properties. It expects list matching (a resolved `organizationCode`), which the validator does not implement.
- The backend services `registerRequest`, `getFieldsValidations` and `getOrganizationsList` are foreign code. They are an input outcome.
- A service that rejects with `undefined` or `null` is not modelled; rejections are assumed to be objects. For such a rejection, reading `e.response` (`sagas.js:35`, `:52`, `:68`) would throw inside the catch block. The error would escape the handler after begin and the call, with no failure action and no log.
- The action creators and trigger type constants live in `actions.js`, which is not part of this model. They are the constructors of `Action` and `ActionType`.
- `INTERNAL_SERVER_ERROR` lives in `constants.js`, which is not part of this model. `InternalServerError` is a placeholder string; only its identity matters.
- `camelCaseObject` is an unconstrained function parameter. The model does not say how it changes key casing.
- `logInfo` and `logError` are foreign calls. They appear only as trace entries carrying the logged exception.
- The redux-saga runtime is not modelled: `takeEvery` forking, generator suspension, concurrent handler instances and the store. One handler run for one dispatched action is modelled.
- An exception thrown by `put` itself (a failing reducer) or by `camelCaseObject` is not modelled. Such an exception would reach the catch block or escape from it.
- JavaScript numbers are floating point. Statuses are modelled as integers, compared as `includes` and `===` compare numbers. A non-numeric `status` is not modelled.
- Property reads on strings, numbers, booleans and arrays give `undefined` in the model. None of the keys the handlers read is a built-in property of those values.
- Strings are sequences of Unicode scalar values. JavaScript strings are UTF-16, so a lone surrogate cannot be written in the model. `trim` never removes a surrogate, so blankness is unaffected.

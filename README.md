# Account CRUD service with Basic-auth protection — a Dafny model

This project models the core of a Spring Boot account service. Every request passes through one pipeline:

1. **Authentication.** HTTP Basic credentials are checked against an in-memory user store. The store is built at startup from the `app.security` admin and viewer lists.
2. **Authorization.** An ordered table of access rules applies, and the first matching rule decides. Swagger and actuator paths require ADMIN. `GET` under `/api/v2` needs ADMIN or VIEWER. Any other request under `/api/v2` needs ADMIN. Everything else is open.
3. **Validation.** Bean Validation checks the `AccountRequest` payload.
4. **Service call.** The `AccountServiceImpl` operations run over the repository.
5. **Status.** The controller maps the result to a status, or the exception handler maps a failure to a JSON error envelope.

The files are laid out as follows:

- `security_properties.dfy` (`SecurityProperties`): the configuration, its constraint violations, and their messages.
- `security_config.dfy` (`SecurityConfig`):
  - building the user store, and authentication;
  - the request matchers and the rule table;
  - the first-match authorization decision.
- `account_request.dfy` (`AccountRequests`): the four constraints on the payload (three `@NotBlank`, one `@Email`), and the field errors they produce.
- `rest_exception_handler.dfy` (`RestErrors`):
  - the error envelope;
  - the 404 handler;
  - the 400 handler, with its loop that collects field errors into the `details` map (the last error on a field wins).
- `account_service.dfy` (`AccountService`): the repository as a value `StoreState`, plus the five operations as specification functions on it. The class `AccountServiceImpl` keeps the store in mutable fields, and each of its methods is proved against the matching function.
- `account_controller.dfy` (`AccountApi`):
  - the v2 controller's handlers, as methods over the service object;
  - the whole pipeline, as the function `Respond` and the method `Handle`, which is proved equal to `Respond`;
  - the end-to-end properties.
- `basics.dfy` and `wrappers.dfy`: shared helpers. Java `null` is `None` of `JString`. `Long.toString` is `LongToString`.

These properties are proved:

- Access control:
  - Under `/api/v2`, a read needs any authenticated user and a write needs ADMIN.
  - The v1 endpoints are open.
  - Anonymous requests are never answered 403, and an ADMIN is always admitted.
- Rejected requests:
  - Rejected credentials get 401 on every path.
  - A viewer's write gets 403, and the store is unchanged.
  - Any request that fails leaves the store unchanged.
- Payload validation:
  - Validation gates the service call: a bad body gets 400 with the offending fields in `details`, before the service runs.
  - Each constraint is reported exactly when it is violated.
- Store:
  - Every operation keeps the store's id invariant.
  - Not-found responses carry `Account not found with id: <id>`.
  - The list contains every stored account exactly once.
- Configuration:
  - A configuration without admins is refused at startup.
  - Each configured user authenticates with its own role.

## Model

| member | source | states |
|---|---|---|
| SecurityProperties.Violations | src/main/java/net/javaguides/springboot/config/AppSecurityProperties.java:16-21 | "no admins" is reported iff the admin list is empty; a blank name or password at index i of either list is reported iff that entry is blank; every reported entry violation names an index inside its list; there are no violations iff the configuration is valid; no violation is reported twice |
| SecurityProperties.ListViolations | src/main/java/net/javaguides/springboot/config/AppSecurityProperties.java:39-44 | each entry's username and password violation is reported iff that field is null or blank; the list is clean iff every entry is valid; no violation is reported twice |
| SecurityProperties.DefaultsRejected | src/main/java/net/javaguides/springboot/config/AppSecurityProperties.java:16-18 | a default configuration (both lists empty) fails binding with exactly one violation, whose message is "At least one admin credential must be configured" |
| SecurityProperties.ViewersMayBeEmpty | src/main/java/net/javaguides/springboot/config/AppSecurityProperties.java:20-21 | with an empty viewer list, a configuration is valid iff it has at least one admin and every admin entry is non-blank |
| SecurityConfig.BuildUsers | src/main/java/net/javaguides/springboot/config/SecurityConfig.java:53-58 | every credential becomes a user with its own name, its own password and the list's role, in list order |
| SecurityConfig.UserDetailsService | src/main/java/net/javaguides/springboot/config/SecurityConfig.java:39-51 | the user store holds all admins as ADMIN, then all viewers as VIEWER, nothing else |
| SecurityConfig.Startup | src/main/java/net/javaguides/springboot/config/SecurityConfig.java:39-51 | startup fails iff the configuration has a violation (all of them reported) or two users share a name (one such name reported); otherwise it yields exactly the user store, whose names are distinct |
| SecurityConfig.FirstDuplicate | src/main/java/net/javaguides/springboot/config/SecurityConfig.java:50 | nothing is found iff all names differ; a name found is held by two different users |
| SecurityConfig.RepeatedNameStopsStartup | src/main/java/net/javaguides/springboot/config/SecurityConfig.java:50 | two admin entries with the same valid credentials bind without violations, yet startup fails naming that user |
| SecurityConfig.FindUser | src/main/java/net/javaguides/springboot/config/SecurityConfig.java:50 | the lookup returns a stored user with the requested name, and returns nothing iff no user has that name |
| SecurityConfig.FindUniqueUser | src/main/java/net/javaguides/springboot/config/SecurityConfig.java:50 | with unique names, looking up a stored user's name finds that user |
| SecurityConfig.UserAuthenticates | src/main/java/net/javaguides/springboot/config/SecurityConfig.java:70 | a stored user presenting its own password is authenticated with its role; any other password is rejected |
| SecurityConfig.ConfiguredRoles | src/main/java/net/javaguides/springboot/config/SecurityConfig.java:39-58 | every configured admin authenticates as ADMIN and every configured viewer as VIEWER |
| SecurityConfig.UnknownUserRejected | src/main/java/net/javaguides/springboot/config/SecurityConfig.java:70 | a name no user has is rejected whatever the password |
| SecurityConfig.FirstMatch | src/main/java/net/javaguides/springboot/config/SecurityConfig.java:64-69 | the chosen rule matches the request and no earlier rule does; nothing is chosen only if no rule matches |
| SecurityConfig.RuleTableMatches | src/main/java/net/javaguides/springboot/config/SecurityConfig.java:64-69 | the five rules match respectively the Swagger paths, the actuator subtree, GET under /api/v2, anything under /api/v2, and every request |
| SecurityConfig.SwaggerRequiresAdmin | src/main/java/net/javaguides/springboot/config/SecurityConfig.java:65 | a Swagger path is decided as ADMIN-only for every method |
| SecurityConfig.ActuatorRequiresAdmin | src/main/java/net/javaguides/springboot/config/SecurityConfig.java:66 | an actuator path is decided as ADMIN-only for every method |
| SecurityConfig.V2PathSkipsAdminPaths | src/main/java/net/javaguides/springboot/config/SecurityConfig.java:65-66 | no path under /api/v2 matches the Swagger or actuator rules |
| SecurityConfig.V2ReadIsDecidedByReadRule | src/main/java/net/javaguides/springboot/config/SecurityConfig.java:67-68 | a GET under /api/v2 is decided by the read rule, so a viewer is admitted even though the later ADMIN-only rule also matches and would forbid it |
| SecurityConfig.V2WriteRequiresAdmin | src/main/java/net/javaguides/springboot/config/SecurityConfig.java:68 | any non-GET request under /api/v2 is ADMIN-only |
| SecurityConfig.UnprotectedPathsAreOpen | src/main/java/net/javaguides/springboot/config/SecurityConfig.java:69 | a path outside Swagger, actuator and /api/v2 is allowed to everyone, anonymous included |
| SecurityConfig.Authenticate | src/main/java/net/javaguides/springboot/config/SecurityConfig.java:70 | no credentials leave the request anonymous; a request whose username is configured under no account is rejected as an unknown user, and only then; an authenticated principal carries the presented username and a role with which that username and password are configured |
| SecurityConfig.Authorize | src/main/java/net/javaguides/springboot/config/SecurityConfig.java:64-69 | an ADMIN is allowed on every path and method; a request is forbidden only for an authenticated VIEWER, and sent to authenticate only when anonymous |
| SecurityConfig.AuthorizeTable | src/main/java/net/javaguides/springboot/config/SecurityConfig.java:64-69 | the whole decision table: Swagger and actuator paths are ADMIN-only, GET under /api/v2 needs any authenticated user, other methods under /api/v2 need ADMIN, every other path is allowed |
| AccountRequests.Violations | src/main/java/net/javaguides/springboot/dto/AccountRequest.java:18-29 | each of the four field errors (first name, last name and email required; email malformed) is reported iff its constraint is violated, at most once, and nothing else is reported; no errors iff the payload is acceptable |
| AccountRequests.ExpectedDetails | src/main/java/net/javaguides/springboot/dto/AccountRequest.java:18-29 | given which constraints fail, the details map has firstName and lastName entries exactly when blank with their messages, an email entry exactly when the email is blank or malformed, and no other keys |
| AccountRequests.ViolationDetails | src/main/java/net/javaguides/springboot/exception/RestExceptionHandler.java:30-34 | the handler's details map for a payload's violations is the ExpectedDetails of which of its constraints fail |
| AccountRequests.DetailsFields | src/main/java/net/javaguides/springboot/dto/AccountRequest.java:18-29 | the details map only ever names firstName, lastName and email |
| AccountRequests.FirstNameDetailsReported | src/main/java/net/javaguides/springboot/dto/AccountRequest.java:19 | firstName is in the details iff it is blank, with "First name is required" |
| AccountRequests.LastNameDetailsReported | src/main/java/net/javaguides/springboot/dto/AccountRequest.java:23 | lastName is in the details iff it is blank, with "Last name is required" |
| AccountRequests.EmailDetailsReported | src/main/java/net/javaguides/springboot/dto/AccountRequest.java:27-28 | email is in the details iff it is blank or malformed; its message is "Email is required" or "Email must be valid", and exactly the one that applies when only one constraint fails |
| AccountRequests.BlankFirstNameAndBadEmailReportedTogether | src/test/java/net/javaguides/springboot/controller/AccountControllerTest.java:79-89 | a blank first name with a malformed email yields exactly the firstName and email details |
| RestErrors.BuildPayload | src/main/java/net/javaguides/springboot/exception/RestExceptionHandler.java:51-57 | the envelope carries the status code, its reason phrase and the message |
| RestErrors.HandleEntityNotFound | src/main/java/net/javaguides/springboot/exception/RestExceptionHandler.java:20-23 | a missing entity becomes 404 "Not Found" with the exception's message |
| RestErrors.FieldDetailsMeaning | src/main/java/net/javaguides/springboot/exception/RestExceptionHandler.java:30-34 | the details map's keys are exactly the reported fields, and each maps to the last message reported for it |
| RestErrors.FieldDetailsAppend | src/main/java/net/javaguides/springboot/exception/RestExceptionHandler.java:31-33 | collecting two batches of errors in turn equals the first batch's map overridden by the second's |
| RestErrors.CollectFieldDetails | src/main/java/net/javaguides/springboot/exception/RestExceptionHandler.java:31-33 | the put loop builds exactly the details map of the errors |
| RestErrors.BadRequestResponse | src/main/java/net/javaguides/springboot/exception/RestExceptionHandler.java:25-45 | every bad request becomes 400 "Invalid request"; field and constraint violations give a field-to-message map; other causes give the exception message |
| RestErrors.HandleBadRequest | src/main/java/net/javaguides/springboot/exception/RestExceptionHandler.java:25-45 | the handler builds exactly that response |
| AccountService.Create | src/main/java/net/javaguides/springboot/service/impl/AccountServiceImpl.java:21-25 | the new account gets the next id and the request's three fields; other accounts are unchanged; the store invariant is kept |
| AccountService.Get | src/main/java/net/javaguides/springboot/service/impl/AccountServiceImpl.java:28-31 | found iff the id is stored, then with the stored fields; otherwise "Account not found with id: " followed by the id |
| AccountService.Update | src/main/java/net/javaguides/springboot/service/impl/AccountServiceImpl.java:43-53 | succeeds iff the id is stored; then the three fields are replaced and nothing else changes; otherwise the store is unchanged |
| AccountService.Delete | src/main/java/net/javaguides/springboot/service/impl/AccountServiceImpl.java:56-61 | succeeds iff the id is stored; then exactly that account is removed; otherwise the store is unchanged |
| AccountService.ListingComplete | src/main/java/net/javaguides/springboot/service/impl/AccountServiceImpl.java:35-40 | the listing of an id range holds each stored account in the range once, mapped to its response, in ascending id order |
| AccountService.All | src/main/java/net/javaguides/springboot/service/impl/AccountServiceImpl.java:35-40 | every listed account is a stored one with its fields, ids are distinct, and every stored account is listed |
| AccountService.AccountServiceImpl.constructor | src/main/java/net/javaguides/springboot/service/impl/AccountServiceImpl.java:14-18 | a new service starts with an empty repository whose next id is 1 |
| AccountService.AccountServiceImpl.CreateAccount | src/main/java/net/javaguides/springboot/service/impl/AccountServiceImpl.java:21-25 | the fields become the state that Create describes |
| AccountService.AccountServiceImpl.GetAccountById | src/main/java/net/javaguides/springboot/service/impl/AccountServiceImpl.java:28-31 | returns what Get describes and changes nothing |
| AccountService.AccountServiceImpl.GetAllAccounts | src/main/java/net/javaguides/springboot/service/impl/AccountServiceImpl.java:35-40 | the scan over assigned ids returns exactly the listing that All describes |
| AccountService.AccountServiceImpl.UpdateAccount | src/main/java/net/javaguides/springboot/service/impl/AccountServiceImpl.java:43-53 | state and result are those of Update |
| AccountService.AccountServiceImpl.DeleteAccount | src/main/java/net/javaguides/springboot/service/impl/AccountServiceImpl.java:56-61 | state and result are those of Delete |
| AccountApi.ReadBody | src/main/java/net/javaguides/springboot/controller/AccountControllerV2.java:28 | a body reaches the handler iff it is readable and acceptable; otherwise the answer is exactly the exception handler's 400 "Bad Request"/"Invalid request" response, with the field details of the payload's violations or the reader's message |
| AccountApi.Dispatch | src/main/java/net/javaguides/springboot/controller/AccountControllerV2.java:25-64 | a rejected body gets its 400 and nothing else happens; create gets 201 with the next id and the request's fields; get gets 200 with the stored account iff it exists; list gets 200 with every account; update gets 200 with the new fields iff the id exists; delete gets 204 and removes the account iff it exists; a missing id gets 404 naming it; any non-success leaves the store unchanged and the store invariant is kept |
| AccountApi.Admission | src/main/java/net/javaguides/springboot/config/SecurityConfig.java:64-70 | bad credentials get 401 on every path; anonymous v2 requests get 401; v1 requests with acceptable or no credentials are passed to the handler; 403 is answered only to an authenticated VIEWER writing under /api/v2; a refusal carries no body |
| AccountApi.Respond | src/main/java/net/javaguides/springboot/config/SecurityConfig.java:60-73 | a request refused with 401 or 403, or failing in any other way, leaves the store unchanged; the store invariant is kept |
| AccountApi.V2Authorization | src/main/java/net/javaguides/springboot/config/SecurityConfig.java:67-68 | on the v2 account paths, GET needs any authenticated user and POST, PUT and DELETE need ADMIN |
| AccountApi.V1Open | src/main/java/net/javaguides/springboot/controller/AccountController.java:19 | every v1 account path and method is allowed to everyone |
| AccountApi.ReadRequestBody | src/main/java/net/javaguides/springboot/controller/AccountControllerV2.java:28 | binding and validation give the response ReadBody describes |
| AccountApi.CreateAccount | src/main/java/net/javaguides/springboot/controller/AccountControllerV2.java:28-31 | the create handler's response and store are those of Dispatch |
| AccountApi.GetAccountById | src/main/java/net/javaguides/springboot/controller/AccountControllerV2.java:36-39 | the get handler's response is that of Dispatch |
| AccountApi.GetAllAccounts | src/main/java/net/javaguides/springboot/controller/AccountControllerV2.java:44-47 | the list handler's response is that of Dispatch |
| AccountApi.UpdateAccount | src/main/java/net/javaguides/springboot/controller/AccountControllerV2.java:52-56 | the update handler's response and store are those of Dispatch |
| AccountApi.DeleteAccount | src/main/java/net/javaguides/springboot/controller/AccountControllerV2.java:61-64 | the delete handler's response and store are those of Dispatch |
| AccountApi.Handle | src/main/java/net/javaguides/springboot/config/SecurityConfig.java:60-73 | the filter chain followed by the handler produces the response and store of Respond |
| AccountApi.ConfiguredUserAdmission | src/main/java/net/javaguides/springboot/config/SecurityConfig.java:64-70 | a configured user with its own password reaches every v1 handler and every v2 read, and reaches v2 writes iff ADMIN; otherwise 403 |
| AccountApi.AnonymousAdmission | src/main/java/net/javaguides/springboot/config/SecurityConfig.java:64-70 | without credentials the v1 handlers are reached and every v2 request gets 401 |
| AccountApi.BadCredentialsRejected | src/main/java/net/javaguides/springboot/config/SecurityConfig.java:70 | credentials matching no user and password get 401 on every path |
| AccountApi.ViewerReadsAccount | src/test/java/net/javaguides/springboot/controller/AccountControllerV2SecurityTest.java:59-69 | a viewer's v2 GET of a stored id gets 200 with its fields, and the store is unchanged |
| AccountApi.ViewerCannotWrite | src/test/java/net/javaguides/springboot/controller/AccountControllerV2SecurityTest.java:71-81 | a viewer's v2 write gets 403 with no body, and the store is unchanged |
| AccountApi.AdminCreatesAccount | src/test/java/net/javaguides/springboot/controller/AccountControllerV2SecurityTest.java:83-98 | an admin's valid v2 create gets 201 with the next id, and the account is stored |
| AccountApi.AnonymousV2Unauthorized | src/test/java/net/javaguides/springboot/controller/AccountControllerV2SecurityTest.java:100-105 | any v2 request without credentials gets 401, and the store is unchanged |
| AccountApi.AnonymousV1Served | src/main/java/net/javaguides/springboot/controller/AccountController.java:19-73 | v1 requests without credentials are answered by the handlers alone |
| AccountApi.InvalidPayloadRejected | src/test/java/net/javaguides/springboot/controller/AccountControllerTest.java:78-92 | a blank first name with a malformed email gets 400 "Invalid request" with exactly the firstName and email details, and no account is created |
| AccountApi.MissingAccountNotFound | src/main/java/net/javaguides/springboot/exception/RestExceptionHandler.java:20-23 | a get or delete of an absent id gets 404 "Not Found" naming the id, and the store is unchanged |
| AccountApi.NotFoundMessageFor99 | src/test/java/net/javaguides/springboot/controller/AccountControllerTest.java:106-114 | the not-found message for id 99 is "Account not found with id: 99" |
| AccountApi.DeleteThenDeleteAgain | src/main/java/net/javaguides/springboot/service/impl/AccountServiceImpl.java:56-61 | deleting a stored id gets 204 and removes it; deleting it again gets 404 |
| AccountApi.OneAdminTwoViewersBinds | src/test/java/net/javaguides/springboot/controller/AccountControllerV2SecurityTest.java:41-47 | the configuration with one admin and two viewers binds without violations; its user store is the admin followed by the two viewers, with distinct names, and startup succeeds with that store |
| AccountApi.OneAdminTwoViewersAdmission | src/test/java/net/javaguides/springboot/controller/AccountControllerV2SecurityTest.java:41-47 | with that store, the admin is admitted to every v2 request; both viewers are admitted to reads, and their writes get 403; a viewer's name with the admin's password gets 401 |

## Left out

- Password encoding is abstracted. A stored password stands for its encoded form, and it matches a presented password exactly when the two are equal. The delegating encoder's hashing is not modelled.
- HTTP transport is not modelled: decoding the `Authorization: Basic` header, the servlet filter chain, CSRF (which is disabled), JSON serialisation, and the response body of a refused request. A request arrives as credentials plus an operation, and 401 and 403 responses carry no body.
- Ant-style path matching is reduced to the patterns the rules use: an exact path, or a base path and everything under it.
- Path variables are abstracted. Requests name their id directly, so an id that cannot be converted to a `Long` (a `MethodArgumentTypeMismatchException`) is never produced by the pipeline, although `RestErrors.BadRequestResponse` models its 400 answer. `ConstraintViolationException` is handled the same way: modelled in the handler, not produced.
- SecurityConfig.Startup: names are compared exactly. The in-memory user store compares them case-insensitively, so a configuration whose names differ only in case starts in the model but not in the source. Likewise `SecurityConfig.FindUser` is an exact, first-match lookup, and the authentication lemmas assume unique names.
- SecurityConfig.FindUser: the lookup is exact, whereas the in-memory user store lower-cases the presented name. So in the source `ADMIN` with the admin's password authenticates as the stored `admin`, while the model answers 401 (`UnknownUser`). `SecurityConfig.UnknownUserRejected` and `AccountApi.BadCredentialsRejected` therefore hold for exact names only.
- The email grammar of `@Email` is a parameter `isEmail`, because Hibernate Validator's grammar is not part of this model. As in Bean Validation, a null or empty email is not malformed.
- Only a non-empty, whitespace-only email can violate both email constraints: it is blank, and it is malformed when the grammar rejects it (`@Email` accepts null and the empty string). The validator's report order for the two errors is then unspecified. The model reports errors in declaration order, so the later message wins in `details`, and `AccountRequests.EmailDetailsReported` promises only that the message is one of the two.
- The repository is a map from id to data, with ids assigned from 1 upwards. The order of `findAll` is unspecified; the model lists in ascending id order. JPA persistence, transactions and concurrent requests are not modelled.
- Ids are unbounded integers, so the 64-bit range of `Long` is not modelled.
- The `timestamp` entry of the error envelope comes from the clock and is left out.
- Unhandled server errors (500) are not modelled.
- The application's `main`, the Swagger and actuator endpoints themselves, and the `AccountService` interface are not part of this model. Only the access rules that guard those endpoints are modelled.
- The v1 controller is mapped at `/api/accounts` (`AccountController.java:19`), while `ApiPaths.V1_ACCOUNTS` and the tests use `/api/v1/accounts`. The model follows the mapping in the code. Both paths lie outside `/api/v2` and are therefore open.
- `AccountServiceImpl.mapToResponse` (`AccountServiceImpl.java:71-77`) calls `AccountResponse.of`, but `AccountResponse` declares only a builder and an all-arguments constructor. The model reads the call as that constructor.

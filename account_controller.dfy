/** The account endpoints and the request pipeline in front of them: authentication,
    the access rules, payload validation, the service call and the response status. */
module AccountApi {
  import opened Wrappers
  import opened Basics
  import opened SecurityConfig
  import opened AccountRequests
  import opened RestErrors
  import opened AccountService
  import Properties = SecurityProperties

  /** The v1 controller (open) and the v2 controller (behind the access rules) share
      their handlers and differ only in their base path. */
  datatype Api = V1 | V2

  /** A JSON body, or one the message converter could not read (with its exception message). */
  datatype RequestBody = Json(request: AccountRequest) | Unreadable(exceptionMessage: string)

  datatype Operation =
    | CreateOp(body: RequestBody)
    | GetOp(id: int)
    | ListOp
    | UpdateOp(id: int, body: RequestBody)
    | DeleteOp(id: int)

  datatype Request = Request(api: Api, op: Operation, credentials: Option<BasicCredentials>)

  datatype Body =
    | NoBody
    | One(account: AccountResponse)
    | Many(accounts: seq<AccountResponse>)
    | Error(payload: ErrorPayload)

  datatype HttpResponse = HttpResponse(status: HttpStatus, body: Body)

  const V1Accounts := "/api/accounts"
  const V2Accounts := ApiV2Base + "/accounts"

  function BasePath(api: Api): string {
    if api == V1 then V1Accounts else V2Accounts
  }

  function PathOf(api: Api, op: Operation): string {
    match op
    case CreateOp(_) => BasePath(api)
    case ListOp => BasePath(api)
    case GetOp(id) => BasePath(api) + "/" + LongToString(id)
    case UpdateOp(id, _) => BasePath(api) + "/" + LongToString(id)
    case DeleteOp(id) => BasePath(api) + "/" + LongToString(id)
  }

  function MethodOf(op: Operation): Method {
    match op
    case CreateOp(_) => POST
    case GetOp(_) => GET
    case ListOp => GET
    case UpdateOp(_, _) => PUT
    case DeleteOp(_) => DELETE
  }

  /** The status each handler answers with when it succeeds. */
  function SuccessStatus(op: Operation): HttpStatus {
    match op
    case CreateOp(_) => Created
    case GetOp(_) => OK
    case ListOp => OK
    case UpdateOp(_, _) => OK
    case DeleteOp(_) => NoContent
  }

  function FromError(e: ErrorResponse): HttpResponse {
    HttpResponse(e.status, Error(e.payload))
  }

  function NotFoundResponse(e: EntityNotFound): HttpResponse {
    FromError(HandleEntityNotFound(e.message))
  }

  /** `@Valid @RequestBody`: an unreadable body or a payload that violates a constraint is
      answered with 400 before the handler runs. */
  function ReadBody(body: RequestBody, isEmail: string -> bool): (r: Result<AccountRequest, HttpResponse>)
    ensures r.Ok? <==> body.Json? && Acceptable(body.request, isEmail)
    ensures r.Ok? ==> r.value == body.request
    ensures r.Err? ==> r.error.status == BadRequest && r.error.body.Error?
    ensures body.Json? && r.Err? ==>
              r.error.body.payload.details == FieldMessages(FieldDetails(Violations(body.request, isEmail)))
    ensures body.Unreadable? ==> r.error.body.payload.details == Message(body.exceptionMessage)
    ensures body.Unreadable? ==> r == Err(FromError(BadRequestResponse(NotReadable(body.exceptionMessage))))
    ensures body.Json? && r.Err? ==>
              r.error == FromError(BadRequestResponse(MethodArgumentNotValid(Violations(body.request, isEmail))))
  {
    match body
    case Unreadable(message) => Err(FromError(BadRequestResponse(NotReadable(message))))
    case Json(req) =>
      var errors := Violations(req, isEmail);
      if errors == [] then Ok(req) else Err(FromError(BadRequestResponse(MethodArgumentNotValid(errors))))
  }

  predicate BodyRejected(op: Operation, isEmail: string -> bool) {
    (op.CreateOp? || op.UpdateOp?) && ReadBody(op.body, isEmail).Err?
  }

  /** The handlers, given the store's state: the response and the state afterwards. */
  function Dispatch(s: StoreState, op: Operation, isEmail: string -> bool): (r: (HttpResponse, StoreState))
    ensures r.0.status == SuccessStatus(op) || r.0.status == BadRequest || r.0.status == NotFound
    ensures r.0.status == BadRequest <==> BodyRejected(op, isEmail)
    ensures r.0.status != SuccessStatus(op) ==> r.1 == s
    ensures StoreValid(s) ==> StoreValid(r.1)
    ensures BodyRejected(op, isEmail) ==> r == (ReadBody(op.body, isEmail).error, s)
    // create: 201 with the next id and the request's fields
    ensures op.CreateOp? && !BodyRejected(op, isEmail) ==>
              var req := op.body.request;
              r.0 == HttpResponse(Created, One(AccountResponse(s.nextId, req.firstName, req.lastName, req.email)))
              && r.1 == Create(s, req).0
    // get: 200 with the stored account, or 404 naming the id
    ensures op.GetOp? ==> r.1 == s
    ensures op.GetOp? && op.id in s.accounts ==> r.0 == HttpResponse(OK, One(MapToResponse(op.id, s.accounts[op.id])))
    ensures op.GetOp? && op.id !in s.accounts ==> r.0 == NotFoundResponse(EntityNotFound(NotFoundMessage(op.id)))
    // list: 200 with every account
    ensures op.ListOp? ==> r == (HttpResponse(OK, Many(All(s))), s)
    // update: 200 with the updated account, or 404 naming the id
    ensures op.UpdateOp? && !BodyRejected(op, isEmail) ==>
              var req := op.body.request;
              (r.0.status == OK <==> op.id in s.accounts)
              && (op.id in s.accounts ==>
                    r.0 == HttpResponse(OK, One(AccountResponse(op.id, req.firstName, req.lastName, req.email)))
                    && r.1 == Update(s, op.id, req).0)
              && (op.id !in s.accounts ==> r.0 == NotFoundResponse(EntityNotFound(NotFoundMessage(op.id))))
    // delete: 204 without a body and the account removed, or 404 naming the id
    ensures op.DeleteOp? ==> (r.0.status == NoContent <==> op.id in s.accounts)
    ensures op.DeleteOp? && op.id in s.accounts ==>
              r.0 == HttpResponse(NoContent, NoBody) && r.1.accounts == s.accounts - {op.id} && r.1.nextId == s.nextId
    ensures op.DeleteOp? && op.id !in s.accounts ==> r.0 == NotFoundResponse(EntityNotFound(NotFoundMessage(op.id)))
  {
    match op
    case CreateOp(body) =>
      (match ReadBody(body, isEmail)
       case Err(rejection) => (rejection, s)
       case Ok(req) =>
         var (s', saved) := Create(s, req);
         (HttpResponse(Created, One(saved)), s'))
    case GetOp(id) =>
      (match Get(s, id)
       case Err(e) => (NotFoundResponse(e), s)
       case Ok(account) => (HttpResponse(OK, One(account)), s))
    case ListOp =>
      (HttpResponse(OK, Many(All(s))), s)
    case UpdateOp(id, body) =>
      (match ReadBody(body, isEmail)
       case Err(rejection) => (rejection, s)
       case Ok(req) =>
         var (s', result) := Update(s, id, req);
         match result
         case Err(e) => (NotFoundResponse(e), s')
         case Ok(updated) => (HttpResponse(OK, One(updated)), s'))
    case DeleteOp(id) =>
      var (s', result) := Delete(s, id);
      match result
      case Err(e) => (NotFoundResponse(e), s')
      case Ok(_) => (HttpResponse(NoContent, NoBody), s')
  }

  /** The principal an authentication outcome carries, if any. */
  function PrincipalOf(outcome: Authentication): Option<Principal> {
    if outcome.Authenticated? then Some(outcome.principal) else None
  }

  /** Authentication, then the access rules. Rejected credentials are answered with 401 on
      every path; 401 and 403 responses carry no body. */
  function Admission(users: seq<User>, req: Request): (r: Option<HttpResponse>)
    ensures r.Some? ==> r.value.body == NoBody && (r.value.status == Unauthorized || r.value.status == HttpStatus.Forbidden)
    ensures Authenticate(users, req.credentials).Rejected? ==> r == Some(HttpResponse(Unauthorized, NoBody))
    ensures req.api == V1 && !Authenticate(users, req.credentials).Rejected? ==> r.None?
    ensures req.api == V2 && req.credentials.None? ==> r == Some(HttpResponse(Unauthorized, NoBody))
    ensures r.Some? && r.value.status == HttpStatus.Forbidden ==>
              var outcome := Authenticate(users, req.credentials);
              req.api == V2 && MethodOf(req.op) != GET && outcome.Authenticated? && outcome.principal.role == Viewer
  {
    var outcome := Authenticate(users, req.credentials);
    V1Open(req.op, PrincipalOf(outcome));
    V2Authorization(req.op, PrincipalOf(outcome));
    if outcome.Rejected? then Some(HttpResponse(Unauthorized, NoBody))
    else
      match Authorize(PathOf(req.api, req.op), MethodOf(req.op), PrincipalOf(outcome))
      case Allow => None
      case Unauthenticated => Some(HttpResponse(Unauthorized, NoBody))
      case Forbidden => Some(HttpResponse(HttpStatus.Forbidden, NoBody))
  }

  /** One request from arrival to response. A request that fails at any stage leaves the
      store as it was. */
  function Respond(s: StoreState, users: seq<User>, req: Request, isEmail: string -> bool): (r: (HttpResponse, StoreState))
    ensures r.0.status == Unauthorized || r.0.status == HttpStatus.Forbidden ==> r.1 == s
    ensures r.0.status != SuccessStatus(req.op) ==> r.1 == s
    ensures StoreValid(s) ==> StoreValid(r.1)
  {
    match Admission(users, req)
    case Some(rejection) => (rejection, s)
    case None => Dispatch(s, req.op, isEmail)
  }

  // ----- Paths and the access rules -----

  lemma PrefixCharAt(path: string, base: string, k: nat)
    requires base <= path && k < |base|
    ensures k < |path| && path[k] == base[k]
  {
  }

  lemma PathStartsWithBase(api: Api, op: Operation)
    ensures BasePath(api) <= PathOf(api, op)
    ensures api == V2 ==> Under(PathOf(api, op), ApiV2Base)
  {
    var path := PathOf(api, op);
    assert path[..|BasePath(api)|] == BasePath(api);
    if api == V2 {
      assert (ApiV2Base + "/")[..] == path[..|ApiV2Base| + 1];
    }
  }

  /** Under `/api/v2` only the method matters: reads need any role, writes need ADMIN. */
  lemma V2Authorization(op: Operation, principal: Option<Principal>)
    ensures Authorize(PathOf(V2, op), MethodOf(op), principal) ==
            if MethodOf(op) == GET then AnyAuthenticated(principal) else AdminOnly(principal)
  {
    PathStartsWithBase(V2, op);
    if MethodOf(op) == GET {
      V2ReadIsDecidedByReadRule(PathOf(V2, op), principal);
    } else {
      V2WriteRequiresAdmin(PathOf(V2, op), MethodOf(op), principal);
    }
  }

  /** The v1 paths match no protected pattern, so they are open to everyone. */
  lemma V1Open(op: Operation, principal: Option<Principal>)
    ensures Authorize(PathOf(V1, op), MethodOf(op), principal) == Allow
  {
    var path := PathOf(V1, op);
    PathStartsWithBase(V1, op);
    PrefixCharAt(path, V1Accounts, 1);
    PrefixCharAt(path, V1Accounts, 2);
    PrefixCharAt(path, V1Accounts, 5);
    if IsSwaggerPath(path) {
      SwaggerPathCharAt(path);
    }
    if Under(path, ActuatorBase) {
      UnderCharAt(path, ActuatorBase, 2);
    }
    if Under(path, ApiV2Base) {
      UnderCharAt(path, ApiV2Base, 5);
    }
    UnprotectedPathsAreOpen(path, MethodOf(op), principal);
  }

  // ----- The controller's handlers over the service object -----

  /** Binding and validating a request body, with the exception handler's 400 response. */
  method ReadRequestBody(body: RequestBody, isEmail: string -> bool) returns (r: Result<AccountRequest, HttpResponse>)
    ensures r == ReadBody(body, isEmail)
  {
    match body {
      case Unreadable(message) =>
        var e := HandleBadRequest(NotReadable(message));
        r := Err(FromError(e));
      case Json(req) =>
        var errors := Violations(req, isEmail);
        if errors == [] {
          r := Ok(req);
        } else {
          var e := HandleBadRequest(MethodArgumentNotValid(errors));
          r := Err(FromError(e));
        }
    }
  }

  /** `POST`: 201 with the created account. */
  method CreateAccount(service: AccountServiceImpl, body: RequestBody, isEmail: string -> bool) returns (resp: HttpResponse)
    requires service.Valid()
    modifies service
    ensures service.Valid()
    ensures (resp, service.State()) == Dispatch(old(service.State()), CreateOp(body), isEmail)
  {
    var read := ReadRequestBody(body, isEmail);
    if read.Err? {
      resp := read.error;
      return;
    }
    var saved := service.CreateAccount(read.value);
    resp := HttpResponse(Created, One(saved));
  }

  /** `GET /{id}`: 200 with the account, or 404. Requests without a body are not validated,
      so the validator passed to `Dispatch` here and below plays no part. */
  method GetAccountById(service: AccountServiceImpl, id: int) returns (resp: HttpResponse)
    ensures resp == Dispatch(service.State(), GetOp(id), isEmail := (_ => true)).0
  {
    var found := service.GetAccountById(id);
    match found {
      case Err(e) => resp := NotFoundResponse(e);
      case Ok(account) => resp := HttpResponse(OK, One(account));
    }
  }

  /** `GET`: 200 with every account. */
  method GetAllAccounts(service: AccountServiceImpl) returns (resp: HttpResponse)
    requires service.Valid()
    ensures resp == Dispatch(service.State(), ListOp, isEmail := (_ => true)).0
  {
    var accounts := service.GetAllAccounts();
    resp := HttpResponse(OK, Many(accounts));
  }

  /** `PUT /{id}`: 200 with the updated account, or 400, or 404. */
  method UpdateAccount(service: AccountServiceImpl, id: int, body: RequestBody, isEmail: string -> bool)
    returns (resp: HttpResponse)
    requires service.Valid()
    modifies service
    ensures service.Valid()
    ensures (resp, service.State()) == Dispatch(old(service.State()), UpdateOp(id, body), isEmail)
  {
    var read := ReadRequestBody(body, isEmail);
    if read.Err? {
      resp := read.error;
      return;
    }
    var updated := service.UpdateAccount(id, read.value);
    match updated {
      case Err(e) => resp := NotFoundResponse(e);
      case Ok(account) => resp := HttpResponse(OK, One(account));
    }
  }

  /** `DELETE /{id}`: 204 without a body, or 404. */
  method DeleteAccount(service: AccountServiceImpl, id: int) returns (resp: HttpResponse)
    requires service.Valid()
    modifies service
    ensures service.Valid()
    ensures (resp, service.State()) == Dispatch(old(service.State()), DeleteOp(id), isEmail := (_ => true))
  {
    var deleted := service.DeleteAccount(id);
    match deleted {
      case Err(e) => resp := NotFoundResponse(e);
      case Ok(_) => resp := HttpResponse(NoContent, NoBody);
    }
  }

  /** One request through the filter chain and, when admitted, the matching handler. */
  method Handle(service: AccountServiceImpl, users: seq<User>, req: Request, isEmail: string -> bool)
    returns (resp: HttpResponse)
    requires service.Valid()
    modifies service
    ensures service.Valid()
    ensures (resp, service.State()) == Respond(old(service.State()), users, req, isEmail)
  {
    var rejection := Admission(users, req);
    if rejection.Some? {
      resp := rejection.value;
      return;
    }
    match req.op {
      case CreateOp(body) => resp := CreateAccount(service, body, isEmail);
      case GetOp(id) => resp := GetAccountById(service, id);
      case ListOp => resp := GetAllAccounts(service);
      case UpdateOp(id, body) => resp := UpdateAccount(service, id, body, isEmail);
      case DeleteOp(id) => resp := DeleteAccount(service, id);
    }
  }

  // ----- Admission -----

  function CredentialsOf(u: User): Option<BasicCredentials> {
    Some(BasicCredentials(u.username, u.password))
  }

  /** A configured user with its own password reaches every v1 handler, every v2 read,
      and the v2 writes only as an ADMIN; a VIEWER's v2 write is answered with 403. */
  lemma ConfiguredUserAdmission(users: seq<User>, i: nat, api: Api, op: Operation)
    requires i < |users| && UniqueUsernames(users)
    ensures Admission(users, Request(api, op, CredentialsOf(users[i]))) ==
            if api == V1 || MethodOf(op) == GET || users[i].role == Admin then None
            else Some(HttpResponse(HttpStatus.Forbidden, NoBody))
  {
    UserAuthenticates(users, i, users[i].password);
    var principal := Some(Principal(users[i].username, users[i].role));
    if api == V1 {
      V1Open(op, principal);
    } else {
      V2Authorization(op, principal);
    }
  }

  /** Without credentials the v1 handlers are reached and every v2 request gets 401. */
  lemma AnonymousAdmission(users: seq<User>, api: Api, op: Operation)
    ensures Admission(users, Request(api, op, None)) ==
            if api == V1 then None else Some(HttpResponse(Unauthorized, NoBody))
  {
    if api == V1 {
      V1Open(op, None);
    } else {
      V2Authorization(op, None);
    }
  }

  /** Credentials that match no configured user and password get 401, on every path. */
  lemma BadCredentialsRejected(users: seq<User>, c: BasicCredentials, api: Api, op: Operation)
    requires forall i :: 0 <= i < |users| && users[i].username == c.username ==> users[i].password != c.password
    ensures Admission(users, Request(api, op, Some(c))) == Some(HttpResponse(Unauthorized, NoBody))
  {
    var found := FindUser(users, c.username);
    if found.Some? {
      var i :| 0 <= i < |users| && users[i] == found.value;
    }
  }

  // ----- Requests from arrival to response -----

  /** A viewer reads an existing account through v2: 200 with its fields. */
  lemma ViewerReadsAccount(s: StoreState, users: seq<User>, i: nat, id: int, isEmail: string -> bool)
    requires i < |users| && UniqueUsernames(users) && users[i].role == Viewer
    requires id in s.accounts
    ensures Respond(s, users, Request(V2, GetOp(id), CredentialsOf(users[i])), isEmail) ==
            (HttpResponse(OK, One(MapToResponse(id, s.accounts[id]))), s)
  {
    ConfiguredUserAdmission(users, i, V2, GetOp(id));
  }

  /** A viewer's v2 write is refused with 403 before any handler runs. */
  lemma ViewerCannotWrite(s: StoreState, users: seq<User>, i: nat, op: Operation, isEmail: string -> bool)
    requires i < |users| && UniqueUsernames(users) && users[i].role == Viewer
    requires MethodOf(op) != GET
    ensures Respond(s, users, Request(V2, op, CredentialsOf(users[i])), isEmail) ==
            (HttpResponse(HttpStatus.Forbidden, NoBody), s)
  {
    ConfiguredUserAdmission(users, i, V2, op);
  }

  /** An admin creating a valid account through v2: 201, the next id, the request's fields. */
  lemma AdminCreatesAccount(s: StoreState, users: seq<User>, i: nat, req: AccountRequest, isEmail: string -> bool)
    requires i < |users| && UniqueUsernames(users) && users[i].role == Admin
    requires Acceptable(req, isEmail)
    ensures var (resp, s') := Respond(s, users, Request(V2, CreateOp(Json(req)), CredentialsOf(users[i])), isEmail);
            resp == HttpResponse(Created, One(AccountResponse(s.nextId, req.firstName, req.lastName, req.email)))
            && s'.accounts == s.accounts[s.nextId := MapToEntity(req)] && s'.nextId == s.nextId + 1
  {
    ConfiguredUserAdmission(users, i, V2, CreateOp(Json(req)));
  }

  /** A v2 request without credentials: 401, store unchanged. */
  lemma AnonymousV2Unauthorized(s: StoreState, users: seq<User>, op: Operation, isEmail: string -> bool)
    ensures Respond(s, users, Request(V2, op, None), isEmail) == (HttpResponse(Unauthorized, NoBody), s)
  {
    AnonymousAdmission(users, V2, op);
  }

  /** The v1 endpoints answer without credentials exactly as the handlers do. */
  lemma AnonymousV1Served(s: StoreState, users: seq<User>, op: Operation, isEmail: string -> bool)
    ensures Respond(s, users, Request(V1, op, None), isEmail) == Dispatch(s, op, isEmail)
  {
    AnonymousAdmission(users, V1, op);
  }

  /** A create with a blank first name and a malformed email: 400 with both fields in the
      details, and no account is created. */
  lemma InvalidPayloadRejected(s: StoreState, users: seq<User>, isEmail: string -> bool)
    requires !isEmail("invalid-email")
    ensures var req := AccountRequest(Some(""), Some("Doe"), Some("invalid-email"));
            Respond(s, users, Request(V1, CreateOp(Json(req)), None), isEmail) ==
            (HttpResponse(BadRequest, Error(ErrorPayload(400, "Bad Request", "Invalid request",
               FieldMessages(map["firstName" := "First name is required", "email" := "Email must be valid"])))), s)
  {
    var req := AccountRequest(Some(""), Some("Doe"), Some("invalid-email"));
    AnonymousAdmission(users, V1, CreateOp(Json(req)));
    BlankFirstNameAndBadEmailReportedTogether(isEmail);
    assert Violations(req, isEmail) != [] by {
      assert FirstNameRequired in Violations(req, isEmail);
    }
  }

  /** A read of an id the store does not hold: 404 whose message names the id. */
  lemma MissingAccountNotFound(s: StoreState, op: Operation, isEmail: string -> bool)
    requires op.GetOp? || op.DeleteOp?
    requires op.id !in s.accounts
    ensures Dispatch(s, op, isEmail) ==
            (HttpResponse(NotFound, Error(ErrorPayload(404, "Not Found", NotFoundMessage(op.id), NoDetails))), s)
  {
  }

  lemma NotFoundMessageFor99()
    ensures NotFoundMessage(99) == "Account not found with id: 99"
  {
    assert NatToString(9) == "9";
    assert NatToString(99) == NatToString(9) + "9";
  }

  /** Deleting a stored account: 204 without a body, and it is gone; a second delete of the
      same id is then answered with 404. */
  lemma DeleteThenDeleteAgain(s: StoreState, id: int, isEmail: string -> bool)
    requires id in s.accounts
    ensures var (first, s') := Dispatch(s, DeleteOp(id), isEmail);
            first == HttpResponse(NoContent, NoBody) && s'.accounts == s.accounts - {id}
            && Dispatch(s', DeleteOp(id), isEmail).0.status == NotFound
  {
  }

  // ----- A concrete configuration: one admin and two viewers -----

  const AdminCredentials := BasicCredentials("admin", "admin-password")
  const Viewer1Credentials := BasicCredentials("viewer1", "viewer1-password")
  const Viewer2Credentials := BasicCredentials("viewer2", "viewer2-password")

  function Configured(c: BasicCredentials): Properties.UserCredentials {
    Properties.UserCredentials(Some(c.username), Some(c.password))
  }

  const OneAdminTwoViewers :=
    Properties.AppSecurityProperties([Configured(AdminCredentials)], [Configured(Viewer1Credentials), Configured(Viewer2Credentials)])

  const OneAdminTwoViewersUsers :=
    [User("admin", "admin-password", Admin), User("viewer1", "viewer1-password", Viewer),
     User("viewer2", "viewer2-password", Viewer)]

  /** The configuration binds, and its user store holds the admin and then the two viewers. */
  lemma OneAdminTwoViewersBinds()
    ensures Properties.Valid(OneAdminTwoViewers)
    ensures UserDetailsService(OneAdminTwoViewers) == OneAdminTwoViewersUsers
    ensures UniqueUsernames(OneAdminTwoViewersUsers)
    ensures Startup(OneAdminTwoViewers) == Ok(OneAdminTwoViewersUsers)
  {
    var p := OneAdminTwoViewers;
    assert !IsBlank(Some("admin")) by { assert "admin"[0] == 'a'; }
    assert !IsBlank(Some("admin-password")) by { assert "admin-password"[0] == 'a'; }
    assert !IsBlank(Some("viewer1")) by { assert "viewer1"[0] == 'v'; }
    assert !IsBlank(Some("viewer1-password")) by { assert "viewer1-password"[0] == 'v'; }
    assert !IsBlank(Some("viewer2")) by { assert "viewer2"[0] == 'v'; }
    assert !IsBlank(Some("viewer2-password")) by { assert "viewer2-password"[0] == 'v'; }
    assert Properties.AllCredentialsValid(p.admins) && Properties.AllCredentialsValid(p.viewers);
    assert Properties.Valid(p) by { assert Properties.Violations(p) == []; }
    var users := UserDetailsService(p);
    assert users[0] == User("admin", "admin-password", Admin);
    assert users[1] == User("viewer1", "viewer1-password", Viewer);
    assert users[2] == User("viewer2", "viewer2-password", Viewer);
    assert "admin"[0] != "viewer1"[0] && "admin"[0] != "viewer2"[0] && "viewer1"[6] != "viewer2"[6];
  }

  /** On v2 the admin is admitted to everything, both viewers may read and neither may
      write, and a viewer's name with another user's password is refused with 401. */
  lemma OneAdminTwoViewersAdmission(op: Operation)
    ensures var users := OneAdminTwoViewersUsers;
            var viewerOutcome := if MethodOf(op) == GET then None else Some(HttpResponse(HttpStatus.Forbidden, NoBody));
            Admission(users, Request(V2, op, Some(AdminCredentials))) == None
            && Admission(users, Request(V2, op, Some(Viewer1Credentials))) == viewerOutcome
            && Admission(users, Request(V2, op, Some(Viewer2Credentials))) == viewerOutcome
            && Admission(users, Request(V2, op, Some(BasicCredentials("viewer1", "admin-password")))) ==
               Some(HttpResponse(Unauthorized, NoBody))
  {
    OneAdminTwoViewersBinds();
    var users := OneAdminTwoViewersUsers;
    ConfiguredUserAdmission(users, 0, V2, op);
    ConfiguredUserAdmission(users, 1, V2, op);
    ConfiguredUserAdmission(users, 2, V2, op);
    assert "admin-password" != "viewer1-password" by { assert "admin-password"[0] != "viewer1-password"[0]; }
    BadCredentialsRejected(users, BasicCredentials("viewer1", "admin-password"), V2, op);
  }
}

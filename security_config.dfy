/** The security configuration: the users built from the credential lists, HTTP Basic
    authentication against them, and the ordered access-rule table. */
module SecurityConfig {
  import opened Wrappers
  import opened Basics
  import opened SecurityProperties

  datatype Role = Admin | Viewer

  /** A user of the in-memory user store. The password encoder is abstracted: `password`
      stands for the encoded value, and a presented password matches it exactly when it
      equals the password the user was built from. */
  datatype User = User(username: string, password: string, role: Role)

  function BuildUser(c: UserCredentials, role: Role): User
    requires CredentialsValid(c)
  {
    User(c.username.value, c.password.value, role)
  }

  /** Every credential of one list, in list order, as a user with the given role. */
  function BuildUsers(cs: seq<UserCredentials>, role: Role): (users: seq<User>)
    requires AllCredentialsValid(cs)
    ensures |users| == |cs|
    ensures forall i :: 0 <= i < |cs| ==>
              users[i] == User(cs[i].username.value, cs[i].password.value, role)
  {
    if cs == [] then [] else [BuildUser(cs[0], role)] + BuildUsers(cs[1..], role)
  }

  /** The user list handed to the in-memory user store: all admins, then all viewers.
      Binding has validated the configuration before this runs. */
  function UserDetailsService(p: AppSecurityProperties): (users: seq<User>)
    requires Valid(p)
    ensures |users| == |p.admins| + |p.viewers|
    ensures forall i :: 0 <= i < |p.admins| ==>
              users[i] == User(p.admins[i].username.value, p.admins[i].password.value, Admin)
    ensures forall i :: 0 <= i < |p.viewers| ==>
              users[|p.admins| + i] == User(p.viewers[i].username.value, p.viewers[i].password.value, Viewer)
  {
    BuildUsers(p.admins, Admin) + BuildUsers(p.viewers, Viewer)
  }

  /** Why the application does not start: the configuration violates a constraint, or the
      in-memory user store refuses a second user with a name it already holds. */
  datatype StartupFailure = InvalidProperties(violations: seq<Violation>) | DuplicateUsername(username: string)

  /** Startup: binding fails on any violation; otherwise the user store is created from the
      user list, which fails on a repeated name. */
  function Startup(p: AppSecurityProperties): (r: Result<seq<User>, StartupFailure>)
    ensures r.Err? <==> !Valid(p) || !UniqueUsernames(UserDetailsService(p))
    ensures r.Err? && r.error.InvalidProperties? <==> !Valid(p)
    ensures r.Err? && r.error.InvalidProperties? ==> r.error.violations == Violations(p) && r.error.violations != []
    ensures r.Err? && r.error.DuplicateUsername? ==>
              var users := UserDetailsService(p);
              exists i, j :: 0 <= i < j < |users| && users[i].username == r.error.username
                             && users[j].username == r.error.username
    ensures r.Ok? ==> r.value == UserDetailsService(p) && UniqueUsernames(r.value)
  {
    if Violations(p) != [] then Err(InvalidProperties(Violations(p)))
    else
      match FirstDuplicate(UserDetailsService(p))
      case Some(name) => Err(DuplicateUsername(name))
      case None => Ok(UserDetailsService(p))
  }

  /** The first name that a later user repeats, or None when all names differ. */
  function FirstDuplicate(users: seq<User>): (r: Option<string>)
    ensures r.None? <==> UniqueUsernames(users)
    ensures r.Some? ==> exists i, j :: 0 <= i < j < |users| && users[i].username == r.value
                                       && users[j].username == r.value
  {
    if users == [] then None
    else
      assert forall k :: 0 < k < |users| ==> users[k] == users[1..][k - 1];
      if FindUser(users[1..], users[0].username).Some? then Some(users[0].username)
      else FirstDuplicate(users[1..])
  }

  /** Two entries with the same name stop startup, even when the configuration binds. */
  lemma RepeatedNameStopsStartup(c: UserCredentials, viewers: seq<UserCredentials>)
    requires CredentialsValid(c) && AllCredentialsValid(viewers)
    ensures Valid(AppSecurityProperties([c, c], viewers))
    ensures Startup(AppSecurityProperties([c, c], viewers)) == Err(DuplicateUsername(c.username.value))
  {
    var p := AppSecurityProperties([c, c], viewers);
    assert AllCredentialsValid(p.admins);
    assert Violations(p) == [];
    var users := UserDetailsService(p);
    assert users[0].username == users[1].username == c.username.value;
    assert FindUser(users[1..], users[0].username).Some? by {
      assert users[1..][0] == users[1];
    }
  }

  predicate UniqueUsernames(users: seq<User>) {
    forall i, j :: 0 <= i < j < |users| ==> users[i].username != users[j].username
  }

  /** The first user with the given name, or None. */
  function FindUser(users: seq<User>, name: string): (r: Option<User>)
    ensures r.Some? ==> r.value in users && r.value.username == name
    ensures r.None? <==> forall i :: 0 <= i < |users| ==> users[i].username != name
  {
    if users == [] then None
    else if users[0].username == name then Some(users[0])
    else FindUser(users[1..], name)
  }

  lemma {:induction false} FindUniqueUser(users: seq<User>, i: nat)
    requires i < |users| && UniqueUsernames(users)
    ensures FindUser(users, users[i].username) == Some(users[i])
  {
    if i > 0 {
      assert users[0].username != users[i].username;
      assert users[1..][i - 1] == users[i];
      FindUniqueUser(users[1..], i - 1);
    }
  }

  /** The user name and password decoded from an `Authorization: Basic` header. */
  datatype BasicCredentials = BasicCredentials(username: string, password: string)

  datatype Principal = Principal(username: string, role: Role)

  datatype AuthFailure = UnknownUser | BadPassword

  datatype Authentication = Anonymous | Authenticated(principal: Principal) | Rejected(reason: AuthFailure)

  /** HTTP Basic authentication against the user store: no credentials leave the request
      anonymous; a name no user holds, or a wrong password, is rejected. */
  function Authenticate(users: seq<User>, presented: Option<BasicCredentials>): (r: Authentication)
    ensures r.Anonymous? <==> presented.None?
    ensures r.Authenticated? ==>
              presented.Some? && r.principal.username == presented.value.username
              && User(presented.value.username, presented.value.password, r.principal.role) in users
    ensures r == Rejected(UnknownUser) <==>
              presented.Some? && forall i :: 0 <= i < |users| ==> users[i].username != presented.value.username
  {
    match presented
    case None => Anonymous
    case Some(c) =>
      match FindUser(users, c.username)
      case None => Rejected(UnknownUser)
      case Some(u) =>
        if u.password == c.password then Authenticated(Principal(u.username, u.role))
        else Rejected(BadPassword)
  }

  /** A configured user authenticates with its own password and gets the role of its list;
      any other password is rejected. */
  lemma {:induction false} UserAuthenticates(users: seq<User>, i: nat, password: string)
    requires i < |users| && UniqueUsernames(users)
    ensures Authenticate(users, Some(BasicCredentials(users[i].username, password))) ==
            if password == users[i].password then Authenticated(Principal(users[i].username, users[i].role))
            else Rejected(BadPassword)
  {
    FindUniqueUser(users, i);
  }

  /** Every configured admin authenticates as an ADMIN, every viewer as a VIEWER. */
  lemma ConfiguredRoles(p: AppSecurityProperties, list: CredentialList, i: nat)
    requires Valid(p) && UniqueUsernames(UserDetailsService(p))
    requires i < |if list == Admins then p.admins else p.viewers|
    ensures var c := if list == Admins then p.admins[i] else p.viewers[i];
            Authenticate(UserDetailsService(p), Some(BasicCredentials(c.username.value, c.password.value))) ==
            Authenticated(Principal(c.username.value, if list == Admins then Admin else Viewer))
  {
    var users := UserDetailsService(p);
    if list == Admins {
      UserAuthenticates(users, i, p.admins[i].password.value);
    } else {
      UserAuthenticates(users, |p.admins| + i, p.viewers[i].password.value);
    }
  }

  /** A name no user has is rejected as unknown, whatever the password. */
  lemma UnknownUserRejected(users: seq<User>, c: BasicCredentials)
    requires forall i :: 0 <= i < |users| ==> users[i].username != c.username
    ensures Authenticate(users, Some(c)) == Rejected(UnknownUser)
  {
  }

  // ----- Access rules -----

  datatype Method = GET | HEAD | POST | PUT | PATCH | DELETE | OPTIONS | TRACE

  /** A path pattern: an exact path, or a subtree pattern (`base` followed by a slash and two stars), which matches `base` and everything below it. */
  datatype PathPattern = Exact(path: string) | Subtree(base: string)

  predicate Under(path: string, base: string) {
    path == base || base + "/" <= path
  }

  predicate PatternMatches(pattern: PathPattern, path: string) {
    match pattern
    case Exact(p) => path == p
    case Subtree(base) => Under(path, base)
  }

  /** `anyRequest()`, or `requestMatchers([method,] patterns...)`. */
  datatype RequestMatcher = AnyRequest | Matcher(verb: Option<Method>, patterns: seq<PathPattern>)

  datatype Access = PermitAll | HasAnyRole(roles: set<Role>)

  datatype Rule = Rule(matcher: RequestMatcher, access: Access)

  /** Some pattern of the list matches the path. */
  predicate AnyPatternMatches(patterns: seq<PathPattern>, path: string) {
    patterns != [] && (PatternMatches(patterns[0], path) || AnyPatternMatches(patterns[1..], path))
  }

  predicate RuleMatches(rule: Rule, path: string, verb: Method) {
    match rule.matcher
    case AnyRequest => true
    case Matcher(m, patterns) => (m.None? || m.value == verb) && AnyPatternMatches(patterns, path)
  }

  const SwaggerPaths := [Subtree("/v3/api-docs"), Exact("/swagger-ui.html"), Subtree("/swagger-ui")]
  const ActuatorBase := "/actuator"
  const ApiV2Base := "/api/v2"

  /** The rule table, in declaration order. */
  const Rules := [
    Rule(Matcher(None, SwaggerPaths), HasAnyRole({Admin})),
    Rule(Matcher(None, [Subtree(ActuatorBase)]), HasAnyRole({Admin})),
    Rule(Matcher(Some(GET), [Subtree(ApiV2Base)]), HasAnyRole({Admin, Viewer})),
    Rule(Matcher(None, [Subtree(ApiV2Base)]), HasAnyRole({Admin})),
    Rule(AnyRequest, PermitAll)
  ]

  /** The index of the first rule that matches, if any. */
  function FirstMatch(rules: seq<Rule>, path: string, verb: Method): (r: Option<nat>)
    ensures r.Some? ==> r.value < |rules| && RuleMatches(rules[r.value], path, verb)
    ensures r.Some? ==> forall j :: 0 <= j < r.value ==> !RuleMatches(rules[j], path, verb)
    ensures r.None? ==> forall j :: 0 <= j < |rules| ==> !RuleMatches(rules[j], path, verb)
  {
    if rules == [] then None
    else if RuleMatches(rules[0], path, verb) then Some(0)
    else match FirstMatch(rules[1..], path, verb)
      case None => None
      case Some(k) => Some(k + 1)
  }

  datatype Decision = Allow | Unauthenticated | Forbidden

  /** A rule's verdict: without a principal a role rule asks for authentication (401);
      a principal without a listed role is forbidden (403). */
  function Decide(access: Access, principal: Option<Principal>): Decision {
    match access
    case PermitAll => Allow
    case HasAnyRole(roles) =>
      if principal.None? then Unauthenticated
      else if principal.value.role in roles then Allow
      else Forbidden
  }

  /** The rule chain: the first matching rule decides, and a request no rule matches is
      allowed. Every rule admits ADMIN, and none refuses an anonymous request with 403. */
  function Authorize(path: string, verb: Method, principal: Option<Principal>): (r: Decision)
    ensures principal.Some? && principal.value.role == Admin ==> r == Allow
    ensures r == Forbidden ==> principal.Some? && principal.value.role == Viewer
    ensures r == Unauthenticated ==> principal.None?
  {
    match FirstMatch(Rules, path, verb)
    case None => Allow
    case Some(i) =>
      assert principal.Some? ==> principal.value.role == Admin || principal.value.role == Viewer;
      Decide(Rules[i].access, principal)
  }

  /** What a rule requiring ADMIN decides. */
  function AdminOnly(principal: Option<Principal>): Decision {
    if principal.None? then Unauthenticated
    else if principal.value.role == Admin then Allow
    else Forbidden
  }

  /** What a rule admitting ADMIN or VIEWER decides. */
  function AnyAuthenticated(principal: Option<Principal>): Decision {
    if principal.None? then Unauthenticated else Allow
  }

  predicate IsSwaggerPath(path: string) {
    Under(path, "/v3/api-docs") || path == "/swagger-ui.html" || Under(path, "/swagger-ui")
  }

  lemma UnderCharAt(path: string, base: string, k: nat)
    requires Under(path, base) && k < |base|
    ensures k < |path| && path[k] == base[k]
  {
    if path != base {
      assert (base + "/")[k] == base[k];
    }
  }

  lemma SwaggerPathCharAt(path: string)
    requires IsSwaggerPath(path)
    ensures |path| > 1 && path[1] in {'v', 's'}
  {
    if Under(path, "/v3/api-docs") {
      UnderCharAt(path, "/v3/api-docs", 1);
    } else if Under(path, "/swagger-ui") {
      UnderCharAt(path, "/swagger-ui", 1);
    }
  }

  /** What each rule of the table matches, read off its patterns. */
  lemma RuleTableMatches(path: string, verb: Method)
    ensures |Rules| == 5
    ensures RuleMatches(Rules[0], path, verb) <==> IsSwaggerPath(path)
    ensures RuleMatches(Rules[1], path, verb) <==> Under(path, ActuatorBase)
    ensures RuleMatches(Rules[2], path, verb) <==> verb == GET && Under(path, ApiV2Base)
    ensures RuleMatches(Rules[3], path, verb) <==> Under(path, ApiV2Base)
    ensures RuleMatches(Rules[4], path, verb)
  {
    var swagger := SwaggerPaths;
    assert swagger[1..][1..][1..] == [];
    assert AnyPatternMatches(swagger[1..][1..], path) <==> Under(path, "/swagger-ui");
    assert AnyPatternMatches(swagger[1..], path) <==> path == "/swagger-ui.html" || Under(path, "/swagger-ui");
    assert AnyPatternMatches(swagger, path) <==> IsSwaggerPath(path);
    assert [Subtree(ActuatorBase)][1..] == [];
    assert AnyPatternMatches([Subtree(ActuatorBase)], path) <==> Under(path, ActuatorBase);
    assert [Subtree(ApiV2Base)][1..] == [];
    assert AnyPatternMatches([Subtree(ApiV2Base)], path) <==> Under(path, ApiV2Base);
  }

  /** The documentation paths need ADMIN, whatever the method. */
  lemma SwaggerRequiresAdmin(path: string, verb: Method, principal: Option<Principal>)
    requires IsSwaggerPath(path)
    ensures Authorize(path, verb, principal) == AdminOnly(principal)
  {
    RuleTableMatches(path, verb);
  }

  /** Everything under `/actuator` needs ADMIN, whatever the method. */
  lemma ActuatorRequiresAdmin(path: string, verb: Method, principal: Option<Principal>)
    requires Under(path, ActuatorBase)
    ensures Authorize(path, verb, principal) == AdminOnly(principal)
  {
    UnderCharAt(path, ActuatorBase, 1);
    if IsSwaggerPath(path) {
      SwaggerPathCharAt(path);
    }
    RuleTableMatches(path, verb);
  }

  lemma V2PathSkipsAdminPaths(path: string, verb: Method)
    requires Under(path, ApiV2Base)
    ensures !RuleMatches(Rules[0], path, verb) && !RuleMatches(Rules[1], path, verb)
  {
    UnderCharAt(path, ApiV2Base, 1);
    UnderCharAt(path, ApiV2Base, 2);
    if IsSwaggerPath(path) {
      SwaggerPathCharAt(path);
    }
    RuleTableMatches(path, verb);
    if Under(path, ActuatorBase) {
      UnderCharAt(path, ActuatorBase, 2);
    }
  }

  /** First match wins: a GET under `/api/v2` is decided by the ADMIN-or-VIEWER rule,
      even though the later ADMIN-only rule matches it too and would forbid a viewer. */
  lemma V2ReadIsDecidedByReadRule(path: string, principal: Option<Principal>)
    requires Under(path, ApiV2Base)
    ensures FirstMatch(Rules, path, GET) == Some(2)
    ensures RuleMatches(Rules[3], path, GET)
    ensures Decide(Rules[3].access, Some(Principal("viewer", Viewer))) == Forbidden
    ensures Authorize(path, GET, principal) == AnyAuthenticated(principal)
  {
    V2PathSkipsAdminPaths(path, GET);
    RuleTableMatches(path, GET);
    if principal.Some? {
      assert Rules[2].access == HasAnyRole({Admin, Viewer});
      assert principal.value.role == Admin || principal.value.role == Viewer;
    }
  }

  /** Every other method under `/api/v2` needs ADMIN. */
  lemma V2WriteRequiresAdmin(path: string, verb: Method, principal: Option<Principal>)
    requires Under(path, ApiV2Base) && verb != GET
    ensures Authorize(path, verb, principal) == AdminOnly(principal)
  {
    V2PathSkipsAdminPaths(path, verb);
    RuleTableMatches(path, verb);
  }

  /** A path no protected pattern covers is open to everyone, with or without credentials. */
  lemma UnprotectedPathsAreOpen(path: string, verb: Method, principal: Option<Principal>)
    requires !IsSwaggerPath(path) && !Under(path, ActuatorBase) && !Under(path, ApiV2Base)
    ensures Authorize(path, verb, principal) == Allow
  {
    RuleTableMatches(path, verb);
  }

  /** Missing credentials are never answered with 403, and an ADMIN is admitted everywhere. */
  /** The whole access table: Swagger and actuator paths are ADMIN-only, `/api/v2` reads
      need any role and its writes need ADMIN, and every other path is open. */
  lemma AuthorizeTable(path: string, verb: Method, principal: Option<Principal>)
    ensures Authorize(path, verb, principal) ==
            if IsSwaggerPath(path) || Under(path, ActuatorBase) then AdminOnly(principal)
            else if Under(path, ApiV2Base) then (if verb == GET then AnyAuthenticated(principal) else AdminOnly(principal))
            else Allow
  {
    if IsSwaggerPath(path) {
      SwaggerRequiresAdmin(path, verb, principal);
    } else if Under(path, ActuatorBase) {
      ActuatorRequiresAdmin(path, verb, principal);
    } else if Under(path, ApiV2Base) {
      if verb == GET {
        V2ReadIsDecidedByReadRule(path, principal);
      } else {
        V2WriteRequiresAdmin(path, verb, principal);
      }
    } else {
      UnprotectedPathsAreOpen(path, verb, principal);
    }
  }
}

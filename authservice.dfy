/** The access decisions of the batch server: which URLs need credentials,
    how HTTP Basic credentials are read, and which users may reach which
    business-cloud routes. The user collection is held as a sequence of
    records; base64 decoding is a parameter. */
module AuthService {
  import opened Wrappers
  import opened JsText

  /** How a request ends: passed on to the next handler, answered with 401 and
      a message, or aborted by a thrown TypeError. */
  datatype Verdict = Allow | Reject(message: string) | Thrown

  const MissingHeader: string := "Missing Authorization Header"
  const UnAuthorized: string := "Un Authorized"

  /** A user of the server configuration; `businessClouds` may be missing. */
  datatype ConfigUser = ConfigUser(username: string, password: string, kind: string, businessClouds: Option<seq<string>>)

  /** The configured fallback administrator. */
  datatype Admin = Admin(username: string, password: string, kind: string)

  /** `config.getauthdetails()`: whether authentication is on, each business
      cloud's routes, the configured users and the default administrator. */
  datatype AuthDetails = AuthDetails(required: bool, clouds: map<string, seq<string>>, users: seq<ConfigUser>, defaultAdmin: Admin)

  /** A record of the users collection: its type, its ACCESS list of business
      clouds and its Pages, the last two possibly missing. */
  datatype DbUser = DbUser(username: string, password: string, kind: string, access: Option<seq<string>>, pages: Option<seq<string>>)

  /** The username and password read from decoded Basic credentials; either may be undefined. */
  datatype Credentials = Credentials(username: Field, password: Field)

  // ---------------------------------------------------------------------------
  // Protected URLs
  // ---------------------------------------------------------------------------

  /** A URL is protected when it contains some route of some business cloud,
      or contains "/admin/". */
  ghost predicate Protected(clouds: map<string, seq<string>>, url: string)
  {
    (exists key, r | key in clouds && r in clouds[key] :: Includes(url, r)) || Includes(url, "/admin/")
  }

  /** `isAuthenticationRequiredURL`: every route of every business cloud, then "/admin/". */
  method IsAuthenticationRequiredURL(clouds: map<string, seq<string>>, url: string) returns (b: bool)
    ensures b <==> Protected(clouds, url)
  {
    var keys := clouds.Keys;
    while keys != {}
      invariant keys <= clouds.Keys
      invariant forall key, r | key in clouds.Keys - keys && r in clouds[key] :: !Includes(url, r)
      decreases keys
    {
      var key :| key in keys;
      var routes := clouds[key];
      var i := 0;
      while i < |routes|
        invariant 0 <= i <= |routes|
        invariant forall m | 0 <= m < i :: !Includes(url, routes[m])
      {
        if Includes(url, routes[i]) {
          return true;
        }
        i := i + 1;
      }
      keys := keys - {key};
    }
    b := Includes(url, "/admin/");
  }

  // ---------------------------------------------------------------------------
  // Basic credentials
  // ---------------------------------------------------------------------------

  /** `credentials.split(':')`: the first two pieces; the second is undefined
      when there is no colon. */
  function ReadCredentials(decoded: string): Credentials
  {
    var parts := Split(decoded, ':');
    Credentials(Some(parts[0]), if |parts| > 1 then Some(parts[1]) else None)
  }

  /** The username is the text before the first colon (all of it when there is
      none); the password is the text between the first and second colons, or
      up to the end, and is undefined without a colon. */
  lemma CredentialsSplit(decoded: string)
    ensures ReadCredentials(decoded).username
            == Some(if ':' in decoded then decoded[..CharIndex(decoded, ':')] else decoded)
    ensures ':' !in decoded ==> ReadCredentials(decoded).password == None
    ensures ':' in decoded ==>
              var rest := decoded[CharIndex(decoded, ':') + 1..];
              ReadCredentials(decoded).password == Some(if ':' in rest then rest[..CharIndex(rest, ':')] else rest)
  {
    if ':' in decoded {
      var rest := decoded[CharIndex(decoded, ':') + 1..];
      assert Split(decoded, ':') == [decoded[..CharIndex(decoded, ':')]] + Split(rest, ':');
    }
  }

  // ---------------------------------------------------------------------------
  // Users
  // ---------------------------------------------------------------------------

  /** The configured user has exactly these credentials (`==` against a possibly undefined value). */
  predicate Matches(u: ConfigUser, username: Field, password: Field)
  {
    Some(u.username) == username && Some(u.password) == password
  }

  /** The first configured user with these credentials. */
  function FirstUser(users: seq<ConfigUser>, username: Field, password: Field): (r: Option<nat>)
    ensures r.Some? ==> r.value < |users| && Matches(users[r.value], username, password)
                        && forall m | 0 <= m < r.value :: !Matches(users[m], username, password)
    ensures r.None? ==> forall m | 0 <= m < |users| :: !Matches(users[m], username, password)
  {
    if users == [] then None
    else if Matches(users[0], username, password) then Some(0)
    else
      var r := FirstUser(users[1..], username, password);
      if r.None? then None else Some(r.value + 1)
  }

  /** `filterUsers`: a stored user with these credentials, taken as the first one. */
  function FilterUsers(db: seq<DbUser>, username: Field, password: Field): (r: Option<DbUser>)
    ensures r.Some? ==> r.value in db && Some(r.value.username) == username && Some(r.value.password) == password
    ensures r.None? ==> forall u | u in db :: !(Some(u.username) == username && Some(u.password) == password)
  {
    if db == [] then None
    else if Some(db[0].username) == username && Some(db[0].password) == password then Some(db[0])
    else FilterUsers(db[1..], username, password)
  }

  /** `getAdminUserPresent`: some stored user has type ADMIN. */
  predicate AdminPresent(db: seq<DbUser>)
  {
    exists u | u in db :: u.kind == "ADMIN"
  }

  /** The credentials are the default administrator's. */
  predicate DefaultAdminMatches(admin: Admin, username: Field, password: Field)
  {
    Some(admin.username) == username && Some(admin.password) == password
  }

  // ---------------------------------------------------------------------------
  // Route checks
  // ---------------------------------------------------------------------------

  /** A routes array used where a string is expected: its elements joined by commas. */
  function RouteText(routes: seq<string>): string
  {
    Join(routes, ",")
  }

  /** The route loop of `Authenticate`: the first business cloud, in list
      order, whose routes the URL contains lets the request through; an unknown
      cloud throws; when none matches the request is refused. */
  function RouteScan(clouds: map<string, seq<string>>, keys: seq<string>, url: string): Verdict
  {
    if keys == [] then Reject(UnAuthorized)
    else if keys[0] !in clouds then Thrown
    else if Includes(url, RouteText(clouds[keys[0]])) then Allow
    else RouteScan(clouds, keys[1..], url)
  }

  /** `Authenticate`: an ADMIN record always passes; otherwise the first
      configured user with these credentials decides (a SERVER user by its
      business clouds, any other type is refused); otherwise the record's
      ACCESS list decides; with no record the request is refused. */
  function AuthenticateVerdict(auth: AuthDetails, url: string, username: Field, password: Field, details: Option<DbUser>): Verdict
  {
    if details.Some? && details.value.kind == "ADMIN" then Allow
    else
      var first := FirstUser(auth.users, username, password);
      if first.Some? then
        var u := auth.users[first.value];
        if u.kind != "SERVER" then Reject(UnAuthorized)
        else if u.businessClouds.None? then Thrown
        else RouteScan(auth.clouds, u.businessClouds.value, url)
      else if details.None? then Reject(UnAuthorized)
      else if details.value.access.None? then Thrown
      else RouteScan(auth.clouds, details.value.access.value, url)
  }

  /** The loop over a list of business clouds. */
  method ScanRoutes(clouds: map<string, seq<string>>, keys: seq<string>, url: string) returns (v: Verdict)
    ensures v == RouteScan(clouds, keys, url)
  {
    var i := 0;
    while i < |keys|
      invariant 0 <= i <= |keys|
      invariant RouteScan(clouds, keys, url) == RouteScan(clouds, keys[i..], url)
    {
      assert keys[i..][1..] == keys[i + 1..];
      var key := keys[i];
      if key !in clouds {
        return Thrown;
      }
      if Includes(url, RouteText(clouds[key])) {
        return Allow;
      }
      i := i + 1;
    }
    v := Reject(UnAuthorized);
  }

  /** `Authenticate`, with its loop over the configured users. */
  method Authenticate(auth: AuthDetails, url: string, username: Field, password: Field, details: Option<DbUser>) returns (v: Verdict)
    ensures v == AuthenticateVerdict(auth, url, username, password, details)
  {
    if details.Some? && details.value.kind == "ADMIN" {
      return Allow;
    }
    var i := 0;
    while i < |auth.users|
      invariant 0 <= i <= |auth.users|
      invariant forall m | 0 <= m < i :: !Matches(auth.users[m], username, password)
    {
      var u := auth.users[i];
      if Some(u.username) == username && Some(u.password) == password {
        if u.kind == "SERVER" {
          if u.businessClouds.None? {
            return Thrown;
          }
          v := ScanRoutes(auth.clouds, u.businessClouds.value, url);
          return;
        }
        return Reject(UnAuthorized);
      }
      i := i + 1;
    }
    if details.Some? {
      if details.value.access.None? {
        return Thrown;
      }
      v := ScanRoutes(auth.clouds, details.value.access.value, url);
      return;
    }
    v := Reject(UnAuthorized);
  }

  // ---------------------------------------------------------------------------
  // Request validation
  // ---------------------------------------------------------------------------

  /** `validateAPIs`: open requests pass before any header check; a protected
      URL needs a Basic header, whose credentials are looked up among the
      stored users; the default administrator passes only while no ADMIN is
      stored; everything else goes to `Authenticate`. */
  ghost function ValidateVerdict(auth: AuthDetails, url: string, header: Field, db: seq<DbUser>, decode: string -> string): Verdict
  {
    if !auth.required || !Protected(auth.clouds, url) then Allow
    else if !Truthy(header) || !Includes(header.value, "Basic ") then Reject(MissingHeader)
    else
      var parts := Split(header.value, ' ');
      if |parts| < 2 then Thrown
      else
        var c := ReadCredentials(decode(parts[1]));
        var found := FilterUsers(db, c.username, c.password);
        if found.Some? then AuthenticateVerdict(auth, url, c.username, c.password, found)
        else if !AdminPresent(db) && DefaultAdminMatches(auth.defaultAdmin, c.username, c.password) then Allow
        else AuthenticateVerdict(auth, url, c.username, c.password, None)
  }

  /** `validateAPIs` as the sequence of checks and lookups it performs. */
  method ValidateAPIs(auth: AuthDetails, url: string, header: Field, db: seq<DbUser>, decode: string -> string) returns (v: Verdict)
    ensures v == ValidateVerdict(auth, url, header, db, decode)
  {
    if !auth.required {
      return Allow;
    }
    var protected := IsAuthenticationRequiredURL(auth.clouds, url);
    if !protected {
      return Allow;
    }
    if !Truthy(header) || !Includes(header.value, "Basic ") {
      return Reject(MissingHeader);
    }
    var parts := Split(header.value, ' ');
    if |parts| < 2 {
      return Thrown;
    }
    var c := ReadCredentials(decode(parts[1]));
    var found := FilterUsers(db, c.username, c.password);
    if found.Some? {
      v := Authenticate(auth, url, c.username, c.password, found);
    } else if !AdminPresent(db) && DefaultAdminMatches(auth.defaultAdmin, c.username, c.password) {
      v := Allow;
    } else {
      v := Authenticate(auth, url, c.username, c.password, None);
    }
  }

  // ---------------------------------------------------------------------------
  // Portal login
  // ---------------------------------------------------------------------------

  /** The answer to a portal login: a valid user with its type, access and
      pages, or "Inavild User". */
  datatype PortalReply = ValidUser(kind: string, access: Option<seq<string>>, pages: Option<seq<string>>) | InvalidUser

  /** The default administrator's answer: valid only if its configured type is ADMIN. */
  function DefaultAdminReply(admin: Admin, username: Field, password: Field): PortalReply
  {
    if DefaultAdminMatches(admin, username, password) then
      if admin.kind == "ADMIN" then ValidUser(admin.kind, Some([]), Some([])) else InvalidUser
    else InvalidUser
  }

  /** `ValidatePortalUser`: with stored users, a stored match is valid and the
      default administrator is considered only while no ADMIN is stored; with
      none stored, only the default administrator is considered. */
  function ValidatePortalUser(auth: AuthDetails, db: seq<DbUser>, username: Field, password: Field): PortalReply
  {
    if |db| > 0 then
      var found := FilterUsers(db, username, password);
      if found.Some? then ValidUser(found.value.kind, found.value.access, found.value.pages)
      else if !AdminPresent(db) then DefaultAdminReply(auth.defaultAdmin, username, password)
      else InvalidUser
    else DefaultAdminReply(auth.defaultAdmin, username, password)
  }

  // ---------------------------------------------------------------------------
  // Properties
  // ---------------------------------------------------------------------------

  /** With authentication off, or on an unprotected URL, every request passes,
      whatever its header and whoever is stored. */
  lemma OpenRequestsPass(auth: AuthDetails, url: string, header: Field, db: seq<DbUser>, decode: string -> string)
    requires !auth.required || !Protected(auth.clouds, url)
    ensures ValidateVerdict(auth, url, header, db, decode) == Allow
  {
  }

  /** On a protected URL a missing header, or one without "Basic ", is refused
      before any lookup. */
  lemma MissingHeaderRejected(auth: AuthDetails, url: string, header: Field, db: seq<DbUser>, decode: string -> string)
    requires auth.required && Protected(auth.clouds, url)
    requires header.None? || !Includes(header.value, "Basic ")
    ensures ValidateVerdict(auth, url, header, db, decode) == Reject(MissingHeader)
  {
  }

  /** A stored ADMIN record always passes `Authenticate`. */
  lemma AdminRecordPasses(auth: AuthDetails, url: string, username: Field, password: Field, rec: DbUser)
    requires rec.kind == "ADMIN"
    ensures AuthenticateVerdict(auth, url, username, password, Some(rec)) == Allow
  {
  }

  /** Over known business clouds the route scan never throws, passes exactly
      when the URL contains the routes of one of them, and otherwise refuses. */
  lemma {:induction false} RouteScanDecides(clouds: map<string, seq<string>>, keys: seq<string>, url: string)
    requires forall k | 0 <= k < |keys| :: keys[k] in clouds
    ensures RouteScan(clouds, keys, url) == Allow
            <==> exists k | 0 <= k < |keys| :: Includes(url, RouteText(clouds[keys[k]]))
    ensures RouteScan(clouds, keys, url) != Allow ==> RouteScan(clouds, keys, url) == Reject(UnAuthorized)
    decreases |keys|
  {
    if keys != [] {
      RouteScanDecides(clouds, keys[1..], url);
      if exists k | 0 <= k < |keys| :: Includes(url, RouteText(clouds[keys[k]])) {
        var k :| 0 <= k < |keys| && Includes(url, RouteText(clouds[keys[k]]));
        if k > 0 {
          assert keys[1..][k - 1] == keys[k];
        }
      }
    }
  }

  /** The first configured user with the credentials decides: a SERVER user
      over known clouds passes exactly when the URL contains the routes of one
      of its clouds; a user of another type is refused, even with a stored
      record granting access. */
  lemma FirstUserDecides(auth: AuthDetails, url: string, username: Field, password: Field, details: Option<DbUser>, i: nat)
    requires i < |auth.users| && Matches(auth.users[i], username, password)
    requires forall m | 0 <= m < i :: !Matches(auth.users[m], username, password)
    requires details.None? || details.value.kind != "ADMIN"
    ensures auth.users[i].kind != "SERVER" ==> AuthenticateVerdict(auth, url, username, password, details) == Reject(UnAuthorized)
    ensures auth.users[i].kind == "SERVER" && auth.users[i].businessClouds.Some?
            && (forall k | 0 <= k < |auth.users[i].businessClouds.value| :: auth.users[i].businessClouds.value[k] in auth.clouds)
            ==> (AuthenticateVerdict(auth, url, username, password, details) == Allow
                 <==> exists k | 0 <= k < |auth.users[i].businessClouds.value| ::
                        Includes(url, RouteText(auth.clouds[auth.users[i].businessClouds.value[k]])))
  {
    assert FirstUser(auth.users, username, password) == Some(i);
    if auth.users[i].kind == "SERVER" && auth.users[i].businessClouds.Some? {
      if forall k | 0 <= k < |auth.users[i].businessClouds.value| :: auth.users[i].businessClouds.value[k] in auth.clouds {
        RouteScanDecides(auth.clouds, auth.users[i].businessClouds.value, url);
      }
    }
  }

  /** With no configured user matching, a stored non-ADMIN record passes exactly
      when the URL contains the routes of one of its ACCESS clouds, and no record
      means refusal. */
  lemma AccessListDecides(auth: AuthDetails, url: string, username: Field, password: Field, details: Option<DbUser>)
    requires forall m | 0 <= m < |auth.users| :: !Matches(auth.users[m], username, password)
    requires details.None? || details.value.kind != "ADMIN"
    ensures details.None? ==> AuthenticateVerdict(auth, url, username, password, details) == Reject(UnAuthorized)
    ensures details.Some? && details.value.access.Some?
            && (forall k | 0 <= k < |details.value.access.value| :: details.value.access.value[k] in auth.clouds)
            ==> (AuthenticateVerdict(auth, url, username, password, details) == Allow
                 <==> exists k | 0 <= k < |details.value.access.value| ::
                        Includes(url, RouteText(auth.clouds[details.value.access.value[k]])))
  {
    if details.Some? && details.value.access.Some? {
      if forall k | 0 <= k < |details.value.access.value| :: details.value.access.value[k] in auth.clouds {
        RouteScanDecides(auth.clouds, details.value.access.value, url);
      }
    }
  }

  /** A portal login that matches no stored user is valid exactly when the
      credentials are the default administrator's, its type is ADMIN and no
      ADMIN is stored, and then it carries no access and no pages. */
  lemma DefaultAdminDecision(auth: AuthDetails, db: seq<DbUser>, username: Field, password: Field)
    requires FilterUsers(db, username, password).None?
    ensures ValidatePortalUser(auth, db, username, password).ValidUser?
            <==> DefaultAdminMatches(auth.defaultAdmin, username, password)
                 && auth.defaultAdmin.kind == "ADMIN" && !AdminPresent(db)
    ensures ValidatePortalUser(auth, db, username, password).ValidUser?
            ==> ValidatePortalUser(auth, db, username, password) == ValidUser("ADMIN", Some([]), Some([]))
  {
  }

  /** A portal login that matches a stored user answers with that user's type,
      access and pages. */
  lemma StoredUserValid(auth: AuthDetails, db: seq<DbUser>, username: Field, password: Field)
    requires FilterUsers(db, username, password).Some?
    ensures var rec := FilterUsers(db, username, password).value;
            ValidatePortalUser(auth, db, username, password) == ValidUser(rec.kind, rec.access, rec.pages)
  {
  }
}

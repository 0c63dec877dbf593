/** User registration in its two versions, `AuthService.registerUser` and
    `AuthServiceImpl.registerUser`: the uniqueness checks (username first,
    then email), the resolution of requested role names to role rows, and
    the saved user.

    The two versions differ in two rules.  `AuthService` lower-cases each
    role name before matching it and gives a null or empty request the
    default role; `AuthServiceImpl` matches names exactly and defaults only a
    null request, so an empty request yields a user with no roles.

    The password encoder is a function parameter; the role repository is
    the set of role rows that exist. */
module Registration {
  import opened Common

  datatype ERole = RoleUser | RoleModerator | RoleAdmin

  datatype User = User(
    username: String,
    email: String,
    password: String,
    firstName: Option<String>,
    lastName: Option<String>,
    roles: set<ERole>)

  /** The request `AuthService` takes (a missing name is `None`, as is a
      missing role set). */
  datatype RegisterRequest = RegisterRequest(
    username: String,
    email: String,
    password: String,
    firstName: Option<String>,
    lastName: Option<String>,
    roles: Option<set<String>>)

  /** The request `AuthServiceImpl` takes. */
  datatype SignupRequest = SignupRequest(
    username: String,
    email: String,
    password: String,
    role: Option<set<String>>)

  datatype AuthError =
    | UsernameTaken        // "Error: Username is already taken!"
    | EmailInUse           // "Error: Email is already in use!"
    | RoleNotFound(role: ERole)

  /** The role a name selects, matched exactly: "admin" and "mod" are the only
      names that select something other than the default. */
  function RoleFor(name: String): (r: ERole)
    ensures r == RoleAdmin <==> name == "admin"
    ensures r == RoleModerator <==> name == "mod"
    ensures r == RoleUser <==> name != "admin" && name != "mod"
  {
    if name == "admin" then RoleAdmin
    else if name == "mod" then RoleModerator
    else RoleUser
  }

  /** `Character.toLowerCase` restricted to ASCII letters. */
  function LowerChar(c: char): (d: char)
    ensures 'A' <= c <= 'Z' ==> 'a' <= d <= 'z' && d as int - c as int == 32
    ensures !('A' <= c <= 'Z') ==> d == c
  {
    if 'A' <= c <= 'Z' then (c as int + 32) as char else c
  }

  /** `String.toLowerCase` restricted to ASCII letters: one character for one. */
  function LowerAscii(s: String): (r: String)
    ensures |r| == |s|
    ensures forall i :: 0 <= i < |s| ==> r[i] == LowerChar(s[i])
  {
    if s == [] then [] else [LowerChar(s[0])] + LowerAscii(s[1..])
  }

  /** A string with no upper-case ASCII letter is its own lower-case form. */
  lemma LowerAsciiFixes(s: String)
    requires forall i :: 0 <= i < |s| ==> !('A' <= s[i] <= 'Z')
    ensures LowerAscii(s) == s
  {
    var r := LowerAscii(s);
    assert forall i :: 0 <= i < |s| ==> r[i] == s[i];
  }

  /** Lower-casing twice is lower-casing once. */
  lemma LowerAsciiIdempotent(s: String)
    ensures LowerAscii(LowerAscii(s)) == LowerAscii(s)
  {
    LowerAsciiFixes(LowerAscii(s));
  }

  /** The role a name selects after lower-casing (`AuthService`). */
  function FoldedRoleFor(name: String): ERole {
    RoleFor(LowerAscii(name))
  }

  /** Lower-casing only widens the match: a name that selects a role exactly
      selects the same role after folding, and a folded match on "admin" or
      "mod" is exactly a name that lower-cases to it. */
  lemma FoldingExtendsExactMatch(name: String)
    ensures RoleFor(name) != RoleUser ==> FoldedRoleFor(name) == RoleFor(name)
    ensures FoldedRoleFor(name) == RoleAdmin <==> LowerAscii(name) == "admin"
    ensures FoldedRoleFor(name) == RoleModerator <==> LowerAscii(name) == "mod"
  {
    if name == "admin" || name == "mod" {
      LowerAsciiFixes(name);
    }
  }

  /** The two matchers part on capitalised names: "Admin" is an administrator
      for `AuthService` and a plain user for `AuthServiceImpl`. */
  lemma CapitalisedAdmin()
    ensures FoldedRoleFor("Admin") == RoleAdmin
    ensures RoleFor("Admin") == RoleUser
  {
    var lowered := LowerAscii("Admin");
    assert lowered[0] == 'a' && lowered[1] == 'd' && lowered[2] == 'm' && lowered[3] == 'i' && lowered[4] == 'n';
    assert lowered == "admin";
  }

  /** The roles a set of names selects, each at most once. */
  function Selected(names: set<String>, resolve: String -> ERole): set<ERole> {
    set n | n in names :: resolve(n)
  }

  /** The roles `AuthService` assigns: the default role for a missing or
      empty request, otherwise the folded match of each name. */
  function FoldedRoles(requested: Option<set<String>>): set<ERole> {
    if requested.None? || requested.value == {} then {RoleUser}
    else Selected(requested.value, FoldedRoleFor)
  }

  /** The roles `AuthServiceImpl` assigns: the default role only for a missing
      request, otherwise the exact match of each name. */
  function ExactRoles(requested: Option<set<String>>): set<ERole> {
    if requested.None? then {RoleUser} else Selected(requested.value, RoleFor)
  }

  /** A user registered through `AuthService` always gets a role; one
      registered through `AuthServiceImpl` with an empty role set gets none. */
  lemma RoleDefaults(requested: Option<set<String>>)
    ensures FoldedRoles(requested) != {}
    ensures requested.None? || requested == Some({}) ==> FoldedRoles(requested) == {RoleUser}
    ensures requested.None? ==> ExactRoles(requested) == {RoleUser}
    ensures requested == Some({}) ==> ExactRoles(requested) == {}
    ensures requested.Some? && requested.value != {} ==> ExactRoles(requested) != {}
  {
    if requested.Some? && requested.value != {} {
      var n :| n in requested.value;
      assert FoldedRoleFor(n) in FoldedRoles(requested);
      assert RoleFor(n) in ExactRoles(requested);
    }
  }

  /** A role belongs to the selection exactly when some requested name maps
      to it. */
  lemma SelectedMembers(names: set<String>, resolve: String -> ERole, role: ERole)
    ensures role in Selected(names, resolve) <==> exists n :: n in names && resolve(n) == role
  {
  }

  /** Resolves each requested name to its role row, in the unspecified order
      of the name set, adding to a set; the first name whose row is missing
      aborts with that role.  Which missing role is reported depends on the
      order, but whether resolution fails does not. */
  method ResolveRoles(names: set<String>, available: set<ERole>, resolve: String -> ERole)
    returns (r: Result<set<ERole>, AuthError>)
    ensures r.Success? <==> Selected(names, resolve) <= available
    ensures r.Success? ==> r.value == Selected(names, resolve)
    ensures r.Failure? ==>
              && r.error.RoleNotFound?
              && r.error.role !in available
              && r.error.role in Selected(names, resolve)
  {
    var remaining := names;
    var roles: set<ERole> := {};
    while remaining != {}
      invariant remaining <= names
      invariant roles == Selected(names - remaining, resolve)
      invariant roles <= available
      decreases |remaining|
    {
      var n :| n in remaining;
      var role := resolve(n);
      if role !in available {
        assert role in Selected(names, resolve);
        return Failure(RoleNotFound(role));
      }
      assert Selected(names - (remaining - {n}), resolve) == roles + {role} by {
        assert names - (remaining - {n}) == (names - remaining) + {n};
      }
      roles := roles + {role};
      remaining := remaining - {n};
    }
    assert names - remaining == names;
    return Success(roles);
  }

  /** The user repository's `existsByUsername`. */
  predicate UsernameExists(users: seq<User>, username: String) {
    exists i :: 0 <= i < |users| && users[i].username == username
  }

  /** The user repository's `existsByEmail`. */
  predicate EmailExists(users: seq<User>, email: String) {
    exists i :: 0 <= i < |users| && users[i].email == email
  }

  /** The names the role step asks for: for the default, just the name that
      selects `RoleUser`. */
  function RequestedRoles(requested: Option<set<String>>, defaultOnEmpty: bool): set<String> {
    if requested.None? || (defaultOnEmpty && requested.value == {}) then {"user"}
    else requested.value
  }

  /** `RequestedRoles` resolves to the assigned role sets of both versions. */
  lemma RequestedRolesSelect(requested: Option<set<String>>)
    ensures Selected(RequestedRoles(requested, true), FoldedRoleFor) == FoldedRoles(requested)
    ensures Selected(RequestedRoles(requested, false), RoleFor) == ExactRoles(requested)
  {
    if requested.None? || requested.value == {} {
      LowerAsciiFixes("user");
      assert FoldedRoleFor("user") == RoleUser;
      assert Selected({"user"}, FoldedRoleFor) == {RoleUser};
    }
  }

  /** `AuthService`: class-level @Transactional, so every failure leaves the
      user repository as it was. */
  class AuthService {
    var users: seq<User>
    var roleRows: set<ERole>

    constructor (users: seq<User>, roleRows: set<ERole>)
      ensures this.users == users && this.roleRows == roleRows
    {
      this.users := users;
      this.roleRows := roleRows;
    }

    /** registerUser: a taken username fails before the email is looked at; a
        taken email fails next; a needed role row that is missing fails; in
        every failure nothing is saved.  Otherwise exactly one user is
        appended, with the request's names, the encoded password and the
        folded roles. */
    method RegisterUser(req: RegisterRequest, encode: String -> String) returns (r: Outcome<AuthError>)
      modifies this`users
      ensures UsernameExists(old(users), req.username) ==> r == Fail(UsernameTaken)
      ensures !UsernameExists(old(users), req.username) && EmailExists(old(users), req.email) ==> r == Fail(EmailInUse)
      ensures r == Pass <==>
                && !UsernameExists(old(users), req.username)
                && !EmailExists(old(users), req.email)
                && FoldedRoles(req.roles) <= roleRows
      ensures r.Fail? ==> users == old(users)
      ensures !UsernameExists(old(users), req.username) && !EmailExists(old(users), req.email) && r.Fail? ==>
                r.error.RoleNotFound?
      ensures r.Fail? && r.error.RoleNotFound? ==> r.error.role !in roleRows && r.error.role in FoldedRoles(req.roles)
      ensures r == Pass ==>
                users == old(users) + [User(req.username, req.email, encode(req.password),
                                            req.firstName, req.lastName, FoldedRoles(req.roles))]
    {
      if UsernameExists(users, req.username) {
        return Fail(UsernameTaken);
      }
      if EmailExists(users, req.email) {
        return Fail(EmailInUse);
      }
      var password := encode(req.password);
      RequestedRolesSelect(req.roles);
      var resolved := ResolveRoles(RequestedRoles(req.roles, true), roleRows, FoldedRoleFor);
      if resolved.Failure? {
        return Fail(resolved.error);
      }
      var user := User(req.username, req.email, password, req.firstName, req.lastName, resolved.value);
      users := users + [user];
      return Pass;
    }
  }

  /** `AuthServiceImpl` (no transaction boundary of its own: the only write is
      the final save). */
  class AuthServiceImpl {
    var users: seq<User>
    var roleRows: set<ERole>

    constructor (users: seq<User>, roleRows: set<ERole>)
      ensures this.users == users && this.roleRows == roleRows
    {
      this.users := users;
      this.roleRows := roleRows;
    }

    /** registerUser: the same checks in the same order, exact role matching,
        no names copied; on success the success message is returned. */
    method RegisterUser(req: SignupRequest, encode: String -> String) returns (r: Result<String, AuthError>)
      modifies this`users
      ensures UsernameExists(old(users), req.username) ==> r == Failure(UsernameTaken)
      ensures !UsernameExists(old(users), req.username) && EmailExists(old(users), req.email) ==> r == Failure(EmailInUse)
      ensures r.Success? <==>
                && !UsernameExists(old(users), req.username)
                && !EmailExists(old(users), req.email)
                && ExactRoles(req.role) <= roleRows
      ensures r.Failure? ==> users == old(users)
      ensures !UsernameExists(old(users), req.username) && !EmailExists(old(users), req.email) && r.Failure? ==>
                r.error.RoleNotFound?
      ensures r.Failure? && r.error.RoleNotFound? ==> r.error.role !in roleRows && r.error.role in ExactRoles(req.role)
      ensures r.Success? ==>
                && r.value == "User registered successfully!"
                && users == old(users) + [User(req.username, req.email, encode(req.password),
                                               None, None, ExactRoles(req.role))]
    {
      if UsernameExists(users, req.username) {
        return Failure(UsernameTaken);
      }
      if EmailExists(users, req.email) {
        return Failure(EmailInUse);
      }
      var password := encode(req.password);
      RequestedRolesSelect(req.role);
      var resolved := ResolveRoles(RequestedRoles(req.role, false), roleRows, RoleFor);
      if resolved.Failure? {
        return Failure(resolved.error);
      }
      var user := User(req.username, req.email, password, None, None, resolved.value);
      users := users + [user];
      return Success("User registered successfully!");
    }
  }
}

/** The route guard of `components/auth/ProtectedRoute`: a chain of checks
    over the authentication state that picks what is rendered.  The toasts it
    raises on the way are left out.

    JavaScript truthiness is written out: `loading` is a flag, a missing user
    is `None`, the user's `roles` array may be missing (an empty array is
    present), and a `requiredRole` counts only when it is a non-empty
    string. */
module AuthGuard {
  import opened Common

  datatype AuthUser = AuthUser(roles: Option<seq<String>>)

  datatype View =
    | Loading          // the "Checking authentication..." placeholder
    | RedirectToLogin  // <Navigate to="/login">
    | RedirectToHome   // <Navigate to="/">
    | Children         // the protected content

  /** A truthy `requiredRole`. */
  predicate RoleRequired(requiredRole: Option<String>) {
    requiredRole.Some? && requiredRole.value != ""
  }

  /** The user holds `role`: the roles array is present and includes it. */
  predicate Holds(user: AuthUser, role: String) {
    user.roles.Some? && role in user.roles.value
  }

  /** The guard: loading first, then login, then the role. */
  function Guard(loading: bool, currentUser: Option<AuthUser>, requiredRole: Option<String>): (v: View)
    ensures loading ==> v == Loading
    ensures !loading && currentUser.None? ==> v == RedirectToLogin
    ensures (!loading && currentUser.Some? && RoleRequired(requiredRole) &&
             !Holds(currentUser.value, requiredRole.value)) ==> v == RedirectToHome
    ensures !loading && currentUser.Some? && !RoleRequired(requiredRole) ==> v == Children
  {
    if loading then Loading
    else if currentUser.None? then RedirectToLogin
    else if RoleRequired(requiredRole) && !Holds(currentUser.value, requiredRole.value) then RedirectToHome
    else Children
  }

  /** The protected content is shown exactly to a logged-in user, once
      loading is over, who holds the required role if one is required. */
  lemma GuardGrantsIff(loading: bool, currentUser: Option<AuthUser>, requiredRole: Option<String>)
    ensures Guard(loading, currentUser, requiredRole) == Children <==>
              && !loading
              && currentUser.Some?
              && (RoleRequired(requiredRole) ==> Holds(currentUser.value, requiredRole.value))
  {
  }

  /** A user whose roles array is missing is turned away from every route
      that requires a role, and only from those. */
  lemma MissingRolesRedirect(requiredRole: Option<String>)
    ensures Guard(false, Some(AuthUser(None)), requiredRole) ==
              if RoleRequired(requiredRole) then RedirectToHome else Children
  {
  }

  const AuthorityPrefix: String := "ROLE_"

  /** The role names the backend sends are authority names, each starting
      with "ROLE_". */
  predicate BackendRoles(user: AuthUser) {
    user.roles.Some? &&
    forall i :: 0 <= i < |user.roles.value| ==>
      |AuthorityPrefix| <= |user.roles.value[i]| && user.roles.value[i][..|AuthorityPrefix|] == AuthorityPrefix
  }

  /** The admin route as declared in the application's routes: it requires the
      role "ADMIN", which no authority name equals, so every user the backend
      logs in is redirected home, administrators included. */
  lemma AdminRouteAsWritten(user: AuthUser)
    requires BackendRoles(user)
    ensures Guard(false, Some(user), Some("ADMIN")) == RedirectToHome
  {
    forall i | 0 <= i < |user.roles.value| ensures user.roles.value[i] != "ADMIN" {
      assert user.roles.value[i][..|AuthorityPrefix|][4] == '_';
    }
  }

  /** The admin route with the authority name the header's admin check uses,
      "ROLE_ADMIN": a logged-in user reaches it exactly when the user holds
      that role. */
  lemma AdminRouteIntended(user: AuthUser)
    ensures Guard(false, Some(user), Some("ROLE_ADMIN")) == Children <==> Holds(user, "ROLE_ADMIN")
    ensures Guard(false, Some(AuthUser(Some(["ROLE_ADMIN"]))), Some("ROLE_ADMIN")) == Children
  {
    assert "ROLE_ADMIN" in ["ROLE_ADMIN"];
  }
}

/**
 * Route gating: `ProtectedRoute` (src/components/ProtectedRoute.jsx) decides
 * on the context's `loading` flag and `user`; `RoleProtectedRoute`
 * (src/components/RoleProtectedRoute.jsx) decides on the user stored under
 * the key "user" and a list of allowed roles.
 */
module Access {
  import opened Common
  import opened Session

  /** What a guard renders. */
  datatype Outcome = ShowLoading | RedirectTo(path: string) | RenderChildren

  /** `allowedRoles.includes(user.role)`: exact, case-sensitive membership. */
  predicate RoleAllowed(role: Option<string>, allowedRoles: seq<string>) {
    role.Some? && role.value in allowedRoles
  }

  /**
   * `RoleProtectedRoute`. `stored` is `JSON.parse(localStorage.getItem("user"))`,
   * `None` when nothing is stored.
   */
  function RoleGate(stored: Option<User>, allowedRoles: seq<string>): (r: Outcome)
    ensures r != ShowLoading
    ensures r == RedirectTo("/login") <==> stored.None?
    ensures r == RedirectTo("/dashboard") <==> stored.Some? && !RoleAllowed(stored.value.role, allowedRoles)
    ensures r == RenderChildren <==> stored.Some? && RoleAllowed(stored.value.role, allowedRoles)
  {
    if stored.None? then RedirectTo("/login")
    else if !RoleAllowed(stored.value.role, allowedRoles) then RedirectTo("/dashboard")
    else RenderChildren
  }

  /** Of a stored user only the role matters. */
  lemma RoleGateOnlyReadsRole(u: User, v: User, allowedRoles: seq<string>)
    requires u.role == v.role
    ensures RoleGate(Some(u), allowedRoles) == RoleGate(Some(v), allowedRoles)
  {
  }

  /** Role membership is case-sensitive: "admin" does not admit "Admin". */
  lemma RoleGateCaseSensitive()
    ensures RoleGate(Some(Admin), ["admin"]) == RedirectTo("/dashboard")
    ensures RoleGate(Some(Admin), ["Admin"]) == RenderChildren
  {
  }

  /**
   * `ProtectedRoute`. `loading` is the truthiness of the context's `loading`;
   * `user` is the context's `user`.
   */
  function Gate(loading: bool, user: Option<User>): (r: Outcome)
    ensures loading ==> r == ShowLoading
    ensures !loading && user.None? ==> r == RedirectTo("/login")
    ensures !loading && user.Some? ==> r == RenderChildren
  {
    if loading then ShowLoading
    else if user.None? then RedirectTo("/login")
    else RenderChildren
  }

  /**
   * The value `UserProvider` puts in the context holds no `loading` key, so
   * reading it gives `undefined`, which is falsy.
   */
  function ProviderLoading(): bool {
    false
  }

  /**
   * Under `UserProvider`, `ProtectedRoute` never shows the loading view, and
   * it renders its children exactly when somebody is logged in.
   */
  lemma {:induction false} GateUnderProvider(user: Option<User>, calls: seq<Call>)
    ensures Gate(ProviderLoading(), user) != ShowLoading
    ensures Gate(ProviderLoading(), user) == RenderChildren <==> user.Some?
    ensures calls != [] ==>
              (Gate(ProviderLoading(), Run(user, calls)) == RenderChildren <==> calls[|calls| - 1] == Login)
  {
    if calls != [] {
      RunDeterminedByLast(user, calls);
    }
  }
}

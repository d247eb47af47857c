/** The per-route authorization gate `ProtectedRoute` of App.tsx.

    The gate reads the role stored under the key `userRole` in the browser's
    local storage and compares it with the route's optional list of allowed
    roles. The storage read is not modelled: the value it yields is the
    parameter `stored`. Navigation itself is not performed here either: the
    gate yields an outcome, either a redirect instruction or the wrapped page. */
module Gate {

  import opened Wrappers

  /** Target of the redirect issued when no role is stored. */
  const LoginPath: string := "/login"

  /** Target of the redirect issued when the role is not allowed. */
  const HomePath: string := "/"

  /** What a navigation ends in: a `<Navigate to=… replace>` instruction,
      or the page element `P` shown as it is. */
  datatype Outcome<+P> = Redirect(to: string, replace: bool) | Render(page: P)

  /** The JavaScript truthiness of the stored role: `null` and the empty
      string are both falsy, every other string is truthy. */
  predicate Truthy(stored: Option<string>)
  {
    stored.Some? && stored.value != ""
  }

  /** `allowedRoles && !allowedRoles.includes(role)` is false: the list is
      absent, or it holds the role under exact string equality (the
      SameValueZero comparison of `includes` on strings). A present empty
      list is truthy and so admits nobody. */
  predicate Admits(allowedRoles: Option<seq<string>>, role: string)
  {
    allowedRoles.None? || role in allowedRoles.value
  }

  /** The gate's decision. Checks run in the order App.tsx checks them: a falsy role
      goes to the login page, a role the allowed list does not hold goes
      home, anything else shows the wrapped page unchanged. Every redirect
      replaces the current history entry. */
  function ProtectedRoute<P>(stored: Option<string>, allowedRoles: Option<seq<string>>, children: P): (r: Outcome<P>)
    ensures r.Redirect? ==> r.replace && (r.to == LoginPath || r.to == HomePath)
    ensures r == Redirect(LoginPath, true) <==> !Truthy(stored)
    ensures r == Render(children) <==> Truthy(stored) && Admits(allowedRoles, stored.value)
    ensures r == Redirect(HomePath, true) <==> Truthy(stored) && !Admits(allowedRoles, stored.value)
  {
    if stored.None? || stored.value == "" then
      Redirect(LoginPath, true)
    else if allowedRoles.Some? && stored.value !in allowedRoles.value then
      Redirect(HomePath, true)
    else
      Render(children)
  }

  /** Without a usable role the gate sends the visitor to log in, whatever
      the allowed list is; the empty string counts as no role. */
  lemma MissingRoleGoesToLogin<P>(stored: Option<string>, allowedRoles: Option<seq<string>>, children: P)
    requires stored.None? || stored == Some("")
    ensures ProtectedRoute(stored, allowedRoles, children) == Redirect(LoginPath, true)
  {
  }

  /** Without an allowed list any non-empty role sees the page. */
  lemma AnyRolePassesOpenGate<P>(role: string, children: P)
    requires role != ""
    ensures ProtectedRoute(Some(role), None, children) == Render(children)
  {
  }

  /** With an allowed list a non-empty role sees the page exactly when the
      list holds it, and is otherwise sent home. */
  lemma ListedRoleDecides<P>(role: string, allowed: seq<string>, children: P)
    requires role != ""
    ensures role in allowed ==> ProtectedRoute(Some(role), Some(allowed), children) == Render(children)
    ensures role !in allowed ==> ProtectedRoute(Some(role), Some(allowed), children) == Redirect(HomePath, true)
  {
  }

  /** A present but empty allowed list denies every role, while an absent
      list admits every role: the two are not interchangeable. */
  lemma EmptyListDiffersFromAbsent<P>(role: string, children: P)
    requires role != ""
    ensures ProtectedRoute(Some(role), Some([]), children) == Redirect(HomePath, true)
    ensures ProtectedRoute(Some(role), None, children) == Render(children)
  {
  }

  /** Roles are compared as exact strings: a list naming one role refuses
      every other non-empty role, so no role implies another (`Officer`
      does not pass `['Farmer']`) and letter case matters (`farmer` does
      not pass `['Farmer']`). */
  lemma RolesMatchExactly<P>(role: string, other: string, children: P)
    requires role != "" && role != other
    ensures ProtectedRoute(Some(role), Some([other]), children) == Redirect(HomePath, true)
  {
  }

  /** The decision depends on the role and the allowed list only: the
      wrapped page is carried through and never inspected. */
  lemma DecisionIgnoresChildren<P>(stored: Option<string>, allowedRoles: Option<seq<string>>, a: P, b: P)
    ensures ProtectedRoute(stored, allowedRoles, a).Render? == ProtectedRoute(stored, allowedRoles, b).Render?
    ensures ProtectedRoute(stored, allowedRoles, a).Redirect? ==>
              ProtectedRoute(stored, allowedRoles, a) == ProtectedRoute(stored, allowedRoles, b)
  {
  }
}

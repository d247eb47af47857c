# Role-gated routing of the farmer-services client

This project models, in Dafny, how the client application decides what a
visitor sees at each path. `App.tsx` declares a fixed table of routes. Some
routes show their page to anyone. Others wrap the page in `ProtectedRoute`, a
gate that reads the role saved in the browser's local storage. The gate then
shows the page, sends the visitor to `/login`, or sends them home to `/`. A
`*` route sends every undeclared path home.

Modules:

- `Wrappers` (`wrappers.dfy`): `Option`, for the stored role (`string | null`)
  and the optional `allowedRoles` prop.
- `Gate` (`gate.dfy`): the `ProtectedRoute` decision, over the stored role, the
  allowed list and the wrapped page. The outcome is a datatype:
  `Redirect(to, replace)` for a `<Navigate>` or `Render(page)`. Two JavaScript
  details are kept. `!role` is true for the empty string as well as for `null`,
  so `Some("")` behaves like no role. A present but empty array is truthy, so
  `Some([])` denies every role. Membership is `includes`, which is exact string
  equality.
- `Routes` (`routes.dfy`): the route table as a `seq` of `(path, element)`
  entries. `Lookup` finds the first entry whose path matches, and `Resolve`
  evaluates that entry's element or the `*` fallback. `Policy` is a separate
  reference: a map from each path to its intended access (public, any role, or
  one named role). `ResolveFollowsPolicy` proves that the table and the gate
  together give the policy's outcome for every role and every path.
- `Reachability` (`reachability.dfy`): one lemma per kind of visitor. Each
  gives the outcome of every path for a visitor with no role, `Farmer`,
  `Officer`, or any other non-empty role. Typical navigations, such as
  `Officer` at `/profile` being sent home, are instances of these lemmas.

The stored role is `string | null`, and the code also treats the empty string
as no role. The allowed roles are an array. Membership ignores order and
duplicates, so the model uses a `seq`.

## Model

| member | source | states |
|---|---|---|
| `Gate.ProtectedRoute` | App.tsx:23-32 | Sends the visitor to `/login` exactly when the stored role is null or empty. Shows exactly the wrapped page when the role is non-empty and the list is absent or contains it. Sends the visitor to `/` in the remaining case. Every redirect replaces history and targets `/login` or `/`. |
| `Gate.MissingRoleGoesToLogin` | App.tsx:24-27 | A null or empty-string role goes to `/login` (replace) whatever the allowed list is. |
| `Gate.AnyRolePassesOpenGate` | App.tsx:28-31 | With no allowed list, any non-empty role sees the wrapped page. |
| `Gate.ListedRoleDecides` | App.tsx:28-31 | With an allowed list, a non-empty role sees the page if the list contains it, and otherwise goes to `/` (replace). |
| `Gate.EmptyListDiffersFromAbsent` | App.tsx:28 | An empty allowed list sends every non-empty role home, while an absent list shows the page. |
| `Gate.RolesMatchExactly` | App.tsx:28 | A list naming one role sends every other non-empty role to `/`: `Officer` is refused by `['Farmer']`, `Farmer` by `['Officer']` and `farmer` by `['Farmer']`. Roles do not imply each other and case matters. |
| `Gate.DecisionIgnoresChildren` | App.tsx:23-32 | The decision depends only on the role and the allowed list. Two different wrapped pages get the same kind of outcome, and the same redirect when one is issued. |
| `Routes.Lookup` | App.tsx:42-58 | Finds nothing exactly when no entry declares the path. Otherwise returns the element of the first entry that declares it. |
| `Routes.TablePathsDistinct` | App.tsx:43-56 | No two declared routes share a path. |
| `Routes.LookupDeclared` | App.tsx:43-56 | In a table without repeated paths, looking up an entry's path returns that entry's element. |
| `Routes.ResolveDeclared` | App.tsx:43-56 | Navigating to a declared path evaluates that route's element: the bare page, the gated page, or the redirect. |
| `Routes.Resolve` | App.tsx:42-58 | A page is shown only at a path whose route declares that page. A path no route declares is redirected to `/` with replace, for every stored role, without the gate. Every redirect, from the gate or the `*` route, replaces history and targets `/login` or `/`. |
| `Routes.TableRoutesShowPages` | App.tsx:43-56 | Every declared route shows a page, bare or behind the gate. Only the `*` route redirects on its own. |
| `Routes.DeclaredFollowsPolicy` | App.tsx:43-56 | Each declared entry evaluates to the outcome the access policy gives its path, for every stored role. |
| `Routes.PolicyCoversTable` | App.tsx:43-56 | The policy's paths are exactly the table's paths. |
| `Routes.ResolveFollowsPolicy` | App.tsx:23-57 | For every stored role and path, the table with the gate and the `*` fallback gives the policy's outcome. Unknown paths go home. Public pages always show. Any-role pages need a non-empty role. One-role pages need that exact role, and any other non-empty role goes home. |
| `Reachability.GuestReach` | App.tsx:23-57 | With no role or an empty one, only `/` and `/login` show. Every other declared path goes to `/login`, and every undeclared path goes to `/`. |
| `Reachability.FarmerReach` | App.tsx:23-57 | `Farmer` sees exactly the public, any-role and farmer-only pages, each at its own path. Every other path, `/dashboard` included, goes to `/`. |
| `Reachability.OfficerReach` | App.tsx:23-57 | `Officer` sees exactly the public pages, the any-role pages and `/dashboard`. Every farmer-only path and every undeclared path goes to `/`. |
| `Reachability.OtherRoleReach` | App.tsx:23-57 | Any other non-empty role sees exactly the public and any-role pages. Everything else goes to `/`. |
| `Reachability.PublicPagesAlwaysShow` | App.tsx:43-44 | `/` shows the home page and `/login` the login page for every stored role, none included. |

## Left out

- Rendering: React, JSX, `HashRouter`, `Routes`/`Route` internals and how `<Navigate>` navigates. The model stops at the outcome value.
- Local storage: the model does not read `localStorage.getItem('userRole')`. The value it returns is the `stored` parameter. The gate reads that value again on every navigation, so the latest stored role is the input. Login and logout write the role from pages that are not part of this model.
- Idempotence: there is no separate lemma saying that evaluating the gate twice gives the same outcome. A Dafny function has no hidden state and always gives the same result for the same inputs.
- Route matching: the model compares the requested path with the declared paths by exact string equality and does no normalising of its own. React-router matches case-insensitively and ignores a trailing slash, so `/About` and `/about/` reach the `/about` route there, while the model sends them to `/` through the `*` route. Every statement about a requested `path` is therefore about the path after react-router's case folding and trailing-slash removal; statements such as "every undeclared path goes to `/`" hold only over those paths. The model also leaves out react-router's ranking and how `HashRouter` reads the path from the URL fragment.
- `LanguageProvider`, `CartProvider`, `Navbar`, `Footer` and the page components are UI. Their code is not part of this model.
- `types.ts` declares data shapes only. It has no behaviour to model.

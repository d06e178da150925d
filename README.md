# Session forwarding and role gates of the Next.js front end

This project models the three pieces of deterministic decision logic in the front end:

- **Session-cookie locator** (`src/lib/cookie-utils.ts`). It looks in the request's cookie
  store for `backend.session_token` and then for `__Secure-backend.session_token`. It renders
  the cookie found as the `name=value` cookie-pair of section 4.2.1 of RFC 6265, or as `''`,
  and it answers whether a cookie is present. The store is a `map<string, string>`.
- **Server actions** (`src/lib/server-actions.ts`). `testProtectedRoute`, `testPublicRoute`,
  `testAdminRoute` and `getUserProfile` are one `Forward` function, parameterised by an `Action`.
  An action fixes the backend path, the session guard and its message, and the two default error
  strings. `Forward` runs in two parts. `Begin` applies the guard and builds the GET request.
  `Complete` normalises the backend's answer into `{success, data?, error?, message?, status?}`.
  `getCurrentUser` and the `API_BASE_URL` fallback are modelled too.
- **Role gates** (`src/app/dashboard/page.tsx`, `src/app/dashboard/admin/layout.tsx`). Each gate
  maps `(isPending, session)` to one view: spinner, redirect, render children, or render nothing.
  A redirect is terminal.

The framework calls become inputs:
- What `authClient.getSession()` settled to: a resolved value or a thrown one.
- The cookie jar.
- What `fetch` and `response.json()` produced: a status and a parsed body, a body that is not
  JSON, or a rejected `fetch`.
- `isPending` and the session of `useSession()`.
- The base URL, which is a parameter. `ApiBaseUrl` models its environment fallback.

JavaScript semantics are written out in module `Js`:
- Truthiness, which is what `!session`, `data.error || …` and `!!cookie` test.
- `error instanceof Error ? error.message : 'Unknown error'`.
- Property reads, which throw a TypeError on `null` and `undefined`.

The model keeps these consequences of the code as written:
- The session guard tests the truthiness of what `getSession()` resolves to, not its `data` field.
  An object reply such as `{data: null, error: null}` therefore passes the guard. The request is
  then sent, with an empty Cookie header when no session cookie exists (`GuardAdmitsEmptySessionReply`).
  Other files read `.data` from the same call: `src/app/dashboard/admin/test-routes/page.tsx:16`
  and `src/components/auth/anonymous-auth.tsx:15`.
- The body is parsed before `response.ok` is tested. A body that is not JSON is handled by the
  `catch` clause whatever the status. Such a result has the generic error and no `status` key.
- A JSON body of `null` makes `data.error` (non-2xx) or `data.data` (2xx) throw a TypeError. That
  case also ends in the `catch` clause. Its message is the text a V8-based runtime gives.
- A failed `getSession()` inside a guarded action is caught by the same `catch` clause.

A 2xx response yields the body's `data` field only when the body can be read; otherwise the
`catch` clause answers.

## Model

| member | source | states |
|---|---|---|
| `CookieUtils.Get` | src/lib/cookie-utils.ts:12-16 | the store's `get(name)`: a cookie iff the name is present, carrying that name and its stored value |
| `CookieUtils.FindSessionCookie` | src/lib/cookie-utils.ts:8-20 | the plain-named cookie if present, whatever the secure one; else the `__Secure-` one; none iff neither name is present; never any other cookie |
| `CookieUtils.CookiePair` | src/lib/cookie-utils.ts:28 | the template `name=value`: the name, then `=`, then the value, and nothing else |
| `CookieUtils.SessionCookieHeader` | src/lib/cookie-utils.ts:26-29 | `name=value` of exactly the located cookie; `''` iff no cookie was located (an empty value still gives a non-empty header) |
| `CookieUtils.HasSessionCookie` | src/lib/cookie-utils.ts:35-38 | true iff a cookie is located, iff the header is non-empty, iff one of the two names is in the store |
| `CookieUtils.FirstPresentIndex` | src/lib/cookie-utils.ts:11-19 | the position of the first candidate name the store holds: every earlier name is absent |
| `CookieUtils.FirstPresent` | src/lib/cookie-utils.ts:11-19 | ordered search over candidate names: none iff no candidate is present, else the first present candidate (every earlier one absent) with its stored value |
| `CookieUtils.FindSessionCookieIsFirstPresent` | src/lib/cookie-utils.ts:8-20 | the two-step lookup equals the ordered search over `[plain, secure]` |
| `CookieUtils.ParseCookiePair` | src/lib/cookie-utils.ts:28 | inverse of the header format: splits at the first `=`, none iff there is no `=` |
| `CookieUtils.CookiePairRoundTrip` | src/lib/cookie-utils.ts:28 | a cookie whose name has no `=` reads back from its cookie-pair unchanged |
| `CookieUtils.CandidateNamesHaveNoEquals` | src/lib/cookie-utils.ts:12-16 | neither session cookie name contains `=` |
| `CookieUtils.SessionCookieHeaderRoundTrip` | src/lib/cookie-utils.ts:26-29 | reading the header back gives exactly the located cookie, and none for `''` |
| `Js.Truthy` | src/lib/server-actions.ts:29 | ECMAScript ToBoolean: false exactly for `undefined`, `null`, `false`, `0` and `''`; every object and array is truthy |
| `Js.Or` | src/lib/server-actions.ts:54 | the logical or of `a` and `b` is `a` when `a` is truthy, else `b`; truthy iff either is |
| `Js.ExceptionMessage` | src/lib/server-actions.ts:69 | an Error's message, else `'Unknown error'` |
| `Js.Property` | src/lib/server-actions.ts:54-62 | reading `error`/`message`/`data` throws exactly on `null`/`undefined`; else the object's own entry or `undefined` |
| `ServerActions.ApiBaseUrl` | src/lib/server-actions.ts:6-7 | the environment value when set and non-empty, else `http://localhost:8090`; never empty |
| `ServerActions.GetCurrentUser` | src/lib/server-actions.ts:12-20 | the session value unchanged, or `null` when `getSession` throws |
| `ServerActions.IsOk` | src/lib/server-actions.ts:51 | `response.ok`: the status is in the 2xx class |
| `ServerActions.NoSession` | src/lib/server-actions.ts:29-35 | `{success:false, error:'No active session', message}` with the given message, no data and no status |
| `ServerActions.BackendRequest` | src/lib/server-actions.ts:40-47 | a GET of base URL + path with the given Cookie header, `Content-Type: application/json` and cache mode `no-store` |
| `ServerActions.Caught` | src/lib/server-actions.ts:64-71 | `{success:false, error:<generic>, message:<exception message>}`, no data and no status |
| `ServerActions.Begin` | src/lib/server-actions.ts:27-47 | a request is sent iff the action has no guard or the session is truthy; a falsy session gives `No active session` with the action's message; the request is a `no-store` GET of base URL + path carrying the locator's header |
| `ServerActions.Complete` | src/lib/server-actions.ts:49-71 | success iff the body is readable and the status is 2xx, giving exactly `{success:true, data: body.data}`; status key iff readable and non-2xx, with `body.error` if truthy else the default, `body.message` and the status; anything thrown gives the generic error and no status; a JSON `null` body gives exactly the catch record of the TypeError raised reading `data` (2xx) or `error` (otherwise) |
| `ServerActions.Forward` | src/lib/server-actions.ts:25-72 | end to end: when a request is sent and what it is, the no-session record, the catch record when a guarded `getSession()` throws, and success/status iff conditions over the backend's answer |
| `ServerActions.TestProtectedRoute` | src/lib/server-actions.ts:25-72 | falsy session: no request, `Please sign in to access protected routes`; requests go to `/api/protected`; a throwing `getSession()` gives the catch record with no request; thrown errors read `Failed to test protected route`; an HTTP failure whose body has no truthy `error` reads `Failed to access protected route` |
| `ServerActions.TestPublicRoute` | src/lib/server-actions.ts:77-114 | always sends the GET to `/api/public` with the locator's header, even an empty one; thrown errors read `Failed to test public route` |
| `ServerActions.TestAdminRoute` | src/lib/server-actions.ts:119-166 | falsy session: no request, `Please sign in to access admin routes`; requests go to `/api/admin`; a throwing `getSession()` gives the catch record with no request; thrown errors read `Failed to test admin route`; an HTTP failure whose body has no truthy `error` reads `Failed to access admin route` |
| `ServerActions.GetUserProfile` | src/lib/server-actions.ts:171-218 | falsy session: no request, `Please sign in to access profile`; requests go to `/api/profile`; a throwing `getSession()` gives the catch record with no request; thrown errors read `Failed to get user profile`; an HTTP failure whose body has no truthy `error` reads `Failed to get profile` |
| `ServerActions.PublicRouteIgnoresSession` | src/lib/server-actions.ts:77-89 | the public action's run is the same for every session lookup and always sends a request |
| `ServerActions.NoSessionIgnoresJarAndBackend` | src/lib/server-actions.ts:27-35 | a call stopped by the guard sends nothing and its result depends on no cookie, base URL or backend answer |
| `ServerActions.GuardAdmitsEmptySessionReply` | src/lib/server-actions.ts:27-29 | a resolved `{data: null, error: null}` passes the guard and sends the request with an empty Cookie header |
| `ServerActions.ResultHasOneShape` | src/lib/server-actions.ts:25-72 | every result has exactly one of three shapes: success, HTTP failure, or stopped/thrown error |
| `ServerActions.UnparsableBodyHasNoStatus` | src/lib/server-actions.ts:49-71 | a body that fails to parse gives the generic error and the parse message with no status, whatever the status code |
| `Dashboard.DashboardPage` | src/app/dashboard/page.tsx:6-30 | spinner iff pending; otherwise `/sign-in` iff no session, `/dashboard/admin` iff role `admin`, `/dashboard/user` iff role `user`, nothing for any other role; never renders children |
| `Dashboard.DashboardLayout` | src/app/dashboard/admin/layout.tsx:8-46 | spinner iff pending; children iff settled with role `admin`; `/sign-in` otherwise, including no session and role `user` |
| `Dashboard.AdminRedirectIsAdmitted` | src/app/dashboard/page.tsx:21-23 | the page sends a settled session to the admin area iff the admin layout renders its children for it |
| `Dashboard.OthersAreTurnedAway` | src/app/dashboard/admin/layout.tsx:23-25 | a session the page does not send to the admin area is redirected to `/sign-in` by the layout |
| `Dashboard.PendingIgnoresSession` | src/app/dashboard/page.tsx:9-15 | while pending both gates show the spinner whatever the session |

## Left out

- The `cookies()` call of `next/headers`, `fetch`, `response.json()` and `authClient.getSession()` / `useSession()` are framework or foreign-library I/O. Their results are inputs, and the better-auth client and its configuration in `src/lib/auth-client.ts` are not part of this model.
- A cookie store holding two cookies of the same name: the store is a map, so `get` sees one value per name.
- The `Content-Type` header is recorded in the request; other `fetch` options and the HTTP client's own defaults (timeouts, redirects) are not.
- `console.log` / `console.error` calls, `async`/`await` ordering, and reading `NEXT_PUBLIC_API_BASE_URL` from the environment (`ApiBaseUrl` takes it as an argument).
- JSON numbers are reals: `-0` reads as `0`, and an out-of-range number (which parses to `Infinity`) as some nonzero real; neither changes truthiness. `NaN`, BigInt and functions cannot come from JSON. The session value is either tested for truthiness or returned unchanged, so its inner structure plays no part.
- Property reads assume keys that no built-in prototype defines, which holds for `error`, `message` and `data`.
- The wording of the TypeError for a `null` body follows V8; other engines word it differently.
- Serialising the result record back to the client (which drops keys whose value is `undefined`) is not modelled.
- The JSX of the spinner and the sidebar shell; the views are the values of `Dashboard.View`.
- The UI components (`test-route-buttons.tsx`, `anonymous-auth.tsx`, `sign-out.tsx`, the admin pages) are rendering and hook state, outside the modelled logic.

# FlexEasy admin core in Dafny

This project models the administrative core of the FlexEasy web application. FlexEasy is a Next.js app backed by a hosted Postgres/auth provider and a payments provider. The model covers these parts:

- **Admin dashboard page** (`AdminDashboard`). The staff-only guard. Then the KPIs: user count, active-subscription count, and MRR as a fold over the active rows with price indexes built as JavaScript `Map`s. Then the latest-subscriptions list, with the store's query (at most 25 rows, latest period end first) modelled on its own. Then the emails looked up for their users, the recent users with their roles, the two tables' rows, and the status badge.
- **Payments dashboard route** (`StripeDashboard`). Metrics and rows computed from one round of provider listings, plus the single 500 answer when any listing fails.
- **Post-authentication callback** (`AuthCallback`). Code exchange, user lookup, role lookup, and the redirect by role.
- **Admin area layout** (`AdminLayout`) and **admin-login layout** (`AdminLoginLayout`). Their admin-only guards and the sidebar initial. The two layouts' guards are the same code, so the model defines the guard once, as `AdminLayout.Guard`.
- **Admin login form** (`AdminLogin`). A class for the form's state, with the submit handler proved against a specification of its outcome.
- **Request middleware** (`Middleware`). Public-path detection, the session refresh, the error response and the route matcher.
- **Client debug logger** (`DebugLogger`) and **in-memory debug-log route** (`DebugLogsRoute`). Two classes keeping the last 1000 or 100 entries. They share the `LogWindow` window function.
- **Auth-actions panel** (`AdminAuthActions`). JavaScript `trim`, the tolerant response parser, the error-message precedence, and a class for the panel's state.
- **Invite route** (`InviteRoute`) and **magic-link route** (`MagicLinkRoute`). The shared types are in `AdminLinks`.

What the auth provider, the database, the payments provider and `fetch` answer is a parameter of the model, never computed by it. The parameter takes one of three shapes:
- a `Common.Call`, which either throws (with the error's message, if any) or returns a value, where the source catches the throw. Examples are the dashboard's KPI queries, the payments listings, the admin routes' calls, the login form's calls and the middleware's session refresh;
- the query's data alone, an `Option` or a list, where the source does not catch a throw. Examples are the page's user, role and user-count queries, the callback's user and role, and the layouts' guards;
- a dedicated datatype where the answer has more structure: the callback's `exchangeFailed` flag and the panel's `FetchReply`.

Calls whose order matters (provider calls, router navigation and refresh) are recorded by the model as a sequence of steps or effects. JavaScript `null`/`undefined` is `Common.Option`, `??` is `Option.GetOr`, and `||` on strings is `Common.Or`. Clocks are parameters: the middleware's error time stamp and the logger's time stamp. Money stays in integer cents and dates stay in epoch seconds.

## Model

| member | source | states |
|---|---|---|
| AdminDashboard.PageAccess | 1/felxeasy/app/admin/page.tsx:15-27 | no user goes to '/signin'; the page renders exactly for a user whose role row says 'admin' or 'manager'; any other user goes to '/' |
| AdminDashboard.LastIndex | 1/felxeasy/app/admin/page.tsx:62-63 | the position of the last row with a given key, or -1 exactly when no row has it |
| AdminDashboard.IndexBy | 1/felxeasy/app/admin/page.tsx:62-63 | a Map built from entries has a key exactly when some row has it, and holds the value of the last such row |
| AdminDashboard.UnitForPrice | 1/felxeasy/app/admin/page.tsx:62-65 | the unit amount used for a price id is the last matching price's amount, 0 when that is null, 0 when no price matches |
| AdminDashboard.ActiveOnly | 1/felxeasy/app/admin/page.tsx:44-47 | the active filter keeps every active row as many times as it occurs and drops every other row |
| AdminDashboard.ActiveOnlyAppend | 1/felxeasy/app/admin/page.tsx:47 | filtering two concatenated tables gives the concatenation of their filtered rows |
| AdminDashboard.ActiveCountIsCount | 1/felxeasy/app/admin/page.tsx:44-48 | the count query's answer equals the number of active rows counted one row at a time |
| AdminDashboard.ReduceAddsAmounts | 1/felxeasy/app/admin/page.tsx:64-68 | the reduce adds each row's unit×quantity to its seed (equals the reference sum) |
| AdminDashboard.MrrIsActiveSum | 1/felxeasy/app/admin/page.tsx:53-68 | MRR over the rows the active query returns = sum over the whole table of the active rows' amounts |
| AdminDashboard.ActiveSumsAgree | 1/felxeasy/app/admin/page.tsx:59 | summing the filtered rows equals summing the table with inactive rows counted as 0 |
| AdminDashboard.NoActiveRows | 1/felxeasy/app/admin/page.tsx:42-71 | a table without active rows gives MRR 0 and active count 0 |
| AdminDashboard.UnknownPricesGiveZero | 1/felxeasy/app/admin/page.tsx:65 | rows whose price id is not indexed contribute 0 to MRR |
| AdminDashboard.ZeroAmounts | 1/felxeasy/app/admin/page.tsx:65-67 | the reference sum is 0 when no row's price is indexed |
| AdminDashboard.MrrNonNegative | 1/felxeasy/app/admin/page.tsx:64-68 | with non-negative prices and quantities the MRR is non-negative |
| AdminDashboard.SumNonNegative | 1/felxeasy/app/admin/page.tsx:64-68 | the reference sum is non-negative under the same conditions |
| AdminDashboard.WorkedExample | 1/felxeasy/app/admin/page.tsx:42-68 | three active 2000-cent rows without quantity and one canceled 9000×2 row give MRR 6000 and count 3 |
| AdminDashboard.Insert | 1/felxeasy/app/admin/page.tsx:79 | inserting one row adds exactly that row to the multiset |
| AdminDashboard.InsertSorted | 1/felxeasy/app/admin/page.tsx:79 | insertion keeps descending current_period_end order (nulls first) |
| AdminDashboard.SortDesc | 1/felxeasy/app/admin/page.tsx:79 | the ordering is sorted and a permutation of the table |
| AdminDashboard.LatestQuery | 1/felxeasy/app/admin/page.tsx:76-80 | the query returns min(25, table size) rows, sorted descending (nulls first), drawn from the table, and every row left out ranks after every row returned |
| AdminDashboard.SubsList | 1/felxeasy/app/admin/page.tsx:75-84 | the list is the query's data, empty when it is null or the query throws |
| AdminDashboard.UniqueIds | 1/felxeasy/app/admin/page.tsx:87 | the id list has no duplicates and holds exactly the non-empty ids |
| AdminDashboard.EmailMapLookup | 1/felxeasy/app/admin/page.tsx:88-95 | the emails map holds a wanted id exactly when a listed user has it, mapped to the last such user's email (or id) |
| AdminDashboard.EmailMapNoIds | 1/felxeasy/app/admin/page.tsx:88-89 | with no wanted ids the emails map is empty, so skipping the lookup changes nothing |
| AdminDashboard.CollectEmails | 1/felxeasy/app/admin/page.tsx:92-94 | the loop builds exactly the specified emails map, keyed only by wanted ids |
| AdminDashboard.SubRowShows | 1/felxeasy/app/admin/page.tsx:128-134 | a row's amount, plan fallback to the price id, renewal date (absent for null or 0) and email fallback to the user id |
| AdminDashboard.UserRowRole | 1/felxeasy/app/admin/page.tsx:102 | a recent user's role is the last matching row's role, 'user' when null or missing |
| AdminDashboard.AdminPage | 1/felxeasy/app/admin/page.tsx:13-102 | guard outcome; each KPI falls back to 0 when its query throws; MRR otherwise from the fold; the subscription rows are the listed subscriptions viewed through the emails of their users and the price indexes (empty after a failed MRR block); the user rows are the recent users viewed through the Map of role rows |
| AdminDashboard.BadgeOf | 1/felxeasy/app/admin/page.tsx:184-190 | each known status has its own tone, every other status is neutral, and the badge reads the status |
| StripeDashboard.ReduceShift | app/api/stripe/dashboard/route.js:25-27 | the revenue fold adds its result to any seed |
| StripeDashboard.MonthlyRecurringAppend | app/api/stripe/dashboard/route.js:25-27 | the revenue of two concatenated lists is the sum of their revenues |
| StripeDashboard.OnlyFirstItemCounts | app/api/stripe/dashboard/route.js:26 | lists that agree on each subscription's first unit amount have the same revenue |
| StripeDashboard.NoFirstAmountAddsNothing | app/api/stripe/dashboard/route.js:26 | a subscription without items or without a first unit amount adds nothing |
| StripeDashboard.UserRowOf | app/api/stripe/dashboard/route.js:32-39 | name and email defaults; 'active' exactly when the customer has a subscription; first subscription's status or 'none' |
| StripeDashboard.SubscriptionRowOf | app/api/stripe/dashboard/route.js:42-53 | id, status, dates and first-item amount carried over; the customer's name or 'Cliente Sin Nombre', its email or 'Sin email'; the first item's interval or 'month' |
| StripeDashboard.PaymentRowOf | app/api/stripe/dashboard/route.js:65-71 | id, amount, status and date carried over; the customer label is the first truthy of the customer's name and email, else 'Cliente' |
| StripeDashboard.TotalRevenueCents | app/api/stripe/dashboard/route.js:29 | the first available balance amount, 0 when there is none |
| StripeDashboard.Dashboard | app/api/stripe/dashboard/route.js:56-73 | counts, MRR and total revenue; one user row per customer and one subscription row per subscription, in order; the first 5 payments as payment rows; the recent subscriptions as the list's first 5 |
| StripeDashboard.Get | app/api/stripe/dashboard/route.js:4-82 | the answer is the fixed 500 error exactly when a listing throws, the dashboard otherwise |
| StripeDashboard.RowsNeverBlank | app/api/stripe/dashboard/route.js:34-46 | every user and subscription row has a non-empty name and email |
| AuthCallback.Callback | app/auth/callback/route.ts:11-47 | the redirect stays on the request's origin and targets one of the three paths |
| AuthCallback.ExchangeFailureStops | app/auth/callback/route.ts:20-25 | a failed exchange redirects to sign-in before the user is read |
| AuthCallback.NoUserSignsIn | app/auth/callback/route.ts:29-31 | without a user the redirect is to sign-in and no role is queried |
| AuthCallback.DestinationByRole | app/auth/callback/route.ts:34-47 | admin panel exactly for role 'admin' or 'manager', the account page otherwise, after a role query |
| AuthCallback.NoCodeNoExchange | app/auth/callback/route.ts:20 | without a code no exchange happens and its result cannot matter |
| AdminLayout.Guard | app/admin/layout.tsx:11-24 | the layout renders exactly for a user whose role is 'admin'; every denial goes to '/admin-login' |
| AdminLayout.ManagerTurnedAway | app/admin/layout.tsx:22-24 | a manager is turned away here, unlike on the dashboard page |
| AdminLayout.UpperChar | app/admin/layout.tsx:56 | ASCII lower-case letters are upper-cased, other characters kept |
| AdminLayout.AvatarInitial | app/admin/layout.tsx:56 | absent without an email, empty for an empty email, else the upper-cased first character |
| AdminLoginLayout.SingleDenialTarget | app/admin-login/layout.ts:13-25 | every denial targets the same login path |
| AdminLoginLayout.SelfRedirect | app/admin-login/layout.ts:12-15 | as written, a visitor without a session on the login route is redirected to that same route |
| AdminLoginLayout.GuardAt | app/admin-login/layout.ts:12-25 | corrected guard: never redirects a request to its own path; the login route is open |
| AdminLogin.LoginFinish | app/admin-login/page.ts:21-62 | every submission signs in first; loading is reset exactly when an error is shown |
| AdminLogin.ThrowShowsInternalError | app/admin-login/page.ts:59-61 | 'Error interno del sistema' is shown, and loading stops, exactly when the sign-in, the role query or the sign-out threw |
| AdminLogin.AuthErrorStops | app/admin-login/page.ts:28-32 | an auth error shows 'Credenciales inválidas' with no further call |
| AdminLogin.NoUserStops | app/admin-login/page.ts:34-38 | no user shows 'Error de autenticación' with no further call |
| AdminLogin.NavigatesOnlyAdmins | app/admin-login/page.ts:47-57 | navigation to '/admin' (then a refresh) happens exactly for an admin, who alone keeps loading set |
| AdminLogin.SignsOutNonAdmins | app/admin-login/page.ts:47-53 | a signed-in user is signed out exactly when the role check fails; a successful sign-out shows the access-denied message |
| AdminLogin.AdminLoginForm.constructor | app/admin-login/page.ts:9-12 | the form starts empty, not loading, without an error |
| AdminLogin.AdminLoginForm.SubmitButton | app/admin-login/page.ts:110-113 | the button is disabled, and reads 'Verificando...', exactly while a submission is loading |
| AdminLogin.AdminLoginForm.EditEmail | app/admin-login/page.ts:92 | editing the email changes only the email |
| AdminLogin.AdminLoginForm.EditPassword | app/admin-login/page.ts:102 | editing the password changes only the password |
| AdminLogin.AdminLoginForm.BeginSubmit | app/admin-login/page.ts:18-19 | submitting sets loading and clears the error |
| AdminLogin.AdminLoginForm.FinishSubmit | app/admin-login/page.ts:21-62 | the handler's calls and its error and loading updates follow the specified outcome |
| AdminLogin.AdminLoginForm.HandleAdminLogin | app/admin-login/page.ts:16-63 | after a submission the form is loading exactly when the user was an admin, and shows the outcome's error otherwise |
| Middleware.PublicByPrefix | middleware.ts:38-39 | a path is public exactly when it starts with one of the four prefixes ('/authx' included) |
| Middleware.Response.Next | middleware.ts:49 | a fresh pass-through response has no headers |
| Middleware.Response.SetHeader | middleware.ts:111-112 | setting a header updates only that header |
| Middleware.HandleRequest | middleware.ts:26-115 | public paths pass through without a session refresh; others get the refresh's response, or a pass-through with the two error headers when it throws |
| Middleware.MatchedPublicPaths | middleware.ts:117-124 | among matched paths only '/signin' and '/signup' are public |
| LogWindow.KeepLast | utils/logger.ts:15-17 | the trim keeps the last min(n, length) entries |
| LogWindow.PushThenKeep | utils/logger.ts:12-17 | push then trim: at most n entries, newest last, nothing dropped below the cap |
| LogWindow.KeepLastPush | app/api/debug-logs/route.ts:10-15 | trimming before each push keeps exactly the last n entries of the whole history |
| DebugLogger.Entry | utils/logger.ts:9-10 | the entry is the stamped message, followed by a bar separator and the data only when the data is truthy |
| DebugLogger.Logger.constructor | utils/logger.ts:5-6 | the logger starts empty |
| DebugLogger.Logger.Log | utils/logger.ts:8-21 | the buffer stays the last 1000 entries of the history, newest last |
| DebugLogger.Logger.ClearLogs | utils/logger.ts:46-49 | clearing empties the buffer |
| DebugLogger.Logger.GetLogs | utils/logger.ts:51-53 | the buffer is returned, the last 1000 of the history |
| DebugLogsRoute.LogStore.constructor | app/api/debug-logs/route.ts:5 | the store starts empty |
| DebugLogsRoute.LogStore.Post | app/api/debug-logs/route.ts:7-21 | a parsed payload is stored and the last 100 kept; an unparsable body answers 500 and changes nothing |
| DebugLogsRoute.LogStore.Get | app/api/debug-logs/route.ts:23-25 | the listing is the last 100 stored payloads |
| AdminAuthActions.TrimStartDropsSpace | components/admin/AdminAuthActions.tsx:26 | leading trim removes only white space and stops at the first other character |
| AdminAuthActions.TrimEndDropsSpace | components/admin/AdminAuthActions.tsx:26 | trailing trim removes only white space and stops at the last other character |
| AdminAuthActions.TrimmedSlice | components/admin/AdminAuthActions.tsx:56 | trim gives a slice without white space at its ends; it is empty exactly when the input is all white space |
| AdminAuthActions.SafeParse | components/admin/AdminAuthActions.tsx:12-19 | the raw text is always kept; empty or unparsable text gives null data |
| Common.FirstTruthy | components/admin/AdminAuthActions.tsx:39-40 | a chain of JavaScript or-operators yields the first truthy candidate, or the default when none is |
| AdminAuthActions.ServerMessage | components/admin/AdminAuthActions.tsx:38-41 | the server message is never empty |
| AdminAuthActions.MessagePrecedence | components/admin/AdminAuthActions.tsx:39-40 | the error field, then the message field, then the raw text, then the status text, then 'Error desconocido' |
| AdminAuthActions.CallMessage | components/admin/AdminAuthActions.tsx:38-49 | 'Hecho ✅' on success; 'Error: ' and the server message on a failed answer; the thrown message or 'falló la solicitud' on a throw |
| AdminAuthActions.FailedAnswerHasServerMessage | components/admin/AdminAuthActions.tsx:38-46 | a failed answer always shows a non-empty message after 'Error: ' |
| AdminAuthActions.Panel.constructor | components/admin/AdminAuthActions.tsx:6-9 | empty email, default redirect URL, no message, nothing in flight |
| AdminAuthActions.Panel.EditEmail | components/admin/AdminAuthActions.tsx:71 | editing the email changes only the email |
| AdminAuthActions.Panel.EditRedirectTo | components/admin/AdminAuthActions.tsx:77 | editing the redirect changes only the redirect |
| AdminAuthActions.Panel.BeginCall | components/admin/AdminAuthActions.tsx:21-26 | the message is cleared, the path marked in flight, and the trimmed fields posted |
| AdminAuthActions.Panel.FinishCall | components/admin/AdminAuthActions.tsx:34-49 | the outcome's message is shown and nothing is in flight afterwards |
| AdminAuthActions.Panel.Call | components/admin/AdminAuthActions.tsx:21-50 | a whole call posts the trimmed fields, shows the outcome, leaves the email and redirect as typed, and leaves the buttons enabled exactly when that email is not blank |
| AdminAuthActions.Panel.Button | components/admin/AdminAuthActions.tsx:52-60 | a button is disabled exactly while the email is blank or a request is in flight, and reads 'Enviando…' only while its own request is |
| AdminLinks.LinkSteps | server/api/admin/auth/invite/route.ts:11-16 | the client is created first; the provider is asked once for the posted email and redirect when the client exists |
| InviteRoute.Post | server/api/admin/auth/invite/route.ts:4-25 | 200 exactly for an invite; status is 200, 400 or 500; no provider call exactly when the body fails or has no email |
| InviteRoute.MissingEmailRefused | server/api/admin/auth/invite/route.ts:7-9 | a body without an email gets 400 'Email requerido' and no provider call |
| InviteRoute.ProviderDecides | server/api/admin/auth/invite/route.ts:11-21 | one invite request; 200 with the user id, 400 with the provider's message, 500 when it throws |
| InviteRoute.ThrownIs500 | server/api/admin/auth/invite/route.ts:22-24 | 500 exactly when something threw; at each of the three throw sites (body parse, client, provider call) the error is the exception's message or 'Error inesperado' |
| MagicLinkRoute.Post | 1/felxeasy/server/api/admin/auth/magic-link/route.ts:5-22 | 200 exactly for a link; every error message is non-empty; no provider call exactly when the body fails or has no email |
| MagicLinkRoute.Only400IsMissingEmail | 1/felxeasy/server/api/admin/auth/magic-link/route.ts:8 | the only 400 is the missing email; provider errors become 500 |
| MagicLinkRoute.ProviderDecides | 1/felxeasy/server/api/admin/auth/magic-link/route.ts:10-20 | one magic-link request; 200 with its action link; a provider error or a throwing provider call gives 500 with its message or 'Error' |
| MagicLinkRoute.CaughtIs500 | 1/felxeasy/server/api/admin/auth/magic-link/route.ts:6-21 | 500 exactly when something threw or the provider reported an error; a throwing body parse or client gives its message or 'Error' |
| MagicLinkRoute.RoutesAgreeOnCalls | 1/felxeasy/server/api/admin/auth/magic-link/route.ts:7-15 | invite and magic link reject the same bodies and make the same calls apart from the link type |
| MagicLinkRoute.ProviderErrorStatus | 1/felxeasy/server/api/admin/auth/magic-link/route.ts:16-20 | the same provider error gives 400 from the invite route and 500 from this one |

## Left out

- Rendering (JSX, CSS classes), the `money` currency formatting, locale date formatting (`toLocaleDateString('es-ES')`, `toISOString().slice(0,10)`) and the divisions by 100 for display. The model keeps cents and epoch seconds.
- `churnRate: 2.5` in the payments dashboard is a floating-point constant. It is not modelled.
- Floating-point arithmetic in general: unit amounts, quantities and sums are unbounded integers, so `NaN` and rounding are not modelled.
- The `Promise.all` in the dashboard page and the payments route is modelled as its outcome only. The model takes the pair of replies or one throw, not the concurrent execution.
- The provider list limits (`limit: 100`, `limit: 10`, `perPage: 100/25`) are applied by the providers. The model takes the lists they return. The 25-row subscription query is modelled on its own, as AdminDashboard.LatestQuery.
- AdminDashboard.AdminPage: `getUser`, the `me` role query (page.tsx:16-23), the user-count query, both `listUsers` calls and the role-rows query (page.tsx:101) sit outside any `try`. A throw there would abort the page. The model only takes their data (null or a list).
- AdminDashboard.AdminPage takes the latest-subscriptions reply as given. That the list holds at most 25 rows, latest period end first, rests on the store answering as AdminDashboard.LatestQuery does; the page's contract does not restate it.
- AdminDashboard.LatestQuery: rows tied on `current_period_end` come back in an order the store chooses. The model picks one order. For that order it proves length, order, membership, and that every left-out row ranks after every returned one.
- The middleware's `writeToLog` file logging, the console logging everywhere, the logger's `localStorage` persistence and `createFile` download are I/O. They are not modelled.
- Middleware.MatcherRuns approximates the route matcher's `:path*` patterns as "the route or anything below it".
- AdminLayout.UpperChar upper-cases ASCII letters only, not the full Unicode case mapping of `toUpperCase`.
- The auth callback and the two layouts do not catch provider exceptions. A throw there is an error page, which is not modelled.
- Provider query errors that are only logged (`uErr`, `rErr` in the callback) appear in the model as an absent user or an absent row.
- AdminAuthActions: the third button's route (`/server/api/admin/auth/recovery`) is not part of this model. The panel models `call` for any path.
- Request bodies: `email` and `redirectTo` are modelled as optional strings. A non-string JSON value there is not modelled.
- AdminAuthActions.Fields types the response's `error` and `message` as optional strings. Other JSON values are not modelled: an object would show as `[object Object]`, and `0` or `false` would be skipped as falsy.
- DebugLogger.Logger.GetLogs returns the buffer as a value. The source returns the live array, which later `log` calls mutate in place (and a trim replaces); that aliasing is not modelled.
- DebugLogsRoute.LogStore.Post does not restate the "newest last, at most 100" bound in its own contract. That bound follows from `Valid()` and LogWindow.PushThenKeep.

## Findings

| source | as written | input that shows it | evidently intended | confidence | as-written member | corrected member |
|---|---|---|---|---|---|---|
| app/admin-login/layout.ts:12-15 | the layout wrapping `/admin-login` redirects a visitor without a session (or a non-admin) to `/admin-login` | a visitor without a session requests `/admin-login`: the layout answers with a redirect to `/admin-login`, again and again, and the login form is never shown | the login route stays reachable by visitors who are not signed in, and other routes under the layout keep the admin-only rule | not executed | AdminLoginLayout.SelfRedirect | AdminLoginLayout.GuardAt |

# Plaxo Pay dashboard — a Dafny model of its session, request and page logic

Plaxo Pay's frontend is a thin admin UI over a remote payments API. It comes
in two variants that share one backend:

- a Next.js variant (`app/`, `components/`, `lib/`), whose long-lived
  `ApiClient` holds the bearer token in a field mirrored into
  `localStorage` under `plaxo_token`;
- a Vite/Preact variant (`src/`), whose axios instance re-reads
  `auth_token` from `localStorage` on every request, and whose auth context
  keeps the signed-in user under `user_data`.

This project models the logic of both variants that can be stated without
a browser:

- the session state machines (API client, both auth providers, the
  protected-route gate and the login form);
- how each request is decorated with the bearer header, and the path and
  query every endpoint method builds;
- the search, action and modal state transitions of the pages;
- the pure classifiers and list derivations: status labels and badge
  variants, renewal-day bucketing, the case-insensitive application
  search, and the dashboard counts and revenue.

The network is replaced by its settled outcome. Each awaited call is a
`Result<T>` parameter, either `Ok(value)` or `Err(ApiError)`, and each
handler returns the `Request` it would have issued. `localStorage` is a
`LocalStorage` object shared by reference. React state becomes fields of a
class per component, which its handler methods update in place. The clock,
the environment variable and the config endpoint become parameters.

Modules follow the source files:

- shared modules: `Common` (Option, Result, ApiError, thrown errors),
  `Text` (ASCII lower-casing, substring search, blank test, decimal
  numerals), `Sequences` (order-preserving subsequences), `Types` (the resources and their enumerations), `Storage`,
  `Http` (requests, headers and the bearer rule), `UserJson` (the stored
  user's JSON text), and `PageCommon` (the "all" filter, the auth
  redirect, and the label tables shared by the `app/` pages);
- one module per core source file, listed in the table below.

## Model

| member | source | states |
|---|---|---|
| Common.UseContext | src/contexts/auth-context.tsx:59-65 | a guarded context hook throws exactly outside its provider, with the given message, and returns the context value inside it |
| Text.IncludesIffOccurs | app/applications/page.tsx:43-44 | the leftmost scan behind `includes` is true exactly when the term occurs at some index of the text |
| Text.NatToStringDenotes | app/renewals/page.tsx:63-65 | the numeral a template string prints for a count is a non-empty run of digits that reads back as that count |
| Types.PaymentStatus.Parse | lib/types.ts:6 | reading a status string keeps its spelling and never files a known spelling under `Other` |
| Types.PaymentMethod.Parse | lib/types.ts:5 | the same for payment methods |
| Types.SubscriptionStatus.Parse | lib/types.ts:19 | the same for subscription statuses |
| Types.ParseInvertsName | src/lib/api-client.ts:28-46 | parsing the spelling of any canonical status or method gives that value back, so enumerations and wire strings correspond one to one |
| Storage.LocalStorage.SetItem | lib/api-client.ts:59-61 | `setItem` maps the key to the value and leaves every other key as it was |
| Storage.LocalStorage.RemoveItem | lib/api-client.ts:66-68 | `removeItem` drops exactly that key |
| Http.WithBearer | lib/api-client.ts:26-31 | a truthy token sets `Authorization` to `Bearer ` + token; a null or empty one leaves the headers unchanged; no other header changes |
| Http.PathInjective | lib/api-client.ts:76-168 | paths built from `/`-free segments determine their segments |
| ApiClient.StatusParams | lib/api-client.ts:88 | the list fetches send `status` as the only parameter exactly when it is a non-empty string, and verbatim |
| ApiClient.RequestFor | lib/api-client.ts:76-168 | only the two list fetches by application carry parameters; PUT exactly for cancel and suspend; POST and a body exactly for login and create |
| ApiClient.PathIsTemplate | lib/api-client.ts:76-168 | every endpoint's path is its template string, e.g. `/subscriptions/{id}/cancel` and `/subscriptions/{id}/suspend` |
| ApiClient.RequestIdentifiesEndpoint | lib/api-client.ts:76-168 | two endpoint calls with `/`-free ids that issue the same request are the same call, up to a status that sends no parameter |
| ApiClient.Client.constructor | lib/api-client.ts:12-23 | the token starts as what storage holds under `plaxo_token` (none on the server); the base URL is the config's value when that fetch succeeds, else `http://localhost:3010/api`; storage is in sync |
| ApiClient.Client.LoadToken | lib/api-client.ts:34-38 | in the browser the token field becomes the stored token, absent meaning null |
| ApiClient.Client.InitializeConfig | lib/api-client.ts:40-51 | the base URL changes only when the config fetch succeeds in the browser |
| ApiClient.Client.Intercept | lib/api-client.ts:26-31 | the interceptor applies the bearer rule to the config's headers with the token held at request time |
| ApiClient.Client.Login | lib/api-client.ts:53-62 | a resolved login sets the field and the `plaxo_token` entry to the access token and nothing else; a rejected one changes neither and propagates; afterwards the client is authenticated exactly when the token is non-empty |
| ApiClient.Client.Logout | lib/api-client.ts:64-73 | the token becomes null, the client is unauthenticated, only `plaxo_token` is removed, and a repeated logout changes nothing |
| SrcApiClient.BaseUrl | src/lib/api-client.ts:3 | the environment value when it is non-empty, else `http://localhost:3001` |
| SrcApiClient.RequestOf | src/lib/api-client.ts:55-93 | each call's URL is its template string and no separate parameters go to axios; PUT exactly for cancel and suspend; GET for every fetch; a body exactly for the create calls and login |
| SrcApiClient.QuerySplits | src/lib/api-client.ts:59 | the route before the first `?` is the base; a query exists exactly when the status is truthy, and it is `status=` + the status, unencoded |
| SrcApiClient.ByApplicationUrls | src/lib/api-client.ts:58-68 | for both list fetches by application, the route is `/payments/application/{id}` or `/subscriptions/application/{id}`, with `?status=` + status exactly when the status is non-empty |
| SrcApiClient.VariantsAgreeOnListFetches | src/lib/api-client.ts:58-68 | the Vite URL equals the Next.js path followed by the query its parameters produce |
| SrcApiClient.Instance.constructor | src/lib/api-client.ts:3-10 | the instance is created with the base URL rule and a JSON content type |
| SrcApiClient.Instance.Intercept | src/lib/api-client.ts:12-18 | the bearer rule is applied with whatever storage holds under `auth_token` at this moment |
| SrcApiClient.Instance.Send | src/lib/api-client.ts:5-18 | a fresh request keeps the content type and carries `Authorization` exactly when storage holds a non-empty token now |
| SrcApiClient.Instance.SendAfterRemoval | src/lib/api-client.ts:12-16 | once `auth_token` is removed, the next request carries no `Authorization` header |
| UserJson.DecodeEncode | src/contexts/auth-context.tsx:28-42 | `JSON.parse` of the `JSON.stringify` of a user gives the same user back |
| AuthContext.RestoreFrom | src/contexts/auth-context.tsx:24-32 | a user is restored only when both `auth_token` and `user_data` hold non-empty values; that user is the decoded `user_data`; a value that does not decode as the stored user's shape is told apart |
| AuthContext.LoginThenRestore | src/contexts/auth-context.tsx:24-44 | after a login that stored a non-empty token, a fresh init restores exactly the user login stored |
| AuthContext.EmptyTokenRestoresNoOne | src/contexts/auth-context.tsx:24-44 | after a login whose token is empty, a fresh init restores no one |
| AuthContext.LogoutThenRestore | src/contexts/auth-context.tsx:24-50 | after logout a fresh init restores no one |
| AuthContext.UseAuth | src/contexts/auth-context.tsx:59-65 | `useAuth` throws `useAuth must be used within AuthProvider` exactly outside the provider |
| AuthContext.AuthProvider.constructor | src/contexts/auth-context.tsx:20-22 | the provider mounts with no user and `isLoading` true |
| AuthContext.AuthProvider.InitEffect | src/contexts/auth-context.tsx:24-34 | a restorable user becomes the state; without a session the user stays; loading settles on both paths, and not when the stored user does not decode as the stored user's shape |
| AuthContext.AuthProvider.Login | src/contexts/auth-context.tsx:36-44 | a resolved login stores the token and the user `{id: u, email: u@plaxo.com, name: u}` and sets that user; a rejected one writes nothing and leaves the user |
| AuthContext.AuthProvider.Logout | src/contexts/auth-context.tsx:46-50 | both keys and no other are removed, the user is null, and a repeated logout changes nothing |
| AuthContext.AuthProvider.LoginThenReload | src/contexts/auth-context.tsx:24-44 | a provider mounted on the same storage after a login with a non-empty token holds the same user, and has settled |
| AuthProviderUi.UseAuth | components/auth-provider.tsx:41-47 | `useAuth` throws `useAuth must be used within an AuthProvider` exactly outside the provider |
| AuthProviderUi.AuthProvider.constructor | components/auth-provider.tsx:16-18 | the provider starts unauthenticated with `isLoading` true |
| AuthProviderUi.AuthProvider.InitEffect | components/auth-provider.tsx:21-24 | the flag equals the client's `isAuthenticated()` and loading is false |
| AuthProviderUi.AuthProvider.Login | components/auth-provider.tsx:26-30 | only a resolved client login sets the flag and navigates to `/payments`, with the access token held by the client and stored under `plaxo_token` in the browser; a rejection changes neither the flag nor the client |
| AuthProviderUi.AuthProvider.Logout | components/auth-provider.tsx:32-36 | the client is logged out, the flag is false, and the navigation target is `/` |
| ProtectedRoute.View | src/components/auth/protected-route.tsx:10-26 | the spinner exactly while loading; the login page exactly when loaded without a user; the children exactly when loaded with one |
| ProtectedRoute.FreshGate | src/components/auth/protected-route.tsx:11-25 | on a fresh page the children show exactly when storage restores a user, and the spinner stays exactly when the stored user does not decode as the stored user's shape |
| ProtectedRoute.Mount | src/components/auth/protected-route.tsx:10-26 | a provider mounted on storage, once its effect has run, shows the view of its restored state |
| LoginPage.ErrorMessage | src/pages/Login.tsx:23 | the server's message when it is non-empty, else `Credenciais inválidas`; never empty |
| LoginPage.LoginForm.constructor | src/pages/Login.tsx:9-12 | the form starts empty, not loading, with no error |
| LoginPage.LoginForm.BeginSubmit | src/pages/Login.tsx:17-18 | submitting sets loading and clears the error |
| LoginPage.LoginForm.Settle | src/pages/Login.tsx:22-26 | a rejection shows its message; loading is false after both outcomes |
| LoginPage.LoginForm.HandleSubmit | src/pages/Login.tsx:15-27 | after a resolved login the error is empty, the user is set, and storage holds the token and the stored user; after a rejection the error is its message and the session is untouched; loading is false |
| PageCommon.StatusParam | app/payments/page.tsx:67 | the filter `all` sends no status; any other filter is sent verbatim |
| PageCommon.RedirectTarget | app/payments/page.tsx:51-55 | the page redirects to `/` exactly when the auth state has loaded and is unauthenticated |
| PageCommon.ShellView | app/payments/page.tsx:85-95 | the spinner while auth loads, nothing when unauthenticated, the content otherwise |
| PageCommon.GateAgreesWithRedirect | app/payments/page.tsx:51-95 | the page renders nothing exactly when it redirects, and never redirects while showing content |
| PageCommon.PaymentStatusLabel | app/payments/page.tsx:27-32 | a label exists exactly for the four typed payment statuses |
| PageCommon.PaymentStatusTone | app/payments/page.tsx:20-25 | a colour exists exactly for the four typed statuses, and it is the success colour exactly for approved |
| PageCommon.MethodLabel | app/payments/page.tsx:34-38 | a label exists exactly for pix, credit card and debit card |
| PageCommon.SubscriptionStatusLabel | app/subscriptions/page.tsx:35-39 | a label exists exactly for active, cancelled and suspended |
| PageCommon.SubscriptionStatusTone | app/subscriptions/page.tsx:29-33 | a colour exists exactly for active, cancelled and suspended |
| PageCommon.BillingCycleLabel | app/subscriptions/page.tsx:41-45 | a label exists exactly for the three billing cycles |
| PageCommon.LabelsIdentify | app/payments/page.tsx:20-38 | no two typed values share a label in any of the tables |
| RenewalsPage.CeilDiv | app/renewals/page.tsx:53 | `Math.ceil(n / d)`: the least integer q with n ≤ q·d |
| RenewalsPage.DaysUntilRenewal | app/renewals/page.tsx:49-55 | the days are the ceiling of (renewal − now) in ms over 86,400,000 |
| RenewalsPage.RenewalBadge | app/renewals/page.tsx:57-67 | negative → overdue, 0 → today, 1..7 → soon with the count, above 7 → later with the count; the four cases split the integers |
| RenewalsPage.BadgeByInstant | app/renewals/page.tsx:49-67 | by instants: overdue once a full day has passed, today within the last day, soon up to seven days ahead, later beyond |
| RenewalsPage.JustOverdueIsToday | app/renewals/page.tsx:53-61 | a renewal overdue by less than a day counts 0 days and reads `Hoje` |
| RenewalsPage.CountTextDenotesDays | app/renewals/page.tsx:62-65 | a day-count badge's text is the numeral of the count followed by ` dias` |
| RenewalsPage.Page.constructor | app/renewals/page.tsx:24-26 | the page starts with no renewals, not loading, no error |
| RenewalsPage.Page.BeginFetch | app/renewals/page.tsx:35-36 | the fetch clears the error and sets loading first |
| RenewalsPage.Page.SettleFetch | app/renewals/page.tsx:38-46 | success replaces the list; failure empties it and sets the error; loading is false |
| RenewalsPage.Page.HandleFetchRenewals | app/renewals/page.tsx:34-47 | the renewals-due request is sent; success leaves the error empty; a failure lands on the empty state; the table shows exactly when a success returned something |
| SubscriptionsView.StatusVariant | src/pages/Subscriptions.tsx:63-71 | success exactly for active, destructive exactly for cancelled, warning exactly for suspended, secondary for expired and anything else |
| SubscriptionsView.StatusLabel | src/pages/Subscriptions.tsx:73-81 | an unknown status is shown as it came |
| SubscriptionsView.StatusLabelIsRawIffUnknown | src/pages/Subscriptions.tsx:73-81 | the label repeats the wire status exactly when it is unknown |
| SubscriptionsView.PaymentVariant | src/pages/Subscriptions.tsx:83-89 | success exactly for approved, warning exactly for pending, destructive for every other status |
| SubscriptionsView.PaymentLabel | src/pages/Subscriptions.tsx:91-97 | `Rejeitado` exactly for every status other than approved and pending |
| SubscriptionsView.PaymentBadgeAgrees | src/pages/Subscriptions.tsx:83-97 | variant and label agree case by case |
| SubscriptionsView.OfferedActions | src/pages/Subscriptions.tsx:203-248 | the payments button always; suspend exactly for active; cancel exactly for active or suspended |
| SubscriptionsView.ActionsByWireStatus | src/pages/Subscriptions.tsx:213-248 | on a wire status, suspend is offered exactly for `active`, and cancel exactly for `active` or `suspended` |
| SubscriptionsView.Panel.constructor | src/pages/Subscriptions.tsx:14-19 | no panel open, no payments, nothing loading |
| SubscriptionsView.Panel.BeginAction | src/pages/Subscriptions.tsx:40 | the row's action buttons are disabled while its action runs |
| SubscriptionsView.Panel.SettleAction | src/pages/Subscriptions.tsx:43-48 | the action settles, and the list refreshes only after a success |
| SubscriptionsView.Panel.HandleViewPayments | src/pages/Subscriptions.tsx:21-37 | the open id closes without a fetch; another id fetches, and on success shows those payments with that panel as the only one open; on failure the open panel and list stay; loading is false |
| SubscriptionsView.Panel.HandleCancel | src/pages/Subscriptions.tsx:39-49 | a PUT to the cancel path; the action settles; one refresh exactly on success |
| SubscriptionsView.Panel.HandleSuspend | src/pages/Subscriptions.tsx:51-61 | a PUT to the suspend path; the action settles; one refresh exactly on success |
| SubscriptionsPage.ActionError | app/subscriptions/page.tsx:113 | the error of a failed confirmation names the action |
| SubscriptionsPage.SearchRequest | app/subscriptions/page.tsx:77-78 | a GET on `/subscriptions/application/{id}`; `all` sends no status; any other filter is sent verbatim |
| SubscriptionsPage.RowActions | app/subscriptions/page.tsx:235-254 | suspend and cancel exactly for active subscriptions, so a suspended one gets neither |
| SubscriptionsPage.RowActionsByWireStatus | app/subscriptions/page.tsx:235-254 | on a wire status, suspend and cancel are offered exactly for `active` |
| SubscriptionsPage.Page.constructor | app/subscriptions/page.tsx:50-59 | the page starts empty with the filter `all` and nothing open |
| SubscriptionsPage.Page.HandleSearch | app/subscriptions/page.tsx:67-86 | a blank id sets the prompt error, sends nothing and keeps the list; otherwise success replaces the list and clears the error, failure empties it and sets the error; loading is false |
| SubscriptionsPage.Page.HandleViewPayments | app/subscriptions/page.tsx:88-91 | the payments modal opens on the subscription |
| SubscriptionsPage.Page.HandleAction | app/subscriptions/page.tsx:93-97 | the confirmation dialog opens on the subscription and action |
| SubscriptionsPage.Page.ConfirmAction | app/subscriptions/page.tsx:99-117 | nothing without a selection; otherwise the cancel or suspend call; on failure the error names the action and the dialog stays; on success the search repeats and the dialog closes |
| PaymentsPage.SearchRequest | app/payments/page.tsx:67-68 | a GET on `/payments/application/{id}`; `all` sends no status; any other filter is sent verbatim |
| PaymentsPage.Page.constructor | app/payments/page.tsx:43-49 | the page starts empty with the filter `all` and no modal |
| PaymentsPage.Page.FilteredPayments | app/payments/page.tsx:78 | the displayed list is the fetched list, element by element |
| PaymentsPage.Page.HandleSearch | app/payments/page.tsx:57-76 | a blank id sets the prompt error and sends nothing; success replaces the list and clears the error; failure empties it and sets the error; loading is false |
| PaymentsPage.Page.HandleRowClick | app/payments/page.tsx:80-83 | the details modal opens on the payment |
| PaymentsView.StatusVariant | src/pages/Payments.tsx:16-24 | success exactly for approved, warning for pending, destructive for rejected and cancelled, secondary for anything else |
| PaymentsView.StatusLabel | src/pages/Payments.tsx:26-34 | an unknown status, `refunded` included, is shown as it came |
| PaymentsView.LabelIsRawIffSecondary | src/pages/Payments.tsx:16-34 | the label repeats the wire status exactly when the badge is secondary |
| PaymentsView.DisplayBranch | src/pages/Payments.tsx:36-157 | the error card first; with no app selected the prompt; then the spinner while loading, the empty message for no payments, the table otherwise, each exactly in its case |
| ApplicationsPage.FilteredApplications | app/applications/page.tsx:41-45 | nothing before the first fetch resolves, a filtered list after |
| ApplicationsPage.FilterMembership | app/applications/page.tsx:41-45 | an application is kept exactly when it was fetched and its lower-cased name or id contains the lower-cased term |
| ApplicationsPage.FilterIsSubsequence | app/applications/page.tsx:41 | the filtered list is an order-preserving subsequence of the fetched list |
| ApplicationsPage.EmptyTermKeepsAll | app/applications/page.tsx:41-45 | an empty search keeps every application, in order |
| ApplicationsPage.FilterIgnoresCase | app/applications/page.tsx:41-45 | lower-casing the search term changes nothing |
| ApplicationsPage.Page.constructor | app/applications/page.tsx:26-33 | the form starts as `{name: "", apiKey: "", isActive: true}` with the dialog closed |
| ApplicationsPage.Page.HandleSubmit | app/applications/page.tsx:47-60 | the form is posted; success closes the dialog, resets the form and revalidates once; failure changes neither dialog nor form; submitting is false |
| DashboardPage.StatsFrom | app/dashboard/page.tsx:48-55 | counts of applications and renewals, zeros and an empty list for payments and subscriptions, and the first min(5, n) renewals as a prefix |
| DashboardPage.Tiles | app/dashboard/page.tsx:93-132 | all four tiles read zero before any load, and the stats' counts after |
| DashboardPage.Page.constructor | app/dashboard/page.tsx:25-26 | no stats, loading |
| DashboardPage.Page.LoadDashboardData | app/dashboard/page.tsx:40-61 | both fetches are sent; stats are replaced only when both resolve and kept otherwise; loading is false |
| DashboardPage.Page.OnAuthenticationChange | app/dashboard/page.tsx:34-38 | data loads only for an authenticated session; otherwise nothing is sent and nothing changes |
| DashboardView.ApprovedOnly | src/pages/Dashboard.tsx:16-17 | the kept payments are all approved and no more than the total |
| DashboardView.ApprovedOnlyMembership | src/pages/Dashboard.tsx:16-17 | a payment is kept exactly when it is among the fetched payments and approved (both directions) |
| DashboardView.ApprovedOnlyIsSubsequence | src/pages/Dashboard.tsx:16-17 | the kept payments appear in the fetched order |
| DashboardView.ApprovedOnlyAppend | src/pages/Dashboard.tsx:16-17 | filtering distributes over concatenation |
| DashboardView.SumAmountsAppend | src/pages/Dashboard.tsx:18 | the left fold of amounts distributes over concatenation |
| DashboardView.RevenueOfAppended | src/pages/Dashboard.tsx:16-18 | adding a payment that is not approved leaves the revenue unchanged; adding an approved one adds its amount, zero when it has none |
| DashboardView.RevenueWithoutApproved | src/pages/Dashboard.tsx:16-18 | with no approved payment, the empty list included, the revenue is zero |
| DashboardView.ActiveSubscriptions | src/pages/Dashboard.tsx:20 | the count never exceeds the number of subscriptions |
| DashboardView.ActiveSubscriptionsOfAppended | src/pages/Dashboard.tsx:20 | the empty list counts zero, and appending a subscription adds one exactly when it is active, so the count is the number of active subscriptions |
| DashboardView.ApprovedIffWireApproved | src/pages/Dashboard.tsx:17 | on a payment read from the wire, the approved test is the string comparison with `approved` |
| DashboardView.ActiveIffWireActive | src/pages/Dashboard.tsx:20 | on a subscription read from the wire, the counted test is the string comparison with `active` |
| DashboardView.AllActiveIffCountIsTotal | src/pages/Dashboard.tsx:20 | the count equals the total exactly when every subscription is active |
| SubscriptionPaymentsModal.ViewOf | components/subscription-payments-modal.tsx:61-120 | nothing without a subscription; otherwise the spinner while loading, the table for payments, the empty message for none, each exactly in its case |
| SubscriptionPaymentsModal.IdPrefix | components/subscription-payments-modal.tsx:101 | `substring(0, 8)`: a prefix of the id of length min(8, length) |
| SubscriptionPaymentsModal.RowOf | components/subscription-payments-modal.tsx:99-114 | a row shows a prefix of the id, the description, and a method label and a status label and colour exactly for typed values |
| SubscriptionPaymentsModal.PaymentsRequest | components/subscription-payments-modal.tsx:52 | a GET on `/payments/subscription/{id}` with no parameters or body |
| SubscriptionPaymentsModal.Modal.constructor | components/subscription-payments-modal.tsx:38-39 | no payments, not loading |
| SubscriptionPaymentsModal.Modal.LoadPayments | components/subscription-payments-modal.tsx:47-59 | without a subscription nothing happens; otherwise the fetch is sent, success replaces the list, failure keeps it, and loading is false |
| SubscriptionPaymentsModal.Modal.OnPropsChange | components/subscription-payments-modal.tsx:41-45 | payments load exactly when the modal is open on a subscription, and the spinner is gone after |

## Left out

- Rendering and styling: JSX markup, the `ui` components, layout, sidebars and header are presentation only. Only the branch each view chooses is modelled.
- Network transport: axios and `fetch` are replaced by the settled `Result` of each call. Timeouts, retries, status codes and response shapes other than the typed ones are not modelled.
- The config endpoint (`app/api/config/route.ts`) is an environment lookup with a default; its outcome is a parameter of `ApiClient.Client.constructor`.
- The SWR hooks (`src/hooks`) and `useSWR` in app/applications/page.tsx are not part of this model. Their list state is taken as given, and `refresh()` and `mutate()` are counted, not performed (`refreshes`, `revalidations`).
- Concurrency: `Promise.all`, out-of-order responses and the interleaving of React state updates are not modelled. Each handler runs to completion with the outcomes it is given; the two halves of the login and renewals handlers are also available separately (`BeginSubmit`/`Settle`, `BeginFetch`/`SettleFetch`).
- Floating point: amounts are exact reals. `parseFloat`, `Number(...).toFixed(2)`, `formatCurrency` and NaN are not modelled, and a missing or empty amount is `None`.
- Dates: `nextBillingDate` is its instant in milliseconds and "now" is a parameter. `new Date(...)` parsing, `toLocaleDateString`, `formatDate` and `todayPayments` (src/pages/Dashboard.tsx:21-23) are not modelled.
- JSON: only the stored user's shape is encoded and decoded, with `"` and `\` escaped. Any other text, including valid JSON of another shape, is treated as a parse failure.
- `toLowerCase` and `trim` are restricted to ASCII letters and ASCII whitespace.
- Router navigation: only the target path is returned, or computed (`PageCommon.RedirectTarget`).
- SrcApiClient.QueryOfParams: axios percent-encodes parameter values and the Vite client interpolates the status as is. The model writes the status unencoded, so `SrcApiClient.VariantsAgreeOnListFetches` holds for the URL-safe statuses the pages send, and the model does not say what happens to a status that needs encoding.
- The create calls of src/lib/api-client.ts forward the caller's object, whose shape is not modelled (`Forwarded`).
- src/pages/Applications.tsx (clipboard and `setTimeout` toggles) and components/payment-details-modal.tsx (field display whose tables repeat app/payments/page.tsx:20-38) are not part of this model.
- Where the code and the documented intent differ, the model follows the code:
  - AuthContext.AuthProvider.InitEffect: when `JSON.parse` throws on a stored `user_data`, the effect stops before `setIsLoading(false)`, so `isLoading` stays true (stated as such, and `ProtectedRoute.FreshGate` shows the spinner staying up). The model keeps the spinner up for every `user_data` that does not decode as the stored user's shape. That includes valid JSON of another form (`null`, extra whitespace or fields), where the source calls `setUser` with the parsed value and settles, so the model does not capture that case.
  - AuthProviderUi.AuthProvider.Login: `isAuthenticated` turns on for any resolved login, even when the access token is empty and the client itself is then unauthenticated (stated in its last two ensures).
  - SubscriptionsPage.Page.ConfirmAction: `handleSearch` never throws, so the dialog closes after every successful action, whatever the search does.
  - DashboardPage.Page.OnAuthenticationChange: an unauthenticated dashboard never loads, so its own `isLoading` stays true and the spinner stays until the redirect leaves the page.

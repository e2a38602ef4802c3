# Project dashboard: a Dafny model of its client-side logic

The dashboard is a Next.js front end. Signed-in users list projects, filter them by status, search them, and add, edit and delete them through a REST API. Each project has a name, a status (`active`, `on hold` or `completed`), a deadline, an assigned team member and a budget. Most of the code is markup. This model covers the logic inside it:

- **Token store** (`Auth`, lib/auth.ts). Local storage becomes a `map<string, string>` and the presence of `window` becomes a boolean. `getToken`, `isAuthenticated` and `getAuthHeaders` are functions. `setToken` and `removeToken` are methods that change only the `auth_token` entry.
- **API client** (`Api`, lib/api.ts). It models the request each call sends and how the reply becomes a returned value or a thrown error. `getAll` fills its query object one field at a time (a method). It defaults a missing `data` to `[]`. `getById`, `create` and `update` throw when `data` is missing. `delete` ignores the body.
- **Project modal** (`ProjectForm`, components/ProjectModal.tsx and components/projects/ProjectModal.tsx). The two files have the same logic line for line, one line apart, so one class models both. It covers the four field rules and how `validate` builds its error map, the reset effect (including cutting the deadline at its first `'T'`), and the submit step around the parent's save callback.
- **Table and card** (`ProjectTable`, `ProjectCard`). These are pure view functions: the status badge, spinner vs. empty state vs. rows, the sort-arrow highlighting, and what each header or button click passes to its callback.
- **Dashboard controller** (`Dashboard`, app/page.tsx and app/dashboard/page.tsx). The two pages are the same controller. Only app/page.tsx has its own logout handler. A class holds the page's state variables. Each handler is one atomic step whose awaited outcomes are inputs. Navigation, confirm/alert dialogs and API requests are appended, in order, to an `effects` log. `Render` states the page's gating.

Shared pieces: `Types` holds the records of types/project.ts and types/auth.ts. `Text` holds JavaScript's `trim` (with the ECMAScript white-space set), `split(sep)[0]`, and the decimal rendering of an id inside a template literal, proved injective. `Options` is the optional value.

The code has no client-side sorting, pagination, debounced search or per-status counts, and a failed fetch keeps the list it had; the table shows projects in the order the API returned them.

## Model

| member | source | states |
|---|---|---|
| Types.StatusText | types/project.ts:4 | each status travels as its literal string, none of them empty or `all` |
| Types.StatusTextInjective | types/project.ts:4 | distinct statuses have distinct strings |
| Text.TrimStartShape | components/ProjectModal.tsx:48 | trimming the start drops exactly the leading white space: the rest is a suffix starting at a non-white-space character |
| Text.TrimEndShape | components/ProjectModal.tsx:56 | trimming the end drops exactly the trailing white space: the rest is a prefix ending at a non-white-space character |
| Text.TrimEmptyIff | components/projects/ProjectModal.tsx:49 | `s.trim()` is empty (falsy) iff every character of `s` is ECMAScript white space |
| Text.SplitHead | components/ProjectModal.tsx:29 | `s.split(sep)[0]` is a prefix of `s` with no `sep`; it is all of `s` when there is no `sep`, else it stops right at the first one |
| Text.NatToDecimal | lib/api.ts:26 | an id renders as a non-empty run of digits without a leading zero |
| Text.DecimalRoundTrip | lib/api.ts:26 | reading the rendered digits back gives the id |
| Text.IntToDecimalInjective | lib/api.ts:44 | different ids render differently, negatives included |
| Api.ProjectPathInjective | lib/api.ts:53 | `/projects/${id}` names exactly one id, so update and delete address the project they are given |
| Api.QueryParams | lib/api.ts:16-18 | `status` is present iff given non-empty and not `all`, `search` iff given non-empty; each carries its argument; no other key |
| Api.ListResult | lib/api.ts:21 | a delivered list reply returns its `data` when present and `[]` when not, never a missing-data error; only a rejected request fails |
| Api.GetAll | lib/api.ts:15-22 | the parameter object built field by field is `QueryParams`, the request is a GET of `/projects`, and the result is `ListResult` of the reply |
| Api.RequireData | lib/api.ts:27-30 | returns `data` unchanged iff it came back; throws the given message when it is missing and a request failure when the client rejected |
| Api.GetById | lib/api.ts:25-31 | GET of the project's path, no body; a missing `data` throws `Project not found`; otherwise returns `data` |
| Api.Create | lib/api.ts:34-40 | POST of the form to `/projects`; a missing `data` throws `Failed to create project`; otherwise returns `data` |
| Api.Update | lib/api.ts:43-49 | PUT of the form to the project's path; a missing `data` throws `Failed to update project`; otherwise returns `data` |
| Api.Delete | lib/api.ts:52-54 | DELETE of the project's path; succeeds iff the client delivered a reply |
| Api.DeleteIgnoresBody | lib/api.ts:53 | any two delivered delete replies have the same effect, whatever their envelopes say |
| Auth.TokenStore.GetToken | lib/auth.ts:8-11 | the token is the `auth_token` entry when a window exists and the entry is there; otherwise none |
| Auth.TokenStore.SetToken | lib/auth.ts:13-16 | with a window, the entry becomes the token and `GetToken` returns it; without one, storage is unchanged; no other key changes |
| Auth.TokenStore.RemoveToken | lib/auth.ts:18-21 | afterwards `GetToken` is none; with a window only `auth_token` is deleted; without one, storage is unchanged |
| Auth.TokenStore.IsAuthenticated | lib/auth.ts:23-25 | true iff some token is stored, the empty string included |
| Auth.TokenStore.AuthHeaders | lib/auth.ts:31-34 | an `Authorization: Bearer <token>` header iff the stored token is non-empty, else no header |
| Auth.HeaderImpliesAuthenticated | lib/auth.ts:31-34 | a header is only produced for an authenticated store, and it carries the stored token after the prefix |
| Auth.EmptyTokenAuthenticatedWithoutHeader | lib/auth.ts:23-34 | an empty stored token counts as authenticated yet yields no header |
| ProjectForm.ValidationErrors | components/ProjectModal.tsx:45-66 | the error map's keys are always among name, deadline, assigned_team_member and budget |
| ProjectForm.ErrorPerFailedRule | components/projects/ProjectModal.tsx:48-66 | each rule's key is present, with that rule's message, exactly when the rule fails |
| ProjectForm.ValidateAcceptsIff | components/projects/ProjectModal.tsx:46-67 | the map is empty iff the trimmed name is non-empty, the deadline is non-empty, the trimmed member is non-empty and the budget is above 0 |
| ProjectForm.BlankFieldsRejected | components/ProjectModal.tsx:48-62 | a white-space-only name or team member, and a budget of 0 or less, are each rejected under their own key |
| ProjectForm.StatusNotValidated | components/ProjectModal.tsx:47-63 | forms differing only in status get the same errors |
| ProjectForm.EmptyFormRejectedEverywhere | components/projects/ProjectModal.tsx:35-63 | the new-project defaults fail all four rules |
| ProjectForm.FormFromProject | components/projects/ProjectModal.tsx:26-33 | editing copies name, status, member and budget verbatim; the deadline is its prefix before the first `'T'` (all of it when it has none) |
| ProjectForm.ProjectModal.constructor | components/ProjectModal.tsx:14-22 | the modal starts on the empty form, not submitting, without errors |
| ProjectForm.ProjectModal.Reset | components/ProjectModal.tsx:24-43 | the form becomes the edited project's form or the defaults; errors are cleared in both cases; the in-flight flag is untouched |
| ProjectForm.ProjectModal.Validate | components/ProjectModal.tsx:45-66 | the four checks made one by one commit exactly `ValidationErrors`, and the result is true iff the form is acceptable |
| ProjectForm.ProjectModal.HandleSubmit | components/ProjectModal.tsx:68-85 | an invalid form calls no save, keeps the in-flight flag and shows the field errors; a valid one saves the form; success closes; failure shows only the submit error and stays open; the flag ends false |
| ProjectCard.StatusVariant | components/projects/ProjectCard.tsx:28-32 | `active` maps to success, `on hold` to warning, every other string to default |
| ProjectCard.StatusBadges | components/projects/ProjectTable.tsx:41-45 | on the three statuses: success, warning, and default for completed |
| ProjectCard.Card | components/projects/ProjectCard.tsx:55-70 | Edit hands back the whole record, Delete only its id; the badge follows the status |
| ProjectTable.SortableHeader | components/projects/ProjectTable.tsx:47-85 | without `onSort` the header is inert; with it, the up arrow is lit iff this is the sort field and the direction (default asc) is asc, the down arrow iff it is the sort field and desc |
| ProjectTable.AtMostOneArrow | components/projects/ProjectTable.tsx:58-75 | never both arrows, and none off the sort column |
| ProjectTable.Click | components/projects/ProjectTable.tsx:54-62 | an inert header asks for nothing; a clickable one asks to sort by exactly its own field |
| ProjectTable.Headers | components/projects/ProjectTable.tsx:110-115 | one header per sortable column, in column order |
| ProjectTable.ClickRequestsOwnColumn | components/projects/ProjectTable.tsx:62 | clicking the i-th header of a sortable table requests the i-th column |
| ProjectTable.RowOf | components/projects/ProjectTable.tsx:122-160 | a row shows its project's badge; Edit hands back the record, Delete its id |
| ProjectTable.Show | components/projects/ProjectTable.tsx:87-102 | the spinner iff loading; the empty state iff not loading and no projects; otherwise one row and one card per project, in input order |
| ProjectTable.LayoutsAgree | components/projects/ProjectTable.tsx:165-175 | the desktop row and the mobile card of a project show the same badge and ask for the same edit and delete |
| Dashboard.FetchQuery | app/dashboard/page.tsx:57 | the fetch sends `status` iff a status other than `all` (and non-empty) is chosen, `search` iff a term was typed |
| Dashboard.Fetched | app/dashboard/page.tsx:53-66 | loading ends false and the list request is sent; success sets both lists to the data and clears the error; failure sets the error and keeps both lists; nothing else changes |
| Dashboard.SaveExchange | app/page.tsx:97-101 | while editing, save PUTs to that project's path; otherwise it POSTs to `/projects`; the form is the body |
| Dashboard.CountLinePlural | app/page.tsx:186-190 | the count line ends in "s" iff the count is not 1 |
| Dashboard.Render | app/dashboard/page.tsx:112-124 | spinner iff the session is being checked, nothing iff checked with no user; else the table gets the filtered list and loading flag, the count line shows iff not loading, and the banner shows iff there is an error |
| Dashboard.DashboardPage.constructor | app/page.tsx:16-25 | the initial state: no user, both loading flags set, empty lists, no error, filter `all`, empty search, modal closed |
| Dashboard.DashboardPage.CheckAuth | app/page.tsx:28-49 | no (or empty) token: redirect with no lookup and the auth spinner stays; lookup fails: token removed, redirect, no user, spinner cleared; lookup succeeds: user set, spinner cleared |
| Dashboard.DashboardPage.FetchProjects | app/page.tsx:52-65 | the new state is `Fetched` of the old one |
| Dashboard.DashboardPage.SelectStatus | app/page.tsx:67-69 | a new status filter refetches under it; the same one changes nothing |
| Dashboard.DashboardPage.ChangeSearch | app/dashboard/page.tsx:68-70 | a new search term refetches under it; the same one changes nothing |
| Dashboard.DashboardPage.HandleAddProject | app/page.tsx:71-74 | the modal opens with no edited project; nothing else changes |
| Dashboard.DashboardPage.HandleEditProject | app/page.tsx:76-79 | the modal opens on the chosen project; nothing else changes |
| Dashboard.DashboardPage.CloseModal | app/page.tsx:195-198 | the modal closes and the edited project is forgotten |
| Dashboard.DashboardPage.HandleDeleteProject | app/dashboard/page.tsx:82-94 | a declined confirm sends nothing; a delivered delete is followed by a refetch; a failed one alerts and does not refetch |
| Dashboard.DashboardPage.HandleSaveProject | app/dashboard/page.tsx:96-110 | update vs. create by the edited project; only on success does the modal close, the edited project clear and a refetch follow; a failure is rethrown with the modal as it was |
| Dashboard.DashboardPage.HandleLogout | app/page.tsx:111-114 | the token is removed and the page redirects; no page state is reset |

## Left out

- Markup and styling: JSX, Tailwind classes, the shared Badge (a class-string lookup), Input and both Header components. The headers' logout is the same remove-then-redirect as `HandleLogout`.
- The modal's field `onChange` handlers: each replaces one field of the form. Budget parsing (`parseFloat(...) || 0`) is floating point. The modal's `if (!isOpen) return null` and its titles are markup.
- HTTP transport: axios, the base URL taken from the environment, and the network. Each call's reply is an input of the handler. The model does not say which headers a request carries; lib/api.ts as shown never calls `getAuthHeaders`.
- `authApi.getCurrentUser` is not part of this model: lib/api.ts as shown does not define it. Its outcome is the `lookup` input of `CheckAuth`.
- Browser globals: local storage is a map and `typeof window` a boolean. `router.push`, `confirm` and `alert` are entries of the effects log; the confirm answer is an input. `console.error` logging is not modelled.
- Floating point and locale: the budget is a `real`, so NaN is not modelled. Currency and date formatting are not modelled.
- Text.IntToDecimal: covers integer ids only; JavaScript's exponent notation for huge numbers and the rendering of non-integers are not modelled.
- Async interleaving: each handler is one atomic step. So the moments when `isSubmitting` or `isLoading` are true mid-call are not observable, and neither is the disabled submit button. Stale responses (an older fetch settling after a newer one) are not modelled; the code has no guard against them.
- Unawaited refetch: after a delete or a successful save the page calls `fetchProjects()` without awaiting it (app/page.tsx:88, 104; app/dashboard/page.tsx:89, 105), so the handler resolves and the modal closes before the refetch settles. `HandleDeleteProject` and `HandleSaveProject` fold the settled refetch into their own step. The final state is the same because `fetchProjects` catches every error of its own.
- Mount: both `checkAuth` and the first fetch run when the page mounts and may settle in either order. The model leaves that order to whoever calls `CheckAuth` and `FetchProjects`.
- Wiring of the modal to the page: `HandleSubmit` takes the outcome of `onSave` as an input. It is not composed with `HandleSaveProject`; that outcome is `!thrown` there.
- StatusFilter, SearchBar and components/ProjectTable (imported by both pages) are not part of this model. The page hands the table its filtered list and loading flag, as `Render` states.

# Corvus LMS client: authentication, route guarding and dashboard rules

Corvus is a learning-management web client: marketing pages, sign-in screens
and role-based dashboards, backed by a hosted auth and table service. This
project models the small decision rules the client's behaviour rests on, and
proves what they promise:

- **Auth context** (`AuthContext`): the provider's four fields (`session`,
  `user`, `appUser`, `loading`) as a class. Its two handlers are methods:
  the initial-session fetch and the auth-change subscription. Each method is
  tied to a pure step function (`AfterInitialSession`, `AfterAuthChange`).
  `Run` folds a sequence of steps. The lemmas prove four things: `user` always
  mirrors `session`; `loading` ends at the first step and never comes back; a
  session-less event clears the cached profile; a cached profile always comes
  from some lookup.
- **Protected-route guard** (`RouteGuard`): the effect's redirect and the
  rendered view as one decision over the auth state and `requireAdmin`. It is
  proved to agree with a reference predicate `Permitted`, and its redirect is
  proved to agree with what it renders. It is connected to `AuthContext`: after
  a session-less event, every guarded page sends the visitor to `/login`.
- **OAuth callback** (`AuthCallback`): the outcomes of the session fetch and
  the role lookup map to exactly one navigation.
- **Header** (`SiteHeader`): active-link matching (a plain string prefix), the
  hash-link target id, and the mobile-menu flag as a class.
- **Student dashboard** (`StudentDashboard`): the initials pipeline
  (`split(' ')`, first characters, `join('')`, upper-case, `substring(0, 2)`)
  is proved equal to an independent definition, the word starts of the name.
  The module also has the greeting fallback, the enrolment-to-course-id
  mapping, and the course-loading effect as a class.

Calls to the auth and table service are replaced by their outcomes. They are
given as parameters: a session or none, a profile row or none, a query error
or query data. Each handler runs as one atomic step.

A profile lookup that finds no row leaves `appUser` as it was, because there
is no `else` after `if (data)` (contexts/AuthContext.tsx:39-41 and 63-65). So
a new session whose lookup fails keeps the previous user's row beside the new
user; `AuthContext.ProfileSurvivesSessionChange` proves this.

## Model

| member | source | states |
|---|---|---|
| `AuthContext.UserOf` | contexts/AuthContext.tsx:28-29 | the user is present exactly when a session is, and is that session's user |
| `AuthContext.AfterInitialSession` | contexts/AuthContext.tsx:26-45 | after the initial fetch, the session is the fetched one, the user mirrors it, loading is over, and the profile is the lookup's row when there is a session and a row; otherwise the previous profile is kept |
| `AuthContext.AfterAuthChange` | contexts/AuthContext.tsx:51-71 | after an auth-change event, the session is the event's, the user mirrors it, loading is over; with no session the profile is cleared; with a session it is the lookup's row, or the previous profile when the lookup found none |
| `AuthContext.Run` | contexts/AuthContext.tsx:24-72 | after any non-empty sequence of handler steps, the user mirrors the session and loading is false; loading never returns to true |
| `AuthContext.RunSnoc` | contexts/AuthContext.tsx:50-72 | running one more step is the same as applying that step to the state reached so far |
| `AuthContext.SignOutEventClears` | contexts/AuthContext.tsx:66-70 | whatever came before, a session-less event leaves no session, no user, no cached profile, and loading false |
| `AuthContext.ProfileComesFromALookup` | contexts/AuthContext.tsx:31-68 | after any run, the profile is none, or its value before the run, or the row some step with a session received |
| `AuthContext.ProfileSurvivesSessionChange` | contexts/AuthContext.tsx:55-65 | after a session with a profile row, a second session whose lookup finds no row has the new user but keeps the first user's row |
| `AuthContext.UseAuth` | contexts/AuthContext.tsx:94-99 | fails with the provider error exactly when no provider value is present, and otherwise returns that value |
| `AuthContext.AuthProvider.constructor` | contexts/AuthContext.tsx:19-22 | the initial state has no session, no user, no profile, and loading true |
| `AuthContext.AuthProvider.GetInitialSession` | contexts/AuthContext.tsx:26-45 | the new field values are `AfterInitialSession` of the old ones; the user mirrors the session and loading is false |
| `AuthContext.AuthProvider.OnAuthStateChange` | contexts/AuthContext.tsx:51-71 | the new field values are `AfterAuthChange` of the old ones; the user mirrors the session and loading is false |
| `AuthContext.AuthProvider.SignOut` | contexts/AuthContext.tsx:79-81 | no field changes; only a later auth-change event updates the state |
| `RouteGuard.ProtectedRoute` | components/auth/ProtectedRoutes.tsx:17-39 | while loading: spinner and no redirect; with no user: `/login` and nothing rendered; a signed-in non-admin on an admin page (missing profile included): `/dashboard` and nothing rendered; children rendered unchanged exactly when loading is over and the visitor is `Permitted`; once loading is over, a redirect is issued exactly when the children are not rendered |
| `RouteGuard.EffectRedirect` | components/auth/ProtectedRoutes.tsx:17-25 | the effect pushes no route exactly while loading or when the visitor is `Permitted`; otherwise it pushes `/login` when there is no user and `/dashboard` when there is one |
| `RouteGuard.RenderView` | components/auth/ProtectedRoutes.tsx:27-39 | the spinner exactly while loading; the children, unchanged, exactly when loading is over and the visitor is `Permitted`; nothing otherwise |
| `RouteGuard.DefaultAdmitsEverySignedInUser` | components/auth/ProtectedRoutes.tsx:9-39 | with the default `requireAdmin = false`, every signed-in user sees the children, whatever the profile, and there is no redirect |
| `RouteGuard.AdminPage` | app/dashboard/admin/page.tsx:5-7 | the admin content is shown exactly to a signed-in user whose profile role is `admin`, once loading is over; any other signed-in user is sent to `/dashboard` |
| `RouteGuard.SignedOutVisitorGoesToLogin` | components/auth/ProtectedRoutes.tsx:17-36 | after any history ending in a session-less auth event, every guarded page redirects to `/login` and renders nothing |
| `RouteGuard.SpinnerOnlyBeforeFirstStep` | components/auth/ProtectedRoutes.tsx:27-33 | the guard shows the spinner exactly until the auth context's first handler has run |
| `AuthCallback.TryBlock` | app/auth/callback/page.tsx:11-40 | a `try` block that completes made exactly one navigation |
| `AuthCallback.HandleAuthCallback` | app/auth/callback/page.tsx:10-45 | exactly one navigation; the login-error route exactly when no session could be read (fetch error or no session); the admin dashboard exactly when both lookups succeeded and the role is `admin`; the student dashboard otherwise, and only that route after a failed role lookup |
| `SiteHeader.StartsWith` | components/Header.tsx:46 | true exactly when the prefix is at most as long as the string and equals its first characters |
| `SiteHeader.ReplaceFirst` | components/Header.tsx:27 | a string that starts with the pattern has that occurrence replaced and its remainder kept |
| `SiteHeader.ReplaceAt` | components/Header.tsx:27 | when the first occurrence of the pattern starts at position `i`, only that occurrence is replaced; the text before and after it is kept |
| `SiteHeader.ReplaceAbsent` | components/Header.tsx:27 | a string with no occurrence of the pattern is left unchanged |
| `SiteHeader.IsActive` | components/Header.tsx:44-47 | the home link is active exactly on `/`; any other link is active exactly when the pathname is the link followed by some rest |
| `SiteHeader.IsActiveReflexive` | components/Header.tsx:44-47 | every link is active on its own pathname |
| `SiteHeader.IsActiveIsNotSegmentMatch` | components/Header.tsx:46 | `/pricing` is active on `/pricingx`: a plain prefix match, not a path-segment match |
| `SiteHeader.TargetId` | components/Header.tsx:27 | for a `/#` link, the target id is the link without its leading `/#` |
| `SiteHeader.TargetIdRoundTrip` | components/Header.tsx:25-27 | for a `/#` link, the target id is the rest after `/#`, and `/#` followed by the id is the link again |
| `SiteHeader.Header.constructor` | components/Header.tsx:8 | the menu starts closed |
| `SiteHeader.Header.HandleHashLinkClick` | components/Header.tsx:23-41 | the default action is prevented exactly for a `/#` link on the home page; then, if the element exists, the menu closes and the page scrolls to the id after `/#`; in every other case the menu flag is unchanged and there is no scroll |
| `SiteHeader.Header.ToggleMenu` | components/Header.tsx:99-101 | the menu flag flips |
| `SiteHeader.Header.CloseMenu` | components/Header.tsx:121-145 | the Home and Pricing links of the mobile menu close it |
| `StudentDashboard.Split` | app/dashboard/student/page.tsx:64 | splitting at single spaces gives at least one piece, and no piece contains a space |
| `StudentDashboard.SplitJoinRoundTrip` | app/dashboard/student/page.tsx:64 | joining the pieces with single spaces gives the name back |
| `StudentDashboard.FirstCharsAreWordStarts` | app/dashboard/student/page.tsx:63-66 | the joined first characters of the pieces are the word starts of the name: the non-space characters at the start or after a space (empty pieces contribute nothing) |
| `StudentDashboard.AllSpacesHaveNoWordStarts` | app/dashboard/student/page.tsx:63-66 | a string of only spaces has no word starts |
| `StudentDashboard.FirstChar` | app/dashboard/student/page.tsx:65 | `word[0]` joined as text: empty exactly for an empty word, otherwise the word's first character |
| `StudentDashboard.JoinFirstChars` | app/dashboard/student/page.tsx:65-66 | the joined first characters are at most one per word, and nothing when every word is empty |
| `StudentDashboard.ToUpper` | app/dashboard/student/page.tsx:67 | upper-casing keeps the length and maps every character through ASCII upper-casing |
| `StudentDashboard.Take` | app/dashboard/student/page.tsx:68 | `substring(0, n)` is the prefix of length `min(n, length)` |
| `StudentDashboard.GetInitials` | app/dashboard/student/page.tsx:61-69 | a missing or empty name gives `"ST"`; the result has at most two characters; for a non-empty name they are the first two word starts, in order, upper-cased |
| `StudentDashboard.AllSpaceNameHasEmptyInitials` | app/dashboard/student/page.tsx:61-69 | a non-empty name of only spaces gives `""`, not `"ST"` |
| `StudentDashboard.RepeatedSpacesExample` | app/dashboard/student/page.tsx:63-68 | `"jo  ann"` gives `"JA"`: the empty piece between two spaces adds nothing |
| `StudentDashboard.DisplayName` | app/dashboard/student/page.tsx:76 | the greeting is never empty: the full name when present and non-empty, otherwise `"Student"` |
| `StudentDashboard.CourseIds` | app/dashboard/student/page.tsx:39 | the course ids are the enrolments' `course_id` values, in order, one per enrolment |
| `StudentDashboard.QueriedCourseIds` | app/dashboard/student/page.tsx:36-44 | the courses query is issued exactly when the enrolments query succeeded with a non-empty list, and then with the enrolments' `course_id` values, in order, one per enrolment |
| `StudentDashboard.CoursesAfterFetch` | app/dashboard/student/page.tsx:36-50 | the course list is unchanged after an enrolments error, after no enrolments, or after a courses error; otherwise it is the courses data, or empty when the data is null |
| `StudentDashboard.Dashboard.constructor` | app/dashboard/student/page.tsx:20-21 | the page starts with no courses and loading on |
| `StudentDashboard.Dashboard.FetchEnrolledCourses` | app/dashboard/student/page.tsx:29-54 | the course list becomes `CoursesAfterFetch` of the old one; the ids queried are `QueriedCourseIds`; loading ends on every path |
| `StudentDashboard.Dashboard.OnAppUserChange` | app/dashboard/student/page.tsx:23-59 | with no profile: navigates to `/login`, queries nothing, and loading stays on; with a profile whose id is empty: nothing happens; with a profile whose id is non-empty: it fetches as above and does not navigate |

## Left out

- The auth and table service itself (`getSession`, `onAuthStateChange`, the `users`, `enrollments` and `courses` queries, `signOut`): what these calls return is a parameter of each handler. The filters a query applies (by user id, by course ids) are not modelled; the `courses` query's ids are returned as an output.
- Interleaving of the asynchronous handlers: a response arriving after a later event, requests still in flight after unmount, and `subscription.unsubscribe`. Each handler is one atomic step.
- The kind of an auth-change event: the handler ignores it, so the steps do not carry it.
- `console.error` logging in the catch blocks: it has no effect on state or navigation.
- JSX rendering, styling, class names, `components/Hero.tsx` and `tailwind.config.ts`; the admin dashboard beyond its `requireAdmin={true}` guard.
- The header's scroll listener and `scrollY > 20` (DOM events and a float offset), `document.getElementById` (element existence is a boolean input) and `scrollIntoView` (the id scrolled to is an output).
- SiteHeader.Header: the pathname is fixed per instance. Navigating to a new pathname while keeping the menu flag is not modelled.
- StudentDashboard.ToUpper: models `toUpperCase` on ASCII letters only. Unicode case mapping, which can change a string's length, is not modelled.
- StudentDashboard.GetInitials: strings are modelled as sequences of Unicode scalar values, not of UTF-16 code units. For a name whose first character lies outside the Basic Multilingual Plane, `word[0]` and `substring(0, 2)` in the source take half of a surrogate pair, while the model takes the whole character.
- The placeholder figures of the student dashboard (random completion text, hard-coded progress, grades and deadlines): they are not computed from any data.
- The record types of `lib/types.ts` other than users, courses and enrolments (modules, materials, quizzes, exams, questions, options, attempts, progress): no modelled operation uses them.
- `AuthContext.Session` carries only an access token and its user; the rest of the service's session object is not used by the core.

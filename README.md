# Session and role-based access core of the PMS front end, in Dafny

This project models the part of the PMS-Frontend React application that decides who is signed
in and what they may see:

- the **session store** (`authSlice`): the signed-in user, a loading flag and an error message,
  with the user mirrored as JSON in `localStorage` under `userInfo`;
- the **UI preference store** (`uiSlice`): the dark-mode flag, mirrored under `darkMode`;
- the **route guard** (`ProtectedRoute`): anonymous visitors go to `/login`, signed-in users
  whose role is not on a route's allow-list go to `/dashboard`, everyone else sees the page;
- the **route table** (`AppRoutes`): which guards stand in front of which page, followed through
  `<Navigate>` redirects to the page finally shown;
- the **invite registration page**: token validation, the spinner / error / form choice, and
  registration, which establishes the session;
- the **profile page**: form pre-fill, the update payload, and storing the answer while keeping
  the token already held;
- the **signed-in shell** (`AdminLayout`): the role-dependent side menu, the user menu (profile or
  logout), the collapse button and the dark-mode switch.

Each of the modules `AuthSlice`, `UiSlice`, `ProtectedRoute`, `Routes`, `RegisterPage`,
`ProfilePage` and `AdminLayout` follows one source file of the same name. The supporting modules
model what those files use: `Users` the user record and its enumerations (lines 3-10 of
`authSlice.ts`), `UserJson` the `JSON.stringify`/`JSON.parse` of that record, `Storage` the
browser's `localStorage`, `Gateway` the answers of the HTTP service, and `Wrappers`/`JsValues`
the option and result types and the JavaScript truthiness, `||` and `toString` they rely on. The stores and pages keep their state in a class whose
methods change it in place (with `modifies` frames); each such method is proved to perform a
step function on values (`AfterSetCredentials`, `AfterToggle`, `AfterValidate`, …), and the
properties are proved as lemmas about those functions. `localStorage` is one shared
`LocalStorage` object holding a `map<string, string>`. Network calls are not made: each awaited
request becomes a method parameter of type `Response<T>` (`Resolved(data)` or
`Rejected(message?)`). The two submit handlers, which change the page before awaiting, are split
into the part before the request (`SubmitStart`) and the part that settles it (`SubmitSettle`);
the invite validation changes nothing before its request, so `ValidateToken` is one method that
takes the answer as a parameter. The register page's `token` query parameter is a field that
`TokenChanged` updates while the page stays mounted; validation then runs again on the new token. Navigation targets and toast
messages are returned as values.

`JSON.stringify`/`JSON.parse` of the stored user are modelled by a concrete codec (`UserJson`)
for a flat object of six string members, with `"` and `\` escaped; `ParseEncode` proves that
parsing what was stringified gives the same user back, which is all the stores rely on.

Behaviour of the code worth knowing, which the model keeps:

- an unreadable stored `userInfo` is not recovered as "anonymous": `JSON.parse` throws at start-up
  (`InitialState` returns `Err`);
- `setCredentials` validates nothing and notifies no one beyond the store itself;
- a present but empty `allowedRoles` list denies every signed-in user (`[]` is truthy in JavaScript);
- the profile update always replaces the answer's token with the token held before, even when the
  answer carries one;
- registering from a page whose invite was not validated is not refused by the page;
- re-running token validation does not reset the error, the invite or the spinner flag.

## Model

| member | source | states |
|---|---|---|
| `Users.RoleFromName` | src/store/authSlice.ts:7 | only the exact names ADMIN, MANAGER, STAFF are roles, and each role's name reads back as that role |
| `Users.StatusFromName` | src/store/authSlice.ts:8 | only ACTIVE and INACTIVE are statuses, and each reads back as itself |
| `Storage.GetItem` | src/store/authSlice.ts:19-20 | `getItem` is null exactly when the key is absent, and otherwise the stored text |
| `Storage.LocalStorage.SetItem` | src/store/authSlice.ts:32 | the key now holds the value; every other key is as before |
| `Storage.LocalStorage.RemoveItem` | src/store/authSlice.ts:36 | the key is gone; every other key is as before |
| `UserJson.Parse` | src/store/authSlice.ts:20 | `JSON.parse` yields the null user exactly for the text `null`; unreadable text throws |
| `UserJson.ReadEncodeMembers` | src/store/authSlice.ts:20-32 | reading back the stringified members, in order, gives each value and then exactly the text after them |
| `UserJson.DecodeEncode` | src/store/authSlice.ts:20-32 | reading back a stringified user gives every one of its members |
| `UserJson.Encode` | src/store/authSlice.ts:32 | `JSON.stringify` of the user: each member's key and quoted value in order; `DecodeEncode` proves it reads back |
| `UserJson.DecodeUser` | src/store/authSlice.ts:20 | `JSON.parse` of the stored object, failing on any other text; `DecodeEncode` proves it inverts `Encode` |
| `UserJson.ParseEncode` | src/store/authSlice.ts:19-32 | parsing the stringified user gives back exactly that user |
| `AuthSlice.InitialState` | src/store/authSlice.ts:18-24 | loading is off and error null; the user is null iff `userInfo` is absent, empty or `null`; otherwise it is the parsed stored value, and start-up fails exactly when the model's `JSON.parse` cannot read that text (see "Left out" for texts the browser reads but the model does not) |
| `AuthSlice.AfterSetCredentials` | src/store/authSlice.ts:30-33 | the user becomes exactly the payload, unchecked; loading and error stay; `userInfo` now parses back to the payload; no other key changes |
| `AuthSlice.AfterLogout` | src/store/authSlice.ts:34-37 | the user becomes null; loading and error stay; `userInfo` is removed and no other key changes |
| `AuthSlice.AfterSetLoading` | src/store/authSlice.ts:38-40 | only the loading flag changes; user, error and storage stay |
| `AuthSlice.AfterSetError` | src/store/authSlice.ts:41-43 | only the error changes; user, loading and storage stay |
| `AuthSlice.SetCredentialsSurvivesReload` | src/store/authSlice.ts:19-32 | after `setCredentials(p)` a fresh start derives the user `p`, loading off and no error |
| `AuthSlice.LogoutSurvivesReload` | src/store/authSlice.ts:19-36 | after `logout` a fresh start is anonymous |
| `AuthSlice.LogoutIdempotent` | src/store/authSlice.ts:34-37 | logging out twice leaves the same state and storage as once |
| `AuthSlice.LogoutAfterSetCredentials` | src/store/authSlice.ts:30-37 | logging out after setting credentials leaves what logging out alone leaves |
| `AuthSlice.AuthStore.constructor` | src/store/authSlice.ts:18-24 | the store starts in the state derived from storage |
| `AuthSlice.AuthStore.SetCredentials` | src/store/authSlice.ts:30-33 | memory and storage change exactly as `AfterSetCredentials` says |
| `AuthSlice.AuthStore.Logout` | src/store/authSlice.ts:34-37 | memory and storage change exactly as `AfterLogout` says |
| `AuthSlice.AuthStore.SetLoading` | src/store/authSlice.ts:38-40 | only the loading field changes |
| `AuthSlice.AuthStore.SetError` | src/store/authSlice.ts:41-43 | only the error field changes |
| `UiSlice.InitialDarkMode` | src/store/uiSlice.ts:8 | dark mode starts on iff the stored `darkMode` is exactly `true`; absent or any other text gives off |
| `JsValues.BoolToString` | src/store/uiSlice.ts:17 | `toString` of a boolean is `"true"` exactly for true |
| `UiSlice.AfterToggle` | src/store/uiSlice.ts:15-18 | the flag is negated, `darkMode` stores `true`/`false` matching it, a fresh start reads it back, and no other key changes |
| `UiSlice.ToggleTwice` | src/store/uiSlice.ts:16-17 | two toggles restore the flag, and storage then agrees with it |
| `UiSlice.TogglesSurviveReload` | src/store/uiSlice.ts:8-17 | after one or more toggles a fresh start reproduces the flag, which is the original flipped once per toggle |
| `UiSlice.UiStore.constructor` | src/store/uiSlice.ts:7-9 | the flag starts as derived from storage |
| `UiSlice.UiStore.ToggleDarkMode` | src/store/uiSlice.ts:15-18 | memory and storage change exactly as `AfterToggle` says |
| `ProtectedRoute.Decide` | src/components/ProtectedRoute.tsx:10-21 | login redirect iff no user; the outlet iff a user whose role is on the list, or no list is given; the dashboard redirect otherwise |
| `ProtectedRoute.EmptyAllowListDeniesAll` | src/components/ProtectedRoute.tsx:16 | a present but empty list sends every signed-in user to `/dashboard` |
| `ProtectedRoute.NoRoleHierarchy` | src/components/ProtectedRoute.tsx:16 | an ADMIN is refused a route that allows only MANAGER |
| `ProtectedRoute.OnlyRoleMatters` | src/components/ProtectedRoute.tsx:10-20 | two users with the same role get the same decision, whatever their name, e-mail, status or token |
| `ProtectedRoute.InactiveUserAdmitted` | src/components/ProtectedRoute.tsx:16-20 | an INACTIVE user whose role is allowed gets the outlet |
| `Routes.Match` | src/routes/index.tsx:14-35 | the matched entry belongs to the table and has the requested path |
| `Routes.MatchNone` | src/routes/index.tsx:14-35 | nothing matches exactly when no entry has the requested path |
| `Routes.MatchAt` | src/routes/index.tsx:14-35 | an entry is selected when no earlier entry has the same path |
| `Routes.RouteFor` | src/routes/index.tsx:14-35 | the route selected for a path is a table entry or the catch-all `*` |
| `Routes.TableEntry` | src/routes/index.tsx:16-31 | every path of the table selects its own entry |
| `Routes.RunGuards` | src/routes/index.tsx:20-29 | the nested `ProtectedRoute` elements, outermost first; `RunGuardsAll` and `GuardChains` state what they decide |
| `Routes.RunGuardsAll` | src/routes/index.tsx:20-29 | nested guards render the page iff every guard in the chain lets the user through |
| `Routes.GuardChains` | src/routes/index.tsx:20-27 | the outer guard alone stops only the anonymous; the admin chain stops the anonymous at login and non-admins at the dashboard |
| `Routes.Enter` | src/routes/index.tsx:20-35 | entering a route: its guards, then its element; `EnterMember`, `EnterWithConsent` and `ConsentOf` state the outcomes |
| `Routes.Step` | src/routes/index.tsx:14-38 | one navigation to a path; `StepTargets`, `StepDescends` and the per-path step lemmas state the outcomes |
| `Routes.NavigatesToDashboard` | src/routes/index.tsx:31-35 | every `<Navigate>` the router can select, the catch-all's included, points at `/dashboard` |
| `Routes.StepTargets` | src/routes/index.tsx:14-38 | one navigation redirects only to `/login` or `/dashboard` |
| `Routes.StepDescends` | src/routes/index.tsx:16-35 | every redirect moves towards `/login`: it never leaves `/login`, and from `/dashboard` it goes only to `/login` |
| `Routes.Resolve` | src/routes/index.tsx:14-38 | following redirects from any path ends on a rendered page after at most two redirects |
| `Routes.StepPublic` | src/routes/index.tsx:16-17 | navigating to `/login` or `/register` renders that page for anyone |
| `Routes.EnterMember` | src/routes/index.tsx:20-24 | a page behind the outer guard alone redirects the anonymous to `/login` and renders for every signed-in user |
| `Routes.StepMember` | src/routes/index.tsx:20-24 | navigating to `/dashboard`, `/projects` or `/profile` redirects the anonymous to `/login` and otherwise renders that page |
| `Routes.StepUsers` | src/routes/index.tsx:20-29 | navigating to `/users` redirects the anonymous to `/login`, non-admins to `/dashboard`, and renders for ADMIN |
| `Routes.StepRoot` | src/routes/index.tsx:20-31 | navigating to `/` redirects to `/login` when anonymous and to `/dashboard` otherwise |
| `Routes.PublicPages` | src/routes/index.tsx:16-17 | `/login` and `/register` render for anyone, without a redirect |
| `Routes.MemberPages` | src/routes/index.tsx:20-24 | `/dashboard`, `/projects` and `/profile` go to the login page when anonymous and render for every signed-in role |
| `Routes.UsersPageAccess` | src/routes/index.tsx:20-29 | `/users` sends the anonymous to login (outer guard first), MANAGER and STAFF to the dashboard, and renders for ADMIN |
| `Routes.RootRedirect` | src/routes/index.tsx:20-31 | `/` goes to the dashboard when signed in and to the login page when anonymous |
| `Routes.StepUnmatched` | src/routes/index.tsx:35 | a path outside the table falls to the catch-all, which redirects to `/dashboard` |
| `Routes.UnmatchedPath` | src/routes/index.tsx:35 | a path outside the table goes to `/dashboard`, and on to the login page when anonymous |
| `Routes.EnterWithConsent` | src/routes/index.tsx:16-31 | entering any table entry renders a protected page only for a signed-in user, and user management only for ADMIN |
| `Routes.ConsentOf` | src/routes/index.tsx:14-38 | the same holds for every route the router can select, the catch-all included |
| `Routes.RenderedOnlyWithConsent` | src/routes/index.tsx:20-29 | a protected page is rendered by a navigation only for a signed-in user, and user management only for ADMIN |
| `Routes.NoUnauthorisedPage` | src/routes/index.tsx:14-38 | from any path, redirects never end on a protected page for the anonymous, nor on user management for a non-admin |
| `Gateway.FailureText` | src/pages/RegisterPage.tsx:34 | the server's message when it is truthy, otherwise the fallback; never empty when the fallback is not |
| `RegisterPage.ValidationRequest` | src/pages/RegisterPage.tsx:24-31 | `validateInvite` is called iff the token is truthy, and then with that token |
| `RegisterPage.AfterValidate` | src/pages/RegisterPage.tsx:22-41 | validating ends in every case; no token sets the fixed message; success sets the invite and keeps the error; failure sets the server's message or the fallback and keeps the invite |
| `RegisterPage.ViewOf` | src/pages/RegisterPage.tsx:61-114 | spinner iff validating; else the error screen iff the error is truthy, showing it; else the form showing the invite's e-mail and role |
| `RegisterPage.ConfirmPasswordAccepts` | src/pages/RegisterPage.tsx:157-161 | a non-empty confirmation passes only when it equals the password; an empty or equal one passes |
| `RegisterPage.RegisterFormValid` | src/pages/RegisterPage.tsx:121-164 | the form's rules: a name, a password of at least six characters, and a non-empty confirmation the validator accepts; `ValidFormConfirmsPassword` states what they guarantee |
| `RegisterPage.ValidFormConfirmsPassword` | src/pages/RegisterPage.tsx:121-164 | a form that passes its rules submits a password of at least six characters equal to its confirmation |
| `RegisterPage.MissingTokenShowsError` | src/pages/RegisterPage.tsx:24-28 | without a truthy token no request is made and the page shows the fixed "No invite token provided" error |
| `RegisterPage.AcceptedTokenShowsForm` | src/pages/RegisterPage.tsx:30-32 | a freshly mounted page whose token is accepted shows the form with the invite's e-mail and role |
| `RegisterPage.RejectedTokenShowsError` | src/pages/RegisterPage.tsx:33-36 | a freshly mounted page whose token is rejected shows the server's reason or "Invalid or expired invite token." |
| `RegisterPage.StaleErrorPersists` | src/pages/RegisterPage.tsx:22-41 | an error from an earlier validation still hides the form after a later validation succeeds |
| `RegisterPage.RegistrationLandsOnDashboard` | src/pages/RegisterPage.tsx:51-53 | after registering, the user is the session and the `/dashboard` the page moves to renders the dashboard |
| `RegisterPage.RegisterPage.constructor` | src/pages/RegisterPage.tsx:13-17 | the page mounts validating, with no invite, no error and loading off |
| `RegisterPage.RegisterPage.TokenChanged` | src/pages/RegisterPage.tsx:12-13 | a new `token` query parameter replaces the token and leaves everything the page shows as it was |
| `RegisterPage.RegisterPage.ValidateToken` | src/pages/RegisterPage.tsx:22-41 | the effect for the current token, at mount or after `TokenChanged`: the request sent is `ValidationRequest(token)`, the token stays, and the state changes exactly as `AfterValidate` says |
| `RegisterPage.RegisterPage.SubmitStart` | src/pages/RegisterPage.tsx:43-50 | loading turns on and the request carries exactly the current token, the name and the password |
| `RegisterPage.RegisterPage.SubmitSettle` | src/pages/RegisterPage.tsx:51-58 | success stores the answer as the session, shows success and moves to `/dashboard`; failure leaves the session and shows the server's message or "Registration failed"; loading ends off and the token stays |
| `ProfilePage.Prefill` | src/pages/ProfilePage.tsx:17-24 | with a user, name and e-mail come from it; without one the form is untouched; password fields always stay |
| `ProfilePage.NewPasswordAccepts` | src/pages/ProfilePage.tsx:102 | an empty new password passes; a non-empty one passes only with at least six characters |
| `ProfilePage.ConfirmNewPasswordAccepts` | src/pages/ProfilePage.tsx:116-123 | passes when the confirmation or the new password is empty or they are equal; two non-empty values must match |
| `ProfilePage.IsPayloadFor` | src/pages/ProfilePage.tsx:29-36 | the payload for a form: its name and e-mail, and its new password exactly when one was typed |
| `ProfilePage.ProfileFormValid` | src/pages/ProfilePage.tsx:68-124 | the form's rules: a name, an e-mail, an optional new password of at least six characters and a confirmation the validator accepts |
| `ProfilePage.BuildPayload` | src/pages/ProfilePage.tsx:29-36 | the payload always has name and e-mail, and a password iff a new one was typed, of at least six characters on a valid form |
| `ProfilePage.KeepToken` | src/pages/ProfilePage.tsx:41-44 | the stored user is the answer in every field except the token, which is the one held before |
| `ProfilePage.SentPasswordConfirmed` | src/pages/ProfilePage.tsx:116-123 | on a valid form, a sent new password equals a non-empty confirmation |
| `ProfilePage.ConfirmationIgnoredWithoutNewPassword` | src/pages/ProfilePage.tsx:118 | a confirmation typed without a new password passes, and no password is sent |
| `ProfilePage.UpdateKeepsCredential` | src/pages/ProfilePage.tsx:40-44 | after an update a fresh start reads back the answer carrying the previously held token |
| `ProfilePage.ProfilePage.constructor` | src/pages/ProfilePage.tsx:12-14 | the page mounts with loading off |
| `ProfilePage.ProfilePage.PrefillEffect` | src/pages/ProfilePage.tsx:17-24 | the form changes exactly as `Prefill` says for the session user |
| `ProfilePage.ProfilePage.SubmitStart` | src/pages/ProfilePage.tsx:26-38 | loading turns on, the payload is built from the form, and the session user is captured |
| `ProfilePage.ProfilePage.SubmitSettle` | src/pages/ProfilePage.tsx:38-53 | success stores the answer with the held token and clears both new-password fields; failure leaves session and form and shows the server's message or "Failed to update profile"; loading ends off |
| `AdminLayout.MenuFor` | src/components/AdminLayout.tsx:38-57 | the menu starts with dashboard then projects, and has user management as a third entry iff the user is ADMIN |
| `AdminLayout.BuildMenuItems` | src/components/AdminLayout.tsx:38-57 | the pushed-onto array equals `MenuFor(user)` |
| `AdminLayout.MenuEntryRenders` | src/components/AdminLayout.tsx:98-103 | every side-menu entry shown to a signed-in user navigates to a path that renders its page without a redirect |
| `AdminLayout.UsersEntryIffAllowed` | src/components/AdminLayout.tsx:51-57 | user management is in the menu exactly when its route would render for the user |
| `AdminLayout.UserMenuAction` | src/components/AdminLayout.tsx:75-81 | the key `logout` logs out; any other key `k` navigates to `/k` |
| `AdminLayout.ProfileEntryOpensProfile` | src/components/AdminLayout.tsx:59-80 | the `profile` entry navigates to `/profile`, which renders the profile page of a signed-in user |
| `AdminLayout.LogoutEntryEndsOnLogin` | src/components/AdminLayout.tsx:33-36 | logging out leaves no user, and the `/login` it moves to renders the login page |
| `AdminLayout.LogoutLocksProtectedPages` | src/components/AdminLayout.tsx:33-36 | after logging out, no path leads to a protected page |
| `AdminLayout.AdminLayout.constructor` | src/components/AdminLayout.tsx:22 | the side menu starts expanded |
| `AdminLayout.AdminLayout.ToggleCollapsed` | src/components/AdminLayout.tsx:112 | the header button negates `collapsed` |
| `AdminLayout.AdminLayout.HandleLogout` | src/components/AdminLayout.tsx:33-36 | the session changes as `AfterLogout` says and the page moves to `/login` |
| `AdminLayout.AdminLayout.HandleUserMenuClick` | src/components/AdminLayout.tsx:75-81 | performs `UserMenuAction(key)`: logging out then moving to `/login`, or leaving the session and moving to its path |
| `AdminLayout.AdminLayout.DarkModeSwitched` | src/components/AdminLayout.tsx:121 | the switch performs exactly `toggleDarkMode` |

## Left out

- `AuthSlice.AuthStore.constructor`: requires the stored `userInfo` to be readable, because the source's `JSON.parse` throws while the store module loads and no store exists; `InitialState` models that failure as `Err`.
- `ProfilePage.ProfilePage.SubmitSettle`: requires the user captured at submit time to be present; the page is mounted only behind the sign-in guard, so `user?.token` never yields `undefined` there.
- `AuthSlice.InitialState`: a stored user whose `role` or `status` is not one of the enumerations' names (`"GUEST"`, say) is treated as unreadable, so start-up fails; the browser's `JSON.parse` reads such text and signs that user in (member pages open, `/users` stays closed). `Role` and `Status` hold only the named values, so the model cannot represent that user.
- JSON: only the stored shape (a flat object of the six user members, in that order) and the text `null` are read; other texts `JSON.parse` accepts (other shapes, white space, other escapes) are treated as unreadable, and the control-character escapes of `JSON.stringify` are not modelled.
- Route matching compares the exact path text; the router library's case-insensitive matching, trailing slashes and query strings are not modelled.
- `allowedRoles` holds roles, not arbitrary strings; a string that names no role could never match in the source either.
- Asynchrony: each awaited request is settled by a separate method call, so interleavings such as logging out while a profile update is in flight, and updates after a page unmounts, are not explored.
- Toasts and navigation are returned as values; rendering, Ant Design widgets, the theme and the `type: 'email'` rule (its pattern lives in the form library) are not modelled.
- The invite answer is typed `any` in the source; the model keeps the two members the page shows, `email` and `role`.
- An untouched form field (`undefined` in the source) is the empty string; both are falsy and compare equal in every rule used.
- The sign-in page, dashboard, project and user-management pages, `App.tsx` and the HTTP client are not part of this model: they only call the session reducers modelled here or fetch and display data.
- Storage failures (quota, disabled storage) and subscriber notification are not modelled; the source has neither.

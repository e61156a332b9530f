# WorkflowHub core, modelled in Dafny

WorkflowHub is a React dashboard backed by Supabase. Most of it is rendering. Under the
rendering sit a few sequential state machines and list and map operations, and this
project models those:

- the auth store (`AuthProvider`): session, user, profile and loading, updated by the
  session fetch at mount and by each auth-change event;
- the route table and the `ProtectedLayout` guard that sits in front of the four
  protected pages;
- the credential page: sign-in and sign-up mode, the submit handler and its message, and
  the redirect away once signed in;
- the dashboard's recent-activity window (at most five runs, newest first) and the static
  workflow catalog;
- the trigger form: a field-name to value map that starts at the field defaults, plus a
  submit that logs a run;
- the settings forms: ordered password checks, the profile update and the one-open
  accordion;
- the header's page title, display name and account menu;
- the Supabase client choice, and the fallback stub the app uses when it has no valid
  configuration.

Every backend answer is a parameter of the step that receives it: a session or none, a
profile or an error, an error or none. The random success draw of the trigger form is a
boolean parameter. Most asynchronous handlers are split at their `await` into a begin step
and a finish step, and each step is atomic. Three handlers are collapsed further. The
provider's mount fetch (`fetchSessionAndProfile`) awaits the session and then the profile,
and is one step, `AuthContext.AuthProvider.Mount`. The trigger form's submit shows its
response before it awaits the run insert, and its part after the wait is one step,
`TriggerWorkflowModal.TriggerForm.SubmitFinish`. The dashboard's activity effect opens
its insert channel before the load it starts has resolved, and the load and the
subscription are one step, `Dashboard.DashboardPage.RunActivityEffect`. Code that works by changing state step by step
becomes a class with `modifies` frames. Each class's methods are proved against pure
functions (`AuthContext.ResolveInitial`, `Dashboard.PushRecent`,
`TriggerWorkflowModal.InitialFormData`, `SettingsPage.Toggle`, …). The properties are then
proved about those functions as lemmas.

Modules, one per source file, plus shared ones:

| file | module | source |
|---|---|---|
| base.dfy | `Base` | Option/Result, JavaScript truthiness of an optional string, `startsWith` |
| types.dfy | `Types` | the entities of `src/types/index.ts` and the Supabase records used |
| supabase_client.dfy | `SupabaseClient` | `src/lib/supabaseClient.ts` |
| auth_context.dfy | `AuthContext` | `src/context/AuthContext.tsx` |
| protected_layout.dfy | `ProtectedLayout` | `src/components/ProtectedLayout.tsx` |
| app_routes.dfy | `AppRoutes` | `src/App.tsx` |
| auth_page.dfy | `AuthPage` | `src/app/auth/page.tsx` |
| dashboard.dfy | `Dashboard` | `src/app/page.tsx` |
| trigger_modal.dfy | `TriggerWorkflowModal` | `src/components/TriggerWorkflowModal.tsx` |
| settings_page.dfy | `SettingsPage` | `src/app/settings/page.tsx` |
| header.dfy | `Header` | `src/components/Header.tsx` |
| app_flows.dfy | `AppFlows` | properties spanning several components |

A profile row is keyed by its user's id: both fetches ask for `eq('id', user.id)`
(`src/context/AuthContext.tsx:36` and `:60`), so the profile the store holds is meant to
be the signed-in user's, and none when that user's fetch fails. The model follows the
code, which differs: both the mount fetch and the listener's fetch only log the error and
keep the previous profile (`src/context/AuthContext.tsx:39-43` and `:63-67`). `AuthContext.ApplyProfileFetch`,
`AuthContext.FetchErrorKeepsProfile` and the `AuthProvider` class state the code's
behaviour. The third row under "## Findings" shows what this allows: a profile kept
beside another identity's user. The intended handling is stated beside it
(`AuthContext.HistoryIntended`).

## Model

| member | source | states |
|---|---|---|
| SupabaseClient.IsValidConfig | src/lib/supabaseClient.ts:7 | a configuration is valid exactly when the URL is present and starts with `http`; the truthiness test adds nothing |
| SupabaseClient.SelectClient | src/lib/supabaseClient.ts:11-12 | the real client is chosen exactly when the config is valid and the anon key is truthy; otherwise the stub |
| SupabaseClient.AuthSurfaceAsWritten | src/lib/supabaseClient.ts:11-28 | the real client defines every auth method the application calls; the stub as written defines only signUp and signInWithPassword |
| SupabaseClient.StubCredentialCall | src/lib/supabaseClient.ts:19-27 | the stub's signUp and signInWithPassword return no user, no session and the fixed configuration error, whatever the credentials; the error is a plain object, not an `Error` instance |
| SupabaseClient.StubCredentialCallCorrected | src/lib/supabaseClient.ts:19-27 | the corrected stub answers the same, with the configuration error as an `Error` instance |
| SupabaseClient.StubGetSession | src/lib/supabaseClient.ts:24-28 | the corrected stub's getSession resolves to no session |
| SupabaseClient.StubTableCall | src/lib/supabaseClient.ts:30-35 | every stub select, insert, update or delete returns no data and the error `Supabase not configured` |
| AuthContext.UserOf | src/context/AuthContext.tsx:30 | `session?.user ?? null`: a user exactly when there is a session, and then the session's user |
| AuthContext.ApplyProfileFetch | src/context/AuthContext.tsx:39-43 | a fetched row becomes the profile; a fetch error keeps the previous profile |
| AuthContext.ResolveInitial | src/context/AuthContext.tsx:27-46 | the mount fetch stores the session and its user, fetches a profile only with a session, and always ends with loading false, also when the fetch fails |
| AuthContext.BeginAuthChange | src/context/AuthContext.tsx:51-71 | an event stores its session and user; with a session loading goes true for the fetch; without one the profile is cleared and loading ends false |
| AuthContext.CompleteAuthChange | src/context/AuthContext.tsx:57-71 | the fetch answer is applied to the profile and loading ends false; session and user stay |
| AuthContext.HandleAuthChange | src/context/AuthContext.tsx:51-72 | a whole event, from any state, leaves a consistent store (user mirrors the session, no profile without a session) with loading false; with a session the fetch is applied to the previous profile |
| AuthContext.HistorySettles | src/context/AuthContext.tsx:26-73 | after the mount fetch and any sequence of events, the store is consistent, not loading, and its user is the latest session's user |
| AuthContext.ProfileProvenance | src/context/AuthContext.tsx:32-70 | any profile the store holds was fetched after the most recent sign-out |
| AuthContext.FetchErrorKeepsProfile | src/context/AuthContext.tsx:63-67 | a listener fetch that fails leaves the profile that was there before the event |
| AuthContext.StaleProfileAsWritten | src/context/AuthContext.tsx:57-67 | as written, user A mounted with A's profile followed by B's sign-in with a failed fetch leaves B's user beside A's profile, although every fetch answered the id it asked for |
| AuthContext.ApplyProfileFetchIntended | src/context/AuthContext.tsx:39-43 | the intended fetch result: the row on success and no profile on failure |
| AuthContext.HandleAuthChangeIntended | src/context/AuthContext.tsx:51-72 | the intended whole event: consistent and settled, with the profile the fetch returned or none |
| AuthContext.ProfileBelongsToUserIntended | src/context/AuthContext.tsx:36-60 | with the intended handling, and fetches that answer the id asked for (`eq('id', user.id)`), any profile held has the id of the store's user |
| AuthContext.IntendedAgreesWithoutFetchErrors | src/context/AuthContext.tsx:32-67 | while every fetch succeeds, the intended store equals the store as written after any history |
| AuthContext.AuthProvider.constructor | src/context/AuthContext.tsx:21-24 | the provider starts with no session, user or profile and loading true |
| AuthContext.AuthProvider.Mount | src/context/AuthContext.tsx:26-50 | the mount effect performs `ResolveInitial` on the fields and subscribes to auth changes |
| AuthContext.AuthProvider.AuthChangeStart | src/context/AuthContext.tsx:51-56 | the listener's step before its await performs `BeginAuthChange` on the fields |
| AuthContext.AuthProvider.AuthChangeFinish | src/context/AuthContext.tsx:57-71 | the listener's step after its await performs `CompleteAuthChange` on the fields |
| AuthContext.AuthProvider.SignOut | src/context/AuthContext.tsx:80-83 | sign-out returns the backend's error and changes no field of the store |
| AuthContext.AuthProvider.Teardown | src/context/AuthContext.tsx:75-77 | unmount releases the listener subscription and leaves the store's state as it was |
| ProtectedLayout.Decide | src/components/ProtectedLayout.tsx:22-44 | loading shows the spinner whatever the user; not loading shows nothing without a user and the chrome with one; exactly one of the three applies |
| ProtectedLayout.Redirect | src/components/ProtectedLayout.tsx:16-20 | a redirect to `/auth` is issued exactly when the guard shows nothing, and never while loading |
| AppRoutes.Lookup | src/App.tsx:12-46 | a path resolves to the element of the first route with that path, and to nothing when no route has it |
| AppRoutes.Resolve | src/App.tsx:12-46 | `/auth` is bare, the four protected paths are guarded and map to their own pages, and no other path resolves |
| AppRoutes.GuardedPagesDistinct | src/App.tsx:18-42 | two different protected paths never show the same page |
| AppRoutes.Shown | src/App.tsx:13-45 | a protected path shows its own page exactly when the guard renders its chrome; `/auth` always shows the credential page; an undeclared path shows nothing |
| AuthPage.CallFor | src/app/auth/page.tsx:31-35 | sign-up mode calls signUp, sign-in mode calls signInWithPassword, with the typed email and password either way |
| AuthPage.Caught | src/app/auth/page.tsx:37-43 | the catch block receives the thrown value, or the response's error that the handler rethrows; nothing exactly when the call resolved without an error |
| AuthPage.ErrorText | src/app/auth/page.tsx:43-45 | a caught `Error` shows its own message; anything else shows the fixed fallback text |
| AuthPage.SubmitMessage | src/app/auth/page.tsx:37-45 | an error shows its text; only a successful sign-up that returned a user shows the success text; there is no message exactly when nothing was caught and it is not such a sign-up |
| AuthPage.Redirect | src/app/auth/page.tsx:18-22 | the page navigates to `/` exactly when the store is not loading and has a user |
| AuthPage.ShowsSpinner | src/app/auth/page.tsx:51-57 | the spinner replaces the form exactly while loading or signed in, so always when the page redirects |
| AuthPage.CredentialForm.constructor | src/app/auth/page.tsx:12-16 | the form starts in sign-in mode, empty, idle and without a message |
| AuthPage.CredentialForm.SetEmail | src/app/auth/page.tsx:84 | typing in the email field replaces the email only |
| AuthPage.CredentialForm.SetPassword | src/app/auth/page.tsx:95 | typing in the password field replaces the password only |
| AuthPage.CredentialForm.ToggleMode | src/app/auth/page.tsx:121 | the toggle flips the mode and clears the message; email and password stay |
| AuthPage.CredentialForm.SubmitStart | src/app/auth/page.tsx:24-35 | submit goes in flight, clears the message and issues the call for the current mode |
| AuthPage.CredentialForm.SubmitFinish | src/app/auth/page.tsx:36-48 | the outcome sets the message `SubmitMessage` gives, and the form is idle after every outcome |
| Dashboard.PushRecent | src/app/page.tsx:72 | an insert gives a window of length min(5, old + 1) whose head is the new run and whose tail is a prefix of the old window |
| Dashboard.InsertAllBounded | src/app/page.tsx:72 | after any number of inserts the window is never longer than max(5, its initial length) |
| Dashboard.InsertAllIsNewestFirst | src/app/page.tsx:60-72 | from a load of at most five runs, any inserts leave the newest min(5, total) runs: the inserted ones in reverse arrival order, then the loaded ones |
| Dashboard.ActivityView | src/app/page.tsx:123-137 | an empty window shows the empty-state text; otherwise one title per run, in the window's order |
| Dashboard.CatalogWellFormed | src/app/page.tsx:14-23 | the catalog has eight entries with pairwise-distinct titles, and each entry's field names are pairwise distinct |
| Dashboard.DashboardPage.constructor | src/app/page.tsx:46-47 | the page starts with an empty window and no open trigger form |
| Dashboard.DashboardPage.RunActivityEffect | src/app/page.tsx:51-79 | the effect loads only with a user; a successful load replaces the window, a failed one leaves it; the insert channel is open afterwards |
| Dashboard.DashboardPage.OnInsert | src/app/page.tsx:66-73 | an insert event sets the window to `PushRecent` of the new run and the old window |
| Dashboard.DashboardPage.RemoveChannel | src/app/page.tsx:76-78 | the effect's cleanup closes the insert channel |
| Dashboard.DashboardPage.SelectService | src/app/page.tsx:106 | clicking a catalog entry opens its trigger form |
| Dashboard.DashboardPage.CloseTriggerForm | src/app/page.tsx:145 | closing the trigger form unmounts it |
| TriggerWorkflowModal.FieldDefault | src/components/TriggerWorkflowModal.tsx:22 | a field's initial value is its default, or `''` when it has none |
| TriggerWorkflowModal.InitialFormData | src/components/TriggerWorkflowModal.tsx:20-26 | the initial form data has exactly the form's field names as keys |
| TriggerWorkflowModal.InitialFormDataDefaults | src/components/TriggerWorkflowModal.tsx:20-26 | with distinct field names, every field's name maps to that field's default |
| TriggerWorkflowModal.CatalogFormsStartAtDefaults | src/components/TriggerWorkflowModal.tsx:20-26 | every catalog entry's form opens with each field at its default |
| TriggerWorkflowModal.SubmitOutcome | src/components/TriggerWorkflowModal.tsx:45-67 | a successful draw shows the success text and logs a run for the user and title only when there is a user; a failed draw shows the failure text and logs nothing |
| TriggerWorkflowModal.TriggerForm.constructor | src/components/TriggerWorkflowModal.tsx:15-26 | the form opens idle, without a response, and with the initial form data of its entry |
| TriggerWorkflowModal.TriggerForm.ServiceChanged | src/components/TriggerWorkflowModal.tsx:20-26 | a new entry re-initialises the form data from its fields |
| TriggerWorkflowModal.TriggerForm.InputChange | src/components/TriggerWorkflowModal.tsx:28-34 | an input change sets the named key to the typed value; every other key keeps its value and none disappears |
| TriggerWorkflowModal.TriggerForm.SubmitStart | src/components/TriggerWorkflowModal.tsx:36-39 | submit goes in flight and clears the response |
| TriggerWorkflowModal.TriggerForm.SubmitFinish | src/components/TriggerWorkflowModal.tsx:41-70 | the response and the logged run are those of `SubmitOutcome`; an insert error changes neither; the form is idle after every outcome |
| TriggerWorkflowModal.TriggerForm.KeyDown | src/components/TriggerWorkflowModal.tsx:73-79 | the form closes exactly on the Escape key |
| SettingsPage.Toggle | src/app/settings/page.tsx:82 | clicking the open section closes it and clicking another opens that one, so at most one section is open |
| SettingsPage.PasswordProblem | src/app/settings/page.tsx:48-55 | a mismatch is reported before emptiness; there is no problem exactly when both entries agree and are non-empty |
| SettingsPage.SettingsForm.constructor | src/app/settings/page.tsx:10-18 | the page starts with the profile section open and both forms empty and idle |
| SettingsPage.SettingsForm.ToggleSection | src/app/settings/page.tsx:107 | a header click sets the open section to `Toggle` of the old one |
| SettingsPage.SettingsForm.ProfileChanged | src/app/settings/page.tsx:20-24 | the name field is overwritten only by a truthy `full_name`; otherwise it keeps what was typed |
| SettingsPage.SettingsForm.SetFullName | src/app/settings/page.tsx:87 | typing replaces the name field |
| SettingsPage.SettingsForm.SetNewPassword | src/app/settings/page.tsx:112 | typing replaces the new password |
| SettingsPage.SettingsForm.SetConfirmPassword | src/app/settings/page.tsx:116 | typing replaces the confirmation |
| SettingsPage.SettingsForm.ProfileSubmitStart | src/app/settings/page.tsx:26-36 | without a user nothing changes and nothing is sent; with one the form goes in flight and sends the typed name for that user's row |
| SettingsPage.SettingsForm.ProfileSubmitFinish | src/app/settings/page.tsx:38-43 | an error shows its text, success the fixed text; the form is idle afterwards |
| SettingsPage.SettingsForm.PasswordSubmitStart | src/app/settings/page.tsx:46-58 | nothing is sent exactly when `PasswordProblem` reports one, which is then shown; otherwise the new password is sent and the form goes in flight |
| SettingsPage.SettingsForm.PasswordSubmitFinish | src/app/settings/page.tsx:59-65 | success shows the fixed text and clears both entries; an error shows its text and keeps them; the form is idle afterwards |
| Header.PageTitle | src/components/Header.tsx:26-33 | `/` is the Dashboard by exact match only; the workflows, analytics and settings prefixes follow in that order; any other path is the product name |
| Header.TitlePrefixesDisjoint | src/components/Header.tsx:29-31 | no path has two of the three title prefixes, and a path below `/` is not the Dashboard |
| Header.DisplayName | src/components/Header.tsx:35 | the profile's name when truthy, otherwise the user's email |
| Header.AccountMenu.constructor | src/components/Header.tsx:12 | the menu starts closed |
| Header.AccountMenu.AvatarClick | src/components/Header.tsx:58 | an avatar click toggles the menu |
| Header.AccountMenu.MouseDown | src/components/Header.tsx:17-21 | a press outside the menu closes it; a press inside leaves it as it is |
| AppFlows.RedirectsAreComplementary | src/components/ProtectedLayout.tsx:16-20 | the guard's redirect and the credential page's redirect never both apply, and once loading has ended exactly one does |
| AppFlows.ProfileRefreshShowsSpinner | src/context/AuthContext.tsx:55-56 | while the listener fetches a profile, the guard shows its spinner and no protected page is shown |
| AppFlows.SignOutReachesCredentialPage | src/context/AuthContext.tsx:68-71 | after any history ending in a sign-out, the guard redirects to `/auth`, no profile is held, and the credential form is shown |
| AppFlows.SignInReachesProtectedPage | src/context/AuthContext.tsx:52-71 | after any history ending in a session, each protected path shows its own page and the credential page redirects to `/` |
| AppFlows.ProviderLifecycle | src/context/AuthContext.tsx:26-77 | running the provider's methods through mount, sign-out, sign-in and a failed fetch gives chrome, nothing, spinner, chrome |
| AppFlows.StubMountCallsMissingAsWritten | src/lib/supabaseClient.ts:25-28 | as written, the client chosen for an invalid configuration lacks both auth methods the provider calls on mount, and the chosen client has them exactly when it is the real one |
| AppFlows.StubStartupReachesCredentialForm | src/lib/supabaseClient.ts:24-28 | with the corrected stub, start-up settles with no user, the guard redirects to `/auth` and the credential form is shown |
| AppFlows.StubErrorHiddenAsWritten | src/lib/supabaseClient.ts:19-22 | as written, a credential call through the stub shows the generic fallback text, not the configuration message |
| AppFlows.StubErrorShownInForm | src/lib/supabaseClient.ts:19-27 | with the corrected stub error, any sign-in or sign-up shows the configuration message |

## Left out

- Supabase network I/O is not modelled: the auth calls, the profile select and update, updateUser, signOut, the `workflow_runs` select and insert and the realtime channel. Each answer is a parameter of the step that receives it.
- The initial activity query's `order('created_at', desc)` and `limit(5)` are requests to the backend. The rows it returns are a parameter, so the model does not check that they are the newest five. `Dashboard.InsertAllIsNewestFirst` assumes at most five loaded rows.
- Interleaving of asynchronous handlers is not modelled: the mount fetch racing the listener, overlapping profile fetches, state updates after unmount, and the activity load racing insert events (an insert that arrives before the load resolves is prepended and then overwritten by the loaded rows, which `Dashboard.DashboardPage.RunActivityEffect` as one step cannot express). Each step is atomic. `AuthProvider` excludes an auth-change event while a profile fetch is pending, through a ghost in-flight flag.
- `Math.random` is left out, both in `generateWebhookId` and in the trigger form's success draw. The draw's outcome is a boolean parameter. The webhook URL and the catalog icons are presentation and are not modelled.
- The trigger form's `setTimeout` delay is not modelled: time is not modelled, and the delay only postpones the finish step.
- `formatDistanceToNow` is not modelled: the activity list is modelled down to its titles.
- The chart options and the static stat cards are presentation constants and are left out.
- The checkbox branch of `handleInputChange` is left out, because no catalog field is a checkbox and every value is modelled as a string.
- The router's matching is modelled as exact path equality. Case-insensitive matching and trailing-slash tolerance are left out.
- `updated_at` is a clock reading, taken as the `now` parameter of `SettingsPage.SettingsForm.ProfileSubmitStart`.
- The settings page's sign-out button only calls `AuthContext.AuthProvider.SignOut`, and is not modelled apart from it.
- Rendering, markup and styling are not part of this model. `src/hooks/useAuth.ts`, a thin wrapper over the context, is not part of this model either.
- AppFlows.ProviderLifecycle is a client of the provider's methods and does not itself model a source function.

## Findings

| source | as written | input that shows it | evidently intended | confidence | as-written member | corrected member |
|---|---|---|---|---|---|---|
| src/lib/supabaseClient.ts:25-28 | the fallback client's `auth` object defines only `signUp` and `signInWithPassword`, but the provider's mount effect calls `getSession` and `onAuthStateChange` (src/context/AuthContext.tsx:28,50) | a missing `VITE_SUPABASE_URL`: mounting `AuthProvider` calls an undefined method, so the effect throws and `loading` never clears | the app runs with mock auth (the comment at line 18): `getSession` resolves to no session and the guard sends the visitor to `/auth` | medium, not executed | AppFlows.StubMountCallsMissingAsWritten | AppFlows.StubStartupReachesCredentialForm |
| src/lib/supabaseClient.ts:19-22 | the stub's error is a plain object, and the credential page shows an error's text only for an `Error` instance (src/app/auth/page.tsx:44) | once the first row is corrected so that the credential form is reached, any sign-in through the stub shows "An unexpected error occurred." | the form shows the configuration message the stub carries | high, not executed | AppFlows.StubErrorHiddenAsWritten | AppFlows.StubErrorShownInForm |
| src/context/AuthContext.tsx:63-67 | a failed profile fetch is only logged, and the previous profile is kept, also when the session now belongs to another user (likewise on mount, lines 39-43) | user A is signed in with a profile; user B, who has no `profiles` row yet, signs in from another tab and the single-row query fails: the store holds B's user with A's profile, and the header and settings show A's name | a failed fetch leaves no profile, so a held profile always belongs to the signed-in user | high, not executed | AuthContext.StaleProfileAsWritten | AuthContext.ProfileBelongsToUserIntended |

# Claims tracker core in Dafny

This project models the logic at the centre of a React front end for an insurance
claims tracker backed by a Supabase store. Claims move through five statuses:
pending, in review, approved, denied and archived. Agents and admins sign in, list
and filter claims, change one claim's status or many at once, share a claim with
another agent, and see status tallies on their dashboards.

There is one Dafny module per source file:

- `MockData`: the sample agent and claim tables and the queries over them: the
  status count, the per-agent filter, the recent-claims list, the id and e-mail
  lookups, and the fixed monthly trend.
- `UseClaims`: the stored claim row and the claim store. The store is a map from
  id to row whose writes can fail. The module also holds the two-stage list filter
  (tab, then case-insensitive search), the selection toggle, and the sequential bulk
  status update that stops at the first failed write.
- `AgentDashboard`: the reduce that tallies the fetched status strings, the page
  state that holds the tally, and the stat cards.
- `AppRoutes`: the `ProtectedRoute` decision, the role-to-dashboard mapping and
  the route table.
- `ClaimDetails`: the single-claim status change and the row-to-UI projection.
- `ShareClaimDialog`: the recipient list and the share action's guard and reset.
- `AuthContext`: the saved session, session restore, login, logout and `isAuthenticated`.
- `IntroGuide`: the tour's step counter, its dialog and the saved "seen" flag.
- `Settings`: the password change and its checks, the profile save into the
  profile store, preference defaults and button enablement.
- `NewClaim`: the form, its change handlers and the insert payload.
- `StatusBadge`: the status-to-label and status-to-colour maps.

`Seqs` holds the array `filter`/`find` operations and the subsequence and
no-duplicates predicates that state what they keep. `Wrappers` holds `Option`.

Component state that the source changes with setters is a class with those fields.
Each handler is a method whose `modifies` clause names what it changes. Pure
computations are functions. Where the source loops, the model is a method with loop
invariants, proved against a specification function. The properties are then lemmas
about that function.

Conventions:

- Dates and timestamps are integers that order as the dates do. Amounts are
  integer cents.
- The clock, the store's failures, the saved browser state and the parsers for
  numbers and dates are inputs to the operations.

Points where the model follows the code rather than its comments or stated intent:

- **The bulk update stops at the first failure.** `handleBulkAction` stops at the
  first write the store rejects. The writes before it stay applied, and the
  selection is kept. There is no per-id partial-success report.
- **A missing id is not an error.** A status write whose id matches no row is not
  an error for the store. The table is left unchanged, and the caller sees success.
- **No same-status guard.** Re-choosing a claim's current status still writes it
  and re-stamps `updated_at`.
- **The dashboard tally indexes its accumulator by the raw status string.** A row
  whose status is the literal `"total"` bumps `total` twice. Any other unknown
  string adds an undeclared key. The proved agreement between `total` and the
  buckets therefore assumes every status is one of the five literals.
- **A login whose session save throws answers false but stays signed in.** The
  agent is set as the current user before the session is written to storage, so
  the `catch` branch reports failure with the agent already signed in.
- **Dismissing the tour does not record it as seen.** Closing the dialog by escape
  or an outside click only hides it, so an unseen tour shows again on the next mount.
- **Role checks read a profile the session never provides.** The route guard and
  the claim page's Share button read a `userProfile` that `AuthContext` does not
  supply, and so does the settings page when it loads the name. In the running
  code the profile is therefore always absent: a role-restricted route renders for
  any signed-in user, the Share button never shows, and the settings name field
  never loads. The model takes the profile as an input, as the code reads it.

## Model

| member | source | states |
|---|---|---|
| MockData.ParseStatus | src/data/mockData.ts:10 | a string denotes a status exactly when it is that status's literal; both directions of the round trip |
| MockData.CountStatusPartition | src/data/mockData.ts:152-166 | the five per-status counts sum to the number of claims |
| MockData.SampleStatusCounts | src/data/mockData.ts:53-150 | the sample table holds two pending, two in-review, two approved, one denied and one archived claim |
| MockData.GetClaimStatusCount | src/data/mockData.ts:152-166 | each bucket equals the number of claims with that status, and the buckets sum to the table length |
| MockData.GetClaimsByAgent | src/data/mockData.ts:168-170 | the result keeps table order, adds nothing, and holds exactly the claims assigned to the agent, each as often as in the table |
| MockData.InsertByDate | src/data/mockData.ts:174 | inserting adds exactly that claim to the multiset of claims |
| MockData.InsertKeepsNewestFirst | src/data/mockData.ts:174 | inserting into a newest-first list keeps it newest first |
| MockData.SortByDateDesc | src/data/mockData.ts:173-174 | the sorted copy is a permutation of the table, non-increasing in update date, and stable: the claims of each date keep their table order |
| MockData.SliceEnd | src/data/mockData.ts:175 | `slice(0, limit)` ends at `min(limit, len)` for a non-negative limit and at `len + limit`, floored at 0, for a negative one |
| MockData.GetRecentClaims | src/data/mockData.ts:172-176 | length `min(limit, n)`; newest first; a sub-multiset of the table; no left-out claim is newer than any returned one; of each date, the earliest claims in table order are the ones kept |
| MockData.GetRecentClaimsDefault | src/data/mockData.ts:172-176 | with the default limit: the `min(5, n)` newest claims, newest first, drawn from the table, ties kept in table order |
| MockData.NewestFirstCons | src/data/mockData.ts:173-174 | a claim at least as recent as every claim of a newest-first list may go in front of it |
| MockData.InsertByDateDatedOn | src/data/mockData.ts:173-174 | an inserted claim goes ahead of every claim of its own date; the claims of each date otherwise keep their order |
| MockData.SortStable | src/data/mockData.ts:173-174 | inserting the table's head into a stable sort of its tail gives a stable sort of the table |
| MockData.PrefixDatedOn | src/data/mockData.ts:175 | a prefix of a list keeps, of each date, a prefix of that date's claims |
| MockData.RecentTieKeepsTableOrder | src/data/mockData.ts:172-176 | of two equally recent claims, a limit of one keeps the one earlier in the table |
| MockData.RecentIsTop | src/data/mockData.ts:174-175 | cutting a newest-first list leaves nothing in the tail newer than the kept part |
| MockData.GetClaimById | src/data/mockData.ts:178-180 | none exactly when no claim has the id; otherwise the first claim with it |
| MockData.GetAgentById | src/data/mockData.ts:182-184 | none exactly when no agent has the id; otherwise the first agent with it |
| MockData.GetAgentByEmail | src/data/mockData.ts:186-188 | none exactly when no agent has the e-mail; otherwise the first agent with it |
| MockData.GetAgentByIdFindsMember | src/data/mockData.ts:182-184 | when ids are distinct, looking up a table agent's id yields that agent |
| MockData.GetAgentByEmailFindsMember | src/data/mockData.ts:186-188 | when e-mails are distinct, looking up a table agent's e-mail yields that agent |
| MockData.GetMonthlyClaimsTrend | src/data/mockData.ts:190-200 | six fixed entries, May first and Oct last, months strictly increasing, whatever the claim data |
| MockData.SampleEmailsDistinct | src/data/mockData.ts:26-51 | no two sample agents share an e-mail |
| UseClaims.Restamp | src/hooks/useClaims.ts:93-96 | a status write sets the status and the update time and leaves every other field unchanged |
| UseClaims.WriteStatus | src/hooks/useClaims.ts:91-97 | a write changes only the row with that id; a missing id leaves the table as it was |
| UseClaims.WriteAllEffect | src/hooks/useClaims.ts:90-100 | after writes to a list of ids, a row is restamped iff its id is in the list; the key set is unchanged |
| UseClaims.FirstFailure | src/hooks/useClaims.ts:90-99 | the index of the first rejected id: all before it succeed, and it is rejected unless it is the end |
| UseClaims.ClaimStore.constructor | src/hooks/useClaims.ts:41-44 | the store starts with the given rows and the given rejected ids |
| UseClaims.ClaimStore.UpdateStatus | src/hooks/useClaims.ts:91-99 | a write succeeds iff the store accepts the id, and only then changes the table |
| UseClaims.ToLower | src/hooks/useClaims.ts:66-70 | lower-casing keeps the length and maps A-Z to a-z, leaving other characters as they are |
| UseClaims.OccursInTail | src/hooks/useClaims.ts:68-70 | away from index 0, an occurrence in a string is an occurrence in its tail |
| UseClaims.Includes | src/hooks/useClaims.ts:68-70 | `includes` holds iff the needle occurs at some index |
| UseClaims.FilterByTab | src/hooks/useClaims.ts:63 | the "all" tab removes nothing; a status tab keeps exactly the claims with that status, in order, each as often as in the input |
| UseClaims.FilterBySearch | src/hooks/useClaims.ts:64-71 | an empty term removes nothing; otherwise a claim stays iff the term occurs in its lowered name, policy number or present description, as often as in the input |
| UseClaims.FilteredClaims | src/hooks/useClaims.ts:62-72 | the shown list is a subsequence of the claims, and a claim is shown iff both stages keep it, then as often as in the claims |
| UseClaims.ToggleSelection | src/hooks/useClaims.ts:74-80 | a selected id is removed, every occurrence, with the others kept in order and multiplicity; an unselected one is appended; no duplicates arise |
| UseClaims.ToggleTwice | src/hooks/useClaims.ts:75-79 | two clicks restore the selection as a set, and restore the exact sequence when the id was not selected |
| UseClaims.ClaimsHook.constructor | src/hooks/useClaims.ts:26-30 | no claims, no selection, the "all" tab and an empty search term |
| UseClaims.ClaimsHook.Visible | src/hooks/useClaims.ts:62-72 | the list shown for the hook's current tab and term |
| UseClaims.ClaimsHook.HandleClaimSelect | src/hooks/useClaims.ts:74-80 | the selection becomes its toggle |
| UseClaims.ClaimsHook.HandleBulkAction | src/hooks/useClaims.ts:82-109 | an empty selection writes nothing; otherwise the ids up to the first rejected one are written in order; the selection is cleared only when all succeed |
| AgentDashboard.KeyOf | src/pages/AgentDashboard.tsx:52-53 | a status string addresses its own bucket iff it is a status literal, and the `total` field iff it is "total" |
| AgentDashboard.KeysOf | src/pages/AgentDashboard.tsx:51-53 | one addressed key per fetched row |
| AgentDashboard.TallyBuckets | src/pages/AgentDashboard.tsx:51-63 | each bucket counts exactly the rows whose status is its literal |
| AgentDashboard.TallyTotal | src/pages/AgentDashboard.tsx:51-63 | `total` is the number of rows plus the number of rows whose status is "total" |
| AgentDashboard.TallyBucketSum | src/pages/AgentDashboard.tsx:51-63 | the five buckets together count the rows that are status literals |
| AgentDashboard.TotalIsRowCount | src/pages/AgentDashboard.tsx:54 | without a "total" row, `total` equals the number of rows |
| AgentDashboard.BucketsCoverRows | src/pages/AgentDashboard.tsx:51-63 | when every row addresses a bucket, the buckets sum to the number of rows |
| AgentDashboard.AllKnownCounts | src/pages/AgentDashboard.tsx:52 | when every row is a status literal, there is no "total" row and every row addresses a bucket |
| AgentDashboard.TallyAllKnown | src/pages/AgentDashboard.tsx:51-63 | when every row is a status literal, `total` is the row count and equals the sum of the buckets |
| AgentDashboard.TallyStats | src/pages/AgentDashboard.tsx:51-63 | the reduce loop computes the tally of the fetched rows |
| AgentDashboard.AgentDashboardPage.constructor | src/pages/AgentDashboard.tsx:24-32 | all counts zero, loading on |
| AgentDashboard.AgentDashboardPage.FetchClaimStats | src/pages/AgentDashboard.tsx:41-73 | rows that arrive replace the stats with their tally; an error or null data keeps the old stats; loading ends off |
| AgentDashboard.StatCards | src/pages/AgentDashboard.tsx:75-81 | five cards: total, pending, in review, approved and denied, in that order, each with its own count; none for archived |
| AgentDashboard.ArchivedCountedNotShown | src/pages/AgentDashboard.tsx:51-81 | with status literals only, the total card is the row count and equals the four status cards plus the unshown archived count |
| AppRoutes.RoleDashboard | src/App.tsx:41 | admin goes to "/dashboard", any other role to "/agent-dashboard" |
| AppRoutes.ProtectedRoute | src/App.tsx:21-45 | loading first; unauthenticated to "/"; a listed-role mismatch with a profile to that role's dashboard; renders iff authenticated and unrestricted, profile-less or allowed |
| AppRoutes.DashboardRoute | src/App.tsx:51-54 | no profile goes to "/", a profile to its role's dashboard |
| AppRoutes.RouteTable | src/App.tsx:58-127 | "/" and the catch-all are the only unguarded routes; "/dashboard", "/new-claim" and "/agents" admit admins only, "/agent-dashboard" agents only, the rest any signed-in user |
| AppRoutes.Visit | src/App.tsx:58-127 | "/" and the catch-all render; every other route goes through the guard with its role list |
| AppRoutes.RoleRestrictedRoutes | src/App.tsx:63-116 | "/dashboard", "/new-claim" and "/agents" admit only admin, "/agent-dashboard" only agent; others are sent to their own dashboard |
| AppRoutes.RedirectNeverLoops | src/App.tsx:34-42 | the target of any redirect renders for the same session |
| AppRoutes.HomeReachesDashboard | src/App.tsx:61 | "/home" renders for a signed-in profile, and the dashboard it points to renders too |
| ClaimDetails.FormatClaim | src/pages/ClaimDetails.tsx:135-146 | a missing amount shows as 0 and a missing description as ""; policy number becomes claim number, owner becomes assignee |
| ClaimDetails.FormatAfterRestamp | src/pages/ClaimDetails.tsx:92-96 | after a status change the UI record differs only in status and update date |
| ClaimDetails.HeldRowFollowsStore | src/pages/ClaimDetails.tsx:81-96 | a held row equal to the stored row stays equal to it after a write at the same time |
| ClaimDetails.ActionsExcludePending | src/pages/ClaimDetails.tsx:229-258 | the buttons can set every status except pending |
| ClaimDetails.ClaimDetailsPage.constructor | src/pages/ClaimDetails.tsx:21-23 | the page holds the given claim, if any, with the share dialog closed |
| ClaimDetails.ShareButtonShown | src/pages/ClaimDetails.tsx:25-26 | the Share button is shown exactly for a profile whose role is agent |
| ClaimDetails.ClaimDetailsPage.PressShare | src/pages/ClaimDetails.tsx:211-216 | the share dialog opens only for an agent's profile; any other profile, or none, leaves it as it was |
| ClaimDetails.ClaimDetailsPage.CloseShareDialog | src/pages/ClaimDetails.tsx:287-291 | the dialog's close callback closes it |
| ClaimDetails.ClaimDetailsPage.HandleStatusChange | src/pages/ClaimDetails.tsx:77-103 | no claim: nothing happens; a rejected write changes nothing; an accepted one restamps the store row and the held row; no same-status guard |
| ShareClaimDialog.CandidateRecipients | src/components/ShareClaimDialog.tsx:57-58 | every agent except the claim's assignee, in table order and multiplicity; every agent when there is no claim |
| ShareClaimDialog.ShareDialog.constructor | src/components/ShareClaimDialog.tsx:17 | nothing selected |
| ShareClaimDialog.ShareDialog.SelectAgent | src/components/ShareClaimDialog.tsx:51 | the picked id becomes the selection |
| ShareClaimDialog.ShareDialog.HandleShare | src/components/ShareClaimDialog.tsx:19-31 | with nothing selected: error, no change; otherwise the first agent with the id, then the dialog closes and the selection resets |
| ShareClaimDialog.ShareDialog.Close | src/components/ShareClaimDialog.tsx:34-69 | cancelling or dismissing closes the dialog and keeps the picked agent selected |
| ShareClaimDialog.SampleIdsDistinct | src/data/mockData.ts:26-51 | no two sample agents share an id |
| ShareClaimDialog.PickedCandidateResolves | src/components/ShareClaimDialog.tsx:25-58 | an offered agent resolves back to itself and is not the assignee |
| AuthContext.AuthProvider.constructor | src/context/AuthContext.tsx:15-18 | nobody signed in, loading on, the saved session as found |
| AuthContext.AuthProvider.IsAuthenticated | src/context/AuthContext.tsx:65 | true exactly when an agent is signed in |
| AuthContext.AuthProvider.RestoreSession | src/context/AuthContext.tsx:20-27 | a saved agent becomes the current user; without one the user is kept; loading ends |
| AuthContext.AuthProvider.Login | src/context/AuthContext.tsx:29-52 | a known e-mail signs its agent in, whatever the password; the answer is true iff the e-mail is known and saving the session does not throw, so a throwing save answers false with the agent signed in; an unknown e-mail keeps the user; the saved session changes only on success; loading ends off |
| AuthContext.AuthProvider.Logout | src/context/AuthContext.tsx:54-58 | nobody is signed in, `isAuthenticated` is false and the saved session is removed |
| AuthContext.LoginThenRestart | src/context/AuthContext.tsx:19-40 | a successful login's saved session signs the same agent in on the next start; after an unknown e-mail the next start finds nobody |
| AuthContext.LoginResolvesOwnAgent | src/context/AuthContext.tsx:35-38 | each sample agent signs in as itself, and a login only ever yields a table agent with that e-mail |
| IntroGuide.Ended | src/components/IntroGuide.tsx:78-82 | the tour is hidden and recorded as seen; the step is kept |
| IntroGuide.Step | src/components/IntroGuide.tsx:59-82 | start resets to step 0 and shows; next advances or at the last step ends; previous steps back only above 0; end hides and records; dismissing hides without recording |
| IntroGuide.DismissLeavesTourUnseen | src/components/IntroGuide.tsx:78-100 | closing the dialog by dismissal hides an unseen tour but leaves it unseen, where ending it records it as seen |
| IntroGuide.TourStaysInRange | src/components/IntroGuide.tsx:59-82 | from an in-range step, any series of actions keeps the step in range |
| IntroGuide.NextWalksTheTour | src/components/IntroGuide.tsx:64-70 | k presses of next from step 0 reach step k; one more moves on or, at the last step, ends the tour |
| IntroGuide.RunTourSnoc | src/components/IntroGuide.tsx:59-82 | one more action at the end of a series is one more step from where it ended |
| IntroGuide.PrevUndoesNext | src/components/IntroGuide.tsx:64-76 | below the last step, previous undoes next |
| IntroGuide.IntroGuide.constructor | src/components/IntroGuide.tsx:16-18 | hidden, step 0, no steps |
| IntroGuide.IntroGuide.Mount | src/components/IntroGuide.tsx:20-57 | the four steps are installed; the delayed showing is scheduled iff the tour was not seen |
| IntroGuide.IntroGuide.ShowAfterDelay | src/components/IntroGuide.tsx:25-27 | the tour is shown |
| IntroGuide.IntroGuide.StartTour | src/components/IntroGuide.tsx:59-62 | as `Step` with start; the step stays in range |
| IntroGuide.IntroGuide.NextStep | src/components/IntroGuide.tsx:64-70 | as `Step` with next; the step stays in range |
| IntroGuide.IntroGuide.PrevStep | src/components/IntroGuide.tsx:72-76 | as `Step` with previous; the step stays in range |
| IntroGuide.IntroGuide.EndTour | src/components/IntroGuide.tsx:78-82 | as `Step` with end; the step stays in range |
| IntroGuide.IntroGuide.OnOpenChange | src/components/IntroGuide.tsx:100 | opening shows the tour; closing is `Step` with dismiss; the step stays in range |
| IntroGuide.IntroGuide.ResetTutorial | src/components/IntroGuide.tsx:84-87 | the tour is no longer recorded as seen |
| Settings.PreferencesFrom | src/pages/Settings.tsx:38-39 | missing fields default to notifications on and dark mode off; a stored false is kept |
| Settings.PreferencesRoundTrip | src/pages/Settings.tsx:38-48 | saved preferences read back as saved |
| Settings.WriteName | src/pages/Settings.tsx:57-60 | a name write replaces that id's name and no other, and adds no row |
| Settings.ProfileStore.constructor | src/pages/Settings.tsx:57-60 | the store starts with the given names and rejected ids |
| Settings.ProfileStore.UpdateName | src/pages/Settings.tsx:57-62 | a write succeeds iff the store accepts the id, and only then changes the names |
| Settings.SettingsPage.constructor | src/pages/Settings.tsx:17-23 | empty fields, not loading, notifications on, dark mode off |
| Settings.SettingsPage.Load | src/pages/Settings.tsx:25-41 | the user's e-mail, the profile's name and the stored preferences replace the fields when present |
| Settings.SettingsPage.SavePreferences | src/pages/Settings.tsx:43-50 | the stored record reads back as the current preferences |
| Settings.SettingsPage.UpdateProfile | src/pages/Settings.tsx:52-70 | nothing without a user; otherwise the page's name is written to that user's profile row, which succeeds iff the store accepts the id and changes nothing else; loading off afterwards |
| Settings.SettingsPage.UpdatePassword | src/pages/Settings.tsx:72-99 | mismatch reported before length; rejections call nothing and change nothing; the entries clear only on success, which disables the button again; loading ends off |
| Settings.SettingsPage.SaveProfileDisabled | src/pages/Settings.tsx:150 | the save button is enabled exactly when no call runs and the name is non-empty |
| Settings.SettingsPage.UpdatePasswordDisabled | src/pages/Settings.tsx:191 | disabled exactly when a call runs or either entry is empty: an idle page enables it for every non-empty pair, including mismatched and too-short ones that the handler rejects |
| NewClaim.InitialForm | src/pages/NewClaim.tsx:20-29 | every text field empty, status pending |
| NewClaim.WithField | src/pages/NewClaim.tsx:31-37 | only the named field changes, to the typed value |
| NewClaim.WithFieldLaws | src/pages/NewClaim.tsx:31-37 | the later of two writes wins; writing back a field's own value changes nothing |
| NewClaim.BuildPayload | src/pages/NewClaim.tsx:52-62 | the owner is the user, text copied as typed, empty date and amount sent as null, others parsed |
| NewClaim.UntouchedFormPayload | src/pages/NewClaim.tsx:20-62 | the untouched form sends a pending claim with null date and amount |
| NewClaim.NewClaimPage.constructor | src/pages/NewClaim.tsx:19-29 | the initial form, not submitting |
| NewClaim.NewClaimPage.HandleChange | src/pages/NewClaim.tsx:31-37 | the form becomes its one-field update |
| NewClaim.NewClaimPage.SelectStatus | src/pages/NewClaim.tsx:39-44 | only the status changes |
| NewClaim.NewClaimPage.HandleSubmit | src/pages/NewClaim.tsx:46-76 | nothing without a user; otherwise the payload is sent once and submitting ends off |
| StatusBadge.StatusLabel | src/components/StatusBadge.tsx:13-37 | no status is labelled "Unknown" |
| StatusBadge.StatusClasses | src/components/StatusBadge.tsx:13-42 | archived is the only status shown in the fallback grey |
| StatusBadge.ClassesDistinct | src/components/StatusBadge.tsx:13-37 | the colour classes are pairwise distinct |
| StatusBadge.GetStatusConfig | src/components/StatusBadge.tsx:11-44 | a status literal gets its own label and classes; anything else is "Unknown", grey |
| StatusBadge.LabelsDistinct | src/components/StatusBadge.tsx:13-37 | the labels are pairwise distinct |
| StatusBadge.BadgeOfStatus | src/components/StatusBadge.tsx:12-37 | each status's literal shows that status's label, never "Unknown" |

## Left out

- Supabase I/O. Fetching, inserts, ordering by `updated_at` and the refetch after a bulk update are the store's work. The store is a map whose writes can fail for a set of ids.
- Toasts, console output and `navigate` are browser side effects. Of the browser's storage, the saved session and the tour's "seen" flag are fields of their classes; the saved preferences arrive as an input and leave as a result.
- The realtime sharing subscription is concurrent I/O. The share action only announces the recipient and persists nothing, so no share table is modelled.
- `parseFloat` and `new Date(...)` are foreign. They are function parameters; amounts are integer cents and dates integers.
- UseClaims.ToLower: lowercases ASCII letters only, where `toLowerCase` covers all of Unicode.
- UseClaims.ToLower: counts characters, where JavaScript `.length` and `includes` work on UTF-16 code units.
- Settings.SettingsPage.UpdatePassword: counts characters, where `.length` counts UTF-16 code units.
- UseClaims.ClaimsHook.HandleBulkAction: uses one timestamp for every write, because the clock is an input; the source reads the clock once per write.
- `getRecentClaims` sorts a copy. The model's functions never change their input, so the table's order is unaffected by construction.
- The `documents: []` field of the UI claim record is not modelled. It is always empty there.
- The `userProfile` that the route guard, the claim page's Share button and the settings page's name field read is an input to them. The session module does not supply one; the roles it would carry are the two of the agent record.
- Settings.SettingsPage.Load: the stored preferences are a record with optional fields, so a corrupt entry that makes `JSON.parse` throw, or a stored `null` whose field reads throw, is not modelled.
- AuthContext.AuthProvider.RestoreSession: the saved session is an agent or nothing, so a corrupt entry that makes `JSON.parse` throw is not modelled.
- UseClaims.FilterBySearch: the claimant name and policy number are strings, as the row type declares them, so the `?.` guards on them never fire; only the description can be absent.
- Event handlers are atomic steps. A handler that awaits the store can interleave with other events in the source; for example, a toggle made during a bulk update is wiped by the final clear of the selection. The model does not capture such interleavings, and the `isLoading` and `isSubmitting` states are never observed true between steps.
- AgentDashboard.StatCards: the cards' colour classes are not modelled.
- Rendering, the loading views and the Claim Not Found view are not modelled. They are output, not state.

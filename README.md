# StreamHub core rules in Dafny

StreamHub is a credit-based streaming storefront with a task list. The React
views send their queries straight to a hosted database. This project models
the sequential rules inside that glue code and proves properties about them:

- **Credit-gated watching** (`src/components/StreamingApp.tsx`).
  - A channel or content watch goes ahead only when a subscription is loaded and its balance covers the item's cost.
  - On success the view appends a watch-history row, writes the decremented balance and decrements its local snapshot.
  - The catalog filters search channels by name and content by tab or title. The header badge shows the balance.
- **Sign-up provisioning** (`src/hooks/useAuth.ts`). After the account directory creates an account, sign-up:
  1. gets or creates the organization with slug `default`;
  2. inserts the user row;
  3. finds the chosen plan by its capitalised name, or else creates the Free/Basic/Premium tiers and picks one;
  4. inserts an active subscription whose balance and monthly limit are the tier's credits.

  The first failing request aborts the remaining steps. `signOut` and `isAuthenticated` are modelled too.
- **Task list** (`src/components/TaskList.tsx`): the blank-title guard of the add form and its field reset, the toggle request, the completion count and the progress bar.

The hosted database is an in-memory value, `Store.Database`. The class
`Store.CatalogStore` holds it and gives one method per request. Whether the
store performs a write, or the account directory accepts a request, is an
input to the operation: `accepted` on each write and `rejects` for sign-up.
Whether the streaming view's subscription load fails is an input too
(`loadFailed`). A failed load yields no data, which the view stores as its
subscription, so it is left without one. The two sign-up lookups (the default
organization and the plan by name) are modelled as always answering; see
"Left out". New row ids come from a counter in the store (`Store.MintId`), are
never empty, and differ for different counter values.

Files:

- `seqs.dfy`: `Filter`, the subsequence relation, `Sum`.
- `text.dfy`: ASCII `toLowerCase`, first-letter capitalisation, JavaScript `trim` and `includes`.
- `store.dfy`: row types, the database value and the store class.
- `catalog.dfy`: the catalog filters and the credit badge.
- `entitlement.dfy`: the watch rule and the streaming view.
- `provisioning.dfy`: the sign-up specification and the authentication hook.
- `tasks.dfy`: the task list.
- `session.dfy`: how sign-up and the streaming view meet.

JavaScript behaviours the model spells out:

- `(subscription.id || 0) + cost` concatenates strings when the id is a non-empty string. It adds numbers only when the id is empty, because an empty string is falsy.
- `.maybeSingle()` yields a row only when exactly one row matches. Zero rows and several rows both give nothing.
- `find(...)?.id || createdPlans[0]?.id || ''` falls through on an empty id.
- `trim` removes exactly the ECMAScript WhiteSpace and LineTerminator code points.

The view renders `filteredChannels` on the channels tab and `filteredContent`
only on the movies and series tabs (`src/components/StreamingApp.tsx:214-277`).
The title-search branch of `filteredContent` therefore never reaches the
screen, and the search box never changes the content the user sees:
`Catalog.TypeTabsIgnoreQuery` proves that the query has no effect on the two
tabs that show content.

A sign-up with a plan id that names no tier, such as `gold`, looks up
`Gold` and finds nothing, so it inserts the three tier plans and subscribes
to the new Free plan, but with a balance of 200. On the first sign-up into an
organization without plans, with at most one organization whose slug is
`default`, that set is the only one: no name is duplicated, and later
sign-ups that pick a tier find their plans and create none
(`Provisioning.SecondSignUpCreatesNothingShared`). When the organization
already has the tiers, the same sign-up inserts a second set. From then on
the duplicated tier names make `.maybeSingle()` find nothing for any tier, so
every later sign-up creates yet another set. The model reproduces this as
written.

## Model

| member | source | states |
|---|---|---|
| Text.Lower | src/components/StreamingApp.tsx:126 | `toLowerCase` (ASCII) keeps the length, leaves no upper-case letter, changes no character other than A–Z, and maps each A–Z letter to its own lower-case letter (upper-casing the result gives the upper-cased input) |
| Text.Capitalize | src/hooks/useAuth.ts:112 | upper-cases only the first character (the empty string stays empty) and agrees with the input once lower-cased |
| Text.Trim | src/components/TaskList.tsx:18 | `trim()` is the input with a whitespace-only prefix and a whitespace-only suffix removed; it is empty exactly when every character is whitespace, and otherwise starts and ends with non-whitespace |
| Text.TrimStart | src/components/TaskList.tsx:18 | the suffix left after leading whitespace: everything dropped is whitespace and the result does not start with whitespace |
| Text.TrimEnd | src/components/TaskList.tsx:18 | the prefix left after trailing whitespace: everything dropped is whitespace and the result does not end with whitespace |
| Text.Contains | src/components/StreamingApp.tsx:126 | `includes` holds exactly when the needle occurs at some position of the haystack |
| Text.ContainsEmpty | src/components/StreamingApp.tsx:126 | the empty query occurs in every string |
| Seqs.Filter | src/components/StreamingApp.tsx:125-133 | `filter` is no longer than its input and keeps only elements satisfying the predicate |
| Seqs.FilterCounts | src/components/StreamingApp.tsx:125-133 | `filter` keeps nothing its input did not contain, and each element satisfying the predicate as many times as the input has it |
| Seqs.FilterIsSubsequence | src/components/StreamingApp.tsx:125-133 | `filter` keeps the original order: its result is a subsequence of the input |
| Seqs.FilterConcat | src/components/TaskList.tsx:35 | filtering distributes over concatenation |
| Seqs.FilterKeepsAll | src/components/StreamingApp.tsx:125-127 | a predicate every element meets keeps the whole list |
| Seqs.FilterNone | src/hooks/useAuth.ts:108-113 | a predicate no element meets keeps nothing |
| Seqs.FilterAgrees | src/components/StreamingApp.tsx:129-133 | predicates that agree on the list filter it identically |
| Store.MintId | src/hooks/useAuth.ts:88-91 | an id the store creates is never empty |
| Store.DigitsInjective | src/hooks/useAuth.ts:88-91 | different counter values are written with different decimal digits |
| Store.MintIdInjective | src/hooks/useAuth.ts:88-91 | two minted ids are equal exactly when they come from the same counter value, so rows minted from different counter values get different ids |
| Store.MaybeSingle | src/components/StreamingApp.tsx:49 | `.maybeSingle()` yields a row exactly when one row matches, and then that row |
| Store.DefaultOrganization | src/hooks/useAuth.ts:71-75 | the default-organization lookup finds one exactly when a single organization has slug `default`, and then it is that organization |
| Store.FindPlan | src/hooks/useAuth.ts:108-113 | a plan the lookup finds belongs to the organization, has the name and is in the table |
| Store.FindPlanNeedsOneMatch | src/hooks/useAuth.ts:108-113 | the plan lookup finds a plan exactly when a single plan of the organization has the name |
| Store.AddDefaultOrganization | src/hooks/useAuth.ts:80-89 | the organization insert appends one organization named `StreamHub Default` with slug `default` and the id minted from the store's counter, and touches no other table |
| Store.TierPlans | src/hooks/useAuth.ts:119-128 | exactly three plans for the organization, in order Free with 10 credits, Basic with 50 and Premium with 200, with non-empty, pairwise different ids |
| Store.AddTierPlans | src/hooks/useAuth.ts:130-133 | the plans insert appends exactly the three tiers and touches no other table |
| Store.AddSubscription | src/hooks/useAuth.ts:140-149 | the subscription insert appends one active row whose balance equals its monthly limit, and touches no other table |
| Store.UpdateSubscriptions | src/components/StreamingApp.tsx:89-95 | the update by id rewrites the balance (and `monthly_credits_used` when given) of the rows with that id, and leaves every other row as it was |
| Store.CatalogStore.InsertDefaultOrganization | src/hooks/useAuth.ts:80-91 | an accepted insert adds the organization and returns its id; a rejected one changes nothing and returns no id |
| Store.CatalogStore.SelectDefaultOrganization | src/hooks/useAuth.ts:71-75 | the lookup returns the default organization the database holds, as `Store.DefaultOrganization` defines it, and writes nothing |
| Store.CatalogStore.InsertUser | src/hooks/useAuth.ts:95-104 | an accepted insert appends the user row and touches nothing else; a rejected one changes nothing |
| Store.CatalogStore.SelectPlan | src/hooks/useAuth.ts:108-113 | the lookup returns the plan `Store.FindPlan` finds for the organization and name, and writes nothing |
| Store.CatalogStore.InsertSubscription | src/hooks/useAuth.ts:140-151 | an accepted insert appends the active subscription row; a rejected one changes nothing |
| Store.CatalogStore.InsertWatchRecord | src/components/StreamingApp.tsx:80-86 | an accepted insert appends the watch-history row and touches nothing else; a rejected one changes nothing |
| Store.CatalogStore.UpdateSubscription | src/components/StreamingApp.tsx:89-95 | an accepted update rewrites the rows with the id as `Store.UpdateSubscriptions` says and touches no other table; a rejected one changes nothing |
| Store.CatalogStore.InsertTierPlans | src/hooks/useAuth.ts:130-135 | an accepted insert adds the three tiers and returns the created rows; a rejected one changes nothing |
| Catalog.MatchesQuery | src/components/StreamingApp.tsx:126 | the empty query matches every text, and a matching query is no longer than the text |
| Catalog.ContentShown | src/components/StreamingApp.tsx:130-132 | on the channels tab (the third branch of `filteredContent`) the empty query keeps every item, and a kept item's title is at least as long as the query |
| Catalog.FilteredChannels | src/components/StreamingApp.tsx:125-127 | exactly the channels whose lower-cased name contains the lower-cased query, in their original order and with their multiplicities |
| Catalog.FilteredContent | src/components/StreamingApp.tsx:129-133 | on the movies tab exactly the movies, on the series tab exactly the series, on the channels tab exactly the items whose title contains the query; order and multiplicities kept |
| Catalog.EmptyQueryKeepsAllChannels | src/components/StreamingApp.tsx:125-127 | an empty search keeps every channel |
| Catalog.ChannelSearchIgnoresQueryCase | src/components/StreamingApp.tsx:126 | lower-casing the query does not change the channels shown |
| Catalog.TypeTabsIgnoreQuery | src/components/StreamingApp.tsx:130-131 | on the movies and series tabs the query has no effect |
| Catalog.CreditBadge | src/components/StreamingApp.tsx:158 | the badge shows 0 without a subscription and the balance otherwise |
| Entitlement.Permits | src/components/StreamingApp.tsx:78 | no watch is permitted without a subscription, and a permitted one leaves a non-negative balance |
| Entitlement.WatchStep | src/components/StreamingApp.tsx:78-97 | a refused watch leaves the snapshot as it was; an accepted one keeps the id and leaves the balance less the cost, never negative |
| Entitlement.UsedAfterChannelWatch | src/components/StreamingApp.tsx:93 | `(id || 0) + cost` is the number `cost` exactly when the id is empty, and otherwise the id's text followed by the cost |
| Entitlement.LoadSubscription | src/components/StreamingApp.tsx:44-51 | the view loads a snapshot exactly when the user has one active subscription, and then takes that row's id and balance |
| Entitlement.Replay | src/components/StreamingApp.tsx:77-123 | over a session of watch attempts a loaded subscription stays loaded and keeps its id |
| Entitlement.Accepted | src/components/StreamingApp.tsx:77-123 | the accepted costs are no more than the attempts, and each is the cost of some attempt |
| Entitlement.ReplaySnoc | src/components/StreamingApp.tsx:77-123 | a session with one more attempt is the same session followed by one watch step |
| Entitlement.ReplayWithoutSubscription | src/components/StreamingApp.tsx:77-123 | without a subscription every watch in a session is refused |
| Entitlement.ReplayBalance | src/components/StreamingApp.tsx:77-123 | over any session the balance is the loaded balance minus the sum of the accepted costs, and nothing else in the snapshot changes |
| Entitlement.ReplayNeverNegative | src/components/StreamingApp.tsx:77-123 | from a non-negative balance, the balance stays non-negative whatever the costs |
| Entitlement.AcceptedWithinBalance | src/components/StreamingApp.tsx:77-123 | from a non-negative loaded balance, the accepted costs never add up to more than that balance, and with non-negative costs they add up to at least 0 |
| Entitlement.StreamingView.constructor | src/components/StreamingApp.tsx:39-51 | the view starts with no attempts and with the snapshot the load gives: none when the load fails, otherwise the user's single active subscription if there is one |
| Entitlement.StreamingView.WatchChannel | src/components/StreamingApp.tsx:77-100 | a refused channel watch writes nothing; an accepted one appends one history row (user, channel, cost) if the store takes it, writes the new balance and the concatenated `monthly_credits_used` to the subscription row if the store takes it, changes nothing else in the store, and decrements the snapshot either way |
| Entitlement.StreamingView.WatchContent | src/components/StreamingApp.tsx:102-123 | the same guard, history row and decrement for content; the update writes only the balance |
| Entitlement.SessionBadge | src/components/StreamingApp.tsx:158 | after any session the badge shows 0 without a subscription, and otherwise the loaded balance minus the accepted costs, which is non-negative when the loaded balance is |
| Provisioning.TierCredits | src/hooks/useAuth.ts:147-148 | 10 exactly for `free`, 50 exactly for `basic`, 200 for every other plan id |
| Provisioning.PlanName | src/hooks/useAuth.ts:112 | the looked-up plan name is the plan id with its first character upper-cased and the rest unchanged, so it has the id's length and agrees with it once lower-cased |
| Provisioning.TierPlanNames | src/hooks/useAuth.ts:112 | `free`, `basic` and `premium` look up `Free`, `Basic` and `Premium` |
| Provisioning.FirstNamed | src/hooks/useAuth.ts:136 | `find` returns the first created plan whose lower-cased name is the plan id, and nothing exactly when no plan has that name |
| Provisioning.ChoosePlan | src/hooks/useAuth.ts:136 | the chosen id is the found plan's id when it is non-empty; when no plan is found, or the found plan's id is empty, it is the first created plan's id, else `''`; a non-empty choice is a created plan's id |
| Provisioning.ChosenTier | src/hooks/useAuth.ts:119-136 | among created tiers a tier plan id picks its own tier, whose credits match the subscription's; any other plan id picks Free while the balance is 200 |
| Provisioning.OrgIdFor | src/hooks/useAuth.ts:77-91 | the organization id used is the existing default organization's, or else the id the insert will get |
| Provisioning.OrgStep | src/hooks/useAuth.ts:71-92 | the organization step leaves the store as it was when the default organization exists, and otherwise inserts it |
| Provisioning.SignUpOnlyAppends | src/hooks/useAuth.ts:55-160 | sign-up only appends: at most one organization, one user, three plans and one subscription are added, no existing row changes, the watch history is untouched, the counter never goes back, and with no new account nothing is written |
| Provisioning.SubscribeOnlyAppends | src/hooks/useAuth.ts:106-151 | the plan and subscription steps leave organizations and users as they were, append at most three plans and one subscription, and can fail only at the plans insert or the subscription insert |
| Provisioning.NoAccountNoWrites | src/hooks/useAuth.ts:66-68 | a rejected sign-up fails with nothing written; an answer without a user succeeds with nothing written |
| Provisioning.OrganizationGetOrCreate | src/hooks/useAuth.ts:71-92 | an existing default organization is reused and none is inserted; otherwise exactly one with slug `default` is inserted, or sign-up fails at that insert with nothing written |
| Provisioning.DefaultOrganizationStaysUnique | src/hooks/useAuth.ts:71-92 | if at most one organization had slug `default` before sign-up, at most one has it afterwards |
| Provisioning.UserInserted | src/hooks/useAuth.ts:95-104 | once the organization step has not failed, the user row goes in with the account's id, email, name and the organization id, or sign-up fails there with no user written |
| Provisioning.PlansGetOrCreate | src/hooks/useAuth.ts:108-135 | once the organization and user steps have not failed, a plan found by name is reused and no plan is created; otherwise exactly the three tiers are added for the organization, or sign-up fails there with no plan written |
| Provisioning.SubscriptionFromTier | src/hooks/useAuth.ts:140-151 | a successful sign-up appends exactly one subscription: the user's, active, in the organization, with balance equal to limit equal to the tier's credits |
| Provisioning.FailureStopsLaterSteps | src/hooks/useAuth.ts:90-158 | the first failing request ends sign-up; nothing after it is written and nothing before it is undone; sign-up succeeds exactly when no request it makes fails |
| Provisioning.SubscribeWithCreatedTiers | src/hooks/useAuth.ts:130-149 | when no plan is found and neither the plans insert nor the subscription insert fails, the tiers are created and the subscription refers to the plan picked among them and carries the tier's credits |
| Provisioning.CreatedPlanChoice | src/hooks/useAuth.ts:119-151 | when no plan with the looked-up name exists, a successful sign-up creates the tiers, and a tier plan id subscribes to its own tier with that tier's credits; any other plan id subscribes to Free with a balance of 200 |
| Provisioning.SignedUpLeavesDefaultOrganization | src/hooks/useAuth.ts:71-92 | if at most one organization had slug `default` before, then after a successful sign-up the default organization is found and is the one sign-up used |
| Provisioning.TierFoundAfterCreation | src/hooks/useAuth.ts:108-133 | once the tiers exist for an organization that had no plan, each tier is found by its capitalised name |
| Provisioning.NothingSharedCreatedWhenFound | src/hooks/useAuth.ts:71-135 | a sign-up that finds the default organization and its plan leaves the organizations and plans tables as they were, whatever fails |
| Provisioning.FirstSignUpCreatesTiers | src/hooks/useAuth.ts:108-135 | a successful sign-up into an organization without plans appends exactly the three tiers to the plans table |
| Provisioning.FirstSignUpLeavesTiersFound | src/hooks/useAuth.ts:71-135 | if at most one organization had slug `default` before and the organization sign-up uses had no plans, then after a successful sign-up the default organization and every tier are found by the lookups |
| Provisioning.SecondSignUpCreatesNothingShared | src/hooks/useAuth.ts:71-135 | if at most one organization had slug `default` and the organization sign-up uses had no plans, then after one successful sign-up with any plan id, a second sign-up that picks a tier creates no organization and no plan |
| Provisioning.AuthHook.IsAuthenticated | src/hooks/useAuth.ts:195 | authenticated exactly when a user is present |
| Provisioning.AuthHook.SignUp | src/hooks/useAuth.ts:55-160 | the step-by-step sign-up leaves the store and returns the result that the sign-up specification gives, and records the failing request as the error |
| Provisioning.AuthHook.SignOut | src/hooks/useAuth.ts:175-186 | a sign-out that does not throw clears the user and the error; one that throws keeps the user and records the error |
| Session.NewAccountLoadsTierCredits | src/components/StreamingApp.tsx:44-51 | for an account with no active subscription, a successful sign-up makes the view load the new subscription, whose balance and badge are the tier's credits |
| Tasks.ApplyPatch | src/hooks/useTasks.ts:77 | an update writes the fields present in the patch and keeps the others |
| Tasks.TogglePatch | src/components/TaskList.tsx:28 | the toggle request carries only `completed`, set to the opposite of the task's |
| Tasks.ToggleFlipsOnlyCompleted | src/components/TaskList.tsx:28 | applying a toggle flips `completed` and no other field; toggling twice restores the task |
| Tasks.BlankIsAllWhitespace | src/components/TaskList.tsx:18 | a title is blank exactly when every character of it is whitespace |
| Tasks.AddDisabled | src/components/TaskList.tsx:73 | the add button is disabled while an add is in flight and for an empty title |
| Tasks.AddButtonRule | src/components/TaskList.tsx:73 | the add button is disabled exactly while an add is in flight or when the title is all whitespace; when enabled the title has a non-whitespace character |
| Tasks.CompletedCount | src/components/TaskList.tsx:35-36 | the completed count is between 0 and the number of tasks |
| Tasks.CompletedCountBounds | src/components/TaskList.tsx:35-36 | the count equals the number of tasks exactly when all are completed, and is 0 exactly when none is |
| Tasks.ToggleMovesCountByOne | src/components/TaskList.tsx:27-36 | once a toggle is applied the count moves by exactly one: up for an open task, down for a completed one |
| Tasks.Progress | src/components/TaskList.tsx:48 | the bar's fraction is 0 with no tasks, and otherwise completed over total, never above 1 |
| Tasks.ProgressFull | src/components/TaskList.tsx:48 | the bar is full exactly when there are tasks and all are completed |
| Tasks.TaskListView.HandleAddTask | src/components/TaskList.tsx:16-25 | a blank title changes nothing; otherwise one add request carries the title and description as typed, with the form locked, then both fields are cleared and the form unlocked |
| Tasks.TaskListView.HandleToggleTask | src/components/TaskList.tsx:27-29 | one update request for the task's id carrying the toggle, and no other state change |

## Left out

- The hosted database client, the realtime `postgres_changes` subscription and the auth-state listener (`src/hooks/useAuth.ts:9-53`, `src/hooks/useTasks.ts:36-46`). The store is an in-memory value. Whether each write and the sign-up call succeed is an input, and so is whether the streaming view's subscription load fails.
- Concurrency is not modelled. This covers two tabs or devices that read the same balance and both write. It also covers one view whose handler is clicked again while the first click's writes are still pending (`src/components/StreamingApp.tsx:80-97`): the second handler reads the same stale `subscription`, and its `setSubscription` overwrites the first decrement. The model is one sequential session whose handlers finish before the next one starts.
- Failed sign-up lookups are not modelled. `Store.DefaultOrganization` and `Store.FindPlan` always answer. In the source an error from either lookup (`src/hooks/useAuth.ts:71-77`, `src/hooks/useAuth.ts:108-115`) is treated as "not found", so sign-up inserts another default organization or another set of tiers. The lemmas that rely on the lookups answering are `Provisioning.OrganizationGetOrCreate`, `Provisioning.DefaultOrganizationStaysUnique`, `Provisioning.PlansGetOrCreate`, `Provisioning.SignedUpLeavesDefaultOrganization`, `Provisioning.TierFoundAfterCreation`, `Provisioning.NothingSharedCreatedWhenFound`, `Provisioning.FirstSignUpLeavesTiersFound`, `Provisioning.SecondSignUpCreatesNothingShared` and `Session.NewAccountLoadsTierCredits`.
- `Provisioning.SignUpSpec`, `Provisioning.Provision` and `Provisioning.Subscribe` carry no contract of their own. Their properties are stated by the sign-up lemmas in the table, because contracts on these functions make every proof that unfolds them too slow.
- The two writes of a watch are not atomic. Their results are never inspected, and the local snapshot decrements even when both fail. The model keeps them as two independent outcomes.
- `window.open` (`src/components/StreamingApp.tsx:98`) and all rendering are left out.
- Loading channels and content (`src/components/StreamingApp.tsx:53-69`) is left out. The filters take the loaded lists as inputs.
- Floating point: `price_monthly` (9.90 and 29.90) is not a column of `Store.Plan`. `Tasks.Progress` gives the progress width as an exact fraction, not a percentage string.
- Case mapping is ASCII-only. Unicode letters outside A–Z are left unchanged by `Text.Lower` and `Text.Capitalize`.
- Error messages are not modelled. `Provisioning.AuthHook.SignUp` records which request failed instead of the message text.
- The password and the `signUp` default `planId = 'free'` are left out. Callers pass the plan id explicitly.
- Timestamps (`created_at`, `updated_at`) and the ordering of fetched lists by them are left out.
- `Tasks.TaskListView.HandleAddTask`: the add itself (`src/hooks/useTasks.ts:49-70`) is recorded as a request, not performed. Its result, including the `Not authenticated` refusal without a user id, is not modelled, because the handler ignores it.
- `handleDeleteTask`, sign-in, `src/components/AdminPanel.tsx`, `src/components/Auth.tsx`, `src/components/Header.tsx` and `src/App.tsx` are not part of this model. They are form views and thin create/update/delete wrappers without rules of their own.
- The `loading` flags of the views are left out.

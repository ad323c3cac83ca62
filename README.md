# Marco-net Farming: a Dafny model of the app's client-side logic

This project models the logic of the Marco-net Farming web app. The app is a React front end over a Supabase store. It has:

- an authentication screen with sign-up checks, document checks and a role gate on login;
- admin tables for posts, adverts, users and the audit log, plus an analytics dashboard;
- the user's profile page;
- the hooks that compute social points, today's profit, investment stats and currency conversions;
- the home and investment pages;
- two mining simulators and the onboarding splash pager.

Each source file is one Dafny module. `Common` holds what several of them share:

- `Option`;
- JavaScript's `x || 0` on an optional amount (`OrZero`);
- the left-fold sum of `reduce`;
- `filter` (`Filter`), with subsequence and concatenation lemmas.

`Approval` holds the approval statuses and the badge and button rules shared by the posts and adverts tables.

How the source is modelled:

- **Fetched rows** are sequences of datatypes.
- **Tables the admin views write to** are classes holding those sequences. Every write takes a `writeOk` flag saying whether the store accepted it; a failed write leaves the table unchanged.
- **Clocks, random numbers and the answers of remote calls** are parameters. The remote calls are sign-up, the current user, uploads, and the role lookups.
- **Interval timers** become explicit `Tick` calls.
- **Component state the handlers update step by step** becomes a class with `modifies` clauses. This covers the dialog state of the user admin view, the auth forms, the profile page, the mining session, the simulator and the pager.
- **Loops in the source** are methods with loop invariants, each proved equal to a specification function. These are the `forEach` of the social points hook, the two `forEach` loops of the today's-profit hook, and the rates map loop.
- **Amounts** are `real` (exact arithmetic).
- **Timestamps** are a UTC date string plus the seconds into that day.

## Model

| member | source | states |
|---|---|---|
| AuthScreen.CheckSignup | src/components/AuthScreen.tsx:134-165 | When no error is reported, every check passes. A reported error is a check that fails, and every check ranked before it passes: mismatch, then length (in UTF-16 code units), then document type, then file. |
| AuthScreen.NoSignUpOnInvalidForm | src/components/AuthScreen.tsx:134-165 | If any single check fails, the chain reports an error, so sign-up is not reached. |
| AuthScreen.Utf16Length | src/components/AuthScreen.tsx:143 | The JavaScript length lies between the number of characters and twice that, and equals it when every character is in the Basic Multilingual Plane. |
| AuthScreen.PasswordLengthBoundary | src/components/AuthScreen.tsx:143 | For matching passwords, six UTF-16 code units pass the length check and five fail it. |
| AuthScreen.AstralPasswordPasses | src/components/AuthScreen.tsx:143 | A password of three characters outside the Basic Multilingual Plane is six code units long and passes the length check. |
| AuthScreen.CheckDocument | src/components/AuthScreen.tsx:252-270 | A file is accepted iff its size is at most 5 MiB and its type is one of the four allowed. It is rejected as too large iff its size exceeds 5 MiB. |
| AuthScreen.DocumentSizeBoundary | src/components/AuthScreen.tsx:252 | With an allowed type, 5242880 bytes are accepted and 5242881 bytes are rejected as too large. |
| AuthScreen.LoginDecision | src/components/AuthScreen.tsx:48-80 | Login fails iff sign-in fails. A signed-in user with the admin or moderator role is denied. A successful login never has either role, and a signed-in user without a staff role (or with no user object) is logged in. |
| AuthScreen.FileExtension | src/components/AuthScreen.tsx:196 | The extension contains no dot and is a suffix of the name. A dot precedes it unless it is the whole name. A name with no dot is its own extension. |
| AuthScreen.ExtensionAfterLastDot | src/components/AuthScreen.tsx:196 | The extension of `a.b` is `b`, for any dot-free `b`. |
| AuthScreen.DecimalString | src/components/AuthScreen.tsx:197 | The timestamp text is decimal digits that denote the timestamp, with no leading zero ("0" for zero). |
| AuthScreen.UploadFileNameShape | src/components/AuthScreen.tsx:196-197 | The stored name starts with the user id and `_`, and its extension is the document's extension. |
| AuthScreen.AuthForms.constructor | src/components/AuthScreen.tsx:15-36 | The screen starts on the login tab with empty forms and currency USD. |
| AuthScreen.AuthForms.HandleFileChange | src/components/AuthScreen.tsx:247-274 | The first file is stored in the form iff it passes both checks; otherwise the form is unchanged. With no file nothing happens. |
| AuthScreen.UploadDocument | src/components/AuthScreen.tsx:193-230 | The upload runs iff there is a current user and a stored file, under the name `<userId>_<timestamp>.<ext>`. The row update, with verification status `pending`, follows iff the upload succeeds. |
| AuthScreen.AuthForms.HandleSignup | src/components/AuthScreen.tsx:131-245 | Sign-up is called iff all checks pass. A failed check or a failed registration leaves the tab and login form unchanged. A successful registration runs the upload step, then switches to the login tab with the email carried over and an empty password. |
| Approval.ModerationButtons | src/components/admin/PostsManagement.tsx:234-251 | Approve is offered iff the status is not approved, and Reject iff it is not rejected. A pending row offers both, and every row offers at least one. |
| Approval.ApprovalBadge | src/components/admin/PostsManagement.tsx:220-226 | The badge is never `outline`. It is `default` exactly when Approve is hidden (approved), `destructive` exactly when Reject is hidden (rejected), and `secondary` otherwise. |
| PostsManagement.PartitionSizes | src/components/admin/PostsManagement.tsx:151-153 | Each of the three lists holds only posts of its exact status. Their sizes add up to at most the number of posts. |
| PostsManagement.DeleteRemovesOnlyThatId | src/components/admin/PostsManagement.tsx:130-133 | After a delete, no row has the id, every row with another id remains, and the remaining rows keep their order. |
| PostsManagement.ApprovalIsReversible | src/components/admin/PostsManagement.tsx:234-251 | A rejected post offers Approve again, an approved post offers Reject again, and approving after rejecting yields approved. |
| PostsManagement.PostsTable.Approve | src/components/admin/PostsManagement.tsx:80-101 | On success, the rows with that id get status `approved` and no other field or row changes. On failure, nothing changes. |
| PostsManagement.PostsTable.Reject | src/components/admin/PostsManagement.tsx:103-124 | On success, the rows with that id get status `rejected` and nothing else changes. On failure, nothing changes. |
| PostsManagement.PostsTable.Delete | src/components/admin/PostsManagement.tsx:126-149 | Rows are removed only when the admin confirms and the store accepts. The result is always an order-preserving subsequence of the old rows. |
| AdsManagement.ActiveAds | src/components/admin/AdsManagement.tsx:110 | The active count never exceeds the number of ads. |
| AdsManagement.DecisionKeepsTotals | src/components/admin/AdsManagement.tsx:108-109 | Approving or rejecting leaves the total budget and the total spent unchanged. |
| AdsManagement.ApproveActivates | src/components/admin/AdsManagement.tsx:64-67 | After approval, the ad is among the active ones and the active count does not drop. |
| AdsManagement.RejectDeactivates | src/components/admin/AdsManagement.tsx:87-90 | After rejection, the ad is not among the active ones and the active count does not grow. |
| AdsManagement.TotalsBoundEachAd | src/components/admin/AdsManagement.tsx:108-109 | With no negative amounts, every ad's budget and spend lie between 0 and the totals. |
| AdsManagement.StatusBadge | src/components/admin/AdsManagement.tsx:175-181 | `default` iff active, `secondary` iff completed, `destructive` otherwise. |
| AdsManagement.AdvertsTable.Approve | src/components/admin/AdsManagement.tsx:62-83 | On success, that ad becomes approved and active. Other ads are untouched, the totals are unchanged and the active count does not drop. |
| AdsManagement.AdvertsTable.Reject | src/components/admin/AdsManagement.tsx:85-106 | On success, both fields of that ad become `rejected`. Other ads are untouched, the totals are unchanged and the active count does not grow. |
| UsersManagement.TotalsSplit | src/components/admin/UsersManagement.tsx:50-52 | Both balance totals are additive over concatenated user lists. |
| UsersManagement.TotalsBoundEachUser | src/components/admin/UsersManagement.tsx:51-52 | With non-negative balances, each user's balances are at most the totals, and an empty list totals 0. |
| UsersManagementAdvanced.LowerChar | src/components/admin/UsersManagementAdvanced.tsx:192-194 | 'A'..'Z' become the letter 32 code points on, 'a'..'z'; every other character is kept. |
| UsersManagementAdvanced.LowerAscii | src/components/admin/UsersManagementAdvanced.tsx:192-194 | Lower-casing keeps the length, turns each upper-case ASCII letter into its lower-case letter, leaves no upper-case ASCII letter and keeps every other character. |
| UsersManagementAdvanced.LowerAsciiIdentifiesCase | src/components/admin/UsersManagementAdvanced.tsx:192-194 | Two strings lower-case to the same text iff they differ only in the case of ASCII letters. |
| UsersManagementAdvanced.FilteredUsers | src/components/admin/UsersManagementAdvanced.tsx:191-195 | Every kept user matches the term in name, email or country, and every matching user is kept. |
| UsersManagementAdvanced.EmptySearchKeepsAll | src/components/admin/UsersManagementAdvanced.tsx:191-195 | The empty term keeps the whole list. |
| UsersManagementAdvanced.SearchIsStableSubsequence | src/components/admin/UsersManagementAdvanced.tsx:191 | The result keeps the original order, and filtering it again with the same term changes nothing. |
| UsersManagementAdvanced.SearchIgnoresTermCase | src/components/admin/UsersManagementAdvanced.tsx:192-194 | Lower-casing the term first gives the same result. |
| UsersManagementAdvanced.SearchIgnoresFieldCase | src/components/admin/UsersManagementAdvanced.tsx:191-195 | Two users whose name, email and country differ only in ASCII case are both kept or both dropped, whatever the term. |
| UsersManagementAdvanced.OpenDialogs | src/components/admin/UsersManagementAdvanced.tsx:280-384 | At most one dialog is open: the one dialogType names. |
| UsersManagementAdvanced.ManagementState.constructor | src/components/admin/UsersManagementAdvanced.tsx:27-36 | The view starts with no selection, no dialog, changes "0", empty texts and role `user`. |
| UsersManagementAdvanced.ManagementState.CloseDialog | src/components/admin/UsersManagementAdvanced.tsx:174-181 | Dialog and selection are cleared, the changes go back to "0" and reason and status to empty. The role choice is kept. |
| UsersManagementAdvanced.ManagementState.OpenDialog | src/components/admin/UsersManagementAdvanced.tsx:183-189 | The user and dialog are set. The verification status is seeded from the user only for the verification dialog. |
| UsersManagementAdvanced.ManagementState.FetchUsers | src/components/admin/UsersManagementAdvanced.tsx:43-61 | The returned rows replace the table; a failed query keeps it. The rows shown are then the search over the new table, or the same as before. Nothing else changes. |
| UsersManagementAdvanced.ManagementState.HandleUpdateBalance | src/components/admin/UsersManagementAdvanced.tsx:63-90 | With no selection, nothing is called and nothing changes. Otherwise the call carries the selected id, both changes and the reason. A failed call changes nothing. A successful one re-fetches the table and runs closeDialog's resets, keeping the search term and role choice. |
| UsersManagementAdvanced.ManagementState.HandleUpdateVerification | src/components/admin/UsersManagementAdvanced.tsx:92-117 | With no selection, nothing happens. Otherwise the call carries the selected id and the chosen status. A failed call changes nothing. A successful one re-fetches the table and runs closeDialog's resets, keeping the search term and role choice. |
| UsersManagementAdvanced.ManagementState.HandleDeleteUser | src/components/admin/UsersManagementAdvanced.tsx:119-144 | With no selection, nothing happens. Otherwise the call carries the selected id and the reason. A failed call changes nothing. A successful one re-fetches the table and runs closeDialog's resets, keeping the search term and role choice. |
| UsersManagementAdvanced.ManagementState.HandleAssignRole | src/components/admin/UsersManagementAdvanced.tsx:146-172 | With no selection, nothing happens. Otherwise the call carries the selected id and the chosen role. A failed call changes nothing. A successful one runs closeDialog's resets and keeps the table (no re-fetch), the search term and the role choice. |
| AuditLog.Fetched | src/components/admin/AuditLog.tsx:30-36 | At most 100 entries are kept: a prefix of what the store returns, and all of it when there are at most 100. |
| AuditLog.ActionBadge | src/components/admin/AuditLog.tsx:51-62 | `destructive` iff delete_user, `default` iff update_balance, `secondary` iff update_verification, `outline` for every other action. |
| AuditLog.FilteredLogsSpec | src/components/admin/AuditLog.tsx:64-66 | 'all' returns the logs unchanged. Any other filter keeps exactly the entries with that action. Either way the result keeps the log order. |
| AuditLog.ActionLabel | src/components/admin/AuditLog.tsx:119 | The label has the same length, every underscore becomes a space, and every other character is unchanged. |
| AuditLog.KnownActionLabels | src/components/admin/AuditLog.tsx:119 | The three known actions read "delete user", "update balance" and "update verification". |
| AuditLog.ShortTargetId | src/components/admin/AuditLog.tsx:123 | The shown id is the first min(8, length) characters followed by "...". |
| AnalyticsDashboard.FetchStats | src/components/admin/AnalyticsDashboard.tsx:19-34 | Missing counts become 0. Without advert data, ads and revenue are 0. With data, the ad count is the number of rows. |
| AnalyticsDashboard.RevenueIsTotalSpent | src/components/admin/AnalyticsDashboard.tsx:27 | The revenue equals the adverts table's total spent (null as 0), and it is non-negative when no spend is negative. |
| AnalyticsDashboard.PostsPerUserAsWrittenDividesByZero | src/components/admin/AnalyticsDashboard.tsx:100 | With posts but zero users, the figure as written is Infinity. |
| AnalyticsDashboard.PostsPerUser | src/components/admin/AnalyticsDashboard.tsx:100 | Corrected ratio: non-negative. With users, ratio × users = posts. With no users, 0. |
| AnalyticsDashboard.PostsPerUserAgrees | src/components/admin/AnalyticsDashboard.tsx:100 | Wherever the written guard yields a finite number, the corrected ratio is that number. |
| AnalyticsDashboard.AverageAdSpend | src/components/admin/AnalyticsDashboard.tsx:106 | With ads, average × ads = revenue. With none, 0. |
| Profile.Merge | src/pages/Profile.tsx:86 | The merged record has both records' fields: an update's value wins, and every other field is kept. |
| Profile.SaveProjection | src/pages/Profile.tsx:109-131 | Exactly the seven editable fields the profile holds are sent, with their values. No id, count, timestamp, avatar, links or privacy settings is sent. |
| Profile.MergeOwnFields | src/pages/Profile.tsx:86 | Merging values the profile already holds gives the profile back. |
| Profile.SaveKeepsLocalProfile | src/pages/Profile.tsx:109-131 | A successful save leaves the local profile unchanged. |
| Profile.MergeIdempotent | src/pages/Profile.tsx:86 | Applying the same updates twice equals applying them once. |
| Profile.PrivacyMerge | src/pages/Profile.tsx:133-142 | The setting gets the value and all other privacy keys are kept. Null settings start from the empty object. |
| Profile.ShownSetting | src/pages/Profile.tsx:349 | A present, non-empty setting is shown; otherwise the fallback is shown. |
| Profile.VisibilityDefaultsAndUpdates | src/pages/Profile.tsx:349-366 | Unset visibilities show 'public' (profile) and 'friends' (contact). Choosing one select's value shows it and leaves the other unchanged. |
| Profile.ProfilePage.constructor | src/pages/Profile.tsx:38-39 | The page holds the signed-in user and the loaded profile. |
| Profile.ProfilePage.UpdateProfile | src/pages/Profile.tsx:74-101 | Without a user or a profile, nothing is sent or changed. Otherwise the updates are sent, and success makes the profile the merge. |
| Profile.ProfilePage.HandleInputChange | src/pages/Profile.tsx:103-107 | Only the given field of a loaded profile changes. Without a profile nothing changes. |
| Profile.ProfilePage.HandleSave | src/pages/Profile.tsx:109-131 | It sends the save projection of the profile, and the local profile ends as it was. |
| Profile.ProfilePage.UpdatePrivacySettings | src/pages/Profile.tsx:133-142 | Only the merged privacy settings are sent. On success, only the privacy field changes. |
| SocialStats.Points | src/hooks/useSocialStats.ts:40 | 100 points iff the engagement is a share, and 20 otherwise. |
| SocialStats.TodayAtMostTotal | src/hooks/useSocialStats.ts:39-46 | Today's points never exceed the total points. |
| SocialStats.TotalBetween | src/hooks/useSocialStats.ts:39-42 | For n engagements, 20·n ≤ total ≤ 100·n. |
| SocialStats.TodayIsTotalOfToday | src/hooks/useSocialStats.ts:43-46 | Today's points are the total points of exactly the engagements dated today. |
| SocialStats.Accumulate | src/hooks/useSocialStats.ts:36-47 | The loop yields the total and today's points, with today ≤ total and 20·n ≤ total ≤ 100·n. |
| SocialStats.FetchStats | src/hooks/useSocialStats.ts:12-59 | One run of the effect, which re-runs when the user changes. Without a user, or when the query fails or returns no data, the previous stats are kept ({0, 0} before the first run). Otherwise they are the total and today's points. |
| TodayProfit.AddSocial | src/hooks/useTodayProfit.ts:40-44 | The loop's literal weights add exactly the social hook's points for the rows. |
| TodayProfit.AddCourses | src/hooks/useTodayProfit.ts:55-59 | The loop adds the sum of the rewards, with a missing reward as 0. |
| TodayProfit.FetchTodayProfit | src/hooks/useTodayProfit.ts:7-70 | One run of the effect, which re-runs when the user changes. Without a user, the previous profit is kept (0 before the first run). Otherwise it is today's mined amounts plus the points of engagements in the window plus the rewards of completions in the window. A query that returns no data adds nothing. |
| TodayProfit.NullAmountsAddNothing | src/hooks/useTodayProfit.ts:29 | Null mined amounts and missing course rewards contribute 0. |
| TodayProfit.LastSecondGap | src/hooks/useTodayProfit.ts:37-38 | An engagement at 23:59:59.5 counts towards today's social points but not towards today's profit. |
| TodayProfit.SocialPartAtMostTodayPoints | src/hooks/useTodayProfit.ts:33-44 | The social part of today's profit never exceeds today's points in the social hook. |
| InvestmentStats.StatsOf | src/hooks/useInvestmentStats.ts:37-46 | activeCount is the number of active records. Invested is 100 × activeCount, current − invested = profit, and profit sums every record's profit with null as 0. |
| InvestmentStats.FetchStats | src/hooks/useInvestmentStats.ts:14-56 | One run of the effect, which re-runs when the user changes. Without a user, or when the query fails or returns no data, the previous stats are kept (all four 0 before the first run). Otherwise they are the stats of the records. |
| InvestmentStats.InactiveRecordsCountForProfitOnly | src/hooks/useInvestmentStats.ts:38-39 | An inactive record adds its profit but changes neither the count nor the invested amount. |
| InvestmentStats.ActiveRecordAddsBase | src/hooks/useInvestmentStats.ts:38-45 | An active record adds 1 to the count, 100 to invested, and 100 plus its profit to the current value. |
| CurrencyRates.LastRowWins | src/hooks/useCurrencyRates.ts:23-26 | The map has one key per currency code, and each code maps to the rate of its last row. |
| CurrencyRates.FetchRates | src/hooks/useCurrencyRates.ts:21-27 | The loop builds that map. No data leaves the map empty. |
| CurrencyRates.ConvertFromUSD | src/hooks/useCurrencyRates.ts:39-42 | A missing or zero rate returns the amount unchanged. Otherwise the result is the amount divided by the rate. |
| CurrencyRates.ConvertToUSD | src/hooks/useCurrencyRates.ts:44-47 | A missing or zero rate returns the amount unchanged. Otherwise the amount times the rate. |
| CurrencyRates.RoundTrips | src/hooks/useCurrencyRates.ts:39-47 | Converting from USD and back, or to USD and back, returns the amount, for every code. |
| CurrencyRates.FromUSDIsAdditive | src/hooks/useCurrencyRates.ts:41 | convertFromUSD maps 0 to 0 and is additive in the amount. |
| CurrencyRates.FromUSDIsHomogeneous | src/hooks/useCurrencyRates.ts:41 | convertFromUSD commutes with scaling the amount. |
| CurrencyRates.ToUSDIsLinear | src/hooks/useCurrencyRates.ts:46 | convertToUSD maps 0 to 0 and is additive and homogeneous. |
| Home.ZukaToUsdRate | src/pages/Home.tsx:27 | 1000 ZC is 1.5 USD and 0 is 0. The conversion is strictly monotone. |
| Home.HomeFigures | src/pages/Home.tsx:24-27 | Missing balances are 0. The currency is the user's code when it is present and non-empty, and "USD" otherwise (no user data, a missing code or an empty one), so it is never empty. The USD value is the conversion of the ZC balance, and Total Mined shows the ZC balance. |
| Investment.TotalProfitIsSumOfGains | src/pages/Investment.tsx:41-43 | totalCurrent − totalInvested equals the sum of (current − invested) over the holdings. |
| Investment.TotalProfitPercent | src/pages/Investment.tsx:44 | When something is invested, percent × invested = profit × 100, and the percent is positive iff the profit is. |
| Investment.PositiveTotalInvested | src/pages/Investment.tsx:41 | A non-empty list of positive investments has a positive total, so the percent is defined. |
| Investment.HardCodedHoldings | src/pages/Investment.tsx:8-44 | Each hard-coded row has profit = current − invested and percent = profit / invested × 100. The totals are 1750, 2077 and 327, and the total percent is positive. |
| Investment.ShowProfit | src/pages/Investment.tsx:157-163 | The up icon shows iff the profit is positive. The '+' sign shows exactly with it. |
| Investment.KindBadge | src/pages/Investment.tsx:145 | `secondary` iff the kind is Virtual, `outline` otherwise. |
| Mining.Step | src/hooks/useMining.ts:20-28 | Progress below 100 stays at most 100. The updater reaches 100 exactly when adding 10 reaches 100, and below that it adds exactly 10. |
| Mining.ProgressAfterClosedForm | src/hooks/useMining.ts:19-29 | After n ticks the progress is 10·n, capped at 100 from the tenth tick on. |
| Mining.CompletesOnTenthTick | src/hooks/useMining.ts:19-29 | The tick that takes the progress to 100 is the tenth. |
| Mining.MinedAmount | src/hooks/useMining.ts:36 | The mined amount lies in [5, 15). |
| Mining.MiningSession.constructor | src/hooks/useMining.ts:9-10 | The session starts idle at 0 with no records. |
| Mining.MiningSession.StartMining | src/hooks/useMining.ts:12-17 | Without a user, or while mining, nothing changes. Otherwise mining is on, the progress is 0 and the interval runs. |
| Mining.MiningSession.Tick | src/hooks/useMining.ts:19-29 | Each active tick applies the updater. At 100 the interval stops and the completion is pending. The session invariant holds: progress = 10 × ticks, and completion comes after exactly 10 ticks. |
| Mining.MiningSession.CompleteMining | src/hooks/useMining.ts:32-63 | The amount lies in [5, 15) and is recorded only if the insert succeeds. On success and on failure alike, the session ends with mining off and progress 0. |
| Crypto.Step | src/pages/Crypto.tsx:19-27 | At 100 or more the progress resets to 0. Below 100 it adds 2. |
| Crypto.ProgressAfterClosedForm | src/pages/Crypto.tsx:18-28 | After n ≤ 50 ticks the progress is 2·n, and it is back to 0 after the 51st. |
| Crypto.StopsOnTickFiftyOne | src/pages/Crypto.tsx:18-28 | The tick that finds the progress at 100 and stops the session is the 51st. |
| Crypto.Simulator.constructor | src/pages/Crypto.tsx:10-12 | The simulator starts idle at 0 with 45.2 mined today. |
| Crypto.Simulator.StartMining | src/pages/Crypto.tsx:14-16 | Mining is on and the progress is 0. |
| Crypto.Simulator.Tick | src/pages/Crypto.tsx:18-28 | Below 100 it adds 2 and keeps mining. At 100 it stops mining, resets the progress to 0 and adds exactly 2.5. dailyMined never decreases. The progress stays even within [0, 100], and dailyMined = 45.2 + 2.5 × finished sessions. |
| Crypto.DailyMinedAtLeastInitial | src/pages/Crypto.tsx:12 | dailyMined is never below 45.2. |
| SplashScreen.NavButtonFor | src/components/SplashScreen.tsx:101-118 | Next is shown on every page before the last, and Get Started on the last. |
| SplashScreen.Indicator | src/components/SplashScreen.tsx:59-69 | There are three dots, and exactly the current page's dot is highlighted. |
| SplashScreen.PagesInOrder | src/components/SplashScreen.tsx:42-44 | From the first page, k presses of Next (each allowed only where Next is shown, each moving one page on) are possible iff k is at most 2; after two presses the last page offers Get Started. |
| SplashScreen.Pager.constructor | src/components/SplashScreen.tsx:12 | The pager starts on page 0. |
| SplashScreen.Pager.HandleNext | src/components/SplashScreen.tsx:42-44 | Next moves to the following page, which always exists. |
| SplashScreen.Pager.HandleGetStarted | src/components/SplashScreen.tsx:46-49 | It marks the splash as completed and then calls onComplete, in that order. |

## Left out

- Supabase I/O (queries, inserts, uploads, auth, realtime channels) is not modelled; results and success flags are parameters and fetched rows are inputs. The posts and adverts tables hold the rows as the store has them; the view refreshes through a realtime channel, which is not modelled.
- The server-side routines behind the rpc calls (balance, verification, delete, role assignment and `has_role`) are not modelled. The model only records which call is made with which arguments. A failing role lookup reads as false.
- Loading and saving flags, toasts, console logging, and the password reset form are presentation only.
- Concurrency is not modelled: React state batching, stale closures and overlapping async handlers. Ticks are sequential calls, and each completion runs before the next start.
- Crypto.Simulator.StartMining: requires that no session is running. The button is disabled while mining, and a second start through another route would run two intervals at once, which is not modelled.
- SplashScreen.Pager.HandleNext: requires that the Next button is shown, because that is the only place it is wired. On the last page the source would index past the pages array.
- Mining.MiningSession.CompleteMining: the `if (!user)` early return is not modelled separately. A session can only be running with a user, so it cannot be taken.
- Floating point is not modelled: IEEE rounding, NaN, `Number(...)` and `parseFloat` of text, and `toFixed`/`toLocaleString` formatting. Amounts are exact reals.
- `toLowerCase` is modelled for ASCII letters only; other Unicode case mappings are not.
- AuditLog.ShortTargetId: `slice(0, 8)` counts UTF-16 code units in the source and characters here; the two agree on the ASCII ids the store holds.
- Concurrent re-fetch: `fetchUsers()` is not awaited by the three rpc handlers. The model applies its answer before closeDialog; the two touch different fields, so the final state is the same.
- Timestamps are reduced to a UTC date plus seconds of day. The store's ordering of rows (`order`, `maybeSingle`) and its time-zone handling are not modelled.
- Profile: the privacy settings column is treated as an object or null. Spreading other JSON values (a string, an array) is not modelled.
- Profile: fetching the profile, the avatar fallback and the overview/stats texts are not modelled.
- In the user admin view, the text inputs that set walletChange, zukaChange, reason and the role select are plain field assignments and are not modelled.

## Findings

| source | as written | input that shows it | evidently intended | confidence | as-written member | corrected member |
|---|---|---|---|---|---|---|
| src/components/admin/AnalyticsDashboard.tsx:100 | The posts/user ratio is guarded by `totalPosts > 0` only, and divides by `totalUsers`. | totalUsers = 0, totalPosts = 3 (for example, the users count query failed) shows "Infinity posts/user". | Divide only when there are users, and show 0 otherwise. | not executed | AnalyticsDashboard.PostsPerUserAsWrittenDividesByZero | AnalyticsDashboard.PostsPerUser |

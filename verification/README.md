# EcoTrack scoring core in Dafny

EcoTrack is a small web client in which a user logs eco-friendly actions.
Each action belongs to one of seven categories, and each category is worth a
fixed number of points. The dashboard shows a total score, a weekly score
and a badge. Everything else in the application is storage, authentication
and rendering, and those are handled by an external backend and a UI
library.

This project models the three pieces of real logic as pure Dafny functions
and proves what they promise:

- `Categories` (`wrappers.dfy` holds the `Option` type it uses): the closed
  `Category` union, its string tags, and the `categoryInfo` table of labels
  and point values.
- `Records`: the stored activity row (`id`, `user_id`, `activity_name`,
  `category`, `points`, `created_at`). `points` is a snapshot stored on the
  row. `created_at` is an integer count of milliseconds.
- `ActivityForm`: the category menu built from the table, and the submit
  handler as a state transition. It takes the
  form state, the signed-in user (if any) and the answer the backend would
  give to the insert. It returns the new form state, the row it asked to
  insert, the toast it shows and how many times it called the refresh
  callback.
- `Scoring`: the total (a `reduce` over the fetched list) and the weekly
  score (a `filter` to the last seven days, then a `reduce`). They are
  lifted into `Summarize(acts, now)`. The methods `ReducePoints`,
  `FilterRecent` and `ComputeScores` follow the source's left-to-right
  passes and are proved equal to the recursive definitions.
- `Dashboard`: the `fetchActivities` step over the dashboard state
  (list, total, weekly, loading). The backend's `{ data, error }` answer is
  an input.
- `ScoreDisplay`: the two-tier `getBadge` step function and the panel that
  derives the badge from the total score.

Modelling choices:

- Backend calls (insert, select), toasts and React state hooks are not
  modelled as effects. A backend answer is a parameter, and a toast is a
  value in the result.
- Time is a parameter `now`. The weekly window is a fixed
  `7 * 24 * 60 * 60 * 1000` milliseconds, and its lower bound is inclusive.
- The form's "no category selected" value (the empty string) is `None`.
  The seven string literals are the `Tag`s of the `Category` datatype.

Facts about the program that the model keeps:

- `getBadge` (src/components/ScoreDisplay.tsx:11-14) has two tiers:
  `Green Starter` below 500 and `Eco Hero` from 500. A score of 0 gives
  `Green Starter`.
- The insert (src/components/ActivityForm.tsx:47-51) sends only `user_id`,
  `activity_name` and `category`. The client does not send points. It reads
  the category table only to word the success toast (line 64).
- The submit guard (src/components/ActivityForm.tsx:34) refuses an empty
  name, an unselected category and a missing user.

## Model

| member | source | states |
|---|---|---|
| `Categories.Info` | src/components/ActivityForm.tsx:14-22 | every category has a row with a non-empty label and a point value between 5 and 25 |
| `Categories.AllCategoriesExact` | src/components/ActivityForm.tsx:12-22 | the table is keyed by exactly seven distinct tags, and no category is missing |
| `Categories.PointTable` | src/components/ActivityForm.tsx:15-21 | recycling 10, afforestation 25, energy_saving 15, eco_transportation 20, sustainable_food 12, water_conservation 18, other 5 |
| `Categories.PointsExtremes` | src/components/ActivityForm.tsx:15-21 | every point value is positive; `other` (5) is the minimum and `afforestation` (25) the maximum |
| `Categories.PointsInjective` | src/components/ActivityForm.tsx:15-21 | no two categories share a point value |
| `Categories.Tag` | src/components/ActivityForm.tsx:12 | each category's literal is a non-empty snake_case identifier |
| `Categories.ParseTag` | src/components/ActivityForm.tsx:12 | a string is read as a category only if it is that category's literal |
| `Categories.TagRoundTrip` | src/lib/supabase.ts:12 | every category's literal reads back as that category |
| `Categories.ParseTagExact` | src/components/ActivityForm.tsx:12 | a string is rejected exactly when it is no category's literal; distinct categories have distinct literals |
| `Categories.EmptyTagIsNotACategory` | src/components/ActivityForm.tsx:26 | the empty "nothing selected" value is not a category |
| `ActivityForm.MenuOptions` | src/components/ActivityForm.tsx:101-105 | the menu offers seven options, each showing between 5 and 25 points |
| `ActivityForm.MenuValuesAreCategories` | src/components/ActivityForm.tsx:96-105 | each option's value is the literal of its category, so the cast at line 96 always yields a category; each option shows that category's label and points; every category is offered |
| `ActivityForm.Validate` | src/components/ActivityForm.tsx:34-51 | an insert is issued iff the name is non-empty, a category is selected and a user is signed in; the row carries exactly that user id, name and category, and no points |
| `ActivityForm.HandleSubmit` | src/components/ActivityForm.tsx:31-69 | refused: form unchanged, no insert, "missing information", no refresh. Success: name and category cleared, earned points are the category's table value, one refresh. Failure: inputs kept, error message shown, no refresh. Loading ends false after any insert |
| `ActivityForm.RefreshIffInserted` | src/components/ActivityForm.tsx:55-68 | the refresh callback fires at most once, and exactly when an insert was issued and accepted |
| `ActivityForm.EarnedPointsIdentifyCategory` | src/components/ActivityForm.tsx:62-65 | the points announced on success belong to the submitted category and to no other |
| `ActivityForm.ResubmitAfterSuccessIsRefused` | src/components/ActivityForm.tsx:34-67 | after a success the form is back to its initial state, so a second press issues no insert |
| `ActivityForm.RetryAfterFailureResendsSameRow` | src/components/ActivityForm.tsx:45-60 | after a failure a retry sends the identical row |
| `ActivityForm.PayloadIgnoresLoading` | src/components/ActivityForm.tsx:43-51 | the inserted row does not depend on the busy flag |
| `Scoring.WindowStart` | src/pages/Dashboard.tsx:44-45 | the week-ago bound lies exactly seven days (604 800 000 ms) before `now` |
| `Scoring.InWindow` | src/pages/Dashboard.tsx:47 | an activity passes the `>=` test iff it is at most seven days old (future-dated ones included) |
| `Scoring.SumPoints` | src/pages/Dashboard.tsx:40 | the sum of points is non-negative when no activity has negative points |
| `Scoring.Recent` | src/pages/Dashboard.tsx:46-48 | the filtered list is no longer than the fetched one |
| `Scoring.RecentMembers` | src/pages/Dashboard.tsx:44-48 | the filter keeps exactly the fetched activities created at or after `now` minus seven days |
| `Scoring.Summarize` | src/pages/Dashboard.tsx:40-49 | an empty list scores 0 and 0; with no negative points, 0 <= weekly <= total |
| `Scoring.ReducePoints` | src/pages/Dashboard.tsx:40 | the left-to-right `reduce` from 0 equals the recursive sum of points |
| `Scoring.FilterRecent` | src/pages/Dashboard.tsx:44-48 | the `filter` pass against the week-ago bound yields exactly the window's activities in order |
| `Scoring.ComputeScores` | src/pages/Dashboard.tsx:40-49 | the source's three passes (reduce, filter, reduce) compute `Summarize` |
| `Scoring.SumPointsAppend` | src/pages/Dashboard.tsx:40 | the sum over a concatenation is the sum of the sums |
| `Scoring.RecentAppend` | src/pages/Dashboard.tsx:46-48 | filtering a concatenation concatenates the filtered parts |
| `Scoring.RecentAtMostTotal` | src/pages/Dashboard.tsx:40-49 | with no negative points the window's sum is at most the total |
| `Scoring.SumPointsPermutation` | src/pages/Dashboard.tsx:40 | lists with equal multisets have equal totals |
| `Scoring.RecentPermutation` | src/pages/Dashboard.tsx:46-48 | lists with equal multisets have windows with equal multisets |
| `Scoring.SummarizePermutation` | src/pages/Dashboard.tsx:40-49 | total and weekly are invariant under any reordering of the list |
| `Scoring.SummarizeAppend` | src/pages/Dashboard.tsx:40-49 | one more activity adds exactly its points to the total, and to the weekly score iff it is in the window (otherwise weekly is unchanged) |
| `Scoring.SummarizeAppendMonotone` | src/pages/Dashboard.tsx:40-49 | adding an activity with non-negative points lowers neither score |
| `Scoring.OldActivityCountsOnlyInTotal` | src/pages/Dashboard.tsx:44-49 | an activity older than seven days adds to the total and leaves the weekly score unchanged |
| `Scoring.WindowBoundary` | src/pages/Dashboard.tsx:44-47 | an activity exactly seven days old is in the window; one a millisecond older is not |
| `Dashboard.FetchActivities` | src/pages/Dashboard.tsx:21-54 | no user: nothing changes, loading included. Error: list and scores kept, error shown, loading cleared. No data: everything kept, loading cleared. Data: the list is replaced and the scores are the `Summarize` of it |
| `Dashboard.InitialConsistent` | src/pages/Dashboard.tsx:16-18 | the initial empty list with scores 0 and 0 is consistent |
| `Dashboard.FetchPreservesConsistency` | src/pages/Dashboard.tsx:21-54 | whatever the backend answers, the total stays the sum over the shown list, and weekly stays between 0 and the total when no points are negative |
| `Dashboard.FetchErrorKeepsScores` | src/pages/Dashboard.tsx:30-35 | a failed fetch leaves the list, the total and the weekly score as they were |
| `Dashboard.FetchOrderIrrelevant` | src/pages/Dashboard.tsx:24-50 | the scores shown after a fetch do not depend on the order of the returned rows |
| `ScoreDisplay.GetBadge` | src/components/ScoreDisplay.tsx:11-14 | `Eco Hero` iff the score is at least 500, `Green Starter` iff it is below |
| `ScoreDisplay.Style` | src/components/ScoreDisplay.tsx:12-13 | the name shown is "Eco Hero" exactly for the Eco Hero badge |
| `ScoreDisplay.GetBadgeMonotone` | src/components/ScoreDisplay.tsx:11-14 | the badge never goes down as the score goes up |
| `ScoreDisplay.GetBadgeBoundaries` | src/components/ScoreDisplay.tsx:12-13 | 0 and 499 give Green Starter, 500 gives Eco Hero, with those names |
| `ScoreDisplay.Render` | src/components/ScoreDisplay.tsx:4-16 | the panel shows the total and weekly scores it was given, unchanged, and the badge of the total |
| `ScoreDisplay.BadgeIgnoresWeekly` | src/components/ScoreDisplay.tsx:16 | the badge is computed from the total score alone; the weekly score has no effect on it |
| `ScoreDisplay.NewActivityNeverDowngrades` | src/components/ScoreDisplay.tsx:11-16 | logging an activity with non-negative points never lowers the badge computed from the new total |

## Left out

- The backend client and its configuration (src/lib/supabase.ts:1-6) are not modelled. The insert and select calls appear only as their answers, given as inputs.
- Deletion and list rendering (src/components/ActivityList.tsx) are not modelled. They are a backend call and display code, and the label and emoji tables there repeat `categoryInfo`.
- Route protection (src/components/ProtectedRoute.tsx) is not modelled. It only redirects and has no scoring logic.
- Emoji and icon glyphs of categories and badges are not modelled, because they are display strings only. The toast texts are reduced to the kinds in `ActivityForm.Notice` and the error message.
- Parsing `created_at` from an ISO string, and `Date.setDate(getDate() - 7)`, are replaced by integer milliseconds and a fixed seven-day window. Calendar days differ across daylight-saving changes and time zones.
- The `loading = true` phase while an insert is in flight is not modelled. It is visible only during the await, so the model keeps only the flag's value once the handler returns.
- The HTML `required` attribute on the name input is not modelled. It is browser behaviour; the handler's own guard is modelled.
- Server-side points assignment, ordering of rows and scoping by owner happen in the backend. The model takes the returned list as given.
- Dashboard.FetchPreservesConsistency: bounds the weekly score by the total instead of tying it to a window. The dashboard state does not record the instant of its last refresh.
- Point values and scores are JavaScript numbers, which are doubles (src/lib/supabase.ts:13, src/pages/Dashboard.tsx:40-49, src/components/ScoreDisplay.tsx:11). The model uses unbounded integers. The two agree for integer points whose sums stay below 2^53. Fractional, NaN or null points have no counterpart in the model.
- Sign-out and navigation (src/pages/Dashboard.tsx:60-63) are not modelled. They are delegated to the authentication provider and the router.

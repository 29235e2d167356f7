# MonTask page logic in Dafny

MonTask is a React task manager with a small Node back end. This project models the
synchronous state logic of its pages and proves what that logic promises:

- the task list's five-criterion filter, its kanban columns and its drag handlers;
- the project board's add and assign handlers, with the progress figure and the category badge;
- the team page's invitation check, including the `\S+@\S+\.\S+` email test, role changes and permission toggles;
- the password-change form and the theme preference on the settings page;
- the calendar's month and week grids, its theme toggle and its monthly task list;
- the dashboard's status counts;
- the task card's badge and initials mappings;
- the form-validation hook;
- the login/sign-up page;
- the `protect` middleware's bearer-token extraction and its 401 outcomes.

There is one module per source file, and each handler-driven page is a `class`:

- the page's state is the fields;
- every handler is a `method` whose `modifies` clause names the state it sets;
- every handler's `ensures` clause states the whole new state.

Pure helpers are functions, and the properties that span several calls are lemmas.
Two more modules support the rest:

- `Wrappers` holds the `Option` type. It stands for `undefined`, `null` or a missing key.
- `Text` holds the JavaScript string operations the pages use: `trim`, ASCII `toLowerCase`/`toUpperCase`, `includes`, `startsWith`, `indexOf` and single-character `split`.

Inputs that the pages read from outside are parameters:

- fresh ids (`Date.now()`, `Math.random()`);
- the weekday of the 1st and the length of the month;
- the stored theme;
- the result of the drag library's hit test;
- the token verifier and the user lookup.

The task list's filter effect is a method. It narrows a local copy pass by pass, as the page does. It is proved equal to `Visible`, a single-pass selection by the active criteria. Every property of the list is proved about `Visible`.

## Model

| member | source | states |
|---|---|---|
| TaskManagement.WithField | frontend/src/pages/TaskManagement.jsx:176-182 | the named filter takes the value; the other four keep theirs |
| TaskManagement.TaskBoard.constructor | frontend/src/pages/TaskManagement.jsx:130-140 | the page starts with the given tasks all listed, the default filters and no active task |
| TaskManagement.TaskBoard.HandleFilterChange | frontend/src/pages/TaskManagement.jsx:176-182 | only the criterion the input names changes |
| TaskManagement.TaskBoard.ClearFilters | frontend/src/pages/TaskManagement.jsx:184-192 | the filters return to the defaults, under which every task matches |
| TaskManagement.TaskBoard.RefreshFilteredTasks | frontend/src/pages/TaskManagement.jsx:149-174 | after the five guarded passes, `filteredTasks` equals the single-pass selection `Visible(tasks, filters)` |
| TaskManagement.TaskBoard.NarrowIf | frontend/src/pages/TaskManagement.jsx:152-171 | one guarded pass narrows the list by exactly one more criterion, or leaves it when the guard is off |
| TaskManagement.VisibleIff | frontend/src/pages/TaskManagement.jsx:149-173 | a task is listed iff it is in `tasks` and meets every active criterion (project, search, status, priority, due date) |
| TaskManagement.SatisfiesActiveIff | frontend/src/pages/TaskManagement.jsx:152-171 | meeting the passes the effect runs is the same as matching the filters field by field, where `'All'` and `''` impose nothing |
| TaskManagement.VisibleIsSubsequence | frontend/src/pages/TaskManagement.jsx:149-173 | the listed tasks are an order-preserving subsequence of `tasks` |
| TaskManagement.VisibleIdempotent | frontend/src/pages/TaskManagement.jsx:150-171 | filtering the filtered list again changes nothing |
| TaskManagement.PassOrderIrrelevant | frontend/src/pages/TaskManagement.jsx:150-171 | running the filter passes in any order, with any repetition, gives the same list |
| TaskManagement.SelectSameCriteria | frontend/src/pages/TaskManagement.jsx:150-171 | a selection depends only on the set of criteria |
| TaskManagement.KeepAfterSelect | frontend/src/pages/TaskManagement.jsx:153-170 | one `filter` call on a selection is the selection with one more criterion |
| TaskManagement.SelectMember | frontend/src/pages/TaskManagement.jsx:150-171 | membership in a selection is membership in the input plus every criterion |
| TaskManagement.ClearedShowsAll | frontend/src/pages/TaskManagement.jsx:184-192 | under the cleared filters the list is all of `tasks` |
| TaskManagement.SearchByTitleOnly | frontend/src/pages/TaskManagement.jsx:155-161 | a task with no description matches iff its lower-cased title contains the lower-cased term |
| TaskManagement.SearchIgnoresCase | frontend/src/pages/TaskManagement.jsx:156-159 | terms equal up to ASCII case match the same tasks |
| TaskManagement.Board | frontend/src/pages/TaskManagement.jsx:360-361 | there is one column per kanban column id |
| TaskManagement.ColumnIff | frontend/src/pages/TaskManagement.jsx:361 | a column holds exactly the filtered tasks with its status, in filtered order |
| TaskManagement.ColumnsDisjoint | frontend/src/pages/TaskManagement.jsx:98-101 | no task sits in two columns |
| TaskManagement.OffBoardTask | frontend/src/pages/TaskManagement.jsx:94-101 | a task whose status is not a column id, such as `'Overdue'`, is in no column |
| TaskManagement.ColumnsCoverBoard | frontend/src/pages/TaskManagement.jsx:361 | the three columns together hold every filtered task with a column status exactly once |
| TaskManagement.ResolveColumn | frontend/src/pages/TaskManagement.jsx:216-226 | the target is the column dropped on; otherwise exactly the dropped-on task's container when it is non-empty; otherwise nothing |
| TaskManagement.FindTask | frontend/src/pages/TaskManagement.jsx:200 | `find` gives the first task with the id, or nothing when none has it |
| TaskManagement.SetStatus | frontend/src/pages/TaskManagement.jsx:230-234 | tasks with the id get the new status; length, order and all other tasks and fields are unchanged |
| TaskManagement.TaskBoard.HandleDragStart | frontend/src/pages/TaskManagement.jsx:198-202 | the active task is the one found by id |
| TaskManagement.TaskBoard.HandleDragEnd | frontend/src/pages/TaskManagement.jsx:204-237 | the active task is always cleared; with no target, an unresolved target, an unknown task or an unchanged status, `tasks` is unchanged; otherwise the task moves to the target column |
| TaskManagement.MovedTaskShownUnderNewStatus | frontend/src/pages/TaskManagement.jsx:226-234 | after a move, filtering by the new status lists the moved task |
| TaskManagement.MovedTaskHiddenUnderOtherStatus | frontend/src/pages/TaskManagement.jsx:226-234 | after a move, filtering by any other status hides every task with that id |
| ProjectBoards.ProjectBoard.AddProject | frontend/src/pages/ProjectBoards.jsx:63-79 | a blank name is rejected and nothing changes; otherwise one project with the trimmed name, no tasks, no users and the chosen category is appended, and the inputs reset to `''` and `WORK` |
| ProjectBoards.ProjectBoard.constructor | frontend/src/pages/ProjectBoards.jsx:41-44 | the page starts with well-formed projects, an empty name, the first category key and no task inputs or selections |
| ProjectBoards.ProjectBoard.ProjectInputChange | frontend/src/pages/ProjectBoards.jsx:46-48 | the project name input takes the typed value |
| ProjectBoards.ProjectBoard.ProjectCategoryChange | frontend/src/pages/ProjectBoards.jsx:50-52 | the category input takes the selected value |
| ProjectBoards.ProjectBoard.AddTask | frontend/src/pages/ProjectBoards.jsx:81-102 | a missing or blank input is rejected and nothing changes; otherwise the trimmed title is appended as `'To Do'` to that project only, and its input is cleared |
| ProjectBoards.AddTaskTo | frontend/src/pages/ProjectBoards.jsx:96-100 | only projects with the id get the task appended |
| ProjectBoards.ProjectBoard.AssignUser | frontend/src/pages/ProjectBoards.jsx:104-125 | no selection means no change; otherwise the user is added without duplicates and the selection is cleared |
| ProjectBoards.AssignTo | frontend/src/pages/ProjectBoards.jsx:113-123 | the user is appended to the project with the id only when not already listed |
| ProjectBoards.AssignKeepsWellFormed | frontend/src/pages/ProjectBoards.jsx:113-123 | assignment keeps every user list duplicate-free |
| ProjectBoards.AssignIdempotent | frontend/src/pages/ProjectBoards.jsx:117-119 | assigning the same user again is a no-op |
| ProjectBoards.ProjectBoard.TaskInputChange | frontend/src/pages/ProjectBoards.jsx:54-56 | only that project's task input changes |
| ProjectBoards.ProjectBoard.UserSelectionChange | frontend/src/pages/ProjectBoards.jsx:58-60 | only that project's selection changes |
| ProjectBoards.CompletedCount | frontend/src/pages/ProjectBoards.jsx:171 | at most the total; equal to it iff all tasks are completed; zero iff none is |
| ProjectBoards.ProgressPercentage | frontend/src/pages/ProjectBoards.jsx:170-173 | 0 with no tasks; otherwise the value times the total equals completed·100 (`ScalesTo`); always within [0, 100], and 100 exactly when every task is completed |
| ProjectBoards.CategoryFor | frontend/src/pages/ProjectBoards.jsx:174 | a key the page does not declare shows as the raw key with the gray fallback classes; `WORK`, `PERSONAL`, `STUDY` and `URGENT` show as `Work`, `Personal`, `Study` and `Urgent` with non-gray classes |
| TeamMembers.EmailPatternIff | frontend/src/pages/TeamMembers.jsx:117 | the regular-expression search accepts iff some `@` has a non-space before it, then a non-space run to a `.`, then a non-space |
| TeamMembers.MatchFromIff | frontend/src/pages/TeamMembers.jsx:117 | trying every start position finds exactly the matches at or after it |
| TeamMembers.AtMatchesIff | frontend/src/pages/TeamMembers.jsx:117 | the check at one `@` agrees with the pattern's definition |
| TeamMembers.DotRunIff | frontend/src/pages/TeamMembers.jsx:117 | the scan for `\S+\.\S` agrees with its definition |
| TeamMembers.CheckInvitation | frontend/src/pages/TeamMembers.jsx:108-120 | missing role, then blank email, then failed pattern, in that order; sent iff all three pass |
| TeamMembers.BlankFailsPattern | frontend/src/pages/TeamMembers.jsx:112-117 | a blank address would also fail the pattern |
| TeamMembers.TeamPage.SendInvitation | frontend/src/pages/TeamMembers.jsx:106-140 | on rejection nothing changes; on acceptance exactly one pending member with the given email and role is appended, and the inputs reset to `''` and `'Viewer'` |
| TeamMembers.TeamPage.constructor | frontend/src/pages/TeamMembers.jsx:95-100 | the page starts with an empty email, the `Viewer` role, the given members and no open permission panels |
| TeamMembers.TeamPage.InviteEmailChange | frontend/src/pages/TeamMembers.jsx:102-104 | the email input takes the typed value |
| TeamMembers.TeamPage.RoleSelect | frontend/src/pages/TeamMembers.jsx:185 | the role input takes the selected value |
| TeamMembers.InvitedName | frontend/src/pages/TeamMembers.jsx:124 | the name is `Invited (` + the text before the first `@` + `)` |
| TeamMembers.InvitedLocalPart | frontend/src/pages/TeamMembers.jsx:124 | `split('@')[0]` is the `@`-free prefix that stops at the first `@` |
| TeamMembers.AcceptedHasAt | frontend/src/pages/TeamMembers.jsx:117-124 | an accepted address contains an `@` |
| TeamMembers.SetRole | frontend/src/pages/TeamMembers.jsx:142-147 | only members with the id get the new role; length, order and other fields are unchanged |
| TeamMembers.TeamPage.RoleChange | frontend/src/pages/TeamMembers.jsx:142-147 | the members become the role-updated list |
| TeamMembers.SetRoleIdempotent | frontend/src/pages/TeamMembers.jsx:142-147 | setting the same role twice is setting it once |
| TeamMembers.Toggled | frontend/src/pages/TeamMembers.jsx:153-155 | one member's visibility flips; every other member's is unchanged |
| TeamMembers.ToggleTwice | frontend/src/pages/TeamMembers.jsx:153-155 | toggling twice restores every member's visibility |
| TeamMembers.TeamPage.TogglePermissionsVisibility | frontend/src/pages/TeamMembers.jsx:153-155 | the panel map becomes the toggled map |
| TeamMembers.StatusColor | frontend/src/pages/TeamMembers.jsx:88-92 | `Online` is green, `Offline` gray, anything else yellow, each as an iff |
| TeamMembers.TaskPreview | frontend/src/pages/TeamMembers.jsx:276-283 | none for no tasks; otherwise the first min(2, n) titles, plus a "more" count of n − 2 exactly when n > 2 |
| SettingsProfile.CheckPasswordChange | frontend/src/pages/SettingsProfile.jsx:89-100 | missing field first, then mismatch, then shorter than 6, each as an iff |
| SettingsProfile.AcceptedIff | frontend/src/pages/SettingsProfile.jsx:89-100 | accepted iff all fields are filled, new equals confirm, and the new password has at least 6 characters |
| SettingsProfile.LengthBoundary | frontend/src/pages/SettingsProfile.jsx:97-100 | exactly 6 characters are accepted; 5 are too short |
| SettingsProfile.SettingsPage.constructor | frontend/src/pages/SettingsProfile.jsx:32-59 | the three password fields start empty and the selection starts as the stored theme |
| SettingsProfile.SettingsPage.SetPasswordField | frontend/src/pages/SettingsProfile.jsx:221-243 | the edited password field takes the value; the other two keep theirs |
| SettingsProfile.SettingsPage.PasswordChangeSubmit | frontend/src/pages/SettingsProfile.jsx:87-111 | the outcome is the ordered check; acceptance clears all three fields; any rejection changes nothing |
| SettingsProfile.SettingsPage.ThemeChange | frontend/src/pages/SettingsProfile.jsx:127-129 | only the selection changes |
| SettingsProfile.SettingsPage.ThemeSubmit | frontend/src/pages/SettingsProfile.jsx:131-139 | the stored preference becomes the selection |
| CalendarView.BuildMonthCells | frontend/src/pages/CalendarView.jsx:97-118 | `offset` leading blanks, then one cell for each day 1..n in order, then trailing blanks; the total is a multiple of 7 |
| CalendarView.TrailingBlanks | frontend/src/pages/CalendarView.jsx:114-115 | fewer than 7 blanks, and they complete the last week; none when the days already end a week |
| CalendarView.TrailingBlanksUnique | frontend/src/pages/CalendarView.jsx:114-115 | no other count below 7 completes the week |
| CalendarView.MonthRows | frontend/src/pages/CalendarView.jsx:98-118 | a month of 28 to 31 days with an offset under 7 gives 28, 35 or 42 cells |
| CalendarView.BuildWeekCells | frontend/src/pages/CalendarView.jsx:133-149 | seven cells labelled `Sun` to `Sat` in order |
| CalendarView.NextTheme | frontend/src/pages/CalendarView.jsx:39-42 | `light` goes to `dark`, anything else to `light` |
| CalendarView.ToggleTwice | frontend/src/pages/CalendarView.jsx:39-42 | from `light` or `dark`, two toggles come back |
| CalendarView.ToggleNormalises | frontend/src/pages/CalendarView.jsx:39-42 | any stored value becomes `light` or `dark` after one toggle |
| CalendarView.CalendarPage.constructor | frontend/src/pages/CalendarView.jsx:21 | a missing or empty stored theme starts as `light` |
| CalendarView.CalendarPage.ToggleTheme | frontend/src/pages/CalendarView.jsx:39-42 | the theme becomes the next theme |
| CalendarView.MonthTasks | frontend/src/pages/CalendarView.jsx:49-54 | keeps exactly the tasks due in the given year and month |
| CalendarView.MonthTasksConcat | frontend/src/pages/CalendarView.jsx:50-53 | the filter distributes over concatenation, so order is kept |
| CalendarView.MonthTasksAllDue | frontend/src/pages/CalendarView.jsx:50-53 | a list already within the month is kept whole |
| Dashboard.CountWithStatus | frontend/src/pages/Dashboard.jsx:76-78 | the count of exact status matches: at most the total, zero iff none matches, the total iff all match |
| Dashboard.CompletedCount | frontend/src/pages/Dashboard.jsx:76 | the number of tasks with status exactly `Completed`: zero iff none is, the total iff all are |
| Dashboard.InProgressCount | frontend/src/pages/Dashboard.jsx:77 | the number of tasks with status exactly `In Progress`: zero iff none is, the total iff all are |
| Dashboard.OverdueCount | frontend/src/pages/Dashboard.jsx:78 | the number of tasks with status exactly `Overdue`: zero iff none is, the total iff all are |
| Dashboard.CompletedAgreesWithProjectBoard | frontend/src/pages/Dashboard.jsx:76 | the dashboard's completed count and a project board's completed count are the same count on lists with the same statuses |
| Dashboard.CountConcat | frontend/src/pages/Dashboard.jsx:76-78 | counts add up over concatenated lists |
| Dashboard.SummaryBounded | frontend/src/pages/Dashboard.jsx:76-78 | completed, in-progress, overdue, pending and to-do counts together are at most the number of tasks |
| Dashboard.UncountedStatusAddsNothing | frontend/src/pages/Dashboard.jsx:76-78 | a pending or to-do task changes none of the three counts |
| TaskItem.PriorityClasses | frontend/src/components/features/tasks/TaskItem.jsx:5-12 | red, yellow or green iff the lower-cased priority is `high`, `medium` or `low`; gray when missing or anything else |
| TaskItem.PriorityIgnoresCase | frontend/src/components/features/tasks/TaskItem.jsx:6 | priorities equal up to ASCII case get the same badge |
| TaskItem.PriorityAnyCase | frontend/src/components/features/tasks/TaskItem.jsx:6-9 | any casing of the three levels maps to the level's colour |
| TaskItem.CategoryClasses | frontend/src/components/features/tasks/TaskItem.jsx:15-27 | missing or empty is the gray default; a known lower-cased name gets its own colour; anything else is gray |
| TaskItem.CategoryBadgesDistinct | frontend/src/components/features/tasks/TaskItem.jsx:18-24 | the six known categories get six different badges, and none of the six is the default |
| TaskItem.MissingLikeUnknown | frontend/src/components/features/tasks/TaskItem.jsx:17-25 | a missing, an empty and an unknown category look the same |
| TaskItem.CategoryIgnoresCase | frontend/src/components/features/tasks/TaskItem.jsx:18 | categories equal up to ASCII case get the same badge |
| TaskItem.Initials | frontend/src/components/features/tasks/TaskItem.jsx:61 | no initials for a missing or empty name; otherwise the first min(2, n) characters upper-cased |
| FormValidation.FormState.HandleChange | frontend/src/hooks/useFormValidation.js:21-27 | only the named field changes |
| FormValidation.FormState.constructor | frontend/src/hooks/useFormValidation.js:3-6 | the hook starts with the initial values, no errors and not submitting |
| FormValidation.FormState.HandleSubmit | frontend/src/hooks/useFormValidation.js:29-34 | errors become `validate(values)`, submitting is raised, values are untouched |
| FormValidation.FormState.SubmitEffect | frontend/src/hooks/useFormValidation.js:8-19 | while submitting, it reports success iff there are no errors and lowers the flag either way; otherwise it does nothing |
| FormValidation.NoErrorsIff | frontend/src/hooks/useFormValidation.js:10 | no keys means the empty map |
| AuthPage.AuthForm.StartLogin | frontend/src/pages/AuthPage.jsx:14-20 | both messages are cleared, loading starts, and the current credentials are captured |
| AuthPage.AuthForm.constructor | frontend/src/pages/AuthPage.jsx:7-12 | the page starts in login mode with empty fields, no messages and not loading |
| AuthPage.AuthForm.CompleteLogin | frontend/src/pages/AuthPage.jsx:22-30 | loading stops; success iff the captured credentials are the demo account, the error otherwise |
| AuthPage.LoginRound | frontend/src/pages/AuthPage.jsx:14-31 | after a full round exactly one message shows, and it is the success message iff the credentials are the demo account |
| AuthPage.AuthForm.StartSignup | frontend/src/pages/AuthPage.jsx:33-39 | both messages are cleared and loading starts |
| AuthPage.AuthForm.CompleteSignup | frontend/src/pages/AuthPage.jsx:41-46 | loading stops and the sign-up success message shows |
| AuthPage.AuthForm.GoogleLogin | frontend/src/pages/AuthPage.jsx:49-54 | only the messages are cleared |
| AuthPage.AuthForm.GitHubLogin | frontend/src/pages/AuthPage.jsx:56-61 | only the messages are cleared |
| AuthPage.AuthForm.ToggleMode | frontend/src/pages/AuthPage.jsx:63-70 | the mode flips and both messages are cleared |
| AuthPage.ToggleTwice | frontend/src/pages/AuthPage.jsx:63-70 | two toggles restore the mode and keep the credentials |
| AuthPage.AuthForm.EmailChange | frontend/src/pages/AuthPage.jsx:73-76 | the email takes the value and both messages end empty |
| AuthPage.AuthForm.PasswordChange | frontend/src/pages/AuthPage.jsx:77-80 | the password takes the value and both messages end empty |
| AuthMiddleware.ExtractToken | backend/middleware/authMiddleware.js:9-11 | a token exists iff the header starts with the exact `Bearer` and contains a space; it has no space in it |
| AuthMiddleware.TokenIsSecondField | backend/middleware/authMiddleware.js:10 | the token is the text after the first space, up to the next space or the end |
| AuthMiddleware.Protect | backend/middleware/authMiddleware.js:5-36 | every rejection is a 401; authorised iff a non-empty token verifies and its user is found; `User not found` iff the lookup finds nobody; every other rejection (no token, a failing verify, a failing lookup) says `Not authorized to access this route` |
| AuthMiddleware.NoTokenRejected | backend/middleware/authMiddleware.js:13-15 | no token or an empty token is a 401 whatever the oracles say |
| AuthMiddleware.MissingOrLowercaseScheme | backend/middleware/authMiddleware.js:9 | a missing header and a lower-case `bearer` give no token |
| AuthMiddleware.SecondFieldOnly | backend/middleware/authMiddleware.js:10 | `Bearer a b` gives `a` |
| AuthMiddleware.EmptyOrNoToken | backend/middleware/authMiddleware.js:9-15 | `Bearer` and `BearerX` give no token, and `Bearer ` and `Bearer  x` give an empty one |
| AuthMiddleware.LongerSchemeAccepted | backend/middleware/authMiddleware.js:9-10 | the prefix test lets `BearerX y` through with token `y` |
| AuthMiddleware.HeaderWithToken | backend/middleware/authMiddleware.js:9-10 | a header `<word> <token><rest>` with a `Bearer`-prefixed word yields the token |
| AuthMiddleware.ClientHeaderRoundTrip | frontend/src/services/api.js:13 | the header the client builds from a non-empty, space-free token extracts back to that token |

## Left out

- Rendering, Tailwind class strings and layout are left out. The badge helpers return a colour tag in place of each opaque class string.
- The drag library's sensors, collision detection and drag overlay are left out. The drop target comes in already hit-tested, as a column or task id with an optional container.
- Id generation with `Date.now()` and `Math.random()` is left out. Fresh ids are parameters, and a new project's id must be unused.
- `alert` and `console.log` are left out. Each rejection is a returned outcome, and the password form also returns its message text.
- The `setTimeout` delay is not modelled. It does not say when a completion runs: the completion is a separate method that receives the credentials captured at submit.
- React's asynchronous `setState` batching is left out. Each handler is one atomic update. After a drag, `RefreshFilteredTasks` is the effect's re-run.
- JavaScript `Date` and time zones are left out. This covers parsing due dates, `getDay`, `getDate` and `setDate`. The month offset, the month length and the (year, month, day) due dates are integer inputs.
- The week view's day numbers and its highlighting of today are left out, for the same reason. So is the weekly due-date range filter (frontend/src/pages/CalendarView.jsx:55-66).
- The page-level `viewMode` state is left out.
- `localStorage` and the `dark` class on the document are left out. The stored theme is a constructor parameter.
- The `FileReader` avatar preview and the profile and notification submits are left out. They only log and alert.
- ProjectBoards.ProgressPercentage: the value is an exact real, without `Math.round` or floating-point rounding.
- ProjectBoards.CategoryFor: keys inherited from `Object.prototype`, such as `toString` or `constructor`, are not modelled. The source's lookup finds an inherited value for them and skips the gray fallback; the model treats them like any other unknown key. The page's category select never stores such a key.
- `jwt.verify` and `User.findById` are oracles passed in as functions. So are the `ApiError` type and `process.env.JWT_SECRET`.
- The outer `catch` in `protect`, which forwards unexpected errors, is left out. Nothing in the modelled extraction throws.
- Text.ToLower and Text.ToUpper are ASCII-only. They do not do Unicode case folding.
- String lengths count `char`s, not UTF-16 code units.
- TeamMembers.TeamPage.constructor: the role defaults to `'Viewer'`, which the roles table contains. The fallback to the third role is not modelled.
- The input setters whose only effect is to store the event's value are modelled only where a handler reads that state. That covers the email, role, theme, project name and category inputs. The view-layout and view-mode toggles are not modelled.
- Network and auth plumbing is left out, as are routing and presentational components. That means axios, the 401 redirect, the auth context, `LoginForm`, `SignupForm`, the layouts and the navigation bars. None of them carries state logic of its own.

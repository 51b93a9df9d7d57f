# Teacher dashboard: course pages, outreach dialogs and token settings

This project models, in Dafny, the client-side logic of a teacher dashboard.
The dashboard is a React front end for a Canvas LMS integration. It covers
four pages and components:

- **Course overview** (`CourseOverview.tsx`). The page shows the roster of one
  course and the course's assignments.
  - Each student row carries an activity badge, an attendance badge, an
    assignments cell joined from the submissions list, and a "Contact" button.
  - The roster can be sorted by name or by last activity. Clicking a column
    header toggles or changes the sort.
  - Assignments are sorted by due date and carry a due badge and a "Send
    reminder" button.
  - Two dialogs ask the backend for an AI-written draft and then send the
    edited text: the contact-student email and the assignment reminder.
- **Courses** (`Courses.tsx`). The page lists the teacher's courses. A Refresh
  action re-syncs them from Canvas. When the first load reports stale data,
  the page syncs once automatically.
- **Teacher profile** (`TeacherProfile.tsx`). The page shows whether a Canvas
  token is stored and its masked last four characters. A dialog saves a new
  token.
- **Navigation** (`Navigation.tsx`). The header highlights the button for the
  current location.

How the model is built:

- Backend replies, the signed-in user and the browser's string collation are
  inputs of the operations.
- The requests a page sends and the notifications it shows are appended to an
  event log (`events`) on the page object. On the course overview page only
  the draft and send requests are logged; the requests that load the course,
  roster, submissions and assignments are not.
- Each page is a class whose fields are the page's React state. Each handler
  is a method that states its whole new state in terms of specification
  functions, and the lemmas state what those functions guarantee.
- JavaScript's truthiness of strings and numbers is written out in
  `Common.TruthyString` and `Common.TruthyNumber`. `String.prototype.trim` is
  written out in `Common.Trim`.
- `Array.prototype.sort` is an insertion sort over an array, proved to return
  a sorted permutation for any total preorder (`Sorting.InsertionSort`).

Files:

- `common.dfy`: options, JavaScript truthiness, `trim`, and number display.
- `sorting.dfy`: the in-place sort and the sorted copy.
- `navigation.dfy`: `isActive`.
- `roster.dfy`: the course overview's records, badges, the submission join,
  the sort orders, the compose dialogs' forms and the request payloads.
- `course_overview.dfy`: the course overview page class.
- `courses.dfy`: the courses page class and its fetch and sync state machine.
- `teacher_profile.dfy`: the teacher profile page class and the token state
  machine.

## Model

| member | source | states |
|---|---|---|
| Common.Trim | frontend/lovable-app/src/pages/CourseOverview.tsx:266 | `trim` keeps the infix that starts after the leading whitespace and is followed only by whitespace. The result neither starts nor ends with whitespace, and it is empty exactly when the input is all whitespace. |
| Sorting.InsertionSort | frontend/lovable-app/src/pages/CourseOverview.tsx:187-192 | Sorting in place leaves the array sorted by the given total preorder and a permutation of its old contents. |
| Sorting.SortedCopy | frontend/lovable-app/src/pages/CourseOverview.tsx:639 | Sorting a copy (`[...students].sort`) returns a sequence sorted by the preorder with the same multiset of elements. |
| Navigation.IsActive | frontend/lovable-app/src/components/Navigation.tsx:8-13 | `isActive`: the courses target matches "/courses" and every path below "/courses/"; any other target matches only its own path. Its properties are stated by `CoursesActiveIff`, `OtherTargetsMatchExactly`, `CourseDetailPagesActivateCourses`, `LookAlikePathNotActive` and `NeverBothActive`. |
| Navigation.CoursesActiveIff | frontend/lovable-app/src/components/Navigation.tsx:9-11 | The courses button is lit exactly when the path begins with "/courses" and either ends there or continues with '/'. |
| Navigation.OtherTargetsMatchExactly | frontend/lovable-app/src/components/Navigation.tsx:12 | Any other button is lit exactly on its own path, so a sub-path such as "/profile/x" does not light it. |
| Navigation.CourseDetailPagesActivateCourses | frontend/lovable-app/src/components/Navigation.tsx:10 | Every course detail page "/courses/<rest>" lights the courses button. |
| Navigation.LookAlikePathNotActive | frontend/lovable-app/src/components/Navigation.tsx:10 | "/coursesX" and "/courses-archive/1" do not light the courses button. |
| Navigation.NeverBothActive | frontend/lovable-app/src/components/Navigation.tsx:8-13 | "Courses" and "Profile" are never highlighted at the same time. |
| Roster.AttendanceBadgeOf | frontend/lovable-app/src/pages/CourseOverview.tsx:505-537 | The attendance badge chosen by `attendance_risk`; `AttendanceBadgeCases` and `HighRiskExample` state when each badge appears and what it reads. |
| Roster.AttendanceBadgeCases | frontend/lovable-app/src/pages/CourseOverview.tsx:505-537 | Each attendance badge appears exactly for its risk value: "high" gives no attendance for N days, "medium" low attendance, "none" attending, anything else unavailable. "no_attendance_yet" reads "Attendance data not available yet". |
| Roster.HighRiskExample | frontend/lovable-app/src/pages/CourseOverview.tsx:505-537 | A high-risk student with 10 attendance days reads "No attendance for 10 days". |
| Roster.ActivityBadgeOf | frontend/lovable-app/src/pages/CourseOverview.tsx:472-495 | The activity warning: "Inactive for N days", "No activity" (strict `null` test) or none; `ActivityBadgeCases`, `RecentlyActiveStudentUnflagged` and `FalsyTimestampIsNotNull` state when each appears. |
| Roster.ActivityBadgeCases | frontend/lovable-app/src/pages/CourseOverview.tsx:472-495 | "Inactive for N days" appears exactly when `inactive_days` is truthy and `inactive_7_plus` is set, and then shows that N. "No activity" appears exactly for a never-active student with at least 7 inactive days who is not already flagged. Otherwise there is no badge. |
| Roster.RecentlyActiveStudentUnflagged | frontend/lovable-app/src/pages/CourseOverview.tsx:480-494 | A student with a recorded activity who is not flagged as 7+ days inactive gets no badge. |
| Roster.FalsyTimestampIsNotNull | frontend/lovable-app/src/pages/CourseOverview.tsx:473-487 | An absent or empty `last_activity_at` is not `null`: it gets no "No activity" badge, yet sorts at time 0 like a null one. |
| Roster.DueBadgeOf | frontend/lovable-app/src/pages/CourseOverview.tsx:659-700 | The due-date badge of an assignment; `DueBadgeCases` states each badge as an if-and-only-if on `due_at` and `due_status`. |
| Roster.DueBadgeCases | frontend/lovable-app/src/pages/CourseOverview.tsx:659-700 | The badges by due status, each an if-and-only-if: "No due date" when `due_at` is missing or the status is "no_due_date"; otherwise the overdue badge with `\|days_until_due \|\| 0\|` days, "Due today", and the "Due in" badge with `days_until_due` for "due_soon" or "future". |
| Roster.DueTextExamples | frontend/lovable-app/src/pages/CourseOverview.tsx:672-695 | Three days overdue reads "Overdue (3 days ago)", overdue with no day count reads "Overdue (0 days ago)", and due in five days reads "Due in 5 days". |
| Common.NatToDecimal | frontend/lovable-app/src/pages/CourseOverview.tsx:675 | A number shown in a badge is a non-empty digit string without a leading zero whose decimal value is the number. |
| Roster.OverdueBadgeDisablesReminder | frontend/lovable-app/src/pages/CourseOverview.tsx:1107 | An assignment that shows the overdue badge has its reminder button disabled. |
| Roster.SubmissionFor | frontend/lovable-app/src/pages/CourseOverview.tsx:423-425 | `submissions.find` by `student_canvas_id`: the record at `FirstIndexFor`, whose contract states it is the first match, or none when no record matches. |
| Roster.Merge | frontend/lovable-app/src/pages/CourseOverview.tsx:423-425 | The student paired with the submission `SubmissionFor` finds (`{ ...student, submission }`). |
| Roster.FirstIndexFor | frontend/lovable-app/src/pages/CourseOverview.tsx:423-425 | `find` by `student_canvas_id` returns none exactly when no submission carries the id. Otherwise it returns the first index that does. |
| Roster.AssignmentsCellOf | frontend/lovable-app/src/pages/CourseOverview.tsx:548-563 | The assignments cell: the loading placeholder or the matching submission's summary; `AssignmentsCellCases` states which. |
| Roster.HasGrades | frontend/lovable-app/src/pages/CourseOverview.tsx:561 | A current or a final score is non-null; used by `AssignmentsCellCases`. |
| Roster.AssignmentsCellCases | frontend/lovable-app/src/pages/CourseOverview.tsx:548-563 | The cell reads "Loading assignment data..." exactly when no submission matches the student. Otherwise it summarises the first matching submission (the one at `FirstIndexFor`), and "has grades" means a current or a final score is present. |
| Roster.ContactButtonOf | frontend/lovable-app/src/pages/CourseOverview.tsx:434-468 | The "Contact student" button or the disabled "Email not available" button, by `email_available`; `ContactButtonIgnoresEmail` states it. |
| Roster.ContactButtonIgnoresEmail | frontend/lovable-app/src/pages/CourseOverview.tsx:421-470 | The Contact button is offered exactly when `email_available` holds. The email field itself plays no part. |
| Roster.NextSort | frontend/lovable-app/src/pages/CourseOverview.tsx:539-546 | `handleSort`'s new field and direction; `NextSortProperties` states the toggle and the reset to ascending. |
| Roster.NextSortProperties | frontend/lovable-app/src/pages/CourseOverview.tsx:539-546 | Clicking the current column keeps the field and flips the direction, so two clicks restore it. Clicking another column selects it ascending, and clicking it again makes it descending. |
| Roster.DirectedComparison | frontend/lovable-app/src/pages/CourseOverview.tsx:639-654 | The comparator passed to `sort`, negated for "desc"; `ComparisonAntisymmetric` states its antisymmetry. |
| Roster.InOrder | frontend/lovable-app/src/pages/CourseOverview.tsx:638-657 | Two students may appear in this order after the sort; `InOrderMeaning` states what that means per field and direction and `InOrderTotalPreorder` that it is a total preorder. |
| Roster.InOrderMeaning | frontend/lovable-app/src/pages/CourseOverview.tsx:638-657 | For each field and direction, the comparator orders students by collation of names or by activity time (0 when never active), reversed for "desc". |
| Roster.ComparisonAntisymmetric | frontend/lovable-app/src/pages/CourseOverview.tsx:640-651 | Swapping the two students negates the comparison. |
| Roster.InOrderTotalPreorder | frontend/lovable-app/src/pages/CourseOverview.tsx:638-657 | The roster comparator is a total preorder for every field and direction whenever the collation is one, so `sort` is well defined. |
| Roster.DescIsReversedAsc | frontend/lovable-app/src/pages/CourseOverview.tsx:653 | A sequence is sorted descending exactly when its reverse is sorted ascending. |
| Roster.DueLeq | frontend/lovable-app/src/pages/CourseOverview.tsx:186-192 | The assignment order by `due_at` ascending with undated ones last; `DueLeqTotalPreorder` and `SortedByDueIff` state its properties. |
| Roster.DueLeqTotalPreorder | frontend/lovable-app/src/pages/CourseOverview.tsx:187-192 | The due-date order is a total preorder: by due time, with undated assignments last. |
| Roster.SortedByDueIff | frontend/lovable-app/src/pages/CourseOverview.tsx:187-192 | Sorted by the due-date order means every dated assignment comes before every undated one, and dated assignments are in non-decreasing due time. |
| Roster.Opened | frontend/lovable-app/src/pages/CourseOverview.tsx:426-430 | Opening a dialog clears subject, body and error and opens it, leaving the busy flags alone. |
| Roster.WithDraft | frontend/lovable-app/src/pages/CourseOverview.tsx:246-261 | A draft reply fills subject and body (empty when missing) and clears the error. A failure keeps the text and sets "We couldn't generate the draft right now. Please try again.". Generation ends either way. |
| Roster.SendButtonMatchesGuard | frontend/lovable-app/src/pages/CourseOverview.tsx:266 | A whitespace-only subject or body disables Send and is refused by the handler. With a selection, an enabled Send button always passes the handler's guard. |
| Roster.FailedFirstDraftKeepsSendDisabled | frontend/lovable-app/src/pages/CourseOverview.tsx:771 | After opening a dialog whose draft fails, the dialog is open and Send stays disabled until the teacher types. |
| Roster.AfterSend | frontend/lovable-app/src/pages/CourseOverview.tsx:300-318 | After a send the dialog stays open exactly when it was open and the reply is not "sent". Sending ends, and the text, error and generating flag are kept. |
| Roster.TeacherName | frontend/lovable-app/src/pages/CourseOverview.tsx:223-225 | `` `${first} ${last}`.trim() || "Your Teacher" ``; `TeacherNameNotBlank` states it is never blank. |
| Roster.TeacherNameNotBlank | frontend/lovable-app/src/pages/CourseOverview.tsx:223-225 | The sender name is never blank, and it is "Your Teacher" when no user is signed in. |
| Roster.ContextOf | frontend/lovable-app/src/pages/CourseOverview.tsx:235-243 | The student context sent with a contact draft; `ContextOfCases` states each field. |
| Roster.ContextOfCases | frontend/lovable-app/src/pages/CourseOverview.tsx:236-243 | Without a matching submission, the draft context has no missing assignments and null scores. With one, it carries the submission's missing-assignment count, the titles of its missing assignments, and its current and final scores, where a score of 0 is sent as null. |
| Roster.ContactDraftPayloadOf | frontend/lovable-app/src/pages/CourseOverview.tsx:227-244 | The `contact-student` draft request; `DraftPayloadsNameSenderAndCourse` states its sender and course. |
| Roster.ReminderDraftPayloadOf | frontend/lovable-app/src/pages/CourseOverview.tsx:336-345 | The reminder draft request; `DraftPayloadsNameSenderAndCourse` states its sender and course. |
| Roster.DraftPayloadsNameSenderAndCourse | frontend/lovable-app/src/pages/CourseOverview.tsx:227-244 | Both draft requests name a non-blank sender. The contact draft always names a course, and the reminder draft uses the loaded course name when there is one. |
| Roster.SentTextTrimmedAndNonEmpty | frontend/lovable-app/src/pages/CourseOverview.tsx:290-291 | A non-blank text trims to a non-empty text with no whitespace at either end, and trimming again changes nothing. |
| Roster.EmailPayloadOf | frontend/lovable-app/src/pages/CourseOverview.tsx:273-292 | The send-email request; `EmailPayloadContents` states its student, context and trimmed text. |
| Roster.EmailPayloadContents | frontend/lovable-app/src/pages/CourseOverview.tsx:273-292 | The send-email request names the selected student, carries its context, and sends the trimmed subject and body, both non-empty. |
| Roster.ReminderPayloadOf | frontend/lovable-app/src/pages/CourseOverview.tsx:376-388 | The send-reminder request; `ReminderPayloadContents` states its recipients and trimmed text. |
| Roster.ReminderPayloadContents | frontend/lovable-app/src/pages/CourseOverview.tsx:376-388 | The reminder request lists every roster student in order with their id and `email_available`, and carries the trimmed subject and body, both non-empty. |
| CourseOverview.SortByDueDate | frontend/lovable-app/src/pages/CourseOverview.tsx:186-192 | After loading, assignments are ordered by due date with undated ones last, as a permutation of the reply. |
| CourseOverview.CourseOverviewPage.FetchAssignments | frontend/lovable-app/src/pages/CourseOverview.tsx:174-200 | With a user and a successful reply, the assignments become the reply sorted by due date. Otherwise they are kept. Loading ends either way. |
| CourseOverview.CourseOverviewPage.LoadRoster | frontend/lovable-app/src/pages/CourseOverview.tsx:104-172 | Without a user it reports "not signed in" and keeps every list. With a user, a failed students request is reported and keeps every list. Otherwise the students and (on success) the submissions come from the replies, and the assignments are the reply sorted by due date. Loading ends on every path. |
| CourseOverview.CourseOverviewPage.HandleSort | frontend/lovable-app/src/pages/CourseOverview.tsx:539-546 | The new field and direction are `NextSort` of the old ones and the clicked column. |
| CourseOverview.CourseOverviewPage.GetSortedStudents | frontend/lovable-app/src/pages/CourseOverview.tsx:638-657 | Returns a permutation of the roster in which every pair is in order for the current field and direction. |
| CourseOverview.CourseOverviewPage.GenerateEmailDraft | frontend/lovable-app/src/pages/CourseOverview.tsx:215-262 | Without a user no request is sent and the dialog shows the draft error. With one, a single draft request with the contact payload is sent, and the form becomes `WithDraft` of the reply. |
| CourseOverview.CourseOverviewPage.HandleContactClick | frontend/lovable-app/src/pages/CourseOverview.tsx:421-432 | Selects the student merged with their submission, opens a cleared dialog and generates a draft. An open dialog always has a selected student. |
| CourseOverview.CourseOverviewPage.SendEmail | frontend/lovable-app/src/pages/CourseOverview.tsx:264-320 | A refused guard changes nothing. A missing user or email reports a failure without a request. Otherwise exactly one send request with `EmailPayloadOf` goes out, followed by a "sent" or "failed" notification, and the form becomes `AfterSend`. |
| CourseOverview.CourseOverviewPage.GenerateReminderDraft | frontend/lovable-app/src/pages/CourseOverview.tsx:325-364 | One reminder-draft request with the assignment's payload is sent, and the form becomes `WithDraft` of the reply. |
| CourseOverview.CourseOverviewPage.HandleReminderClick | frontend/lovable-app/src/pages/CourseOverview.tsx:1104-1115 | For an enabled (not overdue) assignment, selects it, opens a cleared dialog and generates a draft. |
| CourseOverview.CourseOverviewPage.SendReminder | frontend/lovable-app/src/pages/CourseOverview.tsx:366-419 | Same shape as `SendEmail`, with the whole roster as recipients. |
| Courses.SyncCountAppend | frontend/lovable-app/src/pages/Courses.tsx:78-103 | The number of sync requests in a log is additive over concatenation. |
| Courses.FetchNeverSyncs | frontend/lovable-app/src/pages/Courses.tsx:43-76 | Fetching courses never sends a sync request. |
| Courses.SyncSyncsOnce | frontend/lovable-app/src/pages/Courses.tsx:78-103 | One Refresh sends exactly one sync request, including the re-fetch after it. |
| Courses.AutoSyncIsOneShot | frontend/lovable-app/src/pages/Courses.tsx:109-120 | The initial load sends exactly one sync request when the first fetch reports stale data, and none otherwise. |
| Courses.Fetched | frontend/lovable-app/src/pages/Courses.tsx:50-75 | The listing after a fetch; `FailedFetchKeepsData` and `SuccessfulFetchReplacesData` state both outcomes. |
| Courses.Synced | frontend/lovable-app/src/pages/Courses.tsx:78-103 | The listing after a sync; `FailedSyncKeepsListing` states the failure case, and on success it is `Fetched` of the re-fetch. |
| Courses.Loaded | frontend/lovable-app/src/pages/Courses.tsx:109-120 | The listing after the initial load with its one-shot auto-sync; `ErrorIsRetryMessage` states its error banner and `AutoSyncIsOneShot` its sync count. |
| Courses.FailedFetchKeepsData | frontend/lovable-app/src/pages/Courses.tsx:68-75 | A failed fetch keeps the courses, the sync time and the stale flag, and sets the retry message. |
| Courses.SuccessfulFetchReplacesData | frontend/lovable-app/src/pages/Courses.tsx:50-57 | A successful fetch replaces the listing independently of what was shown: courses (empty when missing), the sync time (`lastSyncedAt` when non-empty, otherwise null), the stale flag exactly when `stale` is true, and a cleared error. Repeating it changes nothing. |
| Courses.UpdatedToastIff | frontend/lovable-app/src/pages/Courses.tsx:60-65 | "Courses updated" is shown exactly for a successful fetch that was asked to show it and whose data is not stale. |
| Courses.FailedSyncKeepsListing | frontend/lovable-app/src/pages/Courses.tsx:93-99 | A failed sync leaves the listing unchanged and does not re-fetch. |
| Courses.ErrorIsRetryMessage | frontend/lovable-app/src/pages/Courses.tsx:57-69 | Starting with no error or the retry message, the listing after the initial load shows no error or the retry message. |
| Courses.CoursesPage.ResolveTeacher | frontend/lovable-app/src/pages/Courses.tsx:33-41 | A signed-in user's id becomes the teacher id. Otherwise it is kept. |
| Courses.CoursesPage.FetchCourses | frontend/lovable-app/src/pages/Courses.tsx:43-76 | Without a teacher id nothing changes and nothing is returned. Otherwise the listing becomes `Fetched` of the reply, the events are one request plus its notification, and the data is returned exactly on success. |
| Courses.CoursesPage.SyncCourses | frontend/lovable-app/src/pages/Courses.tsx:78-103 | Without a teacher id nothing changes. Otherwise the listing becomes `Synced`, the events are `SyncEvents`, and refreshing ends false on every path. |
| Courses.CoursesPage.InitialLoad | frontend/lovable-app/src/pages/Courses.tsx:109-120 | With a teacher id, loading ends, the listing becomes `Loaded`, and the events are `LoadEvents`: one fetch, then one sync with its re-fetch exactly when the data was stale. |
| TeacherProfile.SuccessDescription | frontend/lovable-app/src/pages/TeacherProfile.tsx:104 | The success toast's text; `SuccessDescriptionIff` states when it says "updated" and when "saved". |
| TeacherProfile.SaveGuardPasses | frontend/lovable-app/src/pages/TeacherProfile.tsx:78 | The save handler's guard; `SaveButtonMatchesGuard` relates it to the button. |
| TeacherProfile.SaveDisabled | frontend/lovable-app/src/pages/TeacherProfile.tsx:222 | The Save button's `disabled`; `SaveButtonMatchesGuard` relates it to the guard. |
| TeacherProfile.StatusBadge | frontend/lovable-app/src/pages/TeacherProfile.tsx:172-176 | The status badge; `SaveTransitions` and the two examples state what it shows. |
| TeacherProfile.MaskedToken | frontend/lovable-app/src/pages/TeacherProfile.tsx:179-183 | The masked token line; `MaskedTokenIff` states when it appears and what it reads. |
| TeacherProfile.StatusAfterFetch | frontend/lovable-app/src/pages/TeacherProfile.tsx:58-62 | The status after a fetch; `FetchTransitions` states it. |
| TeacherProfile.StatusAfterSave | frontend/lovable-app/src/pages/TeacherProfile.tsx:95-99 | The status after a save; `SaveTransitions` states it. |
| TeacherProfile.SuccessDescriptionIff | frontend/lovable-app/src/pages/TeacherProfile.tsx:104 | The success message says "updated" exactly when a token was connected before the save, and "saved" otherwise. |
| TeacherProfile.SaveButtonMatchesGuard | frontend/lovable-app/src/pages/TeacherProfile.tsx:78 | A whitespace-only token disables Save and is refused by the handler. With a teacher, an enabled Save passes the guard. Save is enabled for any other token while not saving. |
| TeacherProfile.MaskedTokenIff | frontend/lovable-app/src/pages/TeacherProfile.tsx:179-183 | The masked line appears exactly for a connected token with a non-empty `last4`, and then it is "****..." followed by those characters. |
| TeacherProfile.SaveTransitions | frontend/lovable-app/src/pages/TeacherProfile.tsx:95-114 | A save answered "ok" shows "Canvas connected" with the reply's `last4`. Any other reply leaves the status as it was. |
| TeacherProfile.FetchTransitions | frontend/lovable-app/src/pages/TeacherProfile.tsx:56-71 | A fetch changes the status only on "ok", and then it is connected exactly when `hasToken` is true and carries the reply's `last4`. Repeating the fetch is idempotent. |
| TeacherProfile.ConnectedTokenExample | frontend/lovable-app/src/pages/TeacherProfile.tsx:172-183 | After a status fetch reporting a token ending in "1234", the page shows "Canvas connected" and "****...1234", and a later save would say "Token updated successfully.". |
| TeacherProfile.FirstSaveExample | frontend/lovable-app/src/pages/TeacherProfile.tsx:95-106 | A first save from "Not connected", answered "ok" with last four "1234", shows "Canvas connected" and "****...1234", and its toast says "Token saved successfully.". |
| TeacherProfile.TeacherProfilePage.FetchTokenStatus | frontend/lovable-app/src/pages/TeacherProfile.tsx:53-75 | One status request is sent, and the status becomes `StatusAfterFetch`. A failure is reported, and loading ends on every path. |
| TeacherProfile.TeacherProfilePage.Mount | frontend/lovable-app/src/pages/TeacherProfile.tsx:32-51 | With a user, the id and details are recorded and the status fetched. Without one, nothing but loading changes. |
| TeacherProfile.TeacherProfilePage.OpenModal | frontend/lovable-app/src/pages/TeacherProfile.tsx:120-123 | The dialog opens with an empty token, so Save is disabled. |
| TeacherProfile.TeacherProfilePage.HandleSaveToken | frontend/lovable-app/src/pages/TeacherProfile.tsx:77-118 | A refused guard changes nothing. Otherwise the untrimmed token is sent once and the status becomes `StatusAfterSave`. On "ok" the dialog closes, the input empties and the success toast names the old status. Otherwise the dialog and input are kept and a failure is reported. Saving ends false. |

## Left out

- Rendering (JSX, icons, CSS classes), toast display and console logging are left out. Notifications are events in the log.
- Date formatting (`date-fns` `format`) and `new Date(...).getTime()` are not modelled. Activity and due times are integers given with each record.
- Roster.ActivityBadgeOf: `last_activity_at` is a `Timestamp`: `Null` for JSON `null`, `OtherFalsy` for an absent field or an empty string, and `At(t)` for any truthy value, whose parsed time is `t`. A truthy string that does not parse as a date (`NaN`) is not modelled.
- `localeCompare` is an abstract collation `nameLeq`, assumed to be a total preorder.
- The browser's sort algorithm is not modelled. An insertion sort stands in for it, proved to give a sorted permutation; stability and the exact order of ties are not captured.
- CourseOverview.SortByDueDate: the comparator at `CourseOverview.tsx:187-192` returns 1 for two undated assignments in either order, so it is not a consistent comparator. The model sorts by the intended order (by due time, undated last), and the order among undated assignments is not captured.
- CourseOverview.CourseOverviewPage.LoadRoster: the course name is looked up in the course list by `parseInt` of the route id. The model takes the lookup's result as an input.
- Asynchronous interleaving is not modelled. Each handler runs to completion with its replies given as inputs. The unawaited `fetchAssignments` and the unawaited auto-sync run in sequence at the point of the call.
- The one-second `setTimeout` before the re-fetch after a sync is not modelled; the re-fetch follows directly.
- Courses.CoursesPage.InitialLoad: with no teacher id the effect does nothing, so `isLoading` stays true. The model keeps that.
- The Refresh buttons' `disabled={isRefreshing}` (`Courses.tsx:154`, `Courses.tsx:209`) is not modelled. Handlers run to completion, so `isRefreshing` is false between handlers (`SyncCourses` ensures it) and no click can arrive while a sync runs.
- The "Try Again" button (`Courses.tsx:179`) is not disabled while refreshing. Because handlers run to completion, a second concurrent sync is not modelled.
- The text inputs' `onChange` setters and the Cancel buttons only set one field and are not separate members.
- CourseOverview.CourseOverviewPage.HandleContactClick and CourseOverview.CourseOverviewPage.HandleReminderClick require the button to be rendered and enabled, that is `email_available` or a non-overdue status, as the page only lets them be clicked then.
- The auth client (`supabase.auth.getUser`) and the backend functions are inputs. Their own behaviour is not part of this model.
- `TeacherProfile.tsx` shows `teacherInfo` but does nothing else with it. It is recorded by `Mount` but not displayed.
- `Header.tsx`, `Index.tsx`, `App.tsx`, `CourseAnalytics.tsx` and the backend are not part of this model.

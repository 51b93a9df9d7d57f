/** The pure decisions of the course overview page: the records the backend
    returns, the badges shown for each student and assignment, the join of a
    student to its submission record, the orders used to sort students and
    assignments, and the compose-and-send form shared by the "contact student"
    and "send reminder" dialogs. Timestamps are milliseconds since the epoch. */
module Roster {
  import opened Common
  import opened Sorting

  /** `last_activity_at` as the record carries it. The page tells JSON `null`
      apart from the other falsy values (an absent field or an empty string)
      in one place only, the "No activity" badge; everywhere else it asks
      whether the value is truthy. A truthy value is a timestamp. */
  datatype Timestamp = Null | OtherFalsy | At(time: int)

  datatype Student = Student(
    studentCanvasId: int,
    name: string,
    email: Option<string>,
    emailAvailable: bool,
    lastActivityAt: Timestamp,
    inactiveDays: Option<int>,
    inactive7Plus: bool,
    lastAttendedAt: Option<int>,
    attendanceDays: Option<int>,
    attendanceRisk: string)

  datatype MissingAssignment = MissingAssignment(assignmentId: int, title: string, dueAt: int)

  datatype StudentSubmission = StudentSubmission(
    studentCanvasId: int,
    name: string,
    missingAssignmentsCount: int,
    hasMissingAssignments: bool,
    missingAssignments: seq<MissingAssignment>,
    currentScore: Option<real>,
    finalScore: Option<real>,
    gradeUrl: string)

  /** `dueStatus` is one of "overdue", "due_today", "due_soon", "future" and
      "no_due_date" when the backend keeps its contract; any other text is kept
      as it came. */
  datatype Assignment = Assignment(
    assignmentId: int,
    title: string,
    dueAt: Option<int>,
    pointsPossible: Option<real>,
    daysUntilDue: Option<int>,
    dueStatus: string,
    totalStudents: int,
    submittedCount: int,
    pendingCount: int)

  /** A student together with its submission record, if one has arrived. */
  datatype MergedStudent = MergedStudent(student: Student, submission: Option<StudentSubmission>)

  // ---------------------------------------------------------------------------
  // Badges

  datatype AttendanceBadge =
    | NoAttendanceFor(days: Option<int>)
    | LowAttendance(days: Option<int>)
    | Attending
    | AttendanceUnavailable

  /** `renderAttendance`: a switch on the backend's risk class; "no_attendance_yet"
      and every unrecognised value fall to the same default. */
  function AttendanceBadgeOf(s: Student): AttendanceBadge {
    match s.attendanceRisk
    case "high" => NoAttendanceFor(s.attendanceDays)
    case "medium" => LowAttendance(s.attendanceDays)
    case "none" => Attending
    case _ => AttendanceUnavailable
  }

  function AttendanceText(b: AttendanceBadge): string {
    match b
    case NoAttendanceFor(d) => "No attendance for " + ShowNumber(d) + " days"
    case LowAttendance(d) => "Low attendance (" + ShowNumber(d) + " days)"
    case Attending => "✓ Attending"
    case AttendanceUnavailable => "Attendance data not available yet"
  }

  /** Each risk class has its own badge, the two warning badges carry the
      student's `attendanceDays`, and everything else is "not available yet". */
  lemma AttendanceBadgeCases(s: Student)
    ensures AttendanceBadgeOf(s) == NoAttendanceFor(s.attendanceDays) <==> s.attendanceRisk == "high"
    ensures AttendanceBadgeOf(s) == LowAttendance(s.attendanceDays) <==> s.attendanceRisk == "medium"
    ensures AttendanceBadgeOf(s) == Attending <==> s.attendanceRisk == "none"
    ensures AttendanceBadgeOf(s) == AttendanceUnavailable <==>
      s.attendanceRisk != "high" && s.attendanceRisk != "medium" && s.attendanceRisk != "none"
    ensures s.attendanceRisk == "no_attendance_yet" ==> AttendanceText(AttendanceBadgeOf(s)) == "Attendance data not available yet"
  {
  }

  /** A high-risk student with 10 days without attendance reads exactly
      "No attendance for 10 days". */
  lemma HighRiskExample(s: Student)
    requires s.attendanceRisk == "high" && s.attendanceDays == Some(10)
    ensures AttendanceText(AttendanceBadgeOf(s)) == "No attendance for 10 days"
  {
    assert NatToDecimal(10) == NatToDecimal(1) + [Digit(0)];
  }

  datatype ActivityBadge = InactiveFor(days: int) | NoActivity | NoActivityBadge

  /** The warning badge under a student's last activity (`renderLastActivity`). */
  function ActivityBadgeOf(s: Student): ActivityBadge {
    if TruthyNumber(s.inactiveDays) && s.inactive7Plus then
      InactiveFor(s.inactiveDays.value)
    else if s.lastActivityAt.Null? && TruthyNumber(s.inactiveDays) && s.inactiveDays.value >= 7 then
      NoActivity
    else
      NoActivityBadge
  }

  /** The three outcomes and when each is chosen: "Inactive for N days" needs a
      non-null, non-zero `inactiveDays` and the 7+ flag; "No activity" is for a
      student who never logged in and has been inactive for at least 7 days. */
  lemma ActivityBadgeCases(s: Student)
    ensures ActivityBadgeOf(s).InactiveFor? <==> s.inactiveDays.Some? && s.inactiveDays.value != 0 && s.inactive7Plus
    ensures ActivityBadgeOf(s).InactiveFor? ==> Some(ActivityBadgeOf(s).days) == s.inactiveDays
    ensures ActivityBadgeOf(s) == NoActivity <==>
      !ActivityBadgeOf(s).InactiveFor? && s.lastActivityAt.Null? && s.inactiveDays.Some? && s.inactiveDays.value >= 7
    ensures ActivityBadgeOf(s) == NoActivityBadge <==>
      !(s.inactiveDays.Some? && s.inactiveDays.value != 0 && s.inactive7Plus)
      && !(s.lastActivityAt.Null? && s.inactiveDays.Some? && s.inactiveDays.value >= 7)
  {
  }

  /** A student whose `last_activity_at` is not `null` and who is not flagged
      7+ days inactive never gets a warning, whatever `inactiveDays` says. */
  lemma RecentlyActiveStudentUnflagged(s: Student)
    requires !s.lastActivityAt.Null? && !s.inactive7Plus
    ensures ActivityBadgeOf(s) == NoActivityBadge
  {
  }

  function Abs(n: int): nat {
    if n < 0 then -n else n
  }

  datatype DueBadge = NoDueDate | Overdue(daysAgo: nat) | DueToday | DueIn(days: Option<int>) | NoDueBadge

  /** `getDueDateBadge`. A null `days_until_due` counts as 0 for an overdue
      assignment (`days_until_due || 0`). */
  function DueBadgeOf(a: Assignment): DueBadge {
    if a.dueAt.None? || a.dueStatus == "no_due_date" then NoDueDate
    else match a.dueStatus
      case "overdue" => Overdue(Abs(a.daysUntilDue.GetOr(0)))
      case "due_today" => DueToday
      case "due_soon" => DueIn(a.daysUntilDue)
      case "future" => DueIn(a.daysUntilDue)
      case _ => NoDueBadge
  }

  function DueText(b: DueBadge): string {
    match b
    case NoDueDate => "No due date"
    case Overdue(n) => "Overdue (" + NatToDecimal(n) + " days ago)"
    case DueToday => "Due today"
    case DueIn(d) => "Due in " + ShowNumber(d) + " days"
    case NoDueBadge => ""
  }

  /** An assignment three days overdue reads "Overdue (3 days ago)", and one
      due in five days reads "Due in 5 days". */
  lemma DueTextExamples(a: Assignment)
    requires a.dueAt.Some?
    ensures a.dueStatus == "overdue" && a.daysUntilDue == Some(-3) ==> DueText(DueBadgeOf(a)) == "Overdue (3 days ago)"
    ensures a.dueStatus == "overdue" && a.daysUntilDue == None ==> DueText(DueBadgeOf(a)) == "Overdue (0 days ago)"
    ensures a.dueStatus == "due_soon" && a.daysUntilDue == Some(5) ==> DueText(DueBadgeOf(a)) == "Due in 5 days"
  {
    assert NatToDecimal(3) == "3";
    assert NatToDecimal(0) == "0";
    assert NatToDecimal(5) == "5";
  }

  /** The due-date badge rules, case by case. */
  lemma DueBadgeCases(a: Assignment)
    ensures DueBadgeOf(a) == NoDueDate <==> a.dueAt.None? || a.dueStatus == "no_due_date"
    ensures DueBadgeOf(a).Overdue? <==> a.dueAt.Some? && a.dueStatus == "overdue"
    ensures DueBadgeOf(a).Overdue? ==>
      DueBadgeOf(a).daysAgo == (if a.daysUntilDue.None? then 0 else Abs(a.daysUntilDue.value))
    ensures DueBadgeOf(a) == DueToday <==> a.dueAt.Some? && a.dueStatus == "due_today"
    ensures DueBadgeOf(a).DueIn? <==> a.dueAt.Some? && (a.dueStatus == "due_soon" || a.dueStatus == "future")
    ensures DueBadgeOf(a).DueIn? ==> DueBadgeOf(a).days == a.daysUntilDue
  {
  }

  /** The "Send reminder" button of an assignment row is enabled unless the
      assignment is overdue. */
  predicate ReminderEnabled(a: Assignment) {
    a.dueStatus != "overdue"
  }

  /** An assignment showing the red "Overdue" badge never offers a reminder. */
  lemma OverdueBadgeDisablesReminder(a: Assignment)
    requires DueBadgeOf(a).Overdue?
    ensures !ReminderEnabled(a)
  {
  }

  // ---------------------------------------------------------------------------
  // Joining a student to its submission record

  /** Position `k` holds the first record for student `id`. */
  predicate FirstWithId(subs: seq<StudentSubmission>, id: int, k: int) {
    0 <= k < |subs| && subs[k].studentCanvasId == id
    && forall j :: 0 <= j < k ==> subs[j].studentCanvasId != id
  }

  /** The position `submissions.find(s => s.student_canvas_id === id)` stops
      at: the first record with that student id, if any. */
  function FirstIndexFor(subs: seq<StudentSubmission>, id: int): (r: Option<nat>)
    ensures r.None? <==> forall k :: 0 <= k < |subs| ==> subs[k].studentCanvasId != id
    ensures r.Some? ==> FirstWithId(subs, id, r.value)
  {
    if subs == [] then None
    else if subs[0].studentCanvasId == id then Some(0)
    else match FirstIndexFor(subs[1..], id)
      case None => None
      case Some(k) => Some(k + 1)
  }

  /** The record `submissions.find(...)` returns for student `id`. */
  function SubmissionFor(subs: seq<StudentSubmission>, id: int): Option<StudentSubmission> {
    match FirstIndexFor(subs, id)
    case None => None
    case Some(k) => Some(subs[k])
  }

  /** `{ ...student, submission }` as built when the contact dialog opens. */
  function Merge(s: Student, subs: seq<StudentSubmission>): MergedStudent {
    MergedStudent(s, SubmissionFor(subs, s.studentCanvasId))
  }

  predicate HasGrades(sub: StudentSubmission) {
    sub.currentScore.Some? || sub.finalScore.Some?
  }

  datatype AssignmentsCell =
    | LoadingAssignmentData
    | SubmissionSummary(submission: StudentSubmission, showGrades: bool)

  /** The "Assignments" cell of a student row (`renderAssignments`). */
  function AssignmentsCellOf(s: Student, subs: seq<StudentSubmission>): AssignmentsCell {
    match SubmissionFor(subs, s.studentCanvasId)
    case None => LoadingAssignmentData
    case Some(sub) => SubmissionSummary(sub, HasGrades(sub))
  }

  /** The placeholder is shown exactly when no record carries the student's id;
      otherwise the cell shows the first record that carries it, with grades iff the record
      has a current or a final score. */
  lemma AssignmentsCellCases(s: Student, subs: seq<StudentSubmission>)
    ensures AssignmentsCellOf(s, subs) == LoadingAssignmentData <==>
      forall k :: 0 <= k < |subs| ==> subs[k].studentCanvasId != s.studentCanvasId
    ensures AssignmentsCellOf(s, subs).SubmissionSummary? ==>
      var c := AssignmentsCellOf(s, subs);
      c.submission in subs && c.submission.studentCanvasId == s.studentCanvasId
      && FirstIndexFor(subs, s.studentCanvasId).Some?
      && c.submission == subs[FirstIndexFor(subs, s.studentCanvasId).value]
      && (c.showGrades <==> c.submission.currentScore.Some? || c.submission.finalScore.Some?)
  {
  }

  datatype ContactButton = ContactStudent | EmailNotAvailable

  /** `renderContactButton`: the backend's `email_available` flag alone decides. */
  function ContactButtonOf(s: Student): ContactButton {
    if s.emailAvailable then ContactStudent else EmailNotAvailable
  }

  /** The contact button follows `emailAvailable` and ignores the email text. */
  lemma ContactButtonIgnoresEmail(s: Student, email: Option<string>)
    ensures ContactButtonOf(s) == ContactStudent <==> s.emailAvailable
    ensures ContactButtonOf(s.(email := email)) == ContactButtonOf(s)
  {
  }

  // ---------------------------------------------------------------------------
  // Sorting students

  datatype SortField = ByName | ByLastActivity
  datatype SortDirection = Asc | Desc

  /** `handleSort(clicked)` as a function of the current sort. */
  function NextSort(field: SortField, dir: SortDirection, clicked: SortField): (SortField, SortDirection) {
    if field == clicked then (field, if dir == Asc then Desc else Asc)
    else (clicked, Asc)
  }

  /** Clicking the current column flips the direction, and clicking it twice
      restores the sort; clicking another column sorts it ascending. */
  lemma NextSortProperties(field: SortField, dir: SortDirection, clicked: SortField)
    ensures clicked == field ==> NextSort(field, dir, clicked).0 == field && NextSort(field, dir, clicked).1 != dir
    ensures var (f, d) := NextSort(field, dir, clicked); NextSort(f, d, clicked) == (if clicked == field then (field, dir) else (clicked, Desc))
    ensures clicked != field ==> NextSort(field, dir, clicked) == (clicked, Asc)
  {
  }

  /** The time used to sort by last activity; any falsy timestamp counts as time 0. */
  function ActivityTime(s: Student): int {
    if s.lastActivityAt.At? then s.lastActivityAt.time else 0
  }

  /** `a.localeCompare(b)` for a collation given as a total preorder `nameLeq`:
      negative, zero or positive. */
  function NameComparison(nameLeq: (string, string) -> bool, a: string, b: string): int {
    if nameLeq(a, b) && nameLeq(b, a) then 0 else if nameLeq(a, b) then -1 else 1
  }

  /** The comparator of `getSortedStudents`, before the direction is applied. */
  function Comparison(field: SortField, nameLeq: (string, string) -> bool, a: Student, b: Student): int {
    match field
    case ByName => NameComparison(nameLeq, a.name, b.name)
    case ByLastActivity => ActivityTime(a) - ActivityTime(b)
  }

  /** The comparator with the direction applied: descending is the negation. */
  function DirectedComparison(field: SortField, dir: SortDirection, nameLeq: (string, string) -> bool, a: Student, b: Student): int {
    var c := Comparison(field, nameLeq, a, b);
    if dir == Asc then c else -c
  }

  /** `a` may come before `b` in the sorted roster. */
  predicate InOrder(field: SortField, dir: SortDirection, nameLeq: (string, string) -> bool, a: Student, b: Student) {
    DirectedComparison(field, dir, nameLeq, a, b) <= 0
  }

  /** What the four sorts mean: by name in collation order or its reverse, by
      last-activity time (never-logged-in as 0) ascending or descending. */
  lemma InOrderMeaning(field: SortField, dir: SortDirection, nameLeq: (string, string) -> bool, a: Student, b: Student)
    requires TotalPreorder(nameLeq)
    ensures field == ByName && dir == Asc ==> (InOrder(field, dir, nameLeq, a, b) <==> nameLeq(a.name, b.name))
    ensures field == ByName && dir == Desc ==> (InOrder(field, dir, nameLeq, a, b) <==> nameLeq(b.name, a.name))
    ensures field == ByLastActivity && dir == Asc ==> (InOrder(field, dir, nameLeq, a, b) <==> ActivityTime(a) <= ActivityTime(b))
    ensures field == ByLastActivity && dir == Desc ==> (InOrder(field, dir, nameLeq, a, b) <==> ActivityTime(b) <= ActivityTime(a))
  {
    assert nameLeq(a.name, b.name) || nameLeq(b.name, a.name);
  }

  /** For a total preorder on names the comparator is antisymmetric. */
  lemma ComparisonAntisymmetric(field: SortField, nameLeq: (string, string) -> bool, a: Student, b: Student)
    requires TotalPreorder(nameLeq)
    ensures Comparison(field, nameLeq, b, a) == -Comparison(field, nameLeq, a, b)
  {
    assert nameLeq(a.name, b.name) || nameLeq(b.name, a.name);
  }

  /** Every one of the four student orders is a total preorder, so sorting by
      it is well defined. */
  lemma InOrderTotalPreorder(field: SortField, dir: SortDirection, nameLeq: (string, string) -> bool)
    requires TotalPreorder(nameLeq)
    ensures TotalPreorder((a, b) => InOrder(field, dir, nameLeq, a, b))
  {
    forall a, b ensures InOrder(field, dir, nameLeq, a, b) || InOrder(field, dir, nameLeq, b, a) {
      ComparisonAntisymmetric(field, nameLeq, a, b);
    }
    forall a, b, c | InOrder(field, dir, nameLeq, a, b) && InOrder(field, dir, nameLeq, b, c)
      ensures InOrder(field, dir, nameLeq, a, c)
    {
      InOrderMeaning(field, dir, nameLeq, a, b);
      InOrderMeaning(field, dir, nameLeq, b, c);
      InOrderMeaning(field, dir, nameLeq, a, c);
    }
  }

  function Reverse<T>(s: seq<T>): (r: seq<T>)
    ensures |r| == |s| && forall i :: 0 <= i < |s| ==> r[i] == s[|s| - 1 - i]
  {
    seq(|s|, i requires 0 <= i < |s| => s[|s| - 1 - i])
  }

  /** Sorting descending gives the ascending order read backwards (up to ties). */
  lemma DescIsReversedAsc(field: SortField, nameLeq: (string, string) -> bool, s: seq<Student>)
    requires TotalPreorder(nameLeq)
    ensures SortedBy((a, b) => InOrder(field, Desc, nameLeq, a, b), s)
      <==> SortedBy((a, b) => InOrder(field, Asc, nameLeq, a, b), Reverse(s))
  {
    var r := Reverse(s);
    forall a, b ensures InOrder(field, Desc, nameLeq, a, b) == InOrder(field, Asc, nameLeq, b, a) {
      ComparisonAntisymmetric(field, nameLeq, a, b);
    }
    if SortedBy((a, b) => InOrder(field, Desc, nameLeq, a, b), s) {
      forall i, j | 0 <= i < j < |r| ensures InOrder(field, Asc, nameLeq, r[i], r[j]) {
        assert InOrder(field, Desc, nameLeq, s[|s| - 1 - j], s[|s| - 1 - i]);
      }
    }
    if SortedBy((a, b) => InOrder(field, Asc, nameLeq, a, b), r) {
      forall i, j | 0 <= i < j < |s| ensures InOrder(field, Desc, nameLeq, s[i], s[j]) {
        assert InOrder(field, Asc, nameLeq, r[|s| - 1 - j], r[|s| - 1 - i]);
      }
    }
  }

  /** An empty or absent timestamp is not `null`: such a student gets no "No
      activity" badge, yet sorts at time 0 like one who never logged in. */
  lemma FalsyTimestampIsNotNull(s: Student)
    requires s.lastActivityAt == OtherFalsy
    ensures ActivityTime(s) == 0
    ensures ActivityBadgeOf(s) != NoActivity
    ensures ActivityTime(s) == ActivityTime(s.(lastActivityAt := Null))
  {
  }

  // ---------------------------------------------------------------------------
  // Sorting assignments by due date

  /** "Sort by due_at ascending (null values at the end)" as a relation:
      `a` may come before `b`. */
  predicate DueLeq(a: Assignment, b: Assignment) {
    b.dueAt.None? || (a.dueAt.Some? && a.dueAt.value <= b.dueAt.value)
  }

  lemma DueLeqTotalPreorder()
    ensures TotalPreorder(DueLeq)
  {
  }

  /** The promised assignment order: every dated assignment precedes every
      undated one, and dated ones are in non-decreasing due time. */
  ghost predicate DueOrdered(s: seq<Assignment>) {
    && (forall i, j :: 0 <= i < |s| && 0 <= j < |s| && s[i].dueAt.Some? && s[j].dueAt.None? ==> i < j)
    && (forall i, j :: 0 <= i < j < |s| && s[i].dueAt.Some? && s[j].dueAt.Some? ==> s[i].dueAt.value <= s[j].dueAt.value)
  }

  /** Being sorted by `DueLeq` is exactly the promised order. */
  lemma SortedByDueIff(s: seq<Assignment>)
    ensures SortedBy(DueLeq, s) <==> DueOrdered(s)
  {
    if SortedBy(DueLeq, s) {
      forall i, j | 0 <= i < |s| && 0 <= j < |s| && s[i].dueAt.Some? && s[j].dueAt.None? ensures i < j {
      }
    }
    if DueOrdered(s) {
      forall i, j | 0 <= i < j < |s| ensures DueLeq(s[i], s[j]) {
      }
    }
  }

  // ---------------------------------------------------------------------------
  // The compose-and-send form

  /** The scratch state of one compose dialog: open flag, subject and body
      inputs, the "generating" and "sending" flags, and the inline draft error. */
  datatype ComposeForm = ComposeForm(
    isOpen: bool,
    subject: string,
    body: string,
    isGenerating: bool,
    error: Option<string>,
    isSending: bool)

  const ClosedForm: ComposeForm := ComposeForm(false, "", "", false, None, false)

  const DraftErrorMessage: string := "We couldn't generate the draft right now. Please try again."

  /** Opening a dialog (for a new student or assignment) empties the subject,
      the body and the draft error, and shows the dialog. */
  function Opened(f: ComposeForm): (r: ComposeForm)
    ensures r.isOpen && r.subject == "" && r.body == "" && r.error == None
    ensures r.isGenerating == f.isGenerating && r.isSending == f.isSending
  {
    f.(isOpen := true, subject := "", body := "", error := None)
  }

  /** The reply to a draft request: failure (network error, non-2xx status, or
      no signed-in teacher where one is needed), or the drafted fields. */
  datatype DraftReply = DraftFailed | DraftOk(subject: Option<string>, body: Option<string>)

  /** The form once a draft request has finished. A failure leaves the
      inputs as they were and shows the inline error; a success fills the inputs
      (a missing field becomes ""). Either way the dialog stays as it was. */
  function WithDraft(f: ComposeForm, reply: DraftReply): (r: ComposeForm)
    ensures r.isOpen == f.isOpen && r.isSending == f.isSending && !r.isGenerating
    ensures reply.DraftFailed? ==> r.subject == f.subject && r.body == f.body && r.error == Some(DraftErrorMessage)
    ensures reply.DraftOk? ==> r.subject == reply.subject.GetOr("") && r.body == reply.body.GetOr("") && r.error == None
  {
    match reply
    case DraftFailed => f.(isGenerating := false, error := Some(DraftErrorMessage))
    case DraftOk(s, b) => f.(isGenerating := false, error := None, subject := s.GetOr(""), body := b.GetOr(""))
  }

  /** `if (!selected || !subject.trim() || !body.trim()) return;` — the guard
      at the top of `sendEmail` and `sendReminder`. */
  predicate SendGuardPasses(hasSelection: bool, f: ComposeForm) {
    hasSelection && !IsBlank(f.subject) && !IsBlank(f.body)
  }

  /** The dialog's Send button is enabled. */
  predicate SendButtonEnabled(f: ComposeForm) {
    !f.isGenerating && !f.isSending && !IsBlank(f.subject) && !IsBlank(f.body)
  }

  /** A subject or body made only of whitespace disables Send and stops the
      handler; with a selection present, an enabled button always gets past the
      guard. */
  lemma SendButtonMatchesGuard(hasSelection: bool, f: ComposeForm)
    ensures AllWhitespace(f.subject) || AllWhitespace(f.body) ==> !SendButtonEnabled(f) && !SendGuardPasses(hasSelection, f)
    ensures hasSelection && SendButtonEnabled(f) ==> SendGuardPasses(hasSelection, f)
  {
    BlankIffAllWhitespace(f.subject);
    BlankIffAllWhitespace(f.body);
  }

  /** A failed draft right after opening leaves both inputs blank, so Send stays disabled. */
  lemma FailedFirstDraftKeepsSendDisabled(f: ComposeForm)
    ensures !SendButtonEnabled(WithDraft(Opened(f), DraftFailed))
    ensures WithDraft(Opened(f), DraftFailed).isOpen
  {
    assert IsBlank("");
  }

  /** The reply to a send request. `SendFailed` stands for every path the
      handler treats as an error before reading a status: no teacher email,
      a network error, a non-2xx status, or an unreadable body. */
  datatype SendReply = SendFailed | SendStatus(status: string)

  predicate Delivered(reply: SendReply) {
    reply == SendStatus("sent")
  }

  /** The form once a send attempt has finished: it closes only on status
      "sent", and the sending flag always drops. */
  function AfterSend(f: ComposeForm, reply: SendReply): (r: ComposeForm)
    ensures r.isOpen <==> f.isOpen && !Delivered(reply)
    ensures !r.isSending
    ensures r.subject == f.subject && r.body == f.body && r.error == f.error && r.isGenerating == f.isGenerating
  {
    if Delivered(reply) then f.(isOpen := false, isSending := false) else f.(isSending := false)
  }

  // ---------------------------------------------------------------------------
  // Request payloads

  datatype Teacher = Teacher(id: string, email: Option<string>, firstName: Option<string>, lastName: Option<string>)

  /** `` `${first} ${last}`.trim() || "Your Teacher" `` with missing names as "". */
  function TeacherName(t: Option<Teacher>): string {
    var first := if t.Some? then t.value.firstName.GetOr("") else "";
    var last := if t.Some? then t.value.lastName.GetOr("") else "";
    var full := Trim(first + " " + last);
    if full == "" then "Your Teacher" else full
  }

  /** The name signed under a draft is never blank: the trimmed full name when
      it has any visible character, otherwise the fallback. */
  lemma TeacherNameNotBlank(t: Option<Teacher>)
    ensures !IsBlank(TeacherName(t))
    ensures t.None? ==> TeacherName(t) == "Your Teacher"
  {
    var first := if t.Some? then t.value.firstName.GetOr("") else "";
    var last := if t.Some? then t.value.lastName.GetOr("") else "";
    if Trim(first + " " + last) == "" {
      assert !IsJsWhitespace('Y');
    } else {
      TrimIdempotent(first + " " + last);
    }
  }

  /** The course name a draft is signed with: the loaded course's name when
      it is a non-empty string, otherwise "Course " followed by the route id. */
  function CourseName(course: Option<string>, courseId: string): string {
    if TruthyString(course) then course.value else "Course " + courseId
  }

  /** The context sent with a contact draft or email. */
  datatype StudentContext = StudentContext(
    inactiveDays: Option<int>,
    attendanceDays: Option<int>,
    attendanceRisk: string,
    missingAssignmentsCount: int,
    missingAssignmentsTitles: seq<string>,
    currentScore: Option<real>,
    finalScore: Option<real>)

  function Titles(ms: seq<MissingAssignment>): (r: seq<string>)
    ensures |r| == |ms| && forall i :: 0 <= i < |ms| ==> r[i] == ms[i].title
  {
    seq(|ms|, i requires 0 <= i < |ms| => ms[i].title)
  }

  /** `score || null`: JavaScript drops a score of 0 along with null. */
  function ScoreOrNull(score: Option<real>): Option<real> {
    if score.Some? && score.value != 0.0 then score else None
  }

  function ContextOf(m: MergedStudent): StudentContext {
    StudentContext(
      m.student.inactiveDays,
      m.student.attendanceDays,
      m.student.attendanceRisk,
      if m.submission.Some? then m.submission.value.missingAssignmentsCount else 0,
      if m.submission.Some? then Titles(m.submission.value.missingAssignments) else [],
      if m.submission.Some? then ScoreOrNull(m.submission.value.currentScore) else None,
      if m.submission.Some? then ScoreOrNull(m.submission.value.finalScore) else None)
  }

  /** A student without a submission record is described as having no missing
      assignments and no scores; a score of exactly 0 is sent as null, any other
      score as it is. */
  lemma ContextOfCases(m: MergedStudent)
    ensures m.submission.None? ==>
      ContextOf(m).missingAssignmentsCount == 0 && ContextOf(m).missingAssignmentsTitles == []
      && ContextOf(m).currentScore == None && ContextOf(m).finalScore == None
    ensures m.submission.Some? ==>
      && ContextOf(m).missingAssignmentsCount == m.submission.value.missingAssignmentsCount
      && ContextOf(m).missingAssignmentsTitles == Titles(m.submission.value.missingAssignments)
      && |ContextOf(m).missingAssignmentsTitles| == |m.submission.value.missingAssignments|
      && (ContextOf(m).currentScore == None <==> m.submission.value.currentScore in {None, Some(0.0)})
      && (ContextOf(m).currentScore.Some? ==> ContextOf(m).currentScore == m.submission.value.currentScore)
      && ContextOf(m).finalScore == ScoreOrNull(m.submission.value.finalScore)
      && (ContextOf(m).finalScore == None <==> m.submission.value.finalScore in {None, Some(0.0)})
  {
  }

  datatype ContactDraftPayload = ContactDraftPayload(
    teacherId: string, teacherName: string, courseName: string, courseId: string,
    studentCanvasId: int, studentName: string, studentEmail: Option<string>, context: StudentContext)

  /** The body of `contact-student`: who writes, about which course and
      student, and the student's context. */
  function ContactDraftPayloadOf(course: Option<string>, courseId: string, t: Teacher, m: MergedStudent): ContactDraftPayload {
    ContactDraftPayload(t.id, TeacherName(Some(t)), CourseName(course, courseId), courseId,
      m.student.studentCanvasId, m.student.name, m.student.email, ContextOf(m))
  }

  datatype EmailPayload = EmailPayload(
    teacherId: string, teacherEmail: string, courseId: string,
    studentCanvasId: int, studentName: string, studentEmail: Option<string>,
    context: StudentContext, subject: string, body: string)

  /** The body of `contact-student/send`: the selected student, its context,
      and the subject and body with surrounding whitespace trimmed. */
  function EmailPayloadOf(t: Teacher, courseId: string, m: MergedStudent, f: ComposeForm): EmailPayload
    requires t.email.Some?
  {
    EmailPayload(t.id, t.email.value, courseId, m.student.studentCanvasId, m.student.name,
      m.student.email, ContextOf(m), Trim(f.subject), Trim(f.body))
  }

  datatype ReminderDraftPayload = ReminderDraftPayload(
    courseName: string, teacherName: string,
    assignmentId: int, title: string, dueAt: Option<int>, pointsPossible: Option<real>)

  /** The body of `assignments/remind`: course, teacher and the assignment's
      identity, title, due time and points. */
  function ReminderDraftPayloadOf(course: Option<string>, courseId: string, t: Option<Teacher>, a: Assignment): ReminderDraftPayload {
    ReminderDraftPayload(CourseName(course, courseId), TeacherName(t), a.assignmentId, a.title, a.dueAt, a.pointsPossible)
  }

  datatype Recipient = Recipient(studentCanvasId: int, name: string, email: Option<string>, emailAvailable: bool)

  datatype ReminderPayload = ReminderPayload(teacherEmail: string, students: seq<Recipient>, subject: string, body: string)

  function RecipientOf(s: Student): Recipient {
    Recipient(s.studentCanvasId, s.name, s.email, s.emailAvailable)
  }

  /** The body of `assignments/remind/send`: one recipient per roster student,
      in roster order (including students without an available email), and
      the trimmed subject and body. */
  function ReminderPayloadOf(teacherEmail: string, roster: seq<Student>, f: ComposeForm): ReminderPayload {
    ReminderPayload(teacherEmail, seq(|roster|, i requires 0 <= i < |roster| => RecipientOf(roster[i])),
      Trim(f.subject), Trim(f.body))
  }

  /** Both draft requests are signed with a non-blank teacher name and a
      non-empty course name (the course's own name when it has one). */
  lemma DraftPayloadsNameSenderAndCourse(course: Option<string>, courseId: string, t: Teacher, m: MergedStudent, a: Assignment)
    ensures !IsBlank(ContactDraftPayloadOf(course, courseId, t, m).teacherName)
    ensures !IsBlank(ReminderDraftPayloadOf(course, courseId, Some(t), a).teacherName)
    ensures ContactDraftPayloadOf(course, courseId, t, m).courseName != ""
    ensures TruthyString(course) ==> ReminderDraftPayloadOf(course, courseId, Some(t), a).courseName == course.value
  {
    TeacherNameNotBlank(Some(t));
  }

  /** Text that got past the send guard goes out trimmed and non-empty: what
      the teacher reads in the dialog, without surrounding whitespace. */
  lemma SentTextTrimmedAndNonEmpty(s: string)
    requires !IsBlank(s)
    ensures Trim(s) != [] && Trim(Trim(s)) == Trim(s)
    ensures !IsJsWhitespace(Trim(s)[0]) && !IsJsWhitespace(Trim(s)[|Trim(s)| - 1])
  {
    TrimIdempotent(s);
  }

  /** The email request carries the selected student, its context, and the
      trimmed subject and body. */
  lemma EmailPayloadContents(t: Teacher, courseId: string, m: MergedStudent, f: ComposeForm)
    requires t.email.Some? && SendGuardPasses(true, f)
    ensures EmailPayloadOf(t, courseId, m, f).studentCanvasId == m.student.studentCanvasId
    ensures EmailPayloadOf(t, courseId, m, f).context == ContextOf(m)
    ensures EmailPayloadOf(t, courseId, m, f).subject != [] && EmailPayloadOf(t, courseId, m, f).body != []
    ensures EmailPayloadOf(t, courseId, m, f).subject == Trim(f.subject)
    ensures EmailPayloadOf(t, courseId, m, f).body == Trim(f.body)
  {
  }

  /** The reminder request lists every roster student once, in roster order,
      whether or not an email is available, with the trimmed subject and body. */
  lemma ReminderPayloadContents(teacherEmail: string, roster: seq<Student>, f: ComposeForm)
    requires SendGuardPasses(true, f)
    ensures |ReminderPayloadOf(teacherEmail, roster, f).students| == |roster|
    ensures forall i :: 0 <= i < |roster| ==>
      ReminderPayloadOf(teacherEmail, roster, f).students[i].studentCanvasId == roster[i].studentCanvasId
      && ReminderPayloadOf(teacherEmail, roster, f).students[i].emailAvailable == roster[i].emailAvailable
    ensures ReminderPayloadOf(teacherEmail, roster, f).subject != [] && ReminderPayloadOf(teacherEmail, roster, f).body != []
    ensures ReminderPayloadOf(teacherEmail, roster, f).subject == Trim(f.subject)
    ensures ReminderPayloadOf(teacherEmail, roster, f).body == Trim(f.body)
  {
  }
}

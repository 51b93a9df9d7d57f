/** The state of the course overview page and its handlers: loading the
    roster, sorting assignments in place and students on a copy, the sort
    toggle, and the two compose-and-send dialogs. Backend replies are inputs.
    The draft and send requests and the notifications the page shows are
    appended to an event log; the requests that load the course, roster,
    submissions and assignments are not logged. */
module CourseOverview {
  import opened Common
  import opened Sorting
  import opened Roster

  /** The reply to a list request: failure (network error, non-2xx status or
      unreadable body), or the body's list field, which may be absent. */
  datatype ListReply<T> = ListFailed | ListOk(items: Option<seq<T>>)

  datatype Toast =
    | NotSignedIn
    | StudentsLoadFailed
    | EmailSent(studentName: string)
    | EmailFailed
    | ReminderSent
    | ReminderFailed

  datatype Event =
    | ContactDraftRequested(contactDraft: ContactDraftPayload)
    | EmailSendRequested(email: EmailPayload)
    | ReminderDraftRequested(reminderDraft: ReminderDraftPayload)
    | ReminderSendRequested(reminder: ReminderPayload)
    | Notified(toast: Toast)

  /** Sorts freshly fetched assignments in place into due-date order. */
  method SortByDueDate(a: array<Assignment>)
    modifies a
    ensures DueOrdered(a[..])
    ensures multiset(a[..]) == old(multiset(a[..]))
  {
    DueLeqTotalPreorder();
    InsertionSort(a, DueLeq);
    SortedByDueIff(a[..]);
  }

  /** The teacher can send mail: signed in, with a non-empty email. */
  predicate CanSend(teacher: Option<Teacher>) {
    teacher.Some? && TruthyString(teacher.value.email)
  }

  /** An open dialog always has its student or assignment selected: the
      invariant every handler of that dialog keeps. */
  predicate OpenImpliesSelected<T>(f: ComposeForm, selection: Option<T>) {
    f.isOpen ==> selection.Some?
  }

  class CourseOverviewPage {
    const courseId: string
    var courseName: Option<string>
    var students: seq<Student>
    var submissions: seq<StudentSubmission>
    var assignments: seq<Assignment>
    var loading: bool
    var assignmentsLoading: bool
    var sortField: SortField
    var sortDirection: SortDirection
    var selectedStudent: Option<MergedStudent>
    var contactForm: ComposeForm
    var selectedAssignment: Option<Assignment>
    var reminderForm: ComposeForm
    var events: seq<Event>

    constructor (courseId: string)
      ensures OpenImpliesSelected(contactForm, selectedStudent) && OpenImpliesSelected(reminderForm, selectedAssignment)
      ensures this.courseId == courseId && courseName == None
      ensures students == [] && submissions == [] && assignments == []
      ensures loading && assignmentsLoading
      ensures sortField == ByName && sortDirection == Asc
      ensures selectedStudent == None && contactForm == ClosedForm
      ensures selectedAssignment == None && reminderForm == ClosedForm
      ensures events == []
    {
      this.courseId := courseId;
      courseName := None;
      students, submissions, assignments := [], [], [];
      loading, assignmentsLoading := true, true;
      sortField, sortDirection := ByName, Asc;
      selectedStudent, contactForm := None, ClosedForm;
      selectedAssignment, reminderForm := None, ClosedForm;
      events := [];
    }

    /** `fetchAssignments`: on a successful reply the fetched list (or [] when
        the field is absent) is sorted in place and replaces `assignments`; on
        any failure, or without a signed-in teacher, the old list stays. */
    method FetchAssignments(teacher: Option<Teacher>, reply: ListReply<Assignment>)
      modifies this`assignments, this`assignmentsLoading
      ensures !assignmentsLoading
      ensures teacher.Some? && reply.ListOk? ==>
        DueOrdered(assignments) && multiset(assignments) == multiset(reply.items.GetOr([]))
      ensures !(teacher.Some? && reply.ListOk?) ==> assignments == old(assignments)
    {
      assignmentsLoading := true;
      if teacher.Some? && reply.ListOk? {
        var fetched := reply.items.GetOr([]);
        var a := new Assignment[|fetched|](k requires 0 <= k < |fetched| => fetched[k]);
        assert a[..] == fetched;
        SortByDueDate(a);
        assignments := a[..];
      }
      assignmentsLoading := false;
    }

    /** `fetchData`: the students list is the primary resource (a failure is
        reported and keeps every list as it was); submissions and assignments
        are secondary (a failure keeps that list and is not reported). */
    method LoadRoster(teacher: Option<Teacher>, foundCourseName: Option<string>,
                      studentsReply: ListReply<Student>, submissionsReply: ListReply<StudentSubmission>,
                      assignmentsReply: ListReply<Assignment>)
      modifies this`loading, this`courseName, this`students, this`submissions,
               this`assignments, this`assignmentsLoading, this`events
      ensures !loading
      ensures teacher.None? ==>
        && events == old(events) + [Notified(NotSignedIn)]
        && courseName == old(courseName) && students == old(students)
        && submissions == old(submissions) && assignments == old(assignments)
        && assignmentsLoading == old(assignmentsLoading)
      ensures teacher.Some? ==> courseName == (if foundCourseName.Some? then foundCourseName else old(courseName))
      ensures teacher.Some? && studentsReply.ListFailed? ==>
        && events == old(events) + [Notified(StudentsLoadFailed)]
        && students == old(students) && submissions == old(submissions) && assignments == old(assignments)
        && assignmentsLoading == old(assignmentsLoading)
      ensures teacher.Some? && studentsReply.ListOk? ==>
        && events == old(events)
        && students == studentsReply.items.GetOr([])
        && submissions == (if submissionsReply.ListOk? then submissionsReply.items.GetOr([]) else old(submissions))
        && !assignmentsLoading
        && (assignmentsReply.ListOk? ==>
              DueOrdered(assignments) && multiset(assignments) == multiset(assignmentsReply.items.GetOr([])))
        && (assignmentsReply.ListFailed? ==> assignments == old(assignments))
    {
      loading := true;
      if teacher.None? {
        events := events + [Notified(NotSignedIn)];
      } else {
        if foundCourseName.Some? {
          courseName := foundCourseName;
        }
        match studentsReply {
          case ListFailed =>
            events := events + [Notified(StudentsLoadFailed)];
          case ListOk(items) =>
            students := items.GetOr([]);
            if submissionsReply.ListOk? {
              submissions := submissionsReply.items.GetOr([]);
            }
            FetchAssignments(teacher, assignmentsReply);
        }
      }
      loading := false;
    }

    /** `handleSort`: the column header click. */
    method HandleSort(field: SortField)
      modifies this`sortField, this`sortDirection
      ensures (sortField, sortDirection) == NextSort(old(sortField), old(sortDirection), field)
    {
      if sortField == field {
        sortDirection := if sortDirection == Asc then Desc else Asc;
      } else {
        sortField := field;
        sortDirection := Asc;
      }
    }

    /** `getSortedStudents`: a sorted copy of the roster under the current
        sort; the roster itself is left as it is (the method modifies nothing). */
    method GetSortedStudents(nameLeq: (string, string) -> bool) returns (sorted: seq<Student>)
      requires TotalPreorder(nameLeq)
      ensures multiset(sorted) == multiset(students)
      ensures forall i, j :: 0 <= i < j < |sorted| ==> InOrder(sortField, sortDirection, nameLeq, sorted[i], sorted[j])
    {
      var field, dir := sortField, sortDirection;
      var leq := (a, b) => InOrder(field, dir, nameLeq, a, b);
      InOrderTotalPreorder(field, dir, nameLeq);
      assert TotalPreorder(leq);
      sorted := SortedCopy(students, leq);
    }

    /** `generateEmailDraft`: asks the backend for a draft for `student`. Without
        a signed-in teacher no request is made and the draft fails. */
    method GenerateEmailDraft(student: MergedStudent, teacher: Option<Teacher>, reply: DraftReply)
      requires OpenImpliesSelected(contactForm, selectedStudent)
      modifies this`contactForm, this`events
      ensures OpenImpliesSelected(contactForm, selectedStudent)
      ensures contactForm == WithDraft(old(contactForm), if teacher.Some? then reply else DraftFailed)
      ensures teacher.None? ==> events == old(events)
      ensures teacher.Some? ==> events == old(events) + [ContactDraftRequested(ContactDraftPayloadOf(courseName, courseId, teacher.value, student))]
    {
      contactForm := contactForm.(isGenerating := true, error := None);
      var form := contactForm;
      if teacher.None? {
        form := form.(error := Some(DraftErrorMessage));
      } else {
        events := events + [ContactDraftRequested(ContactDraftPayloadOf(courseName, courseId, teacher.value, student))];
        match reply {
          case DraftFailed =>
            form := form.(error := Some(DraftErrorMessage));
          case DraftOk(subject, body) =>
            form := form.(subject := subject.GetOr(""), body := body.GetOr(""));
        }
      }
      contactForm := form.(isGenerating := false);
    }

    /** `handleContactClick`: selects the student joined to its submission
        record, opens a fresh dialog and requests a draft. The handler is only
        attached to the button rendered for a student whose email is available. */
    method HandleContactClick(student: Student, teacher: Option<Teacher>, reply: DraftReply)
      requires OpenImpliesSelected(contactForm, selectedStudent)
      requires ContactButtonOf(student) == ContactStudent
      modifies this`selectedStudent, this`contactForm, this`events
      ensures OpenImpliesSelected(contactForm, selectedStudent)
      ensures selectedStudent == Some(Merge(student, submissions))
      ensures contactForm == WithDraft(Opened(old(contactForm)), if teacher.Some? then reply else DraftFailed)
      ensures teacher.None? ==> events == old(events)
      ensures teacher.Some? ==>
        events == old(events) + [ContactDraftRequested(ContactDraftPayloadOf(courseName, courseId, teacher.value, Merge(student, submissions)))]
    {
      var merged := Merge(student, submissions);
      selectedStudent := Some(merged);
      contactForm := Opened(contactForm);
      GenerateEmailDraft(merged, teacher, reply);
    }

    /** `sendEmail`: a no-op unless a student is selected and the trimmed
        subject and body are non-empty. Otherwise the trimmed draft is sent
        (when the teacher has an email), the dialog closes only on status
        "sent", and the sending flag always ends false. */
    method SendEmail(teacher: Option<Teacher>, reply: SendReply)
      requires OpenImpliesSelected(contactForm, selectedStudent)
      modifies this`contactForm, this`events
      ensures OpenImpliesSelected(contactForm, selectedStudent)
      ensures !SendGuardPasses(old(selectedStudent).Some?, old(contactForm)) ==>
        contactForm == old(contactForm) && events == old(events)
      ensures SendGuardPasses(old(selectedStudent).Some?, old(contactForm)) ==>
        contactForm == AfterSend(old(contactForm), if CanSend(teacher) then reply else SendFailed)
      ensures SendGuardPasses(old(selectedStudent).Some?, old(contactForm)) && !CanSend(teacher) ==>
        events == old(events) + [Notified(EmailFailed)]
      ensures SendGuardPasses(old(selectedStudent).Some?, old(contactForm)) && CanSend(teacher) ==>
        events == old(events)
          + [EmailSendRequested(EmailPayloadOf(teacher.value, courseId, selectedStudent.value, old(contactForm)))]
          + [Notified(if Delivered(reply) then EmailSent(selectedStudent.value.student.name) else EmailFailed)]
    {
      if selectedStudent.None? || IsBlank(contactForm.subject) || IsBlank(contactForm.body) {
        return;
      }
      var form := contactForm;
      var next := form.(isSending := true);
      contactForm := next;
      if !CanSend(teacher) {
        events := events + [Notified(EmailFailed)];
      } else {
        var payload := EmailPayloadOf(teacher.value, courseId, selectedStudent.value, form);
        events := events + [EmailSendRequested(payload)];
        if Delivered(reply) {
          next := next.(isOpen := false);
          events := events + [Notified(EmailSent(selectedStudent.value.student.name))];
        } else {
          events := events + [Notified(EmailFailed)];
        }
      }
      contactForm := next.(isSending := false);
    }

    /** `generateReminderDraft`: asks the backend for a reminder draft about
        `a`. A missing teacher is not an error here: the name falls back to
        "Your Teacher". */
    method GenerateReminderDraft(a: Assignment, teacher: Option<Teacher>, reply: DraftReply)
      requires OpenImpliesSelected(reminderForm, selectedAssignment)
      modifies this`reminderForm, this`events
      ensures OpenImpliesSelected(reminderForm, selectedAssignment)
      ensures reminderForm == WithDraft(old(reminderForm), reply)
      ensures events == old(events) + [ReminderDraftRequested(ReminderDraftPayloadOf(courseName, courseId, teacher, a))]
    {
      reminderForm := reminderForm.(isGenerating := true, error := None);
      var form := reminderForm;
      events := events + [ReminderDraftRequested(ReminderDraftPayloadOf(courseName, courseId, teacher, a))];
      match reply {
        case DraftFailed =>
          form := form.(error := Some(DraftErrorMessage));
        case DraftOk(subject, body) =>
          form := form.(subject := subject.GetOr(""), body := body.GetOr(""));
      }
      reminderForm := form.(isGenerating := false);
    }

    /** The "Send reminder" click of an assignment row: selects the assignment,
        opens a fresh dialog and requests a draft. The button is disabled for
        overdue assignments, so the handler only runs for the others. */
    method HandleReminderClick(a: Assignment, teacher: Option<Teacher>, reply: DraftReply)
      requires OpenImpliesSelected(reminderForm, selectedAssignment)
      requires ReminderEnabled(a)
      modifies this`selectedAssignment, this`reminderForm, this`events
      ensures OpenImpliesSelected(reminderForm, selectedAssignment)
      ensures selectedAssignment == Some(a)
      ensures reminderForm == WithDraft(Opened(old(reminderForm)), reply)
      ensures events == old(events) + [ReminderDraftRequested(ReminderDraftPayloadOf(courseName, courseId, teacher, a))]
    {
      selectedAssignment := Some(a);
      reminderForm := Opened(reminderForm);
      GenerateReminderDraft(a, teacher, reply);
    }

    /** `sendReminder`: the same guard as `sendEmail`; the payload lists every
        roster student, and the dialog closes only on status "sent". */
    method SendReminder(teacher: Option<Teacher>, reply: SendReply)
      requires OpenImpliesSelected(reminderForm, selectedAssignment)
      modifies this`reminderForm, this`events
      ensures OpenImpliesSelected(reminderForm, selectedAssignment)
      ensures !SendGuardPasses(old(selectedAssignment).Some?, old(reminderForm)) ==>
        reminderForm == old(reminderForm) && events == old(events)
      ensures SendGuardPasses(old(selectedAssignment).Some?, old(reminderForm)) ==>
        reminderForm == AfterSend(old(reminderForm), if CanSend(teacher) then reply else SendFailed)
      ensures SendGuardPasses(old(selectedAssignment).Some?, old(reminderForm)) && !CanSend(teacher) ==>
        events == old(events) + [Notified(ReminderFailed)]
      ensures SendGuardPasses(old(selectedAssignment).Some?, old(reminderForm)) && CanSend(teacher) ==>
        events == old(events)
          + [ReminderSendRequested(ReminderPayloadOf(teacher.value.email.value, students, old(reminderForm)))]
          + [Notified(if Delivered(reply) then ReminderSent else ReminderFailed)]
    {
      if selectedAssignment.None? || IsBlank(reminderForm.subject) || IsBlank(reminderForm.body) {
        return;
      }
      var form := reminderForm;
      var next := form.(isSending := true);
      reminderForm := next;
      if !CanSend(teacher) {
        events := events + [Notified(ReminderFailed)];
      } else {
        var payload := ReminderPayloadOf(teacher.value.email.value, students, form);
        events := events + [ReminderSendRequested(payload)];
        if Delivered(reply) {
          next := next.(isOpen := false);
          events := events + [Notified(ReminderSent)];
        } else {
          events := events + [Notified(ReminderFailed)];
        }
      }
      reminderForm := next.(isSending := false);
    }
  }
}

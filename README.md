# PAA-LMS front end, modelled in Dafny

This project models the client-side logic of the PAA-LMS learning-management
front end, a React application. It covers every page and component whose
event handlers and helpers do more than render. Each page that keeps
`useState` variables becomes a Dafny `class`; its fields are those variables
and its methods are the handlers. Pure helpers become functions, and the
properties the pages promise are stated as contracts and lemmas.

The pages modelled are these:

- the student's payment page and the lecturer's payment-announcement page
  (`Finance`, `StudentPayments`, `PaymentAnnouncements`);
- the student and lecturer exam pages (`StudentExams`, `TeacherExams`);
- the authentication context with its role flags (`Auth`);
- the administrator's user dashboard, with its validator and request-body
  builder (`AdminDashboard`);
- the in-memory course and user tables (`CourseManagement`,
  `UserManagement`, on top of `Records`);
- the course catalogue (`CourseCatalog`);
- the student and lecturer study-material browsers (`MaterialTree`,
  `StudentMaterials`, `TeacherMaterials`);
- the course-week materials, the lecturer's course-materials tabs and the
  course list (`CourseWeekMaterials`, `CourseMaterials`, `CoursesList`);
- the security settings page (`Security`).

`Common` holds what JavaScript gives these pages for free:
- truthiness and `||` fallbacks;
- ASCII `toLowerCase`/`toUpperCase`;
- `includes` on strings;
- `filter` by id;
- `parseInt` of a decimal string, with NaN written `None`.

Some inputs come from outside the page:
- the answers of the back end (REST calls);
- the clock (`new Date()`, `Date.now()`);
- the browser's `window.confirm`;
- what `localStorage` holds.

Each of these is a parameter of the method that uses it. A call that fails
is `None`, `Failed` or `false`. The page state after every handler is stated
in full in the handler's `ensures`.

## Model

| member | source | states |
|---|---|---|
| Common.ParseInt | src/pages/Security.tsx:73-78 | `parseInt` is NaN (None) exactly when, after the blanks and an optional sign, no digit follows |
| Common.ParseIntReadsDigitRun | src/pages/Security.tsx:73-78 | blanks, an optional sign, a run of digits and then a non-digit or nothing: the run is read as a number, negated for '-', and the rest ignored ("12px" is 12) |
| Common.TrimStart | src/pages/Security.tsx:73-78 | the text with its leading blanks skipped: never longer, and not starting with a blank |
| Common.TrimStartSkipsBlanks | src/pages/Security.tsx:73-78 | a run of blanks before text that does not start with one is skipped exactly |
| Common.DigitPrefixLen | src/pages/Security.tsx:73-78 | the run of leading digits `parseInt` reads: all digits, and stopped by a non-digit or the end |
| Common.Lower | src/pages/student/CourseCatalog.tsx:110-111 | `toLowerCase`: the same length, each ASCII capital lowered and every other character kept |
| Common.Upper | src/components/StudentPayments.tsx:350 | `toUpperCase`: the same length, each ASCII small letter raised and every other character kept |
| Common.NatToString | src/pages/teacher/Exams.tsx:68 | `toString` of a non-negative number: a non-empty run of decimal digits |
| Common.ParseIntOfNatToString | src/pages/CourseManagement.tsx:291-293 | a number typed in decimal, with or without a leading '-', parses back to that number |
| Common.NatToStringInjective | src/pages/teacher/Exams.tsx:68 | different numbers print as different decimal strings |
| Common.Contains | src/pages/student/CourseCatalog.tsx:109-115 | `includes`: true exactly when the needle occurs at some position of the text |
| Common.EmptyNeedleOccurs | src/pages/student/CourseCatalog.tsx:110 | the empty query is contained in every text |
| Common.Without | src/pages/Security.tsx:91-93 | `filter(x => x.id !== id)`: only records without the id remain; every other record is kept |
| Common.WithoutAppend | src/pages/Security.tsx:91-93 | filtering a concatenation filters each part, so the kept records stay in their order |
| Common.WithoutAbsent | src/pages/Security.tsx:91-93 | deleting an id no record carries leaves the list unchanged |
| Common.Filter | src/pages/student/StudyMaterials.tsx:104-106 | `filter`: every kept element passes the test and comes from the input, and every passing element is kept |
| Common.FilterAppend | src/pages/student/CourseCatalog.tsx:109 | filtering a concatenation filters each part, so the order is preserved |
| Common.FilterAll | src/pages/student/CourseCatalog.tsx:110-114 | when every element passes, filtering returns the list unchanged |
| Records.MaxId | src/pages/CourseManagement.tsx:116-123 | the largest id of a table, at least 0 |
| Records.FreshId | src/pages/CourseManagement.tsx:116-123 | a positive id no record of the table carries |
| Records.AppendFreshKeepsUnique | src/pages/CourseManagement.tsx:116-123 | appending a record with an unused id keeps ids unique |
| Records.WithoutKeepsUnique | src/pages/CourseManagement.tsx:128-130 | deleting by id keeps ids unique |
| Records.UpdateWhere | src/pages/CourseManagement.tsx:107-113 | `map(x => x.id === id ? f(x) : x)`: records with the id are rewritten, the others are kept in place |
| Records.UpdateKeepsUnique | src/pages/UserManagement.tsx:99-104 | an update that keeps ids keeps them unique |
| Finance.PaymentStatusColor | src/components/StudentPayments.tsx:206-215 | 'verified' is success, 'rejected' is error, and any other status is warning (both directions) |
| Finance.StatusOptionColorsDistinct | src/components/PaymentAnnouncements.tsx:285-294 | the three selectable statuses get three different colours |
| StudentPayments.HasSubmittedFor | src/components/StudentPayments.tsx:229-231 | true exactly when some submission belongs to the announcement |
| StudentPayments.FindSubmission | src/components/StudentPayments.tsx:132-134 | `find`: the first submission for the announcement; None exactly when there is none |
| StudentPayments.SubmissionStatus | src/components/StudentPayments.tsx:234-237 | the first matching submission's status; null exactly when `hasSubmittedFor` is false |
| StudentPayments.StatusChipLabel | src/components/StudentPayments.tsx:350 | the status upper-cased; 'PENDING' when there is none; never empty |
| StudentPayments.StatusChipColor | src/components/StudentPayments.tsx:349-351 | a missing status is coloured as 'pending' (warning); otherwise it gets the status colour |
| StudentPayments.SubmitEnabled | src/components/StudentPayments.tsx:889 | enabled exactly when the slip URL and the amount are both non-empty; the URL's shape is not checked |
| StudentPayments.FreshForm | src/components/StudentPayments.tsx:142-148 | an empty slip URL and notes, the amount prefilled from the announcement, the date now; submit starts disabled |
| StudentPayments.Payload | src/components/StudentPayments.tsx:183-186 | the form's four fields plus the announcement's id |
| StudentPayments.SetField | src/components/StudentPayments.tsx:162-168 | only the named field takes the value |
| StudentPayments.StudentPaymentsPage.constructor | src/components/StudentPayments.tsx:71-87 | the page starts loading, with nothing selected and both dialogs closed |
| StudentPayments.StudentPaymentsPage.LoadAnnouncements | src/components/StudentPayments.tsx:98-110 | on success the list is replaced and the error cleared; on failure the error message is set; loading ends |
| StudentPayments.StudentPaymentsPage.LoadMySubmissions | src/components/StudentPayments.tsx:112-128 | on success the submissions are replaced; on failure a snackbar reports it and the page error is untouched |
| StudentPayments.StudentPaymentsPage.OpenSubmitDialog | src/components/StudentPayments.tsx:130-150 | an announcement with a submission opens that submission in the view dialog and never the form; otherwise the form is reset for it and opened |
| StudentPayments.StudentPaymentsPage.CloseDialog | src/components/StudentPayments.tsx:152-155 | the submit dialog closes and the selected announcement is cleared |
| StudentPayments.StudentPaymentsPage.CloseViewDialog | src/components/StudentPayments.tsx:157-160 | the view dialog closes and the selected submission is cleared |
| StudentPayments.StudentPaymentsPage.ChangeForm | src/components/StudentPayments.tsx:162-168 | one named input changes the form field of that name |
| StudentPayments.StudentPaymentsPage.ChangeDate | src/components/StudentPayments.tsx:170-177 | a picked date replaces the payment date; a cleared picker changes nothing |
| StudentPayments.StudentPaymentsPage.Submit | src/components/StudentPayments.tsx:179-200 | with no selected announcement nothing is sent; otherwise the payload is sent, success closes the dialog and failure keeps it, with the matching message |
| PaymentAnnouncements.VisibleControls | src/components/PaymentAnnouncements.tsx:348-364 | create, edit, delete and view-submissions appear for lecturers and none of them for anybody else |
| PaymentAnnouncements.UpdatableSubmissions | src/components/PaymentAnnouncements.tsx:853-861 | every listed submission, whatever its status, is offered "Update Status" |
| PaymentAnnouncements.VerificationFormFor | src/components/PaymentAnnouncements.tsx:247-254 | the form takes the submission's status and its notes, null notes becoming '' |
| PaymentAnnouncements.EditForm | src/components/PaymentAnnouncements.tsx:153-159 | the five editable fields are copied from the announcement |
| PaymentAnnouncements.BlankForm | src/components/PaymentAnnouncements.tsx:162-168 | the four text fields are '' and the due date is now |
| PaymentAnnouncements.SetAnnouncementField | src/components/PaymentAnnouncements.tsx:183-189 | only the named text field takes the value; the due date is kept |
| PaymentAnnouncements.SaveRequest | src/components/PaymentAnnouncements.tsx:208-216 | an update of the edited announcement exactly when one is being edited, otherwise a creation; both carry the form |
| PaymentAnnouncements.SaveMessage | src/components/PaymentAnnouncements.tsx:212-226 | each of the four messages appears exactly for its request kind and outcome |
| PaymentAnnouncements.PaymentAnnouncementsPage.constructor | src/components/PaymentAnnouncements.tsx:83-105 | the page starts loading, all dialogs closed, the verification form on 'pending' |
| PaymentAnnouncements.PaymentAnnouncementsPage.LoadAnnouncements | src/components/PaymentAnnouncements.tsx:116-128 | on success the list is replaced; on failure the error is set; loading ends; nothing else changes |
| PaymentAnnouncements.PaymentAnnouncementsPage.LoadSubmissions | src/components/PaymentAnnouncements.tsx:130-148 | on success the list is replaced, the announcement remembered and the dialog opened; on failure a snackbar reports it |
| PaymentAnnouncements.PaymentAnnouncementsPage.OpenDialog | src/components/PaymentAnnouncements.tsx:150-171 | with an announcement, edit mode on its fields; with none, create mode on a blank form |
| PaymentAnnouncements.PaymentAnnouncementsPage.CloseDialog | src/components/PaymentAnnouncements.tsx:173-175 | the dialog closes |
| PaymentAnnouncements.PaymentAnnouncementsPage.CloseSubmissionsDialog | src/components/PaymentAnnouncements.tsx:177-181 | the dialog closes, the submissions are emptied and the selected announcement is cleared |
| PaymentAnnouncements.PaymentAnnouncementsPage.ChangeForm | src/components/PaymentAnnouncements.tsx:183-189 | one named input changes the announcement form |
| PaymentAnnouncements.PaymentAnnouncementsPage.ChangeDate | src/components/PaymentAnnouncements.tsx:191-198 | a picked date replaces the due date; a cleared picker changes nothing |
| PaymentAnnouncements.PaymentAnnouncementsPage.SaveAnnouncement | src/components/PaymentAnnouncements.tsx:208-228 | sends the request `SaveRequest` names and reports the outcome; the dialog closes only on success |
| PaymentAnnouncements.PaymentAnnouncementsPage.DeleteAnnouncement | src/components/PaymentAnnouncements.tsx:230-245 | nothing without confirmation; otherwise the outcome is reported |
| PaymentAnnouncements.PaymentAnnouncementsPage.OpenVerifyDialog | src/components/PaymentAnnouncements.tsx:247-254 | the submission is selected, its form filled and the dialog opened |
| PaymentAnnouncements.PaymentAnnouncementsPage.CloseVerifyDialog | src/components/PaymentAnnouncements.tsx:256-259 | the dialog closes and the selection is cleared |
| PaymentAnnouncements.PaymentAnnouncementsPage.ChooseStatus | src/components/PaymentAnnouncements.tsx:956-958 | the status can only become 'pending', 'verified' or 'rejected' |
| PaymentAnnouncements.PaymentAnnouncementsPage.ChangeVerificationNotes | src/components/PaymentAnnouncements.tsx:200-206 | only the notes change |
| PaymentAnnouncements.PaymentAnnouncementsPage.VerifySubmission | src/components/PaymentAnnouncements.tsx:261-279 | nothing with no selection; otherwise the form is sent for that submission; on success the dialog closes and a refetch happens only when the selected announcement id is set |
| StudentExams.StatusText | src/pages/student/Exams.tsx:36 | a status is exactly one of 'pending', 'submitted' and 'graded' |
| StudentExams.ExamStatusColor | src/pages/student/Exams.tsx:82-93 | pending is warning, submitted info, graded success and anything else default (both directions) |
| StudentExams.StatusColorsDistinct | src/pages/student/Exams.tsx:82-93 | the three statuses get three different colours, none the default |
| StudentExams.GradeCell | src/pages/student/Exams.tsx:126 | a missing or empty grade is shown as '-' |
| StudentExams.MarkSubmitted | src/pages/student/Exams.tsx:71-75 | only exams with the id become 'submitted', their other fields kept; every other exam is unchanged |
| StudentExams.CountStatus | src/pages/student/Exams.tsx:36 | the number of exams in a status is at most the number of exams |
| StudentExams.SubmitMovesOnePending | src/pages/student/Exams.tsx:69-80 | submitting a pending exam of a table with unique ids moves exactly one exam from pending to submitted |
| StudentExams.MarkAbsentIsIdentity | src/pages/student/Exams.tsx:71-75 | marking an id no exam carries changes nothing |
| StudentExams.MarkSubmittedIdempotent | src/pages/student/Exams.tsx:71-75 | marking the same exam twice is the same as once |
| StudentExams.StudentExamsPage.constructor | src/pages/student/Exams.tsx:42-67 | the page starts on its exams with the dialog closed and nothing selected |
| StudentExams.StudentExamsPage.OpenUpload | src/pages/student/Exams.tsx:135-146 | the upload action, offered only for pending exams, selects the exam and opens the dialog |
| StudentExams.StudentExamsPage.ChangeSubmissionUrl | src/pages/student/Exams.tsx:177 | the URL field takes the typed text |
| StudentExams.StudentExamsPage.CancelDialog | src/pages/student/Exams.tsx:156-160 | the dialog closes, the selection and URL are cleared, and the exams are untouched |
| StudentExams.StudentExamsPage.SubmitExam | src/pages/student/Exams.tsx:69-80 | with no selection nothing changes; otherwise only the selected exam becomes submitted and the dialog, URL and selection are reset |
| TeacherExams.StatusText | src/pages/teacher/Exams.tsx:38 | a status is exactly one of 'active', 'completed' and 'draft' |
| TeacherExams.ExamStatusColor | src/pages/teacher/Exams.tsx:84-95 | active is success, completed info, draft warning and anything else default (both directions) |
| TeacherExams.NewExam | src/pages/teacher/Exams.tsx:67-72 | the form's five fields, status 'active', no submissions, and an id that reads back as the creation time |
| TeacherExams.NewExamIdsDistinct | src/pages/teacher/Exams.tsx:68 | exams created at different instants get different ids |
| TeacherExams.TeacherExamsPage.constructor | src/pages/teacher/Exams.tsx:43-64 | the page starts on its exams with the dialog closed and a blank form |
| TeacherExams.TeacherExamsPage.OpenCreateDialog | src/pages/teacher/Exams.tsx:106 | the dialog opens |
| TeacherExams.TeacherExamsPage.CloseDialog | src/pages/teacher/Exams.tsx:196 | the dialog closes and the form is kept |
| TeacherExams.TeacherExamsPage.ChangeForm | src/pages/teacher/Exams.tsx:163-190 | the form takes the edited value |
| TeacherExams.TeacherExamsPage.CreateExam | src/pages/teacher/Exams.tsx:66-82 | exactly one exam is appended at the end and the existing exams are kept; the dialog closes and every field is reset to '' |
| Auth.Flags | src/context/AuthContext.tsx:165-168 | authenticated exactly when a user is set; each role flag exactly when the user's role is that string |
| Auth.RolesExclusive | src/context/AuthContext.tsx:166-168 | at most one role flag holds, a role implies being authenticated, and logged out means no role |
| Auth.FallbackRole | src/context/AuthContext.tsx:122-125 | 'lecturer', 'student' and 'admin' keep their own name as the role; any other username becomes 'student' |
| Auth.FindByUsername | src/context/AuthContext.tsx:103 | the first fetched user with exactly this username; None exactly when there is none |
| Auth.DummyUser | src/context/AuthContext.tsx:115-129 | id 1, the typed username, `username@example.com`, empty names, the fallback role, active, stamped now |
| Auth.LoginUser | src/context/AuthContext.tsx:99-133 | the matching fetched user when there is one, otherwise the stand-in account |
| Auth.ErrorText | src/context/AuthContext.tsx:136 | the server's detail when non-empty, else the fallback message |
| Auth.UseAuth | src/context/AuthContext.tsx:47-53 | fails exactly when there is no provider, otherwise returns the context |
| Auth.AuthProvider.constructor | src/context/AuthContext.tsx:60-62 | nobody logged in, loading, no error |
| Auth.AuthProvider.Value | src/context/AuthContext.tsx:165-178 | what the provider exposes: the user, the flags derived from it, loading and error |
| Auth.AuthProvider.RestoreSession | src/context/AuthContext.tsx:65-89 | a non-empty token and a stored user restore that user; loading always ends |
| Auth.AuthProvider.Login | src/context/AuthContext.tsx:91-141 | a rejected login records the error and keeps the user; an accepted one sets the user `LoginUser` names |
| Auth.AuthProvider.Logout | src/context/AuthContext.tsx:143-147 | the user is cleared, so every flag is false |
| Auth.AuthProvider.Register | src/context/AuthContext.tsx:149-163 | fails exactly when refused; a failure records the error and is passed back to the caller with that text; loading ends |
| Auth.LoginYieldsOneRole | src/context/AuthContext.tsx:114-129 | the stand-in account always has exactly one role |
| AdminDashboard.Get | src/pages/admin/AdminDashboard.tsx:225-249 | a form field, None exactly when it is undefined |
| AdminDashboard.Fails | src/pages/admin/AdminDashboard.tsx:229-246 | the rule of each field: email, username and both names must be given; password and confirmation only in add mode; enrolment number and programme for students; department for lecturers |
| AdminDashboard.Acceptable | src/pages/admin/AdminDashboard.tsx:225-249 | a form that passes every rule of `validateForm` |
| AdminDashboard.BasicFailures | src/pages/admin/AdminDashboard.tsx:229-236 | exactly the basic fields that fail their rule: email, username and both names always; password and confirmation in add mode only |
| AdminDashboard.RoleFailures | src/pages/admin/AdminDashboard.tsx:239-246 | exactly the role fields that fail: enrolment number and programme for students, department for lecturers, none for administrators |
| AdminDashboard.FailingFields | src/pages/admin/AdminDashboard.tsx:225-249 | `validateForm`'s errors: exactly the fields that fail their rule |
| AdminDashboard.ErrorRecord | src/pages/admin/AdminDashboard.tsx:225-249 | one entry per failing field, each with its own message |
| AdminDashboard.NoFailureIffAcceptable | src/pages/admin/AdminDashboard.tsx:248 | validation passes exactly when the form is acceptable (both directions) |
| AdminDashboard.EditIgnoresPassword | src/pages/admin/AdminDashboard.tsx:231-234 | in edit mode the password and its confirmation do not affect any rule |
| AdminDashboard.Pick | src/pages/admin/AdminDashboard.tsx:270-286 | a profile object holds exactly the defined fields among its keys |
| AdminDashboard.Fields | src/pages/admin/AdminDashboard.tsx:264-267 | exactly the defined form fields among the keys, as top-level body fields, and no profile |
| AdminDashboard.ProfileKeepsFields | src/pages/admin/AdminDashboard.tsx:270-286 | adding a profile leaves the top-level fields as they were |
| AdminDashboard.IsPayloadFor | src/pages/admin/AdminDashboard.tsx:259-286 | the request body: the defined base fields, the password only in add mode, and a profile only for its role |
| AdminDashboard.BuildPayload | src/pages/admin/AdminDashboard.tsx:264-286 | the body carries the defined base fields, the password in add mode only, a student profile only for students and a lecturer profile only for lecturers |
| AdminDashboard.TextValue | src/pages/admin/AdminDashboard.tsx:169-181 | a missing profile field stays undefined |
| AdminDashboard.Assign | src/pages/admin/AdminDashboard.tsx:169-181 | assigning undefined leaves the field as it was; the other fields are kept |
| AdminDashboard.WithStudentProfile | src/pages/admin/AdminDashboard.tsx:170-174 | the student profile's fields are written over the form; the others are kept |
| AdminDashboard.WithLecturerProfile | src/pages/admin/AdminDashboard.tsx:177-181 | the lecturer profile's fields are written over the form; the others are kept |
| AdminDashboard.EditFormKeepsAccount | src/pages/admin/AdminDashboard.tsx:158-167 | the edit form carries the account's own fields and an empty password and confirmation |
| AdminDashboard.EditForm | src/pages/admin/AdminDashboard.tsx:153-186 | the form the edit dialog opens with: the account's fields, no password, and the profile of its role when it has one |
| AdminDashboard.ShowsStudentProfile | src/pages/admin/AdminDashboard.tsx:170 | the student profile is copied exactly for a student that has one |
| AdminDashboard.ShowsLecturerProfile | src/pages/admin/AdminDashboard.tsx:177 | the lecturer profile is copied exactly for a lecturer that has one |
| AdminDashboard.EditFormStudentProfile | src/pages/admin/AdminDashboard.tsx:170-174 | the student profile fields are filled only for a student with a profile |
| AdminDashboard.EditFormLecturerProfile | src/pages/admin/AdminDashboard.tsx:177-181 | the lecturer profile fields are filled only for a lecturer with a profile |
| AdminDashboard.EditFormValidatesWithoutPassword | src/pages/admin/AdminDashboard.tsx:231-234 | an administrator's edit form validates in edit mode and fails in add mode, for lack of a password |
| AdminDashboard.SelectValue | src/pages/admin/AdminDashboard.tsx:213 | 'true' and 'false' become booleans; every other value passes through as text |
| AdminDashboard.ClearError | src/pages/admin/AdminDashboard.tsx:199-205 | only the edited field's error is blanked; the others are intact |
| AdminDashboard.DeleteEnabled | src/pages/admin/AdminDashboard.tsx:571 | the delete button is enabled exactly for accounts that are not administrators |
| AdminDashboard.RoleSelectEnabled | src/pages/admin/AdminDashboard.tsx:686 | the role can be chosen only when adding an account |
| AdminDashboard.AdminDashboardPage.constructor | src/pages/admin/AdminDashboard.tsx:90-121 | the add form starts with role 'student' and active; no dialog is open |
| AdminDashboard.AdminDashboardPage.ShowsTable | src/pages/admin/AdminDashboard.tsx:457-466 | the table and its controls are shown only to administrators |
| AdminDashboard.AdminDashboardPage.LoadUsers | src/pages/admin/AdminDashboard.tsx:128-143 | on success the users are replaced and the error cleared; on failure the error message is set; loading ends |
| AdminDashboard.AdminDashboardPage.OpenAddDialog | src/pages/admin/AdminDashboard.tsx:145-151 | add mode, the initial form, no errors, no selection, dialog open |
| AdminDashboard.AdminDashboardPage.OpenEditDialog | src/pages/admin/AdminDashboard.tsx:153-186 | edit mode on the user, with the form `EditForm` gives and no errors |
| AdminDashboard.AdminDashboardPage.CloseDialog | src/pages/admin/AdminDashboard.tsx:188-190 | the dialog closes |
| AdminDashboard.AdminDashboardPage.InputChange | src/pages/admin/AdminDashboard.tsx:192-206 | the named field takes the value and only its own error is blanked |
| AdminDashboard.AdminDashboardPage.SelectChange | src/pages/admin/AdminDashboard.tsx:209-223 | the named field takes the converted value and only its own error is blanked |
| AdminDashboard.AdminDashboardPage.Submit | src/pages/admin/AdminDashboard.tsx:252-322 | the errors are exactly the failing fields; an unacceptable form sends nothing and leaves the alert and dialog alone; otherwise a creation (add) or an update of the selected user (edit) carries a body as `BuildPayload` states, and the outcome is reported as `IsSaveReport` says |
| AdminDashboard.AdminDashboardPage.IsSaveReport | src/pages/admin/AdminDashboard.tsx:297-320 | the alert opens; success unless a sent request was refused; 'User created successfully!' or 'User updated successfully!' by request kind, the message kept when nothing was sent, 'Failed to save user. Please try again.' on refusal; the dialog closes exactly on success |
| AdminDashboard.AdminDashboardPage.ReportSave | src/pages/admin/AdminDashboard.tsx:297-320 | ends a save as `IsSaveReport` states |
| AdminDashboard.AdminDashboardPage.AlertClose | src/pages/admin/AdminDashboard.tsx:357-359 | the alert closes |
| AdminDashboard.AdminDashboardPage.OpenDeleteDialog | src/pages/admin/AdminDashboard.tsx:324-327 | only a non-administrator can be picked for deletion (the button is disabled for administrators) |
| AdminDashboard.AdminDashboardPage.CloseDeleteDialog | src/pages/admin/AdminDashboard.tsx:329-332 | the pending deletion is dropped |
| AdminDashboard.AdminDashboardPage.DeleteUser | src/pages/admin/AdminDashboard.tsx:334-355 | nothing changes without a pending deletion, alert text and severity included; otherwise its id is sent and the outcome reported, the dialog closing on success |
| CourseManagement.FormFor | src/pages/CourseManagement.tsx:74-99 | a course's editable fields, or the blank form with status 'Active' and 50 places |
| CourseManagement.Merge | src/pages/CourseManagement.tsx:109-111 | the form's fields over the course; its id and enrolment are kept |
| CourseManagement.NewCourse | src/pages/CourseManagement.tsx:117-121 | the form's fields, the given id and no enrolment |
| CourseManagement.UpdateCourse | src/pages/CourseManagement.tsx:107-113 | the course with the id takes the form; its id and enrolment, and every other course, are unchanged |
| CourseManagement.DeleteCourse | src/pages/CourseManagement.tsx:128-130 | every course with the id goes; the others are kept |
| CourseManagement.AddCourseAsWritten | src/pages/CourseManagement.tsx:116-123 | the add branch as written: one course appended with the form, nobody enrolled and id `length + 1`; the others kept |
| CourseManagement.AddAsWrittenKeepsUniqueWhileIdsWithinCount | src/pages/CourseManagement.tsx:116-123 | while no id exceeds the number of courses, as before any deletion, the as-written id is unused and ids stay unique |
| CourseManagement.AddAfterDeleteDuplicatesId | src/pages/CourseManagement.tsx:116-123 | with `length + 1` ids, deleting course 1 of the demo table and then adding gives two courses with id 2 |
| CourseManagement.DeleteFirstDemoCourse | src/pages/CourseManagement.tsx:128-130 | deleting course 1 of the demo table leaves course 2 alone |
| CourseManagement.NextCourseId | src/pages/CourseManagement.tsx:116-123 | a positive id no course carries |
| CourseManagement.AddCourse | src/pages/CourseManagement.tsx:116-123 | exactly one course appended, with the form, no enrolment and an unused id; the others are kept |
| CourseManagement.OperationsKeepIdsUnique | src/pages/CourseManagement.tsx:106-130 | add, update and delete keep course ids unique |
| CourseManagement.ActiveCount | src/pages/CourseManagement.tsx:201 | the number of 'Active' courses, at most the number of courses |
| CourseManagement.TotalEnrolled | src/pages/CourseManagement.tsx:214 | the "Total Enrollments" card: the sum of the enrolments (its properties are in `StatsAppend`, `AddCourseStats` and `UpdateKeepsEnrolment`) |
| CourseManagement.StatsAppend | src/pages/CourseManagement.tsx:201-214 | both statistics add up over concatenation |
| CourseManagement.AddCourseStats | src/pages/CourseManagement.tsx:214 | adding a course leaves the enrolment total as it was and counts it as active exactly when its status is 'Active' |
| CourseManagement.UpdateKeepsEnrolment | src/pages/CourseManagement.tsx:107-113 | an update leaves the enrolment total as it was |
| CourseManagement.CapacityChip | src/pages/CourseManagement.tsx:143 | error exactly when a capacity is set and the enrolment reaches it, else success |
| CourseManagement.StatusFromSwitch | src/pages/CourseManagement.tsx:275-280 | checked gives 'Active' and unchecked 'Inactive' (both directions) |
| CourseManagement.SwitchChecked | src/pages/CourseManagement.tsx:275 | the switch shows as on exactly for status 'Active' |
| CourseManagement.CourseManagementPage.constructor | src/pages/CourseManagement.tsx:33-69 | the two demo courses, no selection, a blank form |
| CourseManagement.CourseManagementPage.OpenDialog | src/pages/CourseManagement.tsx:74-99 | the course is selected and its form opened, or the blank form when there is none |
| CourseManagement.CourseManagementPage.CloseDialog | src/pages/CourseManagement.tsx:101-104 | the dialog closes and the selection is cleared |
| CourseManagement.CourseManagementPage.ChangeText | src/pages/CourseManagement.tsx:246-311 | the text fields take the typed values |
| CourseManagement.CourseManagementPage.ToggleStatus | src/pages/CourseManagement.tsx:275-280 | the status follows the switch |
| CourseManagement.CourseManagementPage.ChangeMaxStudents | src/pages/CourseManagement.tsx:291-293 | the capacity is `parseInt` of the text, unset when it is not a number |
| CourseManagement.CourseManagementPage.Submit | src/pages/CourseManagement.tsx:106-126 | an update of the selected course, or an addition under the corrected id (one past the largest, not `length + 1`); ids stay unique and the dialog closes |
| CourseManagement.CourseManagementPage.Delete | src/pages/CourseManagement.tsx:128-130 | the courses with the id go; ids stay unique |
| UserManagement.FormFor | src/pages/UserManagement.tsx:71-90 | a user's name, email, role and permissions, or all of them empty |
| UserManagement.Merge | src/pages/UserManagement.tsx:101-102 | the form's fields over the user; its id and status are kept |
| UserManagement.NewUser | src/pages/UserManagement.tsx:108-112 | the form's fields, the given id and status 'Active' |
| UserManagement.UpdateUser | src/pages/UserManagement.tsx:99-104 | only the user with the id takes the form; every other user is unchanged |
| UserManagement.DeleteUser | src/pages/UserManagement.tsx:119-121 | the users with the id go; the others are kept |
| UserManagement.AddUserAsWritten | src/pages/UserManagement.tsx:107-114 | the add branch as written: one active user appended with the form and id `length + 1`; the others kept |
| UserManagement.AddAsWrittenKeepsUniqueWhileIdsWithinCount | src/pages/UserManagement.tsx:107-114 | while no id exceeds the number of users, as before any deletion, the as-written id is unused and ids stay unique |
| UserManagement.AddAfterDeleteDuplicatesId | src/pages/UserManagement.tsx:107-114 | with `length + 1` ids, deleting user 2 of the demo table and then adding gives two users with id 3 |
| UserManagement.DeleteSecondDemoUser | src/pages/UserManagement.tsx:119-121 | deleting user 2 of the demo table leaves users 1 and 3, in order |
| UserManagement.NextUserId | src/pages/UserManagement.tsx:107-114 | a positive id no user carries |
| UserManagement.AddUser | src/pages/UserManagement.tsx:107-114 | exactly one user appended, active, with the form and an unused id; the others are kept |
| UserManagement.OperationsKeepIdsUnique | src/pages/UserManagement.tsx:97-121 | add, update and delete keep user ids unique |
| UserManagement.RemoveAll | src/pages/UserManagement.tsx:234 | every occurrence of the permission goes; every other permission is kept |
| UserManagement.RemoveAbsent | src/pages/UserManagement.tsx:234 | removing an absent permission changes nothing |
| UserManagement.RemoveAllAppend | src/pages/UserManagement.tsx:234 | removal distributes over concatenation, so the kept order is preserved |
| UserManagement.TogglePermission | src/pages/UserManagement.tsx:231-235 | checking appends the permission; unchecking removes every occurrence; afterwards it is held exactly when checked |
| UserManagement.Checked | src/pages/UserManagement.tsx:230 | a permission's checkbox shows as checked exactly when the form holds it |
| UserManagement.CheckThenUncheck | src/pages/UserManagement.tsx:231-235 | checking and then unchecking a permission not yet held restores the list |
| UserManagement.UserManagementPage.constructor | src/pages/UserManagement.tsx:30-69 | the three demo users, no selection, a blank form |
| UserManagement.UserManagementPage.OpenDialog | src/pages/UserManagement.tsx:71-90 | the user is selected and the form filled from it, or emptied |
| UserManagement.UserManagementPage.CloseDialog | src/pages/UserManagement.tsx:92-95 | the dialog closes and the selection is cleared |
| UserManagement.UserManagementPage.ChangeText | src/pages/UserManagement.tsx:197-211 | the text fields take the typed values |
| UserManagement.UserManagementPage.ChangePermission | src/pages/UserManagement.tsx:231-235 | the checkbox toggles the permission; it is held afterwards exactly when checked |
| UserManagement.UserManagementPage.Submit | src/pages/UserManagement.tsx:97-117 | an update of the selected user, or an addition under the corrected id (one past the largest, not `length + 1`); ids stay unique and the dialog closes |
| UserManagement.UserManagementPage.Delete | src/pages/UserManagement.tsx:119-121 | the users with the id go; ids stay unique |
| CourseCatalog.FilteredCourses | src/pages/student/CourseCatalog.tsx:109-115 | a course is listed exactly when the query occurs, case-insensitively, in its name or instructor and the subject and level filters are 'All' or equal |
| CourseCatalog.MatchesSearch | src/pages/student/CourseCatalog.tsx:110-111 | the query occurs, ignoring case, in the course name or the instructor |
| CourseCatalog.Matches | src/pages/student/CourseCatalog.tsx:109-115 | the search matches, and the subject and level filters are 'All' or equal to the course's |
| CourseCatalog.FilterKeepsOrder | src/pages/student/CourseCatalog.tsx:109 | the listed courses are an order-preserving sub-list |
| CourseCatalog.NoFilterListsAll | src/pages/student/CourseCatalog.tsx:110-114 | an empty query with both filters on 'All' lists every course |
| CourseCatalog.EnrollLabel | src/pages/student/CourseCatalog.tsx:237-239 | 'Full' exactly when enrolment has reached capacity, otherwise 'Enroll Now' |
| CourseCatalog.EnrollDisabled | src/pages/student/CourseCatalog.tsx:237 | the enrol button is disabled exactly when enrolment has reached capacity |
| CourseCatalog.CourseCatalogPage.constructor | src/pages/student/CourseCatalog.tsx:81-85 | no query, both filters 'All', so every course is listed |
| CourseCatalog.CourseCatalogPage.ChangeSearch | src/pages/student/CourseCatalog.tsx:87-89 | the query takes the typed text |
| CourseCatalog.CourseCatalogPage.ChangeSubject | src/pages/student/CourseCatalog.tsx:91-93 | the subject filter takes the chosen value |
| CourseCatalog.CourseCatalogPage.ChangeLevel | src/pages/student/CourseCatalog.tsx:95-97 | the level filter takes the chosen value |
| CourseCatalog.CourseCatalogPage.EnrollClick | src/pages/student/CourseCatalog.tsx:99-102 | the course is selected and the dialog opens |
| CourseCatalog.CourseCatalogPage.EnrollConfirm | src/pages/student/CourseCatalog.tsx:104-107 | only the dialog closes; no course data changes |
| CourseCatalog.CourseCatalogPage.CancelEnroll | src/pages/student/CourseCatalog.tsx:265 | the dialog closes |
| MaterialTree.Lookup | src/pages/student/StudyMaterials.tsx:86 | the entry of that name in a folder; None exactly when there is none |
| MaterialTree.LookupEntry | src/pages/student/StudyMaterials.tsx:86 | in a folder with unique names, an entry's name finds that very entry |
| MaterialTree.Resolve | src/pages/student/StudyMaterials.tsx:83-89 | following the path key by key from the root; the empty path gives the root |
| MaterialTree.CurrentContent | src/pages/student/StudyMaterials.tsx:83-89 | the loop `getCurrentContent` runs computes exactly `Resolve` of the path |
| MaterialTree.EntriesAt | src/pages/student/StudyMaterials.tsx:83-89 | the entries of the folder a valid path leads to |
| MaterialTree.ResolveAppend | src/pages/student/StudyMaterials.tsx:70-72 | extending a folder path by an entry's name leads to that entry |
| MaterialTree.PrefixIsFolderPath | src/pages/student/StudyMaterials.tsx:79-81 | every proper prefix of a resolving path leads to a folder |
| MaterialTree.ResolveWellFormed | src/pages/student/StudyMaterials.tsx:83-89 | a node reached in a well-formed tree is well-formed |
| MaterialTree.DescendIntoEntry | src/pages/student/StudyMaterials.tsx:164-170 | clicking a shown folder leads the path to that folder |
| MaterialTree.Breadcrumb | src/pages/student/StudyMaterials.tsx:79-81 | the first `index + 1` names of the path (all of it when shorter) |
| MaterialTree.BreadcrumbIsFolderPath | src/pages/student/StudyMaterials.tsx:79-81 | a breadcrumb of a folder path, and the empty path, lead to folders |
| MaterialTree.FilteredContent | src/pages/student/StudyMaterials.tsx:104-106 | the entries whose name contains the query case-insensitively, each from the folder, and all such entries |
| MaterialTree.EmptySearchShowsAll | src/pages/student/StudyMaterials.tsx:104-106 | an empty query shows every entry |
| MaterialTree.Spread | src/pages/teacher/StudyMaterials.tsx:242 | `{ name, ...content[0] }`: the first item with its own name, or just the entry's name for an empty list |
| MaterialTree.EntryClick | src/pages/student/StudyMaterials.tsx:164-170 | a folder is descended into by its name; a list opens its first item |
| StudentMaterials.CompletionChip | src/pages/student/StudyMaterials.tsx:180-185 | 'Completed' in success exactly when completed, otherwise 'Not Completed' in default |
| StudentMaterials.StudentMaterialsPage.constructor | src/pages/student/StudyMaterials.tsx:61-64 | the page opens at the root with no query and no selection |
| StudentMaterials.StudentMaterialsPage.Content | src/pages/student/StudyMaterials.tsx:83-89 | the page's path always leads to a folder, whose entries are shown |
| StudentMaterials.StudentMaterialsPage.ChangeSearch | src/pages/student/StudyMaterials.tsx:66-68 | the query takes the typed text |
| StudentMaterials.StudentMaterialsPage.FolderClick | src/pages/student/StudyMaterials.tsx:70-72 | the folder's name is appended to the path |
| StudentMaterials.StudentMaterialsPage.FileClick | src/pages/student/StudyMaterials.tsx:74-77 | the material is selected and the dialog opens |
| StudentMaterials.StudentMaterialsPage.ClickEntry | src/pages/student/StudyMaterials.tsx:164-170 | a folder is descended into and the path leads to it; a list opens its first item |
| StudentMaterials.StudentMaterialsPage.BreadcrumbClick | src/pages/student/StudyMaterials.tsx:79-81 | the path is cut to its first `index + 1` names and still leads to a folder |
| StudentMaterials.StudentMaterialsPage.Home | src/pages/student/StudyMaterials.tsx:138 | back to the root, whose entries are shown |
| StudentMaterials.StudentMaterialsPage.CloseDialog | src/pages/student/StudyMaterials.tsx:219 | the dialog closes |
| TeacherMaterials.AccessColor | src/pages/teacher/StudyMaterials.tsx:255-258 | success exactly for 'public', otherwise warning |
| TeacherMaterials.DialogTitle | src/pages/teacher/StudyMaterials.tsx:271 | 'Material Details' exactly when a material is selected, 'Create New Folder' exactly when none is |
| TeacherMaterials.MenuSelection | src/pages/teacher/StudyMaterials.tsx:242 | a folder gives just its name; a list gives its first item with the item's own name |
| TeacherMaterials.TeacherMaterialsPage.constructor | src/pages/teacher/StudyMaterials.tsx:73-81 | the page opens at the root with a blank form, public access |
| TeacherMaterials.TeacherMaterialsPage.Content | src/pages/teacher/StudyMaterials.tsx:121-127 | the page's path always leads to a folder, whose entries are shown |
| TeacherMaterials.TeacherMaterialsPage.OpenDialog | src/pages/teacher/StudyMaterials.tsx:90-92 | the dialog opens |
| TeacherMaterials.TeacherMaterialsPage.CloseDialog | src/pages/teacher/StudyMaterials.tsx:94-101 | the dialog closes and the form is reset to an empty name and description with public access |
| TeacherMaterials.TeacherMaterialsPage.ChangeForm | src/pages/teacher/StudyMaterials.tsx:280-298 | the form takes the edited values |
| TeacherMaterials.TeacherMaterialsPage.MenuClick | src/pages/teacher/StudyMaterials.tsx:103-106 | the menu opens on the entry's selection |
| TeacherMaterials.TeacherMaterialsPage.MenuClose | src/pages/teacher/StudyMaterials.tsx:108-111 | both the anchor and the selection are cleared |
| TeacherMaterials.TeacherMaterialsPage.FolderClick | src/pages/teacher/StudyMaterials.tsx:113-115 | the folder's name is appended to the path |
| TeacherMaterials.TeacherMaterialsPage.ClickEntry | src/pages/teacher/StudyMaterials.tsx:221-228 | a folder is descended into and the path leads to it; a list opens details of its first item |
| TeacherMaterials.TeacherMaterialsPage.BreadcrumbClick | src/pages/teacher/StudyMaterials.tsx:117-119 | the path is cut to its first `index + 1` names and still leads to a folder |
| TeacherMaterials.TeacherMaterialsPage.Home | src/pages/teacher/StudyMaterials.tsx:175 | back to the root, whose entries are shown |
| CourseWeekMaterials.EditForm | src/components/CourseWeekMaterials.tsx:132-142 | the material's four fields |
| CourseWeekMaterials.SetField | src/components/CourseWeekMaterials.tsx:149-163 | only the named field takes the value |
| CourseWeekMaterials.Capitalize | src/components/CourseWeekMaterials.tsx:258 | the first character upper-cased and the rest kept |
| CourseWeekMaterials.TypeLabel | src/components/CourseWeekMaterials.tsx:250-260 | 'link' is 'Web Link', 'drive_url' and 'gdrive' are 'Google Drive', any other type is capitalised |
| CourseWeekMaterials.ContentLabel | src/components/CourseWeekMaterials.tsx:408 | 'URL' exactly when the type is 'link', otherwise 'Google Drive Link' |
| CourseWeekMaterials.Controls | src/components/CourseWeekMaterials.tsx:293 | add, edit and delete appear for lecturers and none for anybody else |
| CourseWeekMaterials.SubmitRequest | src/components/CourseWeekMaterials.tsx:169-192 | add sends the form with the week's id; edit sends the form to the current material's id |
| CourseWeekMaterials.SavedMessage | src/components/CourseWeekMaterials.tsx:182-195 | the success message for each mode |
| CourseWeekMaterials.CourseWeekMaterialsPage.constructor | src/components/CourseWeekMaterials.tsx:64-81 | the page starts loading, add mode, a blank form |
| CourseWeekMaterials.CourseWeekMaterialsPage.FetchMaterials | src/components/CourseWeekMaterials.tsx:92-118 | the week is stored when it arrives; the materials are replaced only when both calls succeed; otherwise the error is set; loading ends |
| CourseWeekMaterials.CourseWeekMaterialsPage.Mount | src/components/CourseWeekMaterials.tsx:120-124 | the fetch runs only for a non-zero week id |
| CourseWeekMaterials.CourseWeekMaterialsPage.OpenAddDialog | src/components/CourseWeekMaterials.tsx:126-130 | add mode with a reset form |
| CourseWeekMaterials.CourseWeekMaterialsPage.OpenEditDialog | src/components/CourseWeekMaterials.tsx:132-142 | edit mode on the material, recorded as current, with its four fields |
| CourseWeekMaterials.CourseWeekMaterialsPage.CloseDialog | src/components/CourseWeekMaterials.tsx:144-147 | the dialog closes and the form is reset |
| CourseWeekMaterials.CourseWeekMaterialsPage.ChangeField | src/components/CourseWeekMaterials.tsx:149-163 | the named field takes the value |
| CourseWeekMaterials.CourseWeekMaterialsPage.Submit | src/components/CourseWeekMaterials.tsx:165-208 | sends the request for the mode; success closes and resets the dialog; failure keeps it; the alert reports the outcome |
| CourseWeekMaterials.CourseWeekMaterialsPage.DeleteMaterial | src/components/CourseWeekMaterials.tsx:210-232 | nothing without confirmation; otherwise the id is sent and the outcome reported |
| CourseWeekMaterials.CourseWeekMaterialsPage.AlertClose | src/components/CourseWeekMaterials.tsx:234-236 | the alert closes |
| CourseMaterials.InsertWeek | src/pages/teacher/CourseMaterials.tsx:99-103 | one week inserted: the multiset grows by that week |
| CourseMaterials.ConsSorted | src/pages/teacher/CourseMaterials.tsx:99-103 | a week numbered no higher than an ordered list may go in front of it |
| CourseMaterials.InsertWeekSorted | src/pages/teacher/CourseMaterials.tsx:99-103 | insertion into ordered weeks keeps them ordered |
| CourseMaterials.SortWeeks | src/pages/teacher/CourseMaterials.tsx:99-103 | the weeks in ascending week number, a permutation of the fetched list |
| CourseMaterials.SortWeeksOfSorted | src/pages/teacher/CourseMaterials.tsx:99-103 | weeks that already arrive in order are left as they are |
| CourseMaterials.A11yProps | src/pages/teacher/CourseMaterials.tsx:57-62 | id `course-week-tab-i` and aria-controls `course-week-tabpanel-i` |
| CourseMaterials.TabPanel | src/pages/teacher/CourseMaterials.tsx:41-55 | the children are shown exactly when the value equals the index, and the panel is hidden exactly otherwise |
| CourseMaterials.OnePanelShown | src/pages/teacher/CourseMaterials.tsx:52 | at most one panel shows its children |
| CourseMaterials.TabAndPanelLinked | src/pages/teacher/CourseMaterials.tsx:47-49 | a tab and the panel of the same index name each other |
| CourseMaterials.TabIdsDistinct | src/pages/teacher/CourseMaterials.tsx:57-62 | the index reads back from a tab's id, so different tabs have different ids |
| CourseMaterials.RenderContent | src/pages/teacher/CourseMaterials.tsx:121-167 | spinner while loading, then the error, then "not found" for a null course, then "no weeks", then the tabs |
| CourseMaterials.CourseMaterialsPage.constructor | src/pages/teacher/CourseMaterials.tsx:68-72 | the page starts loading on the first tab |
| CourseMaterials.CourseMaterialsPage.FetchCourseData | src/pages/teacher/CourseMaterials.tsx:74-115 | a missing or empty token or course id sets the error and makes no call; otherwise the course and then its sorted weeks are loaded; loading ends |
| CourseMaterials.CourseMaterialsPage.TabChange | src/pages/teacher/CourseMaterials.tsx:117-119 | the selected tab takes the new value |
| CourseMaterials.MissingInfoShowsError | src/pages/teacher/CourseMaterials.tsx:79-83 | a missing token or course id ends on the error alert |
| CoursesList.FetchSource | src/components/CoursesList.tsx:60-62 | lecturers fetch their own courses and everybody else all courses (both directions) |
| CoursesList.DescriptionOrEmpty | src/components/CoursesList.tsx:77 | a null description becomes '' |
| CoursesList.FormFor | src/components/CoursesList.tsx:72-87 | a course's title and description, or both empty |
| CoursesList.FormForRoundTrip | src/components/CoursesList.tsx:72-78 | a course saved from its own form opens on that same form |
| CoursesList.SetField | src/components/CoursesList.tsx:93-99 | only the named field takes the value |
| CoursesList.CardDescription | src/components/CoursesList.tsx:186 | the description when non-empty, otherwise the placeholder |
| CoursesList.Heading | src/components/CoursesList.tsx:160-171 | 'My Courses' for lecturers and 'Available Courses' otherwise |
| CoursesList.DialogTitle | src/components/CoursesList.tsx:216 | 'Edit Course' while editing, 'Add New Course' otherwise |
| CoursesList.Controls | src/components/CoursesList.tsx:160-171 | add, edit and delete appear for lecturers and none for anybody else |
| CoursesList.SubmitRequest | src/components/CoursesList.tsx:103-108 | an update of the edited course exactly when one is being edited, otherwise a creation |
| CoursesList.SubmitMessage | src/components/CoursesList.tsx:101-120 | the message and severity for each request kind and outcome |
| CoursesList.CoursesListPage.constructor | src/components/CoursesList.tsx:37-53 | the page starts loading, with an empty form and no course being edited |
| CoursesList.CoursesListPage.FetchCourses | src/components/CoursesList.tsx:55-70 | asks for the list `FetchSource` names; success replaces the courses, failure sets the error; loading ends |
| CoursesList.CoursesListPage.OpenDialog | src/components/CoursesList.tsx:72-87 | the course being edited and its form, or none and an empty form |
| CoursesList.CoursesListPage.CloseDialog | src/components/CoursesList.tsx:89-91 | only the dialog closes |
| CoursesList.CoursesListPage.FormChange | src/components/CoursesList.tsx:93-99 | the named field takes the value |
| CoursesList.CoursesListPage.Submit | src/components/CoursesList.tsx:101-121 | sends the request `SubmitRequest` names; the dialog closes only on success |
| CoursesList.CoursesListPage.DeleteCourse | src/components/CoursesList.tsx:123-138 | nothing without confirmation; otherwise the id is sent and the outcome reported |
| CoursesList.CoursesListPage.CloseMessage | src/components/CoursesList.tsx:255-258 | the snackbar closes |
| Security.SetToggle | src/pages/Security.tsx:66-71 | only the named switch takes the value; every other switch and every limit is unchanged |
| Security.SetLimit | src/pages/Security.tsx:73-78 | only the named limit takes `parseInt` of the text; every other limit and every switch is unchanged |
| Security.Enabler | src/pages/Security.tsx:130-166 | each limit is enabled by its own switch, never two-factor authentication |
| Security.VisibleLimits | src/pages/Security.tsx:130-166 | a limit's field is on screen exactly while its switch is on |
| Security.ToggleChangesOnlyItsField | src/pages/Security.tsx:130-166 | turning a switch shows or hides only the field it enables |
| Security.TypedLimitIsStored | src/pages/Security.tsx:73-78 | a limit typed as a decimal number is stored as that number |
| Security.SecurityPage.constructor | src/pages/Security.tsx:30-64 | every protection on, 90-day expiry, 30-minute sessions, five attempts |
| Security.SecurityPage.SettingChange | src/pages/Security.tsx:66-71 | the settings are `SetToggle` of the old ones |
| Security.SecurityPage.NumberChange | src/pages/Security.tsx:73-78 | the settings are `SetLimit` of the old ones |
| Security.SecurityPage.SaveSettings | src/pages/Security.tsx:80-84 | the confirmation appears |
| Security.SecurityPage.HideSuccess | src/pages/Security.tsx:83 | the confirmation disappears |
| Security.SecurityPage.ViewLog | src/pages/Security.tsx:86-89 | the log is selected and the dialog opens |
| Security.SecurityPage.CloseDialog | src/pages/Security.tsx:224 | the dialog closes |
| Security.SecurityPage.DeleteLog | src/pages/Security.tsx:91-93 | the logs with the id go and the others stay in order |

## Left out

- REST transport: the `api.ts` axios instance and its token interceptor are not modelled, and neither are `financeAPI`, `coursesAPI`, `authAPI`, `usersAPI` and the direct axios calls. Their answers are parameters of the handlers. `financeAPI` is imported by the payment pages but is not defined in any file of the repository.
- Storage: `localStorage` reads and writes are left out. What the mount-time check finds in storage is a parameter of `Auth.AuthProvider.RestoreSession`, and a stored user that fails to parse is `None`.
- Time: `new Date()`, `toISOString` and `Date.now()` are parameters. The `date-fns` date formatting is left out.
- Browser callbacks: `window.confirm` is a `confirmed` parameter. `window.open`, navigation after logout and the drop-zone uploads are left out.
- Async ordering: the re-fetch a handler starts after a successful save is a separate call of the `Load…`/`Fetch…` method. Overlapping fetches and their races are concurrency and are not modelled.
- Server-side rules are not in the client code and are not modelled: upsert on resubmission, clearing a decision on resubmission, closing at the due date, URL-prefix checks and owner-scoped review.
- Case mapping covers ASCII letters only. Other characters are left unchanged by `Common.Lower` and `Common.Upper`.
- `CourseCatalog.CatalogCourse` leaves out the floating-point rating and the prerequisites, which only appear on screen.
- Demo data: the static arrays of the catalogue, the study-material folders and the access logs are constructor parameters. The demo courses and users are kept as constants, because the id findings are shown on them.
- `Security.SecurityPage.HideSuccess`: the three-second timer that calls it is left out.
- `MaterialTree.CurrentContent`: the source indexes plain objects and would also step into an array by a numeric key. The model resolves names in folders only, and `Valid` keeps the path on folders.
- `MaterialTree.WellFormed`: keys of a JavaScript object are unique. The model states this as a predicate that the page constructors require.
- `CourseMaterials.SortWeeks`: the source sorts the fetched array in place with `Array.prototype.sort`. The model is an insertion sort on values. It proves ordering and permutation but not that the sort is stable.
- `CourseWeekMaterials.SavedMessage`: stated as one implication per mode, not as an if-and-only-if between the texts.
- `CoursesList.Heading`: stated as one implication per role, not as an if-and-only-if between the texts.
- `Common.ParseInt`: reads decimal only. Without a radix, JavaScript reads a "0x" prefix as hexadecimal ("0x1A" is 26) and skips more blanks (form feed, vertical tab, no-break space, U+FEFF, line and paragraph separators). The model reads "0x1A" as 0 and treats those characters as non-blank. The parsed text comes from `type="number"` fields and the security limits, which never contain them.
- `CourseManagement.CourseManagementPage.Submit`: the add branch uses the corrected id (`AddCourse`, one past the largest id), not the source's `courses.length + 1`. The as-written add is `CourseManagement.AddCourseAsWritten`, and the duplicate id it can produce is under Findings. `Valid`'s unique-ids invariant holds of the corrected page only.
- `UserManagement.UserManagementPage.Submit`: the add branch uses the corrected id (`AddUser`), not the source's `users.length + 1`. The as-written add is `UserManagement.AddUserAsWritten`, and its duplicate id is under Findings. `Valid`'s unique-ids invariant holds of the corrected page only.
- `PaymentAnnouncements.VisibleControls`: the "Update Status" button of the submissions table is not constrained for lecturers.
- `UserManagement` reset password: the handler only logs, so it has no model.
- The admin dashboard's logout button calls `Auth.AuthProvider.Logout` and then navigates. Navigation is left out.
- Rendering, layout, routing, dashboards and charts, the tuition-fee page, and the stub login and sign-up pages are not modelled.

## Findings

| source | as written | input that shows it | evidently intended | confidence | as-written member | corrected member |
|---|---|---|---|---|---|---|
| src/pages/CourseManagement.tsx:116-123 | a new course gets id `courses.length + 1` | the demo courses have ids 1 and 2; delete course 1, then add a course: it gets id 2, the id of the remaining course | a new course gets an id no existing course carries | not executed | CourseManagement.AddAfterDeleteDuplicatesId | CourseManagement.AddCourse |
| src/pages/UserManagement.tsx:107-114 | a new user gets id `users.length + 1` | the demo users have ids 1, 2 and 3; delete user 2, then add a user: it gets id 3, the id of an existing user | a new user gets an id no existing user carries | not executed | UserManagement.AddAfterDeleteDuplicatesId | UserManagement.AddUser |

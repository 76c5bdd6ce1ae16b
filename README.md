# Healthcare portal: a verified model of its core

This project models the core of a small healthcare portal in Dafny and proves properties of that model. The core has three parts:

- **The patient service.** This is the patient document with its four embedded lists and its `toJSON` transform. On top of it sit the routes that list patients, fetch one patient and append a compliance note, in two variants.
- **The authentication service.** This is the user document, the service that registers users and signs them in, and the controller that turns the service's outcomes into HTTP replies.
- **The decisions of the web front end, kept apart from rendering.** These are:
  - the profile manager: its validator, upsert, delete, search and pagination;
  - the patient's daily-log and goal-tracker forms;
  - the progress and score colour thresholds;
  - the provider's note form, patient list, detail view and page selection;
  - the two navigation drawers;
  - the Redux slice;
  - the route table and its authentication guard;
  - the patient-list query string;
  - the sign-in and registration field rules.

There is one module per source file, plus a few shared modules:

- `Options`: `Option` and `Result`.
- `Values`: the dynamic JavaScript value, `Date`, `ObjectId` and HTTP replies.
- `JsText`: `trim`, `toLowerCase`, `includes` and the `\s` class.
- `JsArray`: `filter` and `slice` with JavaScript's index rules.

The source's style decides the Dafny style:

- **Code that works by mutation is imperative Dafny.** This covers:
  - the document collection (`PatientRoutes.PatientStore`) and the user collection (`AuthService.UserStore`), as classes;
  - the `toJSON` transform, as methods that edit the object map key by key and loop over each list;
  - the form components, drawers, Redux store and provider page, as classes whose fields are the component state.

  Each method is proved against a specification function. The store methods also keep a collection invariant.
- **Declarative or expression-only code is datatypes, functions and lemmas.** This covers the schemas, the threshold mappers, the route table and the field rules.

The following are parameters of the model:

- `iso` is `toISOString`; `now` and `today` are the clock.
- `hash` is the password hash, and `sign` is the token signer.
- `isEmail` is the form library's address check, and `encode` is URL percent-encoding.
- `noteId` and `id` are the ObjectIds the database assigns.
- A `Fault` says where a database call throws and with which message.

JavaScript numbers are exact reals, or integers where the source parses integers.

Where the code and its documentation disagree, the model follows the code:

- Appending an absent or empty note through `api/routes/patients.js` gives a 500. The route does not check the body. Mongoose's `required` on a String path then rejects the empty string when the patient is saved.
- `api/routes/complianceNotes.js` accepts a note of blanks. Its check is JavaScript truthiness, not a trimmed test, and the note is stored as sent (`ComplianceNoteRoutes.BlankNoteAccepted`).
- The provider page shows the detail view for a truthy selected id, so an empty id keeps the list on screen. The documentation says the detail view shows for a non-null id (`Provider.EmptyIdShowsList`).
- The patient-side drawer highlights its provider item for every pathname that merely starts with "/provider", "/providers" included (`Sidebar.ActivePaths`).
- `src/navigation/AppRouter.jsx` and `src/navigation/index.ts` import `ProtectedRoute` as a default export, but `src/navigation/ProtectedRoute.tsx` exports it only by name. The model takes those imports to resolve to the named guard.
- The registration form offers the genders "male", "female" and "other". The user schema's enum is "Male", "Female" and "Other" (`RegistrationScreen.FormGendersOutsideSchema`). The form never sends its values to the backend, so this mismatch has no effect today.

## Model

| member | source | states |
|---|---|---|
| PatientModel.ParseComplianceStatus | api/models/Patient.js:38 | the status enum accepts exactly "Low", "Medium" and "High", and the parsed value names the text it was read from |
| PatientModel.ParseGoalStatus | api/models/Patient.js:10 | a goal's status accepts exactly "active", "completed" and "pending" |
| PatientModel.ParsePriority | api/models/Patient.js:25 | a reminder's priority accepts exactly "low", "medium" and "high" |
| PatientModel.EnumNamesRoundTrip | api/models/Patient.js:10-38 | every enumerated value survives being written out by name and parsed back |
| PatientModel.NewGoal | api/models/Patient.js:3-11 | a goal is created exactly when title, description, unit, target and deadline are given and any status is in the enum; the goal carries the given title, description, target, unit and deadline; `currentValue` defaults to 0 and `status` to active; a failure names at least one path |
| PatientModel.NewDailyLog | api/models/Patient.js:13-18 | a daily log needs only its date; steps and sleep hours default to 0 and the notes are kept as given |
| PatientModel.NewReminder | api/models/Patient.js:20-26 | a reminder needs title, description and due date and a valid priority; it carries the given title, description and due date; `completed` defaults to false and `priority` to medium |
| PatientModel.NewComplianceNote | api/models/Patient.js:28-32 | a note is created exactly when `note` and `createdBy` are non-empty; a failure names only those paths; `createdAt` defaults to the creation time |
| PatientModel.NewPatient | api/models/Patient.js:34-47 | a patient is created exactly when no path fails its validator; it carries the given name, email, phone and the four embedded lists; the status defaults to Medium, the score to 50, the assigned date and both timestamps to the creation time; a score outside [0, 100] is always refused with `complianceScore` among the failing paths |
| PatientModel.SummaryObject | api/routes/patients.js:9 | the projected record holds none of the four embedded lists |
| PatientModel.PatientObject | api/models/Patient.js:41-44 | the full record holds all four embedded lists |
| PatientJson.DateKey | api/models/Patient.js:66-97 | the date field converted in each list element (deadline, date, dueDate, createdAt) is neither an id key nor a list key |
| PatientJson.TransformElement | api/models/Patient.js:63-70 | one list element gains `id` as the hex text of its `_id` and loses `_id`; its date field becomes an ISO string exactly when it is truthy; every other field is unchanged |
| PatientJson.TransformList | api/models/Patient.js:62-71 | the `map` over a list keeps its length and order and transforms each element |
| PatientJson.TransformTop | api/models/Patient.js:52-59 | the top level gains `id` and loses `_id` and `__v`; `assignedDate` is converted exactly when truthy; every other key keeps its value |
| PatientJson.TransformLists | api/models/Patient.js:62-101 | each of the four lists is transformed when truthy and left as it was otherwise (an absent list stays absent); no other key changes |
| PatientJson.ToJson | api/models/Patient.js:50-105 | the whole transform relates input and output exactly; the output has `id` and no `_id` or `__v`, so it is never again a valid input |
| PatientJson.SummaryJson | api/routes/patients.js:9-10 | a list entry as sent holds no embedded list, no `_id` and no `__v` |
| PatientJson.DocumentsTransformable | api/models/Patient.js:52 | every stored patient, projected or whole, meets the transform's preconditions, since `_id` is always present |
| PatientJson.GoalDetermined | api/models/Patient.js:63-69 | a transformed goal is exactly the reference goal JSON |
| PatientJson.DailyLogDetermined | api/models/Patient.js:73-79 | a transformed daily log is exactly the reference daily-log JSON, notes included when present |
| PatientJson.ReminderDetermined | api/models/Patient.js:83-89 | a transformed reminder is exactly the reference reminder JSON |
| PatientJson.NoteDetermined | api/models/Patient.js:93-99 | a transformed compliance note is exactly the reference note JSON |
| PatientJson.GoalsDetermined | api/models/Patient.js:62-71 | the transformed goal list is the reference JSON of each goal, in order |
| PatientJson.DailyLogsDetermined | api/models/Patient.js:72-81 | the transformed daily-log list is the reference JSON of each log, in order |
| PatientJson.RemindersDetermined | api/models/Patient.js:82-91 | the transformed reminder list is the reference JSON of each reminder, in order |
| PatientJson.ComplianceNotesDetermined | api/models/Patient.js:92-101 | the transformed note list is the reference JSON of each note, in order |
| PatientJson.SummaryDetermined | api/routes/patients.js:9-10 | the transform of a projected record is exactly the reference summary JSON |
| PatientJson.SummaryUntouched | api/models/Patient.js:45-47 | every summary field other than `id` and `assignedDate`, the timestamps included, is the stored value unchanged by the transform |
| PatientJson.DetailDetermined | api/routes/patients.js:23 | the transform of a whole record is exactly the reference detail JSON: the summary plus the four transformed lists |
| PatientJson.TopLevelKey | api/models/Patient.js:34-47 | outside the four lists, the whole record and the projection agree key by key, before and after the transform |
| PatientRoutes.Author | api/routes/patients.js:41 | a missing or empty author becomes "Provider"; any other author is kept verbatim |
| PatientRoutes.Summary | api/routes/patients.js:9-10 | one list entry is the transform of the projected record |
| PatientRoutes.SummariesComplete | api/routes/patients.js:7-14 | the list response has one entry per stored patient, every stored id appears in it, and no entry holds an embedded list |
| PatientRoutes.SummaryAt | api/routes/patients.js:9-10 | entry `i` of the list response carries the id of the `i`-th stored patient |
| PatientRoutes.AppendNoteSpec | api/routes/patients.js:30-62 | a lookup fault gives 500 with its message; an absent patient gives 404 "Patient not found"; a found patient with an absent or empty note gives 500 with the validation message; a save fault on a valid note gives 500 with its message; 201 exactly when nothing faults, the patient exists and the note is non-empty; on 201 the notes grow by the new note at the end, earlier notes unchanged, and the reply is built from that last note; otherwise nothing changes; other patients never change |
| PatientRoutes.AppendKeepsInvariant | api/routes/patients.js:45-46 | an append with a never-issued note id keeps the collection invariant: ids, validity, unique emails and issued note ids |
| PatientRoutes.AppendsKeepOrder | api/routes/patients.js:45-49 | two successful appends to one patient leave both notes at the end, oldest first |
| PatientRoutes.InsertKeepsInvariant | api/models/Patient.js:36 | inserting a valid patient with a new id and an email not yet taken keeps the collection invariant |
| PatientRoutes.NoteIds | api/models/Patient.js:44 | every note id of a patient is in the set collected from it |
| PatientRoutes.PatientStore.constructor | api/models/Patient.js:34-47 | a collection seeded with distinct, valid patients with distinct emails satisfies the invariant and holds the seed in order |
| PatientRoutes.PatientStore.ListPatients | api/routes/patients.js:7-14 | a fault gives 500 with its message; otherwise 200 with the summary of every patient in collection order |
| PatientRoutes.PatientStore.GetPatient | api/routes/patients.js:17-27 | a fault gives 500; an unknown id gives 404 "Patient not found"; otherwise 200 with the reference detail JSON |
| PatientRoutes.PatientStore.AppendNote | api/routes/patients.js:30-62 | the reply and the new collection are those of `AppendNoteSpec`; the invariant is kept and the order of patients is unchanged |
| ComplianceNoteRoutes.PostSpec | api/routes/complianceNotes.js:7-44 | the status is one of 400, 404, 201 and 500; 400 "patientId and note are required" exactly when either field is falsy, with the collection untouched; an id text the `findById` cast refuses is a 500 with the cast's message; after a good cast a lookup fault, or a save fault on a patient on file, is a 500 with the fault's message; 404 for a cast id not on file; 201 exactly when the cast id is on file and nothing faults, with the note appended last and a reply whose `patientId` is the stored id's own text; other patients never change |
| ComplianceNoteRoutes.OtherSpellingFindsPatient | api/routes/complianceNotes.js:15-34 | an id text that differs from the stored id but casts to it still gets a 201, echoing the stored id's text, and the note is appended |
| ComplianceNoteRoutes.BadIdIsServerError | api/routes/complianceNotes.js:15-42 | an id text the cast refuses is a 500 carrying the cast's message, and nothing is stored |
| ComplianceNoteRoutes.Post | api/routes/complianceNotes.js:7-44 | the handler's reply and the new collection are those of `PostSpec`, keeping the invariant |
| ComplianceNoteRoutes.BlankNoteAccepted | api/routes/complianceNotes.js:11-15 | a note of blanks passes the check and is stored and echoed as sent, with the default author |
| ComplianceNoteRoutes.MissingNoteIsBadRequest | api/routes/complianceNotes.js:11-13 | a missing or empty note is a 400 here but a 500 through the patient router's append |
| UserModel.ParseRole | api/src/models/user.js:18-22 | a role accepts exactly "patient" and "provider" |
| UserModel.ParseGender | api/src/models/user.js:9 | a gender accepts exactly "Male", "Female" and "Other" |
| UserModel.UserEnumsRoundTrip | api/src/models/user.js:9-22 | each role and gender survives being written out and parsed back |
| UserModel.NewUser | api/src/models/user.js:3-25 | a user is created exactly when full name, email and password are present and non-empty and any gender or role is in its enum; the user carries the given email, full name, password and optional profile fields and both timestamps are the creation time; consent defaults to false and role to patient |
| AuthService.RegisterSpec | api/src/services/authService.js:5-22 | a user the email filter selects is refused with "Email already registered"; a missing password is the hash library's argument error; nothing is stored on any failure; success exactly for a present email not on file, a present password and a document that validates; on success the user is added under its email, the others kept, the stored password is the hash, and the reply is the password-free projection |
| AuthService.LoginSpec | api/src/services/authService.js:24-42 | a sign-in succeeds exactly when the email filter selects a user, a password is given and its hash matches; no selected user or a wrong password is "Invalid email or password"; a missing password is the hash library's argument error; success carries the signed token and the projection |
| AuthService.RegisterKeepsInvariant | api/src/models/user.js:7 | registering keeps every user filed under its own email, with distinct issued ids, so emails stay unique |
| AuthService.RegisterThenLogin | api/src/services/authService.js:5-42 | after a successful registration the same email and password sign in as the registered user |
| AuthService.SameRefusal | api/src/services/authService.js:25-29 | a wrong password and an unknown email give the identical refusal |
| AuthService.AbsentEmailLogin | api/src/services/authService.js:24-26 | a sign-in without an email is the sign-in of the user the undefined filter selects, and refused as bad credentials when it selects nobody |
| AuthService.MissingPasswordRejected | api/src/services/authService.js:9-28 | a registration without a password fails and stores nothing; a sign-in without one fails with the hash library's argument error |
| AuthService.PlaintextNeverStored | api/src/services/authService.js:9-14 | with a hash that never returns its argument, the stored password is never the plaintext |
| AuthService.UserStore.constructor | api/src/models/user.js:7 | an empty user collection satisfies the invariant |
| AuthService.UserStore.Register | api/src/services/authService.js:5-22 | the result and the new collection are those of `RegisterSpec`, and the invariant is kept |
| AuthService.UserStore.Login | api/src/services/authService.js:24-42 | the result is that of `LoginSpec`, and the collection is not modified |
| AuthController.RegisterReply | api/src/controllers/authController.js:3-11 | 201 with "User registered" and the user exactly on success, otherwise 400 with the error's message |
| AuthController.LoginReply | api/src/controllers/authController.js:14-25 | 200 with "Login successful", the token and the user exactly on success, otherwise 400 with the error's message |
| AuthController.NoPasswordInReplies | api/src/controllers/authController.js:3-25 | no reply body, nor the user inside it, has a password field |
| AuthController.BadCredentialsIndistinguishable | api/src/controllers/authController.js:22-23 | an unknown email and a wrong password produce byte-for-byte the same 400 reply |
| AuthController.DuplicateRegistration | api/src/controllers/authController.js:8-9 | registering an email already on file is a 400 "Email already registered" |
| AuthController.MissingPasswordReply | api/src/controllers/authController.js:3-11 | a registration without a password that no user blocks is a 400 carrying the hash library's argument error |
| ProfileScreen.PhoneMatchesPattern | src/screens/ProfileScreen.tsx:97 | the phone matcher accepts exactly the strings of an optional "+" followed by seven or more digits, hyphens or spaces |
| ProfileScreen.EmailMatchesPattern | src/screens/ProfileScreen.tsx:99 | the email matcher accepts exactly the strings of three non-empty whitespace-free parts joined by "@" and "." |
| ProfileScreen.Validate | src/screens/ProfileScreen.tsx:90-102 | each of the five fields is flagged exactly when its rule fails (trimmed first name at least 2 UTF-16 units, trimmed last name non-empty, date of birth given, phone pattern, optional email pattern), with the source's message; no errors exactly when the profile is valid |
| ProfileScreen.EmojiFirstName | src/screens/ProfileScreen.tsx:92-93 | a first name of one character outside the basic plane meets the two-character minimum |
| ProfileScreen.Submit | src/screens/ProfileScreen.tsx:191-197 | the profile, stamped with `updatedAt`, is saved exactly when it is valid; otherwise there are errors |
| ProfileScreen.SampleProfileValid | src/screens/ProfileScreen.tsx:90-102 | a complete sample profile passes every rule |
| ProfileScreen.SampleNamesTrimmed | src/screens/ProfileScreen.tsx:92-95 | two-letter names keep their length when trimmed |
| ProfileScreen.SampleContactMatches | src/screens/ProfileScreen.tsx:97-100 | a sample phone and email match their patterns |
| ProfileScreen.Merge | src/screens/ProfileScreen.tsx:438 | the spread keeps the existing profile's fields and lets the saved fields win |
| ProfileScreen.Saved | src/screens/ProfileScreen.tsx:434-444 | an existing id is merged in place with length and other profiles kept; a new id is put first, the rest following unchanged |
| ProfileScreen.SaveIdempotent | src/screens/ProfileScreen.tsx:434-444 | saving the same profile twice equals saving it once |
| ProfileScreen.SavedContains | src/screens/ProfileScreen.tsx:434-444 | after a save some profile has the saved id and every saved field |
| ProfileScreen.Deleted | src/screens/ProfileScreen.tsx:456 | a profile survives exactly when it was there and its id differs |
| ProfileScreen.DeletedInOrder | src/screens/ProfileScreen.tsx:456 | deleting distributes over concatenation, so the survivors keep their order |
| ProfileScreen.DeleteAbsent | src/screens/ProfileScreen.tsx:456 | deleting an id that is not there changes nothing |
| ProfileScreen.Filtered | src/screens/ProfileScreen.tsx:464-477 | a blank query keeps everything; otherwise a profile is kept exactly when one of the six fields, lower-cased, contains the trimmed lower-cased query |
| ProfileScreen.FilteredInOrder | src/screens/ProfileScreen.tsx:464-477 | the search distributes over concatenation, so it keeps the original order |
| ProfileScreen.TotalPages | src/screens/ProfileScreen.tsx:479 | at least one page, and the fewest pages of six that hold every item |
| ProfileScreen.PageItems | src/screens/ProfileScreen.tsx:484 | a page holds at most six items, exactly the slice of that page |
| ProfileScreen.ItemOnPage | src/screens/ProfileScreen.tsx:479-484 | every item appears on an in-range page, at position `i % 6` of page `i / 6 + 1` |
| ProfileScreen.PrevPage | src/screens/ProfileScreen.tsx:402 | "Prev" goes back a page and never below 1 |
| ProfileScreen.NextPage | src/screens/ProfileScreen.tsx:411 | "Next" goes on a page and never past the last |
| ProfileScreen.PagerInRange | src/screens/ProfileScreen.tsx:396-411 | from an in-range page both buttons stay in range and undo each other |
| ProfileScreen.ProfileManager.constructor | src/screens/ProfileScreen.tsx:420-424 | the manager starts in list mode on page 1 of the stored profiles |
| ProfileScreen.ProfileManager.HandleCreate | src/screens/ProfileScreen.tsx:429-432 | a fresh profile with its id and creation time becomes active in create mode |
| ProfileScreen.ProfileManager.HandleSave | src/screens/ProfileScreen.tsx:434-444 | the profiles become `Saved`, and the manager returns to the list with nothing active |
| ProfileScreen.ProfileManager.HandleEdit | src/screens/ProfileScreen.tsx:446-449 | the profile becomes active in edit mode; nothing else changes |
| ProfileScreen.ProfileManager.HandleView | src/screens/ProfileScreen.tsx:459-462 | the profile becomes active in view mode; nothing else changes |
| ProfileScreen.ProfileManager.HandleDelete | src/screens/ProfileScreen.tsx:451-457 | the profiles become `Deleted` when confirmed and stay as they were otherwise |
| ProfileScreen.ProfileManager.SetQuery | src/screens/ProfileScreen.tsx:495-496 | typing sets the query and goes back to page 1 |
| ProfileScreen.ProfileManager.Prev | src/screens/ProfileScreen.tsx:402 | the page becomes `PrevPage` of the old page |
| ProfileScreen.ProfileManager.Next | src/screens/ProfileScreen.tsx:411 | the page becomes `NextPage`, never past the last page |
| ProfileScreen.ProfileManager.ClampPage | src/screens/ProfileScreen.tsx:480-482 | a page past the end is pulled back to the last page, and an in-range page is kept |
| GoalTracker.Rejection | src/components/patientGoalTracker.tsx:50-67 | the form is accepted exactly when something is filled in and every given figure lies in its inclusive range; otherwise the alert named by the first failing check, in the source's order |
| GoalTracker.RangesInclusive | src/components/patientGoalTracker.tsx:56-67 | both ends of each range are accepted and one step past either end is refused |
| GoalTracker.Reading | src/components/patientGoalTracker.tsx:78-92 | a task with unit steps, L or hrs reads its own field; any other unit reads nothing |
| GoalTracker.UpdatedTask | src/components/patientGoalTracker.tsx:78-92 | a task whose figure was given takes it as `completed` and becomes "completed" exactly when it reaches the target; any other task is unchanged |
| GoalTracker.UpdatedTasks | src/components/patientGoalTracker.tsx:78-92 | every task is updated on its own, in place |
| GoalTracker.UpdatedStatusAgrees | src/components/patientGoalTracker.tsx:78-104 | the status the save writes is "completed" exactly when the daily-task card shows 100 percent |
| GoalTracker.NoFiguresNoChange | src/components/patientGoalTracker.tsx:78-92 | a form without figures leaves every task as it was |
| GoalTracker.PatientGoalTracker.constructor | src/components/patientGoalTracker.tsx:31-42 | the tracker starts with the form empty and hidden and with the given tasks and history |
| GoalTracker.PatientGoalTracker.HandleSave | src/components/patientGoalTracker.tsx:48-100 | a rejected form raises its alert and changes nothing else; an accepted form updates the tasks, puts the new entry in front of the history, clears the form and hides it |
| AddDailyLog.NewEntry | src/components/AddDailyLog.tsx:39-46 | every empty figure becomes 0, a typed one is kept, and the goal text is copied |
| AddDailyLog.EmptyFormSaves | src/components/AddDailyLog.tsx:39-47 | an untouched form still yields an entry of zeros |
| AddDailyLog.AddDailyLogForm.constructor | src/components/AddDailyLog.tsx:28-33 | the form starts empty with nothing saved |
| AddDailyLog.AddDailyLogForm.Change | src/components/AddDailyLog.tsx:35-37 | an edit sets the one named field, keeps the other three and saves nothing |
| AddDailyLog.WithField | src/components/AddDailyLog.tsx:35-37 | `{ ...prev, [field]: value }`: the named field takes the typed value and the other three keep theirs |
| AddDailyLog.AddDailyLogForm.HandleSave | src/components/AddDailyLog.tsx:39-49 | one entry is handed on, then every field is reset |
| DailyTasks.CompletionPercentage | src/components/DailyTasks.tsx:31-33 | the share of the target reached, capped at 100 |
| DailyTasks.FullWhenTargetReached | src/components/DailyTasks.tsx:31-33 | for a positive target the percentage is 100 exactly when the target is reached, and never negative for a non-negative amount |
| DailyTasks.ProgressColor | src/components/DailyTasks.tsx:35-40 | green exactly from 100, orange exactly in [75, 100), blue exactly in [50, 75), red exactly below 50 |
| DailyTasks.ProgressColorMonotone | src/components/DailyTasks.tsx:35-40 | a higher percentage never gets a worse colour |
| DailyTasks.CompletedCount | src/components/DailyTasks.tsx:42-43 | the count is at most the number of tasks, equals it exactly when every task is completed, and is 0 exactly when none is |
| DailyTasks.CompletedCountAppend | src/components/DailyTasks.tsx:42 | counting is additive over a split of the list of tasks |
| DailyTasks.OverallProgress | src/components/DailyTasks.tsx:90 | for a non-empty list the bar lies in [0, 100], is 100 exactly when every task is completed and 0 exactly when none is |
| DailyTasks.Ratio | src/components/DailyTasks.tsx:90 | a part of a positive whole is a ratio in [0, 1], reaching 1 and 0 exactly at all and none |
| HistoryList.ScoreColor | src/components/HistoryList.tsx:33-39 | the thresholds applied to `value / target * 100`, stated as fractions of the target: green from the target, orange from 3/4, blue from 1/2, red below |
| HistoryList.AtLeast | src/components/HistoryList.tsx:34 | the percentage reaches `k` exactly when the value reaches `k` percent of the target |
| HistoryList.Percent | src/components/HistoryList.tsx:140 | the label times the target is the value times 100 |
| HistoryList.Labels | src/components/HistoryList.tsx:140-184 | steps, water and sleep are labelled against 10000, 2 and 8 |
| HistoryList.Colors | src/components/HistoryList.tsx:142-186 | each colour is the progress colour of its own label |
| HistoryList.LabelsNotCapped | src/components/HistoryList.tsx:140 | twice the step target is labelled 200 while the daily-task card caps it at 100 |
| HistoryList.View | src/components/HistoryList.tsx:223-233 | the empty state shows exactly for an empty history, and the cards show the history otherwise |
| AddComplianceNote.SubmitDisabled | src/components/Provider/AddComplianceNote.tsx:113 | the button is disabled exactly while loading or while the note is all whitespace |
| AddComplianceNote.PredefinedHidesCustom | src/components/Provider/AddComplianceNote.tsx:19-23 | a predefined note hides the custom field, is never blank and leaves submit enabled when no request runs |
| AddComplianceNote.NoteForm.constructor | src/components/Provider/AddComplianceNote.tsx:26-28 | the form starts with the three fields empty |
| AddComplianceNote.NoteForm.HandlePredefinedChange | src/components/Provider/AddComplianceNote.tsx:31-39 | a predefined choice becomes the note and clears the custom text, hiding the custom field and enabling submit; "" and "custom" clear the note and keep the custom text |
| AddComplianceNote.NoteForm.HandleCustomNoteChange | src/components/Provider/AddComplianceNote.tsx:41-47 | the typed text becomes both note and custom text, and non-empty text selects "custom" |
| AddComplianceNote.NoteForm.HandleSubmit | src/components/Provider/AddComplianceNote.tsx:49-67 | a blank note sends nothing; otherwise the trimmed note is sent as "Provider"; only a success resets the three fields and notifies the page once |
| PatientDetailView.ComplianceColor | src/components/Provider/PatientDetailView.tsx:52-63 | High, Medium and Low are success, warning and error, each exactly; anything else is default |
| PatientDetailView.StatusesColored | src/components/Provider/PatientDetailView.tsx:52-63 | each status of the schema gets its own non-default colour |
| PatientDetailView.ScoreColor | src/components/Provider/PatientDetailView.tsx:109 | success exactly from 70, warning exactly in [40, 70), error exactly below 40 |
| PatientDetailView.DefaultScoreWarns | src/components/Provider/PatientDetailView.tsx:109 | a new patient's default score of 50 shows the warning colour |
| PatientDetailView.GoalChip | src/components/Provider/PatientDetailView.tsx:153 | completed is success, active is primary, anything else default, each exactly |
| PatientDetailView.PriorityChip | src/components/Provider/PatientDetailView.tsx:243-249 | high is error, medium is warning, anything else default, each exactly |
| PatientDetailView.DefaultChips | src/components/Provider/PatientDetailView.tsx:153-249 | among schema values only pending goals and low-priority reminders get the default colour |
| PatientDetailView.LogRows | src/components/Provider/PatientDetailView.tsx:185-207 | at most the first five logs, in order, with a divider after each but the last |
| PatientDetailView.DetailScreen | src/components/Provider/PatientDetailView.tsx:36-50 | loading wins; then an error or a missing patient shows the error, falling back to "Patient not found"; only then the patient |
| PatientList.StatusColor | src/components/Provider/PatientList.tsx:26-37 | the list colours every status as the detail view does, and never in the default colour |
| PatientList.ShownList | src/components/Provider/PatientList.tsx:39-94 | loading is checked first, then the error, then emptiness ("No patients found"); otherwise the cards of every patient |
| Provider.ShownPanel | src/components/Provider/Provider.tsx:34-42 | the detail view shows exactly for a truthy selected id, and of that id |
| Provider.EmptyIdShowsList | src/components/Provider/Provider.tsx:34 | an empty or absent id keeps the list on screen |
| Provider.ProviderView.constructor | src/components/Provider/Provider.tsx:7-8 | the page starts on the list with no banner |
| Provider.ProviderView.Select | src/components/Provider/Provider.tsx:10-12 | selecting stores exactly the card's id, which shows its detail view |
| Provider.ProviderView.Back | src/components/Provider/Provider.tsx:14-16 | back clears the selection and shows the list |
| Provider.ProviderView.NoteAdded | src/components/Provider/Provider.tsx:18-19 | the banner shows and the selection is left alone |
| Provider.ProviderView.BannerTimeout | src/components/Provider/Provider.tsx:20-22 | when the timer expires the banner hides, selection untouched |
| Sidebar.IsActive | src/components/Sidebar.tsx:105-107 | an item is highlighted on an exact match, and the provider item also for any pathname starting with "/provider" |
| Sidebar.ActivePaths | src/components/Sidebar.tsx:105-107 | Home only on "/"; the provider prefix reaches nested pages and "/providers"; other items need an exact match |
| Sidebar.Drawer.constructor | src/components/Sidebar.tsx:67-68 | the drawer starts closed and not closing |
| Sidebar.Drawer.Close | src/components/Sidebar.tsx:70-73 | closing sets `isClosing` and closes the drawer |
| Sidebar.Drawer.TransitionEnd | src/components/Sidebar.tsx:75-77 | the end of the transition clears `isClosing` only |
| Sidebar.Drawer.Toggle | src/components/Sidebar.tsx:79-83 | the toggle flips the drawer except while it is closing |
| Sidebar.Drawer.Navigate | src/components/Sidebar.tsx:85-90 | navigation records the path and closes the drawer exactly when a window narrower than 600 is supplied |
| ProviderSidebar.IsMainActive | src/components/Provider/ProviderSidebar.tsx:110-114 | exact match, or a /provider item under /provider outside the reports, notes and settings pages |
| ProviderSidebar.IsBottomActive | src/components/Provider/ProviderSidebar.tsx:138 | a bottom item is highlighted only on an exact match |
| ProviderSidebar.DashboardWithPatients | src/components/Provider/ProviderSidebar.tsx:33-43 | Dashboard and Patients are always highlighted together |
| ProviderSidebar.OnePathHighlighted | src/components/Provider/ProviderSidebar.tsx:110-114 | all highlighted main items share one path |
| ProviderSidebar.SettingsHighlightsBottomOnly | src/components/Provider/ProviderSidebar.tsx:110-138 | on the settings page only the bottom item is highlighted |
| MainReducer.InitialStateShape | src/redux/mainReducer.ts:30-49 | the initial state has count 0, loading false, no error, and seven sleep entries from Monday to Sunday |
| MainReducer.Reduce | src/redux/mainReducer.ts:54-67 | each reducer changes its own field only, and never the dashboard |
| MainReducer.CountRoundTrip | src/redux/mainReducer.ts:55-60 | increment and decrement undo each other, and decrement has no lower bound |
| MainReducer.LastWriteWins | src/redux/mainReducer.ts:61-66 | setting loading or error twice keeps only the last value |
| MainReducer.Store.constructor | src/redux/mainReducer.ts:74-76 | the store starts in the initial state |
| MainReducer.Store.Increment | src/redux/mainReducer.ts:55-57 | the new state is the reducer's result for `increment` |
| MainReducer.Store.Decrement | src/redux/mainReducer.ts:58-60 | the new state is the reducer's result for `decrement` |
| MainReducer.Store.SetLoading | src/redux/mainReducer.ts:61-63 | the new state is the reducer's result for `setLoading` |
| MainReducer.Store.SetError | src/redux/mainReducer.ts:64-66 | the new state is the reducer's result for `setError` |
| Routes.PathsDistinct | src/navigation/routes.ts:12-32 | no two route constants share a path |
| Routes.MetadataConsistent | src/navigation/routes.ts:39-73 | only Login and Register are public, and they alone lack `requiresAuth`; every other entry requires authentication; Home has no entry; every key is a route |
| ProtectedRoute.Authenticated | src/navigation/ProtectedRoute.tsx:36 | signed in exactly when the stored flag is the text "true" |
| ProtectedRoute.Guard | src/navigation/ProtectedRoute.tsx:46-51 | the children exactly when signed in, unchanged; otherwise a replacing redirect to /login |
| ProtectedRoute.OnlyExactTrueAdmits | src/navigation/ProtectedRoute.tsx:36 | absent, "True", "1" and "false" are all signed out |
| AppRouter.Resolve | src/navigation/AppRouter.jsx:51-136 | a path whose canonical form is one of the five routes resolves to its page, guarded exactly when private; every other path is a replacing redirect to /login |
| AppRouter.Canonical | src/navigation/AppRouter.jsx:51-86 | the path as a route pattern compares it: the ASCII letters lower-cased and the trailing slashes dropped, so the result never ends in "/" |
| AppRouter.DropTrailingSlashes | src/navigation/AppRouter.jsx:51-86 | a prefix of the path not ending in "/", with only slashes cut off |
| AppRouter.CanonicalFixed | src/navigation/AppRouter.jsx:51-86 | a lower-case path without a trailing slash, such as every route constant, is its own canonical form |
| AppRouter.CaseAndSlashTolerant | src/navigation/AppRouter.jsx:51-86 | "/Dashboard" and "/dashboard/" reach the dashboard route and "/LOGIN" the login screen, while "/dashboard/x" falls to the login redirect |
| AppRouter.Visit | src/navigation/AppRouter.jsx:51-136 | a page is shown only when it is public or the user is signed in; every redirect replaces and goes to /login |
| AppRouter.VisitSettles | src/navigation/AppRouter.jsx:51-136 | after at most one redirect every visit shows the login screen |
| AppRouter.PrivatePages | src/navigation/AppRouter.jsx:59-86 | signed in, each private path shows its page; signed out, each redirects to /login |
| AppRouter.UnroutedPaths | src/navigation/AppRouter.jsx:130-136 | "/", /provider and /wellness-dashboard all redirect to /login |
| UsePatients.Params | src/hooks/usePatients.ts:22-28 | search is added exactly when non-empty, compliance exactly when the filter is set and not "All", search first |
| UsePatients.QueryString | src/hooks/usePatients.ts:30 | the query string is empty exactly when there are no parameters, and never holds a "?" |
| UsePatients.QueryAppend | src/hooks/usePatients.ts:22-30 | appending a parameter adds its encoded `name=value` pair at the end of the query string, after "&" unless it is the first |
| UsePatients.QueryContents | src/hooks/usePatients.ts:22-30 | the hook's query string is the encoded search pair, then the encoded compliance pair, joined by "&"; either alone is its own pair |
| UsePatients.BuildEndpoint | src/hooks/usePatients.ts:22-31 | the endpoint is "/patients", with "?" and the query string exactly when a parameter was added; the defaults give "/patients" |
| FormRules.MinLength | src/components/RegistrationScreen.tsx:28-30 | a field passes exactly when its UTF-16 length reaches the minimum; an empty field shows the required message, a short one the length message |
| FormRules.EmojiMeetsMinLength | src/components/RegistrationScreen.tsx:28-30 | a character outside the basic plane counts twice towards a minimum length, as the form library counts it |
| FormRules.DigitsRule | src/components/RegistrationScreen.tsx:31-33 | a field passes exactly when it is ten ASCII digits; an empty field shows the required message, any other failure the pattern message |
| FormRules.Required | src/components/RegistrationScreen.tsx:40 | only the empty string fails, with the given message |
| FormRules.EmailRule | src/components/RegistrationScreen.tsx:34-36 | an address passes exactly when non-empty and accepted by the address check; empty shows the required message, otherwise the format message |
| LoginScreen.LoginErrors | src/components/LoginScreen.tsx:30-37 | the email is flagged exactly when empty or not an address, the password exactly when shorter than 8 UTF-16 units, each with the schema's message |
| LoginScreen.FixedCredentialsPassRules | src/components/LoginScreen.tsx:30-46 | the fixed pair passes both field rules |
| LoginScreen.LoginScreenModel.constructor | src/components/LoginScreen.tsx:40-41 | the screen starts with the password hidden and no error |
| LoginScreen.LoginScreenModel.HandleLogin | src/components/LoginScreen.tsx:44-52 | only the fixed pair stores the flag "true", which the guard admits, and navigates to /dashboard; any other pair sets the error and neither stores nor navigates |
| LoginScreen.LoginScreenModel.Submit | src/components/LoginScreen.tsx:30-52 | the credential check runs only when no field rule fails |
| LoginScreen.LoginScreenModel.TogglePassword | src/components/LoginScreen.tsx:223-225 | the eye button flips visibility, so two presses restore it |
| RegistrationScreen.ConsentRule | src/components/RegistrationScreen.tsx:49-51 | consent passes exactly when ticked |
| RegistrationScreen.PersonalErrors | src/components/RegistrationScreen.tsx:27-40 | each personal field is flagged exactly when its rule fails, lengths counted in UTF-16 units |
| RegistrationScreen.OtherErrors | src/components/RegistrationScreen.tsx:41-51 | each remaining field is flagged exactly when its rule fails, lengths counted in UTF-16 units |
| RegistrationScreen.PersonalErrorsEmpty | src/components/RegistrationScreen.tsx:27-40 | no personal errors exactly when every personal rule holds |
| RegistrationScreen.OtherErrorsEmpty | src/components/RegistrationScreen.tsx:41-51 | no other errors exactly when every remaining rule holds |
| RegistrationScreen.PersonalMessages | src/components/RegistrationScreen.tsx:27-40 | the personal fields' messages are worded as in the schema, the required message winning on an empty field |
| RegistrationScreen.OtherMessages | src/components/RegistrationScreen.tsx:41-51 | the remaining fields' messages are worded as in the schema |
| RegistrationScreen.Errors | src/components/RegistrationScreen.tsx:27-52 | the form submits exactly when every rule holds, and its errors are the union of both groups |
| RegistrationScreen.OptionsSelectable | src/components/RegistrationScreen.tsx:242-317 | every option of the three selects passes `required`, and no option repeats |
| RegistrationScreen.FormGendersOutsideSchema | src/components/RegistrationScreen.tsx:242-244 | none of the form's gender values is in the user schema's enum |
| RegistrationScreen.MobileNeedsDigits | src/components/RegistrationScreen.tsx:32 | ten characters with a letter fail the pattern, and ten digits pass |
| JsText.Trim | src/screens/ProfileScreen.tsx:92 | `trim` is a contiguous part of the text with no blank at either end, everything cut on either side is whitespace, and it is empty exactly when the text is all whitespace |
| JsText.Utf16Length | src/components/RegistrationScreen.tsx:29 | a text's length in UTF-16 units lies between its code-point count and twice that, and is 0 only for the empty text |
| JsText.Utf16LengthBasic | src/components/RegistrationScreen.tsx:29 | a text inside the basic plane has as many UTF-16 units as characters |
| JsText.AstralCountsTwice | src/components/RegistrationScreen.tsx:29 | a character outside the basic plane is two UTF-16 units |
| JsText.Includes | src/screens/ProfileScreen.tsx:475 | `includes` holds exactly when the fragment occurs at some position |
| JsText.ToLower | src/screens/ProfileScreen.tsx:465 | lower-casing keeps the length and maps each character on its own |
| JsArray.Filter | src/screens/ProfileScreen.tsx:456 | `filter` keeps only accepted elements of the input |
| JsArray.FilterAppend | src/screens/ProfileScreen.tsx:456 | filtering distributes over concatenation |
| JsArray.FilterKeeps | src/screens/ProfileScreen.tsx:456 | every accepted element survives the filter |
| JsArray.Slice | src/components/Provider/PatientDetailView.tsx:185 | `slice` with in-range indices is the subsequence, clamped past the end, empty when start passes end |

## Left out

- Mongoose and Express machinery is not modelled: queries, `save`, `select`, index enforcement and `res.status().json`. The collection is a map with an insertion order, and uniqueness of emails is a proved invariant. Replies are a datatype, and `ObjectId` generation is an oracle parameter (`noteId`, `id`).
- A database call that throws, including the cast error of an id that is not a valid ObjectId, is the `Fault` or `failure` parameter. The model does not decide when the database throws.
- The read-modify-write race between two concurrent note appends is not modelled. Each request is handled atomically.
- `bcrypt.hash` and `bcrypt.compare` are the abstract `hash` function, and `compare` is modelled as equality of `hash(password)` with the stored value. Salting is not modelled. `generateToken` is the abstract `sign` function.
- `toISOString`, `new Date()` and `Date.now` are parameters. JSON serialisation of the remaining `Date` values is outside the transform and not modelled.
- The key order of the JSON objects is not modelled. Objects are maps.
- Mongoose's casting of non-string request values, such as a number sent as the note, is not modelled. Request fields are optional strings: a field left out of the body is `None`, including the email and password of the authentication requests.
- How Mongoose treats a filter `{ email: undefined }` is the parameter `undefinedMatch`: the email of the user it selects, or `None`. A missing password makes `bcrypt` reject with an argument error, the parameter `illegal`.
- The `findById` cast of the compliance-note route is the parameter `cast`. The patient routes take the id after that cast, so a spelling such as upper-case hex reaches them as the stored id.
- `PatientRoutes.AppendNoteSpec` uses one `now` for the new note's `createdAt` and the patient's `updatedAt`. In the source these are two clock reads, the schema default and then the save timestamp, which can differ by the time the save takes.
- `PatientRoutes.AppendNoteSpec` keeps `version` unchanged. Mongoose increments `__v` when an embedded array is pushed and saved; the reply never shows it, because the JSON transform drops `__v`.
- The server bootstrap and the database connection (`api/server.js`, `api/config/database.js`) are I/O and not modelled. The seed script (`api/scripts/seedData.js`) is also left out; the collection's constructor takes any valid seed.
- The network hooks are not modelled, and neither is the fetch part of `usePatients`. `URLSearchParams` percent-encoding is the abstract `encode`.
- `localStorage`, `confirm`, `setTimeout`, `uid()` and `window.innerWidth` are inputs or fields of the models: the stored flag, `confirmed`, `BannerTimeout`, `newId` and `innerWidth`.
- AppRouter.Canonical does not percent-decode the pathname. The router version that decodes it before matching would also send "/dashboar%64" to the dashboard; the model sends it to the login redirect.
- Rendering, styling, animation, the placeholder pages and the unused second route table are not modelled.
- `handleRegister` only logs the values and arms a redirect timer, so it is not modelled.
- Yup's `email()` check is the parameter `isEmail`. The date-of-birth rule `max(new Date())` is reduced to "a date was picked".
- `parseInt` and `parseFloat` text parsing is not modelled. A form field is `None` while empty and otherwise holds the number it parses to. Garbage text, which parses to `NaN`, is treated as an empty field. In the source it is truthy: in `handleSave` it passes the range checks, the history entry falls back to 0, and the matching daily task gets `completed` set to `NaN`. `toFixed` rounding of the labels is not modelled: labels are exact.
- `JsText.ToLower` maps only the ASCII letters. The Unicode case mapping of `toLowerCase` is not modelled.
- `DailyTasks.CompletionPercentage` requires a non-zero target. JavaScript's division by zero and `NaN` are not modelled.
- `HistoryList.ScoreColor` and `HistoryList.Percent` require a positive target. The targets are the constants 10000, 2 and 8.
- `DailyTasks.OverallProgress` requires a non-empty task list. On an empty list the source divides 0 by 0 and draws a `NaN` bar.
- `ProfileScreen.ProfileManager.Prev` and `ProfileScreen.ProfileManager.Next` require more than one page. The pager is not rendered otherwise.
- `PatientModel.PatientObject` states only that all four lists are present. That the rest of the record equals the projection is stated separately by `PatientJson.TopLevelKey`.
- `UsePatients.QueryString` and `UsePatients.BuildEndpoint` require that the abstract encoder never outputs "?". `URLSearchParams` guarantees this by percent-encoding it.
- `FormRules.Put`, which adds one rule's error to the errors of a form, is a helper and has no contract of its own.

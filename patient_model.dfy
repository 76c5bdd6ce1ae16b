/**
 * The patient document of the patient service: the four embedded sub-schemas and the
 * patient schema, with their required paths, enumerations, bounds and defaults, and the
 * plain object (`toObject()`) a stored document becomes before it is serialised.
 */
module PatientModel {
  import opened Options
  import opened Values

  // ---------------------------------------------------------------------------
  // Enumerations
  // ---------------------------------------------------------------------------

  datatype ComplianceStatus = Low | Medium | High
  datatype GoalStatus = Active | Completed | Pending
  datatype Priority = LowPriority | MediumPriority | HighPriority

  function ComplianceStatusName(s: ComplianceStatus): string {
    match s
    case Low => "Low"
    case Medium => "Medium"
    case High => "High"
  }

  function GoalStatusName(s: GoalStatus): string {
    match s
    case Active => "active"
    case Completed => "completed"
    case Pending => "pending"
  }

  function PriorityName(p: Priority): string {
    match p
    case LowPriority => "low"
    case MediumPriority => "medium"
    case HighPriority => "high"
  }

  /** The `enum` validator of `complianceStatus`: exactly the three names are accepted. */
  function ParseComplianceStatus(text: string): (r: Option<ComplianceStatus>)
    ensures r.Some? <==> text == "Low" || text == "Medium" || text == "High"
    ensures r.Some? ==> ComplianceStatusName(r.value) == text
  {
    if text == "Low" then Some(Low)
    else if text == "Medium" then Some(Medium)
    else if text == "High" then Some(High)
    else None
  }

  /** The `enum` validator of a goal's `status`. */
  function ParseGoalStatus(text: string): (r: Option<GoalStatus>)
    ensures r.Some? <==> text == "active" || text == "completed" || text == "pending"
    ensures r.Some? ==> GoalStatusName(r.value) == text
  {
    if text == "active" then Some(Active)
    else if text == "completed" then Some(Completed)
    else if text == "pending" then Some(Pending)
    else None
  }

  /** The `enum` validator of a reminder's `priority`. */
  function ParsePriority(text: string): (r: Option<Priority>)
    ensures r.Some? <==> text == "low" || text == "medium" || text == "high"
    ensures r.Some? ==> PriorityName(r.value) == text
  {
    if text == "low" then Some(LowPriority)
    else if text == "medium" then Some(MediumPriority)
    else if text == "high" then Some(HighPriority)
    else None
  }

  lemma {:induction false} EnumNamesRoundTrip(c: ComplianceStatus, g: GoalStatus, p: Priority)
    ensures ParseComplianceStatus(ComplianceStatusName(c)) == Some(c)
    ensures ParseGoalStatus(GoalStatusName(g)) == Some(g)
    ensures ParsePriority(PriorityName(p)) == Some(p)
  {
    match c { case Low => case Medium => case High => }
    match g { case Active => case Completed => case Pending => }
    match p { case LowPriority => case MediumPriority => case HighPriority => }
  }

  // ---------------------------------------------------------------------------
  // Stored documents
  // ---------------------------------------------------------------------------

  datatype Goal = Goal(id: ObjectId, title: string, description: string, targetValue: real,
                       currentValue: real, unit: string, deadline: Date, status: GoalStatus)

  datatype DailyLog = DailyLog(id: ObjectId, date: Date, steps: real, sleepHours: real,
                               notes: Option<string>)

  datatype Reminder = Reminder(id: ObjectId, title: string, description: string, dueDate: Date,
                               completed: bool, priority: Priority)

  datatype ComplianceNote = ComplianceNote(id: ObjectId, note: string, createdAt: Date,
                                           createdBy: string)

  /** A patient; `createdAt`/`updatedAt` come from `timestamps: true`, `version` is `__v`. */
  datatype Patient = Patient(
    id: ObjectId, name: string, email: string, phone: string,
    complianceStatus: ComplianceStatus, complianceScore: real, assignedDate: Date,
    goals: seq<Goal>, dailyLogs: seq<DailyLog>, reminders: seq<Reminder>,
    complianceNotes: seq<ComplianceNote>,
    createdAt: Date, updatedAt: Date, version: nat)

  /** `required: true` on a String path: the value is present and not the empty string. */
  predicate RequiredText(v: Option<string>) {
    v.Some? && v.value != ""
  }

  /** The validators of each schema, stated on stored documents. */
  predicate ValidGoal(g: Goal) {
    g.title != "" && g.description != "" && g.unit != ""
  }

  predicate ValidReminder(r: Reminder) {
    r.title != "" && r.description != ""
  }

  predicate ValidNote(n: ComplianceNote) {
    n.note != "" && n.createdBy != ""
  }

  predicate ValidPatient(p: Patient) {
    && p.name != "" && p.email != "" && p.phone != ""
    && 0.0 <= p.complianceScore <= 100.0
    && (forall i :: 0 <= i < |p.goals| ==> ValidGoal(p.goals[i]))
    && (forall i :: 0 <= i < |p.reminders| ==> ValidReminder(p.reminders[i]))
    && (forall i :: 0 <= i < |p.complianceNotes| ==> ValidNote(p.complianceNotes[i]))
  }

  // ---------------------------------------------------------------------------
  // Creating documents: casting the supplied paths, applying defaults, validating
  // ---------------------------------------------------------------------------

  datatype GoalInput = GoalInput(title: Option<string>, description: Option<string>,
                                 targetValue: Option<real>, currentValue: Option<real>,
                                 unit: Option<string>, deadline: Option<Date>,
                                 status: Option<string>)

  /** The paths of a goal that fail validation. */
  function GoalErrors(g: GoalInput): set<string> {
    (if RequiredText(g.title) then {} else {"title"})
    + (if RequiredText(g.description) then {} else {"description"})
    + (if g.targetValue.Some? then {} else {"targetValue"})
    + (if RequiredText(g.unit) then {} else {"unit"})
    + (if g.deadline.Some? then {} else {"deadline"})
    + (if g.status.None? || ParseGoalStatus(g.status.value).Some? then {} else {"status"})
  }

  /** A new goal sub-document: `currentValue` defaults to 0 and `status` to "active". */
  function NewGoal(id: ObjectId, g: GoalInput): (r: Result<Goal, set<string>>)
    ensures r.Success? <==>
      RequiredText(g.title) && RequiredText(g.description) && g.targetValue.Some?
      && RequiredText(g.unit) && g.deadline.Some?
      && (g.status.None? || g.status.value in {"active", "completed", "pending"})
    ensures r.Failure? ==> r.error != {}
    ensures r.Success? ==> (ValidGoal(r.value) && r.value.id == id
      && r.value.title == g.title.value && r.value.description == g.description.value
      && r.value.targetValue == g.targetValue.value && r.value.unit == g.unit.value
      && r.value.deadline == g.deadline.value)
    ensures r.Success? ==> r.value.currentValue == (if g.currentValue.Some? then g.currentValue.value else 0.0)
    ensures r.Success? && g.status.None? ==> r.value.status == Active
    ensures r.Success? && g.status.Some? ==> GoalStatusName(r.value.status) == g.status.value
  {
    var errors := GoalErrors(g);
    if errors != {} then Failure(errors)
    else
      Success(Goal(id, g.title.value, g.description.value, g.targetValue.value,
                   if g.currentValue.Some? then g.currentValue.value else 0.0,
                   g.unit.value, g.deadline.value,
                   if g.status.None? then Active else ParseGoalStatus(g.status.value).value))
  }

  datatype DailyLogInput = DailyLogInput(date: Option<Date>, steps: Option<real>,
                                         sleepHours: Option<real>, notes: Option<string>)

  /** A new daily-log sub-document: `steps` and `sleepHours` default to 0; `date` is required. */
  function NewDailyLog(id: ObjectId, l: DailyLogInput): (r: Result<DailyLog, set<string>>)
    ensures r.Success? <==> l.date.Some?
    ensures r.Failure? ==> r.error == {"date"}
    ensures r.Success? ==> r.value.id == id && r.value.date == l.date.value && r.value.notes == l.notes
    ensures r.Success? ==> r.value.steps == (if l.steps.Some? then l.steps.value else 0.0)
    ensures r.Success? ==> r.value.sleepHours == (if l.sleepHours.Some? then l.sleepHours.value else 0.0)
  {
    if l.date.None? then Failure({"date"})
    else
      Success(DailyLog(id, l.date.value,
                       if l.steps.Some? then l.steps.value else 0.0,
                       if l.sleepHours.Some? then l.sleepHours.value else 0.0,
                       l.notes))
  }

  datatype ReminderInput = ReminderInput(title: Option<string>, description: Option<string>,
                                         dueDate: Option<Date>, completed: Option<bool>,
                                         priority: Option<string>)

  function ReminderErrors(r: ReminderInput): set<string> {
    (if RequiredText(r.title) then {} else {"title"})
    + (if RequiredText(r.description) then {} else {"description"})
    + (if r.dueDate.Some? then {} else {"dueDate"})
    + (if r.priority.None? || ParsePriority(r.priority.value).Some? then {} else {"priority"})
  }

  /** A new reminder sub-document: `completed` defaults to false and `priority` to "medium". */
  function NewReminder(id: ObjectId, input: ReminderInput): (r: Result<Reminder, set<string>>)
    ensures r.Success? <==>
      RequiredText(input.title) && RequiredText(input.description) && input.dueDate.Some?
      && (input.priority.None? || input.priority.value in {"low", "medium", "high"})
    ensures r.Failure? ==> r.error != {}
    ensures r.Success? ==> ValidReminder(r.value) && r.value.id == id && r.value.dueDate == input.dueDate.value
    ensures r.Success? ==> r.value.title == input.title.value && r.value.description == input.description.value
    ensures r.Success? ==> r.value.completed == (input.completed.Some? && input.completed.value)
    ensures r.Success? && input.priority.None? ==> r.value.priority == MediumPriority
    ensures r.Success? && input.priority.Some? ==> PriorityName(r.value.priority) == input.priority.value
  {
    var errors := ReminderErrors(input);
    if errors != {} then Failure(errors)
    else
      Success(Reminder(id, input.title.value, input.description.value, input.dueDate.value,
                       input.completed.Some? && input.completed.value,
                       if input.priority.None? then MediumPriority
                       else ParsePriority(input.priority.value).value))
  }

  datatype NoteInput = NoteInput(note: Option<string>, createdAt: Option<Date>, createdBy: Option<string>)

  /** A new compliance-note sub-document: `note` and `createdBy` are required, `createdAt` defaults to `now`. */
  function NewComplianceNote(id: ObjectId, n: NoteInput, now: Date): (r: Result<ComplianceNote, set<string>>)
    ensures r.Success? <==> RequiredText(n.note) && RequiredText(n.createdBy)
    ensures r.Failure? ==> r.error != {} && r.error <= {"note", "createdBy"}
    ensures r.Success? ==> (ValidNote(r.value) && r.value.id == id
      && r.value.note == n.note.value && r.value.createdBy == n.createdBy.value)
    ensures r.Success? ==> r.value.createdAt == (if n.createdAt.Some? then n.createdAt.value else now)
  {
    var errors := (if RequiredText(n.note) then {} else {"note"})
                  + (if RequiredText(n.createdBy) then {} else {"createdBy"});
    if errors != {} then Failure(errors)
    else Success(ComplianceNote(id, n.note.value,
                                if n.createdAt.Some? then n.createdAt.value else now,
                                n.createdBy.value))
  }

  datatype PatientInput = PatientInput(
    name: Option<string>, email: Option<string>, phone: Option<string>,
    complianceStatus: Option<string>, complianceScore: Option<real>, assignedDate: Option<Date>,
    goals: seq<Goal>, dailyLogs: seq<DailyLog>, reminders: seq<Reminder>,
    complianceNotes: seq<ComplianceNote>)

  function PatientErrors(p: PatientInput): set<string> {
    (if RequiredText(p.name) then {} else {"name"})
    + (if RequiredText(p.email) then {} else {"email"})
    + (if RequiredText(p.phone) then {} else {"phone"})
    + (if p.complianceStatus.None? || ParseComplianceStatus(p.complianceStatus.value).Some?
       then {} else {"complianceStatus"})
    + (if p.complianceScore.None? || 0.0 <= p.complianceScore.value <= 100.0
       then {} else {"complianceScore"})
    + (if forall i :: 0 <= i < |p.goals| ==> ValidGoal(p.goals[i]) then {} else {"goals"})
    + (if forall i :: 0 <= i < |p.reminders| ==> ValidReminder(p.reminders[i]) then {} else {"reminders"})
    + (if forall i :: 0 <= i < |p.complianceNotes| ==> ValidNote(p.complianceNotes[i])
       then {} else {"complianceNotes"})
  }

  /**
   * A new patient document created at `now`: `complianceStatus` defaults to "Medium",
   * `complianceScore` to 50 and must lie in [0, 100], `assignedDate` defaults to `now`,
   * and both timestamps are `now`. (Uniqueness of `email` is a store invariant.)
   */
  function NewPatient(id: ObjectId, input: PatientInput, now: Date): (r: Result<Patient, set<string>>)
    ensures r.Success? <==> PatientErrors(input) == {}
    ensures r.Success? ==> ValidPatient(r.value) && r.value.id == id && r.value.version == 0
    ensures r.Success? ==> (r.value.name == input.name.value && r.value.email == input.email.value
      && r.value.phone == input.phone.value)
    ensures r.Success? ==> (r.value.goals == input.goals && r.value.dailyLogs == input.dailyLogs
      && r.value.reminders == input.reminders && r.value.complianceNotes == input.complianceNotes)
    ensures r.Success? && input.complianceStatus.None? ==> r.value.complianceStatus == Medium
    ensures r.Success? && input.complianceStatus.Some? ==>
      ComplianceStatusName(r.value.complianceStatus) == input.complianceStatus.value
    ensures r.Success? ==> (r.value.complianceScore ==
      if input.complianceScore.Some? then input.complianceScore.value else 50.0)
    ensures r.Success? ==> (r.value.assignedDate ==
      if input.assignedDate.Some? then input.assignedDate.value else now)
    ensures r.Success? ==> r.value.createdAt == now && r.value.updatedAt == now
    ensures input.complianceScore.Some? && !(0.0 <= input.complianceScore.value <= 100.0) ==>
      r.Failure? && "complianceScore" in r.error
  {
    var errors := PatientErrors(input);
    if errors != {} then Failure(errors)
    else
      Success(Patient(
        id, input.name.value, input.email.value, input.phone.value,
        if input.complianceStatus.None? then Medium
        else ParseComplianceStatus(input.complianceStatus.value).value,
        if input.complianceScore.Some? then input.complianceScore.value else 50.0,
        if input.assignedDate.Some? then input.assignedDate.value else now,
        input.goals, input.dailyLogs, input.reminders, input.complianceNotes,
        now, now, 0))
  }

  // ---------------------------------------------------------------------------
  // The plain object of a document, as handed to the `toJSON` transform
  // ---------------------------------------------------------------------------

  function GoalObject(g: Goal): Object {
    map["_id" := Oid(g.id), "title" := Str(g.title), "description" := Str(g.description),
        "targetValue" := Num(g.targetValue), "currentValue" := Num(g.currentValue),
        "unit" := Str(g.unit), "deadline" := DateV(g.deadline),
        "status" := Str(GoalStatusName(g.status))]
  }

  function DailyLogObject(l: DailyLog): Object {
    var base := map["_id" := Oid(l.id), "date" := DateV(l.date), "steps" := Num(l.steps),
                    "sleepHours" := Num(l.sleepHours)];
    if l.notes.Some? then base["notes" := Str(l.notes.value)] else base
  }

  function ReminderObject(r: Reminder): Object {
    map["_id" := Oid(r.id), "title" := Str(r.title), "description" := Str(r.description),
        "dueDate" := DateV(r.dueDate), "completed" := Bool(r.completed),
        "priority" := Str(PriorityName(r.priority))]
  }

  function NoteObject(n: ComplianceNote): Object {
    map["_id" := Oid(n.id), "note" := Str(n.note), "createdAt" := DateV(n.createdAt),
        "createdBy" := Str(n.createdBy)]
  }

  function GoalItems(gs: seq<Goal>): seq<Value> {
    seq(|gs|, i requires 0 <= i < |gs| => Obj(GoalObject(gs[i])))
  }

  function DailyLogItems(ls: seq<DailyLog>): seq<Value> {
    seq(|ls|, i requires 0 <= i < |ls| => Obj(DailyLogObject(ls[i])))
  }

  function ReminderItems(rs: seq<Reminder>): seq<Value> {
    seq(|rs|, i requires 0 <= i < |rs| => Obj(ReminderObject(rs[i])))
  }

  function NoteItems(ns: seq<ComplianceNote>): seq<Value> {
    seq(|ns|, i requires 0 <= i < |ns| => Obj(NoteObject(ns[i])))
  }

  /** The keys of the four embedded lists. */
  const EmbeddedKeys: set<string> := {"goals", "dailyLogs", "reminders", "complianceNotes"}

  /**
   * The projection `select("-goals -dailyLogs -reminders -complianceNotes")`: the record
   * without its four embedded lists.
   */
  function SummaryObject(p: Patient): (o: Object)
    ensures o.Keys * EmbeddedKeys == {}
  {
    map["_id" := Oid(p.id), "name" := Str(p.name), "email" := Str(p.email),
        "phone" := Str(p.phone), "complianceStatus" := Str(ComplianceStatusName(p.complianceStatus)),
        "complianceScore" := Num(p.complianceScore), "assignedDate" := DateV(p.assignedDate),
        "createdAt" := DateV(p.createdAt), "updatedAt" := DateV(p.updatedAt),
        "__v" := Num(p.version as real)]
  }

  /** The whole record, embedded lists included. */
  function PatientObject(p: Patient): (o: Object)
    ensures EmbeddedKeys <= o.Keys
  {
    SummaryObject(p)["goals" := Arr(GoalItems(p.goals))]
                    ["dailyLogs" := Arr(DailyLogItems(p.dailyLogs))]
                    ["reminders" := Arr(ReminderItems(p.reminders))]
                    ["complianceNotes" := Arr(NoteItems(p.complianceNotes))]
  }
}

/**
 * The provider's patient detail page, reduced to its decisions: which screen shows, the
 * colour of every chip and bar, and which daily logs are listed with dividers.
 */
module PatientDetailView {
  import Options
  import opened JsArray
  import opened Values
  import opened PatientModel

  /** The MUI colour names the page uses. */
  datatype ChipColor = Success | Warning | Error | Primary | Default

  /** `getComplianceColor`: High, Medium and Low are success, warning and error; anything else is default. */
  function ComplianceColor(status: string): (c: ChipColor)
    ensures c == Success <==> status == "High"
    ensures c == Warning <==> status == "Medium"
    ensures c == Error <==> status == "Low"
    ensures c == Default <==> status != "High" && status != "Medium" && status != "Low"
  {
    if status == "High" then Success
    else if status == "Medium" then Warning
    else if status == "Low" then Error
    else Default
  }

  /** Every status the schema admits gets its own non-default colour. */
  lemma StatusesColored()
    ensures ComplianceColor(ComplianceStatusName(High)) == Success
    ensures ComplianceColor(ComplianceStatusName(Medium)) == Warning
    ensures ComplianceColor(ComplianceStatusName(Low)) == Error
  {
  }

  /** The score bar: success from 70, warning from 40, error below. */
  function ScoreColor(score: real): (c: ChipColor)
    ensures c == Success <==> score >= 70.0
    ensures c == Warning <==> 40.0 <= score < 70.0
    ensures c == Error <==> score < 40.0
  {
    if score >= 70.0 then Success else if score >= 40.0 then Warning else Error
  }

  /** A new patient's default score of 50 shows a warning bar. */
  lemma DefaultScoreWarns(id: ObjectId, input: PatientInput, now: Date)
    requires input.complianceScore.None?
    requires NewPatient(id, input, now).Success?
    ensures ScoreColor(NewPatient(id, input, now).value.complianceScore) == Warning
  {
  }

  /** A goal's chip: completed is success, active is primary, anything else default. */
  function GoalChip(status: string): (c: ChipColor)
    ensures c == Success <==> status == "completed"
    ensures c == Primary <==> status == "active"
    ensures c == Default <==> status != "completed" && status != "active"
  {
    if status == "completed" then Success else if status == "active" then Primary else Default
  }

  /** A reminder's priority chip: high is error, medium is warning, anything else default. */
  function PriorityChip(priority: string): (c: ChipColor)
    ensures c == Error <==> priority == "high"
    ensures c == Warning <==> priority == "medium"
    ensures c == Default <==> priority != "high" && priority != "medium"
  {
    if priority == "high" then Error else if priority == "medium" then Warning else Default
  }

  /** Pending goals and low-priority reminders are the only schema values drawn in the default colour. */
  lemma DefaultChips()
    ensures GoalChip(GoalStatusName(Pending)) == Default
    ensures GoalChip(GoalStatusName(Active)) != Default && GoalChip(GoalStatusName(Completed)) != Default
    ensures PriorityChip(PriorityName(LowPriority)) == Default
    ensures PriorityChip(PriorityName(MediumPriority)) != Default && PriorityChip(PriorityName(HighPriority)) != Default
  {
  }

  const ShownLogCount: nat := 5

  /** A listed daily log, with whether a divider follows it. */
  datatype Row<T> = Row(item: T, divider: bool)

  /**
   * `dailyLogs.slice(0, 5)`, each followed by a divider when its index is below
   * `min(length, 5) - 1`: at most the first five logs, with dividers between them only.
   */
  function LogRows<T>(logs: seq<T>): (rows: seq<Row<T>>)
    ensures |rows| == if |logs| < ShownLogCount then |logs| else ShownLogCount
    ensures forall i :: 0 <= i < |rows| ==> rows[i].item == logs[i]
    ensures forall i :: 0 <= i < |rows| ==> (rows[i].divider <==> i != |rows| - 1)
  {
    var shown := Slice(logs, 0, ShownLogCount);
    var count := if |logs| < ShownLogCount then |logs| else ShownLogCount;
    assert shown == logs[..count];
    seq(|shown|, i requires 0 <= i < |shown| => Row(shown[i], i < count - 1))
  }

  /** What the page shows. */
  datatype Screen<T> = Spinner | ErrorAlert(message: string) | Details(patient: T)

  /** A fetch error, when it is truthy. */
  predicate Failed(error: Options.Option<string>) {
    error.Some? && error.value != ""
  }

  /**
   * Loading wins over everything; then an error or a missing patient shows the error,
   * falling back to "Patient not found"; otherwise the patient.
   */
  function DetailScreen<T>(loading: bool, error: Options.Option<string>, patient: Options.Option<T>): (s: Screen<T>)
    ensures s == Spinner <==> loading
    ensures s.ErrorAlert? <==> !loading && (Failed(error) || patient.None?)
    ensures s.ErrorAlert? ==> s.message == if Failed(error) then error.value else "Patient not found"
    ensures s.Details? ==> patient == Options.Some(s.patient)
  {
    if loading then Spinner
    else if Failed(error) || patient.None? then ErrorAlert(if Failed(error) then error.value else "Patient not found")
    else Details(patient.value)
  }
}

/**
 * The patient goal tracker's save: the form is refused (with an alert) when it is empty
 * or a figure is out of range; otherwise the matching tasks take the new figures, the
 * entry goes to the front of the history, and the form is cleared and hidden. Its
 * percentage and colour helpers are the daily-task card's, `DailyTasks.CompletionPercentage`
 * and `DailyTasks.ProgressColor`.
 */
module GoalTracker {
  import opened Options
  import opened DailyTasks
  import opened HistoryList
  import opened AddDailyLog

  const MaxSteps: int := 50000
  const MaxWater: real := 10.0
  const MaxSleep: real := 24.0

  const EmptyAlert := "Please enter at least one value before saving."
  const StepsAlert := "Steps must be between 0 and 50,000"
  const WaterAlert := "Water intake must be between 0 and 10 liters"
  const SleepAlert := "Sleep hours must be between 0 and 24"

  /** No field holds anything. */
  predicate AllEmpty(form: LogForm) {
    form.steps.None? && form.water.None? && form.sleep.None? && form.customGoal == ""
  }

  /** An empty field passes; a typed one must lie in the inclusive range [0, max]. */
  predicate StepsInRange(form: LogForm) {
    form.steps.None? || 0 <= form.steps.value <= MaxSteps
  }

  predicate InRange(field: Option<real>, max: real) {
    field.None? || 0.0 <= field.value <= max
  }

  /** The alert the save raises, checked in the order of the source; `None` accepts the form. */
  function Rejection(form: LogForm): (r: Option<string>)
    ensures r.None? <==> !AllEmpty(form) && StepsInRange(form) && InRange(form.water, MaxWater) && InRange(form.sleep, MaxSleep)
    ensures AllEmpty(form) ==> r == Some(EmptyAlert)
    ensures !AllEmpty(form) && !StepsInRange(form) ==> r == Some(StepsAlert)
    ensures !AllEmpty(form) && StepsInRange(form) && !InRange(form.water, MaxWater) ==> r == Some(WaterAlert)
    ensures !AllEmpty(form) && StepsInRange(form) && InRange(form.water, MaxWater) && !InRange(form.sleep, MaxSleep) ==>
      r == Some(SleepAlert)
  {
    if AllEmpty(form) then Some(EmptyAlert)
    else if form.steps.Some? && (form.steps.value < 0 || form.steps.value > MaxSteps) then Some(StepsAlert)
    else if form.water.Some? && (form.water.value < 0.0 || form.water.value > MaxWater) then Some(WaterAlert)
    else if form.sleep.Some? && (form.sleep.value < 0.0 || form.sleep.value > MaxSleep) then Some(SleepAlert)
    else None
  }

  /** The ranges are inclusive at both ends, and one step past either end is refused. */
  lemma RangesInclusive()
    ensures Rejection(LogForm(Some(0), Some(0.0), Some(0.0), "")) == None
    ensures Rejection(LogForm(Some(50000), Some(10.0), Some(24.0), "")) == None
    ensures Rejection(LogForm(Some(50001), None, None, "")) == Some(StepsAlert)
    ensures Rejection(LogForm(Some(-1), None, None, "")) == Some(StepsAlert)
    ensures Rejection(LogForm(None, Some(10.5), None, "")) == Some(WaterAlert)
    ensures Rejection(LogForm(None, None, Some(24.5), "")) == Some(SleepAlert)
    ensures Rejection(LogForm(None, None, None, "walk")) == None
  {
  }

  /** The figure of the form a task with this unit takes, if that field was filled in. */
  function Reading(unit: string, form: LogForm): (r: Option<real>)
    ensures unit == "steps" ==> r == if form.steps.Some? then Some(form.steps.value as real) else None
    ensures unit == "L" ==> r == form.water
    ensures unit == "hrs" ==> r == form.sleep
    ensures unit != "steps" && unit != "L" && unit != "hrs" ==> r == None
  {
    if unit == "steps" && form.steps.Some? then Some(form.steps.value as real)
    else if unit == "L" && form.water.Some? then form.water
    else if unit == "hrs" && form.sleep.Some? then form.sleep
    else None
  }

  /** One task after the save: a filled-in figure replaces `completed` and decides the status. */
  function UpdatedTask(t: Task, form: LogForm): (u: Task)
    ensures u.id == t.id && u.task == t.task && u.target == t.target && u.unit == t.unit
    ensures Reading(t.unit, form).None? ==> u == t
    ensures Reading(t.unit, form).Some? ==>
      && u.completed == Reading(t.unit, form).value
      && (u.status == "completed" <==> u.completed >= t.target)
      && (u.status != "completed" ==> u.status == "incomplete")
  {
    match Reading(t.unit, form)
    case None => t
    case Some(v) => t.(completed := v, status := if v >= t.target then "completed" else "incomplete")
  }

  /** `dailyTasks.map(...)`: every task updated on its own, in place. */
  function UpdatedTasks(tasks: seq<Task>, form: LogForm): (r: seq<Task>)
    ensures |r| == |tasks|
    ensures forall i :: 0 <= i < |tasks| ==> r[i] == UpdatedTask(tasks[i], form)
  {
    seq(|tasks|, i requires 0 <= i < |tasks| => UpdatedTask(tasks[i], form))
  }

  /** A status the save writes agrees with the daily-task card: "completed" exactly at 100 percent. */
  lemma UpdatedStatusAgrees(tasks: seq<Task>, form: LogForm, i: int)
    requires 0 <= i < |tasks| && tasks[i].target > 0.0 && Reading(tasks[i].unit, form).Some?
    ensures var u := UpdatedTasks(tasks, form)[i];
      u.status == "completed" <==> CompletionPercentage(u.completed, u.target) == 100.0
  {
    var u := UpdatedTasks(tasks, form)[i];
    FullWhenTargetReached(u.completed, u.target);
  }

  /** A form that fills in no figure leaves every task as it was. */
  lemma NoFiguresNoChange(tasks: seq<Task>, form: LogForm)
    requires form.steps.None? && form.water.None? && form.sleep.None?
    ensures UpdatedTasks(tasks, form) == tasks
  {
  }

  /** The tracker's state: the form, its visibility, the tasks, the history and the alerts shown. */
  class PatientGoalTracker {
    var showAddForm: bool
    var form: LogForm
    var tasks: seq<Task>
    var history: seq<HistoryEntry>
    var alerts: seq<string>

    /** The initial tasks and history come from the bundled mock data. */
    constructor (initialTasks: seq<Task>, initialHistory: seq<HistoryEntry>)
      ensures !showAddForm && form == EmptyForm && tasks == initialTasks && history == initialHistory && alerts == []
    {
      showAddForm := false;
      form := EmptyForm;
      tasks := initialTasks;
      history := initialHistory;
      alerts := [];
    }

    /** `handleSave`; `today` is the current date as `YYYY-MM-DD`. */
    method HandleSave(today: string)
      modifies this
      ensures Rejection(old(form)).Some? ==>
        && alerts == old(alerts) + [Rejection(old(form)).value]
        && form == old(form) && tasks == old(tasks) && history == old(history) && showAddForm == old(showAddForm)
      ensures Rejection(old(form)).None? ==>
        && tasks == UpdatedTasks(old(tasks), old(form))
        && history == [NewEntry(old(form), today)] + old(history)
        && form == EmptyForm && !showAddForm && alerts == old(alerts)
    {
      if AllEmpty(form) {
        alerts := alerts + [EmptyAlert];
        return;
      }
      if form.steps.Some? && (form.steps.value < 0 || form.steps.value > MaxSteps) {
        alerts := alerts + [StepsAlert];
        return;
      }
      if form.water.Some? && (form.water.value < 0.0 || form.water.value > MaxWater) {
        alerts := alerts + [WaterAlert];
        return;
      }
      if form.sleep.Some? && (form.sleep.value < 0.0 || form.sleep.value > MaxSleep) {
        alerts := alerts + [SleepAlert];
        return;
      }
      var entry := NewEntry(form, today);
      tasks := UpdatedTasks(tasks, form);
      history := [entry] + history;
      form := EmptyForm;
      showAddForm := false;
    }
  }
}

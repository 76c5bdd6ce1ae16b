/**
 * The daily-log form: four text fields, read as numbers when the entry is built. A
 * field is `None` while it is empty; a typed field holds the number it parses to (steps
 * are parsed as an integer). The entry is built from whatever was typed, with no checks.
 */
module AddDailyLog {
  import opened Options
  import opened HistoryList

  datatype LogForm = LogForm(steps: Option<int>, water: Option<real>, sleep: Option<real>, customGoal: string)

  /** One field of the form with the value typed into it, already read as a number where it is one. */
  datatype FieldValue = StepsValue(steps: Option<int>) | WaterValue(water: Option<real>)
                      | SleepValue(sleep: Option<real>) | GoalValue(customGoal: string)

  /** `{ ...prev, [field]: value }`: the named field takes the value and the other three are kept. */
  function WithField(form: LogForm, v: FieldValue): (r: LogForm)
    ensures v.StepsValue? ==> r.steps == v.steps
    ensures v.WaterValue? ==> r.water == v.water
    ensures v.SleepValue? ==> r.sleep == v.sleep
    ensures v.GoalValue? ==> r.customGoal == v.customGoal
    ensures !v.StepsValue? ==> r.steps == form.steps
    ensures !v.WaterValue? ==> r.water == form.water
    ensures !v.SleepValue? ==> r.sleep == form.sleep
    ensures !v.GoalValue? ==> r.customGoal == form.customGoal
  {
    match v
    case StepsValue(steps) => form.(steps := steps)
    case WaterValue(water) => form.(water := water)
    case SleepValue(sleep) => form.(sleep := sleep)
    case GoalValue(customGoal) => form.(customGoal := customGoal)
  }

  /** The form with every field reset to "". */
  const EmptyForm: LogForm := LogForm(None, None, None, "")

  /** `parseInt(field) || 0` and `parseFloat(field) || 0`: a typed number, or 0. */
  function OrZero(field: Option<int>): int {
    if field.Some? then field.value else 0
  }

  function OrZeroReal(field: Option<real>): real {
    if field.Some? then field.value else 0.0
  }

  /** The entry built from the form on `today`: every empty figure becomes 0, the goal text is copied. */
  function NewEntry(form: LogForm, today: string): (e: HistoryEntry)
    ensures e.date == today && e.customGoal == form.customGoal
    ensures form.steps.None? ==> e.steps == 0
    ensures form.steps.Some? ==> e.steps == form.steps.value
    ensures form.water.None? ==> e.water == 0.0
    ensures form.water.Some? ==> e.water == form.water.value
    ensures form.sleep.None? ==> e.sleep == 0.0
    ensures form.sleep.Some? ==> e.sleep == form.sleep.value
  {
    HistoryEntry(today, OrZero(form.steps), OrZeroReal(form.water), OrZeroReal(form.sleep), form.customGoal)
  }

  /** There is no validation: an untouched form still yields an entry of zeros. */
  lemma EmptyFormSaves(today: string)
    ensures NewEntry(EmptyForm, today) == HistoryEntry(today, 0, 0.0, 0.0, "")
  {
  }

  /** The form component; `saved` records the entries handed to `onSave`, in order. */
  class AddDailyLogForm {
    var form: LogForm
    var saved: seq<HistoryEntry>

    constructor ()
      ensures form == EmptyForm && saved == []
    {
      form := EmptyForm;
      saved := [];
    }

    /** `handleInputChange`: the form with one field replaced. */
    method Change(v: FieldValue)
      modifies this
      ensures form == WithField(old(form), v) && saved == old(saved)
    {
      form := WithField(form, v);
    }

    /** `handleSave`: one `onSave` call with the entry, then every field reset. */
    method HandleSave(today: string)
      modifies this
      ensures saved == old(saved) + [NewEntry(old(form), today)]
      ensures form == EmptyForm
    {
      var entry := NewEntry(form, today);
      saved := saved + [entry];
      form := EmptyForm;
    }
  }
}

/**
 * The history of daily entries: each card colours the steps, water and sleep figures
 * against fixed daily targets and labels them with an uncapped percentage; an empty
 * history shows the empty-state message.
 */
module HistoryList {
  import opened DailyTasks

  datatype HistoryEntry = HistoryEntry(date: string, steps: int, water: real, sleep: real, customGoal: string)

  /** The daily targets the history cards measure against. */
  const StepsTarget: real := 10000.0
  const WaterTarget: real := 2.0
  const SleepTarget: real := 8.0

  /** `getScoreColor(value, target)`: the progress thresholds applied to `value / target * 100`. */
  function ScoreColor(value: real, target: real): (c: Color)
    requires target > 0.0
    ensures c == Green <==> value >= target
    ensures c == Orange <==> 0.75 * target <= value < target
    ensures c == Blue <==> 0.5 * target <= value < 0.75 * target
    ensures c == Red <==> value < 0.5 * target
  {
    var p := value / target * 100.0;
    AtLeast(value, target, 100.0);
    AtLeast(value, target, 75.0);
    AtLeast(value, target, 50.0);
    ProgressColor(p)
  }

  /** The percentage reaches `k` exactly when the value reaches `k` percent of the target. */
  lemma AtLeast(value: real, target: real, k: real)
    requires target > 0.0
    ensures value / target * 100.0 >= k <==> value >= k / 100.0 * target
  {
    var q := value / target;
    assert q * target == value;
    if q >= k / 100.0 {
      assert q * target >= k / 100.0 * target;
    } else {
      assert q * target < k / 100.0 * target;
    }
  }

  /** The label of a figure: `value / target * 100`, with no cap. */
  function Percent(value: real, target: real): (r: real)
    requires target > 0.0
    ensures r * target == value * 100.0
  {
    value / target * 100.0
  }

  /** The three labelled figures of a card: steps, water and sleep. */
  function Labels(e: HistoryEntry): (r: seq<real>)
    ensures |r| == 3
    ensures r[0] == e.steps as real / 100.0
    ensures r[1] == e.water * 50.0
    ensures r[2] == e.sleep * 12.5
  {
    [Percent(e.steps as real, StepsTarget), Percent(e.water, WaterTarget), Percent(e.sleep, SleepTarget)]
  }

  /** The colours of a card, in the same order as its labels. */
  function Colors(e: HistoryEntry): (r: seq<Color>)
    ensures |r| == 3
    ensures forall i :: 0 <= i < 3 ==> r[i] == ProgressColor(Labels(e)[i])
  {
    [ScoreColor(e.steps as real, StepsTarget), ScoreColor(e.water, WaterTarget), ScoreColor(e.sleep, SleepTarget)]
  }

  /**
   * Unlike the daily-task card's percentage, a history label is not capped: twice the step
   * target is labelled 200 while the daily-task card shows 100.
   */
  lemma LabelsNotCapped(date: string, goal: string)
    ensures Labels(HistoryEntry(date, 20000, 0.0, 0.0, goal))[0] == 200.0
    ensures CompletionPercentage(20000.0, StepsTarget) == 100.0
  {
  }

  /** What the history panel shows. */
  datatype Panel = EmptyState | Cards(entries: seq<HistoryEntry>)

  function View(history: seq<HistoryEntry>): (v: Panel)
    ensures v == EmptyState <==> |history| == 0
    ensures v.Cards? ==> v.entries == history
  {
    if |history| == 0 then EmptyState else Cards(history)
  }
}

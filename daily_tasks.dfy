/**
 * The patient's task card: the completion percentage of a task, the colour of its
 * progress bar, and the completed-task count behind the overall bar. JavaScript numbers
 * are modelled as exact reals.
 */
module DailyTasks {
  import opened JsArray

  datatype Task = Task(id: int, task: string, target: real, completed: real, unit: string, status: string)

  /** The four colours of the progress thresholds. */
  datatype Color = Green | Orange | Blue | Red

  function Hex(c: Color): string {
    match c
    case Green => "#4caf50"
    case Orange => "#ff9800"
    case Blue => "#2196f3"
    case Red => "#f44336"
  }

  /** Colours ordered from worst to best. */
  function Rank(c: Color): nat {
    match c
    case Red => 0
    case Blue => 1
    case Orange => 2
    case Green => 3
  }

  /** `getCompletionPercentage`: the share of the target reached, capped at 100. */
  function CompletionPercentage(completed: real, target: real): (r: real)
    requires target != 0.0
    ensures r <= 100.0
    ensures completed / target * 100.0 <= 100.0 ==> r == completed / target * 100.0
    ensures completed / target * 100.0 > 100.0 ==> r == 100.0
  {
    var p := completed / target * 100.0;
    if p < 100.0 then p else 100.0
  }

  /** For a positive target the percentage is 100 exactly when the target is reached. */
  lemma FullWhenTargetReached(completed: real, target: real)
    requires target > 0.0
    ensures CompletionPercentage(completed, target) == 100.0 <==> completed >= target
    ensures completed >= 0.0 ==> CompletionPercentage(completed, target) >= 0.0
  {
    var p := completed / target * 100.0;
    assert p == completed * 100.0 / target;
    if completed >= target {
      assert completed * 100.0 >= target * 100.0;
    } else {
      assert completed * 100.0 < target * 100.0;
    }
  }

  /** `getProgressColor`: green from 100, orange from 75, blue from 50, red below. */
  function ProgressColor(percentage: real): (c: Color)
    ensures c == Green <==> percentage >= 100.0
    ensures c == Orange <==> 75.0 <= percentage < 100.0
    ensures c == Blue <==> 50.0 <= percentage < 75.0
    ensures c == Red <==> percentage < 50.0
  {
    if percentage >= 100.0 then Green
    else if percentage >= 75.0 then Orange
    else if percentage >= 50.0 then Blue
    else Red
  }

  /** A higher percentage never gets a worse colour. */
  lemma ProgressColorMonotone(p: real, q: real)
    requires p <= q
    ensures Rank(ProgressColor(p)) <= Rank(ProgressColor(q))
  {
  }

  function IsCompleted(t: Task): bool {
    t.status == "completed"
  }

  /** `tasks.filter(task => task.status === "completed").length`. */
  function CompletedCount(tasks: seq<Task>): (n: nat)
    ensures n <= |tasks|
    ensures n == |tasks| <==> forall i :: 0 <= i < |tasks| ==> tasks[i].status == "completed"
    ensures n == 0 <==> forall i :: 0 <= i < |tasks| ==> tasks[i].status != "completed"
  {
    CountFacts(tasks);
    |Filter(tasks, IsCompleted)|
  }

  lemma CountFacts(tasks: seq<Task>)
    ensures |Filter(tasks, IsCompleted)| == |tasks| <==> forall i :: 0 <= i < |tasks| ==> tasks[i].status == "completed"
    ensures Filter(tasks, IsCompleted) == [] <==> forall i :: 0 <= i < |tasks| ==> tasks[i].status != "completed"
  {
    if |Filter(tasks, IsCompleted)| == |tasks| {
      FilterFull(tasks, IsCompleted);
    }
    if forall i :: 0 <= i < |tasks| ==> tasks[i].status == "completed" {
      FilterAll(tasks, IsCompleted);
    }
    if forall i :: 0 <= i < |tasks| ==> tasks[i].status != "completed" {
      FilterNone(tasks, IsCompleted);
    }
    if Filter(tasks, IsCompleted) == [] {
      forall i | 0 <= i < |tasks| ensures tasks[i].status != "completed" {
        if IsCompleted(tasks[i]) {
          FilterKeeps(tasks, IsCompleted, tasks[i]);
        }
      }
    }
  }

  /** Counting is additive over a split of the list of tasks. */
  lemma CompletedCountAppend(a: seq<Task>, b: seq<Task>)
    ensures CompletedCount(a + b) == CompletedCount(a) + CompletedCount(b)
  {
    FilterAppend(a, b, IsCompleted);
  }

  /** The overall bar, `completedTasks / totalTasks * 100`, for a non-empty task list. */
  function OverallProgress(tasks: seq<Task>): (r: real)
    requires |tasks| > 0
    ensures 0.0 <= r <= 100.0
    ensures r == 100.0 <==> forall i :: 0 <= i < |tasks| ==> tasks[i].status == "completed"
    ensures r == 0.0 <==> forall i :: 0 <= i < |tasks| ==> tasks[i].status != "completed"
  {
    var done := CompletedCount(tasks);
    Ratio(done as real, |tasks| as real);
    var r := done as real / |tasks| as real * 100.0;
    r
  }

  /** A part of a positive whole is a ratio in [0, 1], at its ends exactly for none and all. */
  lemma Ratio(part: real, whole: real)
    requires 0.0 <= part <= whole && whole > 0.0
    ensures 0.0 <= part / whole <= 1.0
    ensures part / whole == 1.0 <==> part == whole
    ensures part / whole == 0.0 <==> part == 0.0
  {
    var q := part / whole;
    assert q * whole == part;
  }
}

/**
 * The Redux root slice: its initial state and the four reducers, which each write one
 * field of the state in place. `Reduce` is the reducer as a function of the old state;
 * the store's methods are proved against it.
 */
module MainReducer {
  import opened Options

  datatype Day = Monday | Tuesday | Wednesday | Thursday | Friday | Saturday | Sunday

  datatype SleepEntry = SleepEntry(day: Day, value: real)

  datatype PatientDashboard = PatientDashboard(
    stepsTaken: Option<real>, sleepHours: seq<SleepEntry>, waterIntake: Option<real>,
    calories: Option<real>, hydration: Option<real>)

  datatype State = State(count: int, loading: bool, error: Option<string>, patientDashboard: PatientDashboard)

  datatype Action = Increment | Decrement | SetLoading(loading: bool) | SetError(error: Option<string>)

  /** The days in week order, as the dashboard lists them. */
  const Week: seq<Day> := [Monday, Tuesday, Wednesday, Thursday, Friday, Saturday, Sunday]

  const InitialState: State := State(0, false, None, PatientDashboard(
    Some(7500.0),
    [SleepEntry(Monday, 2.0), SleepEntry(Tuesday, 8.0), SleepEntry(Wednesday, 10.0), SleepEntry(Thursday, 2.0),
     SleepEntry(Friday, 5.0), SleepEntry(Saturday, 10.0), SleepEntry(Sunday, 5.0)],
    Some(7.5), Some(600.0), Some(1.5)))

  /** The initial state is empty of activity and has one sleep entry per day, Monday to Sunday. */
  lemma InitialStateShape()
    ensures InitialState.count == 0 && !InitialState.loading && InitialState.error == None
    ensures |InitialState.patientDashboard.sleepHours| == 7
    ensures forall i :: 0 <= i < 7 ==> InitialState.patientDashboard.sleepHours[i].day == Week[i]
  {
  }

  /** Each reducer as a function: it changes its own field and nothing else. */
  function Reduce(s: State, a: Action): (r: State)
    ensures r.patientDashboard == s.patientDashboard
    ensures a.Increment? ==> r == s.(count := s.count + 1)
    ensures a.Decrement? ==> r == s.(count := s.count - 1)
    ensures a.SetLoading? ==> r == s.(loading := a.loading)
    ensures a.SetError? ==> r == s.(error := a.error)
  {
    match a
    case Increment => s.(count := s.count + 1)
    case Decrement => s.(count := s.count - 1)
    case SetLoading(b) => s.(loading := b)
    case SetError(e) => s.(error := e)
  }

  /** `decrement` has no lower bound, and it undoes `increment` and vice versa. */
  lemma CountRoundTrip(s: State)
    ensures Reduce(Reduce(s, Increment), Decrement) == s
    ensures Reduce(Reduce(s, Decrement), Increment) == s
    ensures Reduce(InitialState, Decrement).count == -1
  {
  }

  /** Setting a flag twice keeps only the last value. */
  lemma LastWriteWins(s: State, a: Action, b: Action)
    requires (a.SetLoading? && b.SetLoading?) || (a.SetError? && b.SetError?)
    ensures Reduce(Reduce(s, a), b) == Reduce(s, b)
  {
  }

  /** The store created from the slice; each method is one dispatched action. */
  class Store {
    var count: int
    var loading: bool
    var error: Option<string>
    var patientDashboard: PatientDashboard

    function Snapshot(): State
      reads this
    {
      State(count, loading, error, patientDashboard)
    }

    constructor ()
      ensures Snapshot() == InitialState
    {
      count := InitialState.count;
      loading := InitialState.loading;
      error := InitialState.error;
      patientDashboard := InitialState.patientDashboard;
    }

    method Increment()
      modifies this
      ensures Snapshot() == Reduce(old(Snapshot()), Action.Increment)
    {
      count := count + 1;
    }

    method Decrement()
      modifies this
      ensures Snapshot() == Reduce(old(Snapshot()), Action.Decrement)
    {
      count := count - 1;
    }

    method SetLoading(payload: bool)
      modifies this
      ensures Snapshot() == Reduce(old(Snapshot()), Action.SetLoading(payload))
    {
      loading := payload;
    }

    method SetError(payload: Option<string>)
      modifies this
      ensures Snapshot() == Reduce(old(Snapshot()), Action.SetError(payload))
    {
      error := payload;
    }
  }
}

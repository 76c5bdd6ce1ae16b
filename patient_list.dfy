/**
 * The provider's patient list, reduced to its decisions: which screen shows and the
 * colour of a card's status chip.
 * A card hands its patient's id to the selection callback, `Provider.ProviderView.Select`.
 */
module PatientList {
  import Options
  import opened PatientModel
  import opened PatientDetailView

  /** The list's `getComplianceColor`, written over the status type. */
  function StatusColor(s: ComplianceStatus): (c: ChipColor)
    ensures c == ComplianceColor(ComplianceStatusName(s))
    ensures c != Default
  {
    match s
    case High => Success
    case Medium => Warning
    case Low => Error
  }

  /** What the list shows. */
  datatype ListView<T> = ListSpinner | ListError(message: string) | NoPatients | Cards(patients: seq<T>)

  /** Loading is checked first, then the error, then emptiness. */
  function ShownList<T>(loading: bool, error: Options.Option<string>, patients: seq<T>): (s: ListView<T>)
    ensures s == ListSpinner <==> loading
    ensures s.ListError? <==> !loading && Failed(error)
    ensures s.ListError? ==> s.message == error.value
    ensures s == NoPatients <==> !loading && !Failed(error) && patients == []
    ensures s.Cards? ==> s.patients == patients && patients != []
  {
    if loading then ListSpinner
    else if Failed(error) then ListError(error.value)
    else if patients == [] then NoPatients
    else Cards(patients)
  }
}

/**
 * The provider page: it shows the detail view of the selected patient, or the list when
 * no patient is selected, and a success banner after a note is added.
 */
module Provider {
  import opened Options

  /** What the page body shows. */
  datatype Panel = DetailPanel(patientId: string) | ListPanel

  /** `selectedPatientId ? <PatientDetailView/> : <PatientList/>`: the id must be truthy. */
  function ShownPanel(selected: Option<string>): (p: Panel)
    ensures p.DetailPanel? <==> selected.Some? && selected.value != ""
    ensures p.DetailPanel? ==> p.patientId == selected.value
  {
    if selected.Some? && selected.value != "" then DetailPanel(selected.value) else ListPanel
  }

  /** The test is truthiness, not presence: an empty id keeps the list on screen. */
  lemma EmptyIdShowsList()
    ensures ShownPanel(Some("")) == ListPanel
    ensures ShownPanel(None) == ListPanel
  {
  }

  class ProviderView {
    var selectedPatientId: Option<string>
    var showSuccessMessage: bool

    function Shown(): Panel
      reads this
    {
      ShownPanel(selectedPatientId)
    }

    constructor ()
      ensures selectedPatientId == None && !showSuccessMessage && Shown() == ListPanel
    {
      selectedPatientId := None;
      showSuccessMessage := false;
    }

    /** `handlePatientSelect`: the list hands over a card's patient id. */
    method Select(patientId: string)
      modifies this
      ensures selectedPatientId == Some(patientId) && showSuccessMessage == old(showSuccessMessage)
      ensures patientId != "" ==> Shown() == DetailPanel(patientId)
    {
      selectedPatientId := Some(patientId);
    }

    /** `handleBack`: back to the list. */
    method Back()
      modifies this
      ensures selectedPatientId == None && showSuccessMessage == old(showSuccessMessage)
      ensures Shown() == ListPanel
    {
      selectedPatientId := None;
    }

    /** `handleNoteAdded`: the banner shows; the selection is left alone. */
    method NoteAdded()
      modifies this
      ensures showSuccessMessage && selectedPatientId == old(selectedPatientId)
      ensures Shown() == old(Shown())
    {
      showSuccessMessage := true;
    }

    /** The timer armed by `handleNoteAdded` expiring: the banner hides. */
    method BannerTimeout()
      modifies this
      ensures !showSuccessMessage && selectedPatientId == old(selectedPatientId)
    {
      showSuccessMessage := false;
    }
  }
}

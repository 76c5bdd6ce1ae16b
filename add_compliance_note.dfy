/**
 * The provider's note form: a select of predefined notes (plus "custom"), a custom text
 * field, and the note that will be sent. Submission posts the trimmed note as "Provider"
 * and clears the form only when the request succeeds.
 */
module AddComplianceNote {
  import opened JsText

  const PredefinedNotes: seq<string> := ["Patient missed daily goals", "Completed appointments", "Lifestyle change recommended"]

  /** The body `addComplianceNote` is called with. */
  datatype NoteRequest = NoteRequest(patientId: string, note: string, createdBy: string)

  /** The submit button is disabled while a request runs or while the note is blank. */
  function SubmitDisabled(loading: bool, note: string): (r: bool)
    ensures r <==> loading || AllWhitespace(note)
  {
    loading || Trim(note) == ""
  }

  /** The custom text field is shown for "custom" and for no selection. */
  function ShowsCustomField(selected: string): bool {
    selected == "custom" || selected == ""
  }

  class NoteForm {
    var note: string
    var selected: string
    var customNote: string
    /** The requests sent, in order. */
    var requests: seq<NoteRequest>
    /** How many times `onNoteAdded` was called. */
    var notified: nat

    constructor ()
      ensures note == "" && selected == "" && customNote == "" && requests == [] && notified == 0
    {
      note := "";
      selected := "";
      customNote := "";
      requests := [];
      notified := 0;
    }

    /** `handlePredefinedChange`: a predefined choice becomes the note; "" and "custom" clear it. */
    method HandlePredefinedChange(value: string)
      modifies this
      ensures selected == value
      ensures value != "" && value != "custom" ==> note == value && customNote == ""
      ensures value == "" || value == "custom" ==> note == "" && customNote == old(customNote)
      ensures value in PredefinedNotes ==> !ShowsCustomField(selected) && !SubmitDisabled(false, note)
      ensures requests == old(requests) && notified == old(notified)
    {
      selected := value;
      if value != "" && value != "custom" {
        note := value;
        customNote := "";
        if value in PredefinedNotes {
          var k :| 0 <= k < |PredefinedNotes| && PredefinedNotes[k] == value;
          PredefinedHidesCustom(k);
        }
      } else {
        note := "";
      }
    }

    /** `handleCustomNoteChange`: the typed text is the note; typing switches the select to "custom". */
    method HandleCustomNoteChange(value: string)
      modifies this
      ensures customNote == value && note == value
      ensures selected == if value != "" then "custom" else old(selected)
      ensures requests == old(requests) && notified == old(notified)
    {
      customNote := value;
      note := value;
      if value != "" {
        selected := "custom";
      }
    }

    /**
     * `handleSubmit`; `succeeded` is whether the request resolved to a note. A blank note
     * sends nothing; otherwise the trimmed note is sent, and only a success resets the
     * three fields and notifies the parent.
     */
    method HandleSubmit(patientId: string, succeeded: bool)
      modifies this
      ensures AllWhitespace(old(note)) ==>
        note == old(note) && selected == old(selected) && customNote == old(customNote)
        && requests == old(requests) && notified == old(notified)
      ensures !AllWhitespace(old(note)) ==> requests == old(requests) + [NoteRequest(patientId, Trim(old(note)), "Provider")]
      ensures !AllWhitespace(old(note)) && succeeded ==>
        note == "" && selected == "" && customNote == "" && notified == old(notified) + 1
      ensures !AllWhitespace(old(note)) && !succeeded ==>
        note == old(note) && selected == old(selected) && customNote == old(customNote) && notified == old(notified)
    {
      if Trim(note) == "" {
        return;
      }
      requests := requests + [NoteRequest(patientId, Trim(note), "Provider")];
      if succeeded {
        note := "";
        customNote := "";
        selected := "";
        notified := notified + 1;
      }
    }
  }

  /** Picking a predefined note hides the custom field and leaves the submit button enabled. */
  lemma PredefinedHidesCustom(k: int)
    requires 0 <= k < |PredefinedNotes|
    ensures !ShowsCustomField(PredefinedNotes[k])
    ensures !AllWhitespace(PredefinedNotes[k])
    ensures !SubmitDisabled(false, PredefinedNotes[k])
  {
    assert !IsWhitespace(PredefinedNotes[k][0]);
  }
}

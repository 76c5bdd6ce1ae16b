/**
 * POST `/` of the compliance-note router: the patient id travels in the body. Both
 * `patientId` and `note` must be truthy, which a whitespace-only note is; past that check
 * the id is cast as `findById` casts it and the handler is the patient router's append.
 */
module ComplianceNoteRoutes {
  import opened Options
  import opened Values
  import opened Http
  import opened PatientModel
  import opened PatientRoutes

  /** JavaScript truthiness of an optional string field of the request body. */
  predicate Given(field: Option<string>) {
    field.Some? && field.value != ""
  }

  /**
   * The outcome of the request on a collection holding `patients`. `cast` is the cast
   * `findById` applies to the id text before the lookup: it yields the stored id it denotes
   * (upper-case hex included) or the message of the `CastError` it throws.
   */
  function PostSpec(patients: map<ObjectId, Patient>, patientId: Option<string>, note: Option<string>,
                    createdBy: Option<string>, fault: Fault, noteId: ObjectId, now: Date,
                    iso: Date -> string, invalid: string, cast: string -> Result<ObjectId, string>)
    : (r: Appended)
    ensures r.patients.Keys == patients.Keys
    ensures r.reply.status == BadRequest <==> !Given(patientId) || !Given(note)
    ensures r.reply.status == BadRequest ==>
      r.reply.body == ErrorBody("patientId and note are required") && r.patients == patients
    ensures Given(patientId) && Given(note) && cast(patientId.value).Failure? ==>
      r.reply == Reply(InternalServerError, ErrorBody(cast(patientId.value).error))
    ensures r.reply.status in {BadRequest, NotFound, Created, InternalServerError}
    ensures Given(patientId) && Given(note) && cast(patientId.value).Success? && !fault.NoFault?
            && (fault.LookupFails? || cast(patientId.value).value in patients) ==>
      r.reply == Reply(InternalServerError, ErrorBody(fault.message))
    ensures r.reply.status == NotFound <==>
      && Given(patientId) && Given(note) && cast(patientId.value).Success? && !fault.LookupFails?
      && cast(patientId.value).value !in patients
    ensures r.reply.status == Created <==>
      && Given(patientId) && Given(note) && cast(patientId.value).Success? && fault.NoFault?
      && cast(patientId.value).value in patients
    ensures r.reply.status == Created ==>
      var id := cast(patientId.value).value;
      var notes := r.patients[id].complianceNotes;
      && notes == patients[id].complianceNotes + [ComplianceNote(noteId, note.value, now, Author(createdBy))]
      && r.reply.body == NoteReply(id, notes[|notes| - 1], iso)
      && r.reply.body.fields["patientId"] == Str(id.hex)
    ensures r.reply.status != Created ==> r.patients == patients
    ensures forall other :: other in patients && (patientId.None? || cast(patientId.value).Failure? || other != cast(patientId.value).value) ==>
      other in r.patients && r.patients[other] == patients[other]
  {
    if !Given(patientId) || !Given(note) then
      Appended(Reply(BadRequest, ErrorBody("patientId and note are required")), patients)
    else
      match cast(patientId.value)
      case Failure(message) => Appended(Reply(InternalServerError, ErrorBody(message)), patients)
      case Success(id) =>
        var r := AppendNoteSpec(patients, id, note, createdBy, fault, noteId, now, iso, invalid);
        assert r.reply.status == Created ==>
          r.patients[id].complianceNotes == patients[id].complianceNotes + [r.patients[id].complianceNotes[|patients[id].complianceNotes|]];
        r
  }

  /**
   * The lookup is by the cast id, not by the text: an id written differently from the
   * stored one (upper-case hex, say) that casts to it still finds the patient, and the reply
   * echoes the stored id's own text.
   */
  lemma OtherSpellingFindsPatient(patients: map<ObjectId, Patient>, text: string, id: ObjectId,
                                  noteId: ObjectId, now: Date, iso: Date -> string, invalid: string,
                                  cast: string -> Result<ObjectId, string>)
    requires text != "" && cast(text) == Success(id) && id in patients
    ensures
      var r := PostSpec(patients, Some(text), Some("ok"), None, NoFault, noteId, now, iso, invalid, cast);
      && r.reply.status == Created
      && r.reply.body.fields["patientId"] == Str(id.hex)
      && |r.patients[id].complianceNotes| == |patients[id].complianceNotes| + 1
  {
  }

  /** An id text the cast refuses is a 500 carrying the cast's message, and stores nothing. */
  lemma BadIdIsServerError(patients: map<ObjectId, Patient>, text: string, message: string,
                           noteId: ObjectId, now: Date, iso: Date -> string, invalid: string,
                           cast: string -> Result<ObjectId, string>)
    requires text != "" && cast(text) == Failure(message)
    ensures
      var r := PostSpec(patients, Some(text), Some("ok"), None, NoFault, noteId, now, iso, invalid, cast);
      r.reply == Reply(InternalServerError, ErrorBody(message)) && r.patients == patients
  {
  }

  /** The check is truthiness, not trimming: a note of blanks is stored as it was sent. */
  lemma BlankNoteAccepted(patients: map<ObjectId, Patient>, patientId: string, id: ObjectId, noteId: ObjectId,
                          now: Date, iso: Date -> string, invalid: string, cast: string -> Result<ObjectId, string>)
    requires patientId != "" && cast(patientId) == Success(id) && id in patients
    ensures
      var r := PostSpec(patients, Some(patientId), Some("   "), None, NoFault, noteId, now, iso, invalid, cast);
      && r.reply.status == Created
      && r.reply.body.fields["note"] == Str("   ")
      && r.reply.body.fields["createdBy"] == Str("Provider")
  {
    var r := PostSpec(patients, Some(patientId), Some("   "), None, NoFault, noteId, now, iso, invalid, cast);
    var notes := r.patients[id].complianceNotes;
    assert notes[|notes| - 1] == ComplianceNote(noteId, "   ", now, "Provider");
  }

  /** Unlike the patient router's append, a missing note is a 400 here, never a 500. */
  lemma MissingNoteIsBadRequest(patients: map<ObjectId, Patient>, id: ObjectId, note: Option<string>,
                                fault: Fault, noteId: ObjectId, now: Date, iso: Date -> string,
                                invalid: string, cast: string -> Result<ObjectId, string>)
    requires id.hex != "" && id in patients && !fault.LookupFails?
    requires note == None || note == Some("")
    ensures PostSpec(patients, Some(id.hex), note, None, fault, noteId, now, iso, invalid, cast).reply.status == BadRequest
    ensures AppendNoteSpec(patients, id, note, None, fault, noteId, now, iso, invalid).reply.status == InternalServerError
  {
  }

  /** The request handler, acting on `store`. */
  method Post(store: PatientStore, patientId: Option<string>, note: Option<string>,
              createdBy: Option<string>, fault: Fault, noteId: ObjectId, now: Date,
              iso: Date -> string, invalid: string, cast: string -> Result<ObjectId, string>) returns (r: Reply)
    requires store.Valid() && noteId !in store.issued
    modifies store
    ensures store.Valid()
    ensures r == PostSpec(old(store.patients), patientId, note, createdBy, fault, noteId, now, iso, invalid, cast).reply
    ensures store.patients == PostSpec(old(store.patients), patientId, note, createdBy, fault, noteId, now, iso, invalid, cast).patients
    ensures store.order == old(store.order)
  {
    if !Given(patientId) || !Given(note) {
      return Reply(BadRequest, ErrorBody("patientId and note are required"));
    }
    var id := cast(patientId.value);
    if id.Failure? {
      return Reply(InternalServerError, ErrorBody(id.error));
    }
    r := store.AppendNote(id.value, note, createdBy, fault, noteId, now, iso, invalid);
  }
}

/**
 * The patient routes: list every patient without the embedded lists, fetch one patient,
 * and append a compliance note to a patient. The document collection is a class holding
 * the patients by id together with their insertion order; a failing database call is an
 * oracle parameter, and so are the note id the store assigns and the current time.
 */
module PatientRoutes {
  import opened Options
  import opened Values
  import opened Http
  import opened PatientModel
  import opened PatientJson

  /** Where a database call throws, and the message it throws with. */
  datatype Fault = NoFault | LookupFails(message: string) | SaveFails(message: string)

  /** `createdBy || "Provider"`: a missing or empty author becomes "Provider". */
  function Author(createdBy: Option<string>): (author: string)
    ensures author != ""
    ensures createdBy.Some? && createdBy.value != "" ==> author == createdBy.value
    ensures createdBy.None? || createdBy.value == "" ==> author == "Provider"
  {
    if createdBy.Some? && createdBy.value != "" then createdBy.value else "Provider"
  }

  /** The 201 body: the saved note, its patient's id and the ISO creation time. */
  function NoteReply(patient: ObjectId, saved: ComplianceNote, iso: Date -> string): Value {
    Obj(map["id" := Str(saved.id.hex), "patientId" := Str(patient.hex), "note" := Str(saved.note),
            "createdAt" := Str(iso(saved.createdAt)), "createdBy" := Str(saved.createdBy)])
  }

  // ---------------------------------------------------------------------------
  // The collection and its invariant
  // ---------------------------------------------------------------------------

  predicate Distinct<T(==)>(s: seq<T>) {
    forall i, j :: 0 <= i < j < |s| ==> s[i] != s[j]
  }

  /**
   * Every patient is stored under its own id, is valid, and has a unique email (the
   * `unique` index); `order` lists each id once; every id handed out so far is in `issued`.
   */
  ghost predicate StoreInvariant(patients: map<ObjectId, Patient>, order: seq<ObjectId>,
                                 issued: set<ObjectId>)
  {
    && Distinct(order)
    && (forall i :: 0 <= i < |order| ==> order[i] in patients)
    && (forall id :: id in patients ==> id in order)
    && (forall id :: id in patients ==> patients[id].id == id && ValidPatient(patients[id]))
    && (forall id :: id in patients ==> id in issued)
    && (forall id, i :: id in patients && 0 <= i < |patients[id].complianceNotes| ==>
          patients[id].complianceNotes[i].id in issued)
    && (forall a, b :: a in patients && b in patients && a != b ==> patients[a].email != patients[b].email)
  }

  /** The list response: the summary of every patient, in collection order. */
  function Summaries(patients: map<ObjectId, Patient>, order: seq<ObjectId>, iso: Date -> string): seq<Value>
    requires forall i :: 0 <= i < |order| ==> order[i] in patients
  {
    seq(|order|, i requires 0 <= i < |order| => Obj(SummaryJson(patients[order[i]], iso)))
  }

  /** Listing one more id adds that patient's summary at the end. */
  lemma SummariesSnoc(patients: map<ObjectId, Patient>, order: seq<ObjectId>, i: nat, iso: Date -> string)
    requires i < |order|
    requires forall k :: 0 <= k < |order| ==> order[k] in patients
    ensures Summaries(patients, order[..i + 1], iso) ==
            Summaries(patients, order[..i], iso) + [Obj(SummaryJson(patients[order[i]], iso))]
  {
  }

  /** The JSON of one list entry, through the record transform. */
  method Summary(p: Patient, iso: Date -> string) returns (json: Object)
    ensures json == SummaryJson(p, iso)
  {
    DocumentsTransformable(p);
    json := ToJson(SummaryObject(p), iso);
    SummaryDetermined(p, json, iso);
  }

  /** The list response holds every stored patient exactly once and omits the embedded lists. */
  lemma SummariesComplete(patients: map<ObjectId, Patient>, order: seq<ObjectId>,
                          issued: set<ObjectId>, iso: Date -> string)
    requires StoreInvariant(patients, order, issued)
    ensures |Summaries(patients, order, iso)| == |patients|
    ensures forall id :: id in patients ==>
      exists i :: 0 <= i < |order| && Summaries(patients, order, iso)[i].fields["id"] == Str(id.hex)
    ensures forall i :: 0 <= i < |order| ==>
      Summaries(patients, order, iso)[i].fields.Keys * EmbeddedKeys == {}
  {
    DistinctCardinality(order, patients);
    forall id | id in patients
      ensures exists i :: 0 <= i < |order| && Summaries(patients, order, iso)[i].fields["id"] == Str(id.hex)
    {
      var i :| 0 <= i < |order| && order[i] == id;
      SummaryAt(patients, order, i, iso);
    }
  }

  /** The entry at position `i` of the list response is the summary of the `i`-th patient. */
  lemma SummaryAt(patients: map<ObjectId, Patient>, order: seq<ObjectId>, i: nat, iso: Date -> string)
    requires forall k :: 0 <= k < |order| ==> order[k] in patients
    requires i < |order| && patients[order[i]].id == order[i]
    ensures Summaries(patients, order, iso)[i].fields["id"] == Str(order[i].hex)
  {
  }

  /** A duplicate-free listing of a map's keys is as long as the map. */
  lemma {:induction false} DistinctCardinality(order: seq<ObjectId>, patients: map<ObjectId, Patient>)
    requires Distinct(order)
    requires forall i :: 0 <= i < |order| ==> order[i] in patients
    requires forall id :: id in patients ==> id in order
    ensures |order| == |patients|
  {
    if order == [] {
      assert patients.Keys == {};
    } else {
      var last := order[|order| - 1];
      var rest := order[..|order| - 1];
      assert forall i :: 0 <= i < |rest| ==> rest[i] == order[i];
      forall id | id in patients - {last}
        ensures id in rest
      {
        var i :| 0 <= i < |order| && order[i] == id;
        assert i != |order| - 1;
      }
      DistinctCardinality(rest, patients - {last});
      assert patients.Keys == (patients - {last}).Keys + {last};
    }
  }

  // ---------------------------------------------------------------------------
  // Appending a compliance note
  // ---------------------------------------------------------------------------

  datatype Appended = Appended(reply: Reply, patients: map<ObjectId, Patient>)

  /**
   * POST `/:id/compliance-notes`, from the collection's point of view: look the patient
   * up, push the note with its author defaulted and `createdAt` set to `now`, save
   * (validation first, so an absent or empty note fails the required check), and answer
   * with the last element of the list. `invalid` is the validation error's message.
   */
  function AppendNoteSpec(patients: map<ObjectId, Patient>, id: ObjectId, note: Option<string>,
                          createdBy: Option<string>, fault: Fault, noteId: ObjectId, now: Date,
                          iso: Date -> string, invalid: string): (r: Appended)
    ensures r.patients.Keys == patients.Keys
    ensures forall other :: other in patients && other != id ==> r.patients[other] == patients[other]
    ensures r.reply.status == NotFound <==> !fault.LookupFails? && id !in patients
    ensures r.reply.status == NotFound ==> r.reply.body == ErrorBody("Patient not found")
    ensures r.reply.status == Created <==> fault.NoFault? && id in patients && RequiredText(note)
    ensures r.reply.status != Created ==> r.patients == patients
    ensures r.reply.status in {NotFound, Created, InternalServerError}
    ensures fault.LookupFails? ==> r.reply == Reply(InternalServerError, ErrorBody(fault.message))
    ensures !fault.LookupFails? && id in patients && !RequiredText(note) ==>
      r.reply == Reply(InternalServerError, ErrorBody(invalid))
    ensures fault.SaveFails? && id in patients && RequiredText(note) ==>
      r.reply == Reply(InternalServerError, ErrorBody(fault.message))
    ensures r.reply.status == Created ==>
      var before := patients[id].complianceNotes;
      var after := r.patients[id].complianceNotes;
      && |after| == |before| + 1
      && after[..|before|] == before
      && after[|before|] == ComplianceNote(noteId, note.value, now, Author(createdBy))
      && r.patients[id] == patients[id].(complianceNotes := after, updatedAt := now)
      && r.reply.body == NoteReply(id, after[|after| - 1], iso)
  {
    if fault.LookupFails? then
      Appended(Reply(InternalServerError, ErrorBody(fault.message)), patients)
    else if id !in patients then
      Appended(Reply(NotFound, ErrorBody("Patient not found")), patients)
    else
      match NewComplianceNote(noteId, NoteInput(note, Some(now), Some(Author(createdBy))), now)
      case Failure(_) =>
        Appended(Reply(InternalServerError, ErrorBody(invalid)), patients)
      case Success(saved) =>
        if fault.SaveFails? then
          Appended(Reply(InternalServerError, ErrorBody(fault.message)), patients)
        else
          var patient := patients[id];
          var notes := patient.complianceNotes + [saved];
          Appended(Reply(Created, NoteReply(id, notes[|notes| - 1], iso)),
                   patients[id := patient.(complianceNotes := notes, updatedAt := now)])
  }

  /** Appending a note with an id never handed out before keeps the collection invariant. */
  lemma AppendKeepsInvariant(patients: map<ObjectId, Patient>, order: seq<ObjectId>,
                             issued: set<ObjectId>, id: ObjectId, note: Option<string>,
                             createdBy: Option<string>, fault: Fault, noteId: ObjectId, now: Date,
                             iso: Date -> string, invalid: string)
    requires StoreInvariant(patients, order, issued)
    requires noteId !in issued
    ensures StoreInvariant(AppendNoteSpec(patients, id, note, createdBy, fault, noteId, now, iso, invalid).patients,
                           order, issued + {noteId})
  {
    var r := AppendNoteSpec(patients, id, note, createdBy, fault, noteId, now, iso, invalid);
    IssuedGrows(patients, order, issued, noteId);
    if r.reply.status == Created {
      var p := patients[id];
      var n := ComplianceNote(noteId, note.value, now, Author(createdBy));
      PushedKeepsNotes(p, r.patients[id], n, issued + {noteId});
      ReplaceKeepsInvariant(patients, order, issued + {noteId}, id, r.patients[id]);
    }
  }

  /** Handing out one more id keeps the collection invariant. */
  lemma IssuedGrows(patients: map<ObjectId, Patient>, order: seq<ObjectId>, issued: set<ObjectId>,
                    fresh': ObjectId)
    requires StoreInvariant(patients, order, issued)
    ensures StoreInvariant(patients, order, issued + {fresh'})
  {
  }

  /** A patient with one valid note pushed, whose ids are all issued, is still valid. */
  lemma PushedKeepsNotes(p: Patient, q: Patient, n: ComplianceNote, issued: set<ObjectId>)
    requires ValidPatient(p) && ValidNote(n) && n.id in issued
    requires forall i :: 0 <= i < |p.complianceNotes| ==> p.complianceNotes[i].id in issued
    requires |q.complianceNotes| == |p.complianceNotes| + 1
    requires q.complianceNotes[..|p.complianceNotes|] == p.complianceNotes
    requires q.complianceNotes[|p.complianceNotes|] == n
    requires q == p.(complianceNotes := q.complianceNotes, updatedAt := q.updatedAt)
    ensures ValidPatient(q)
    ensures forall i :: 0 <= i < |q.complianceNotes| ==> q.complianceNotes[i].id in issued
  {
    forall i | 0 <= i < |p.complianceNotes| ensures q.complianceNotes[i] == p.complianceNotes[i] {
      assert q.complianceNotes[i] == q.complianceNotes[..|p.complianceNotes|][i];
    }
  }

  /** Replacing a stored patient by a valid one with the same id and email keeps the invariant. */
  lemma ReplaceKeepsInvariant(patients: map<ObjectId, Patient>, order: seq<ObjectId>,
                              issued: set<ObjectId>, id: ObjectId, q: Patient)
    requires StoreInvariant(patients, order, issued)
    requires id in patients && q.id == id && q.email == patients[id].email && ValidPatient(q)
    requires forall i :: 0 <= i < |q.complianceNotes| ==> q.complianceNotes[i].id in issued
    ensures StoreInvariant(patients[id := q], order, issued)
  {
  }

  /** Two appends to the same patient keep both notes, oldest first. */
  lemma AppendsKeepOrder(patients: map<ObjectId, Patient>, id: ObjectId, first: string, second: string,
                         f1: ObjectId, f2: ObjectId, t1: Date, t2: Date, iso: Date -> string, invalid: string)
    requires id in patients && first != "" && second != ""
    ensures
      var once := AppendNoteSpec(patients, id, Some(first), None, NoFault, f1, t1, iso, invalid).patients;
      var twice := AppendNoteSpec(once, id, Some(second), None, NoFault, f2, t2, iso, invalid).patients;
      twice[id].complianceNotes == patients[id].complianceNotes
        + [ComplianceNote(f1, first, t1, "Provider"), ComplianceNote(f2, second, t2, "Provider")]
  {
    var before := patients[id].complianceNotes;
    var once := AppendNoteSpec(patients, id, Some(first), None, NoFault, f1, t1, iso, invalid).patients;
    var twice := AppendNoteSpec(once, id, Some(second), None, NoFault, f2, t2, iso, invalid).patients;
    var mid := once[id].complianceNotes;
    assert mid == before + [ComplianceNote(f1, first, t1, "Provider")] by {
      assert mid[..|before|] == before;
    }
    assert twice[id].complianceNotes == mid + [ComplianceNote(f2, second, t2, "Provider")] by {
      assert twice[id].complianceNotes[..|mid|] == mid;
    }
  }

  // ---------------------------------------------------------------------------
  // The collection
  // ---------------------------------------------------------------------------

  /** The ids of a patient's compliance notes. */
  function NoteIds(p: Patient): (ids: set<ObjectId>)
    ensures forall n :: 0 <= n < |p.complianceNotes| ==> p.complianceNotes[n].id in ids
  {
    set n | 0 <= n < |p.complianceNotes| :: p.complianceNotes[n].id
  }

  /** Inserting a new, valid patient whose email is not taken keeps the store invariant. */
  lemma InsertKeepsInvariant(patients: map<ObjectId, Patient>, order: seq<ObjectId>,
                             issued: set<ObjectId>, p: Patient)
    requires StoreInvariant(patients, order, issued)
    requires p.id !in patients && p.id !in order && ValidPatient(p)
    requires forall id :: id in patients ==> patients[id].email != p.email
    ensures StoreInvariant(patients[p.id := p], order + [p.id], issued + {p.id} + NoteIds(p))
  {
    var order' := order + [p.id];
    assert Distinct(order') by {
      forall i, j | 0 <= i < j < |order'| ensures order'[i] != order'[j] {
        if j == |order| { assert order'[i] == order[i]; }
      }
    }
  }

  class PatientStore {
    var patients: map<ObjectId, Patient>
    var order: seq<ObjectId>
    /** Every id the store has handed out, for documents and sub-documents alike. */
    ghost var issued: set<ObjectId>

    ghost predicate Valid()
      reads this
    {
      StoreInvariant(patients, order, issued)
    }

    /** A collection holding `seed`, in that order (the seed script itself is not modelled). */
    constructor (seed: seq<Patient>)
      requires forall i, j :: 0 <= i < j < |seed| ==> seed[i].id != seed[j].id
      requires forall i :: 0 <= i < |seed| ==> ValidPatient(seed[i])
      requires forall i, j :: 0 <= i < j < |seed| ==> seed[i].email != seed[j].email
      ensures Valid()
      ensures |order| == |seed| && forall i :: 0 <= i < |seed| ==> order[i] == seed[i].id
      ensures forall i :: 0 <= i < |seed| ==> seed[i].id in patients && patients[seed[i].id] == seed[i]
    {
      var ps: map<ObjectId, Patient> := map[];
      var ids: seq<ObjectId> := [];
      ghost var given: set<ObjectId> := {};
      var k := 0;
      while k < |seed|
        invariant 0 <= k <= |seed|
        invariant |ids| == k && forall i :: 0 <= i < k ==> ids[i] == seed[i].id
        invariant forall i :: 0 <= i < k ==> seed[i].id in ps && ps[seed[i].id] == seed[i]
        invariant StoreInvariant(ps, ids, given)
      {
        var p := seed[k];
        assert forall i :: 0 <= i < k ==> ids[i] != p.id;
        assert forall id :: id in ps ==> ps[id].email != p.email by {
          forall id | id in ps ensures ps[id].email != p.email {
            var i :| 0 <= i < k && ids[i] == id;
          }
        }
        InsertKeepsInvariant(ps, ids, given, p);
        ps := ps[p.id := p];
        ids := ids + [p.id];
        given := given + {p.id} + NoteIds(p);
        k := k + 1;
      }
      patients := ps;
      order := ids;
      issued := given;
    }

    /** GET `/`: every patient, in collection order, without the four embedded lists. */
    method ListPatients(failure: Option<string>, iso: Date -> string) returns (r: Reply)
      requires Valid()
      ensures failure.Some? ==> r == Reply(InternalServerError, ErrorBody(failure.value))
      ensures failure.None? ==> r == Reply(OK, Arr(Summaries(patients, order, iso)))
    {
      if failure.Some? {
        return Reply(InternalServerError, ErrorBody(failure.value));
      }
      var items: seq<Value> := [];
      var i := 0;
      while i < |order|
        invariant 0 <= i <= |order|
        invariant forall k :: 0 <= k < |order| ==> order[k] in patients
        invariant items == Summaries(patients, order[..i], iso)
      {
        var json := Summary(patients[order[i]], iso);
        SummariesSnoc(patients, order, i, iso);
        items := items + [Obj(json)];
        i := i + 1;
      }
      assert order[..i] == order;
      r := Reply(OK, Arr(items));
    }

    /** GET `/:id`: the full record, or 404 when there is no such patient. */
    method GetPatient(id: ObjectId, failure: Option<string>, iso: Date -> string) returns (r: Reply)
      requires Valid()
      ensures failure.Some? ==> r == Reply(InternalServerError, ErrorBody(failure.value))
      ensures failure.None? && id !in patients ==> r == Reply(NotFound, ErrorBody("Patient not found"))
      ensures failure.None? && id in patients ==> r == Reply(OK, Obj(DetailJson(patients[id], iso)))
    {
      if failure.Some? {
        return Reply(InternalServerError, ErrorBody(failure.value));
      }
      if id !in patients {
        return Reply(NotFound, ErrorBody("Patient not found"));
      }
      var p := patients[id];
      DocumentsTransformable(p);
      var json := ToJson(PatientObject(p), iso);
      DetailDetermined(p, json, iso);
      r := Reply(OK, Obj(json));
    }

    /** POST `/:id/compliance-notes`; `noteId` is the id the store gives the new note. */
    method AppendNote(id: ObjectId, note: Option<string>, createdBy: Option<string>, fault: Fault,
                      noteId: ObjectId, now: Date, iso: Date -> string, invalid: string) returns (r: Reply)
      requires Valid() && noteId !in issued
      modifies this
      ensures Valid()
      ensures r == AppendNoteSpec(old(patients), id, note, createdBy, fault, noteId, now, iso, invalid).reply
      ensures patients == AppendNoteSpec(old(patients), id, note, createdBy, fault, noteId, now, iso, invalid).patients
      ensures order == old(order) && issued == old(issued) + {noteId}
    {
      AppendKeepsInvariant(patients, order, issued, id, note, createdBy, fault, noteId, now, iso, invalid);
      issued := issued + {noteId};
      if fault.LookupFails? {
        r := Reply(InternalServerError, ErrorBody(fault.message));
      } else if id !in patients {
        r := Reply(NotFound, ErrorBody("Patient not found"));
      } else {
        var patient := patients[id];
        var pushed := NewComplianceNote(noteId, NoteInput(note, Some(now), Some(Author(createdBy))), now);
        if pushed.Failure? {
          r := Reply(InternalServerError, ErrorBody(invalid));
        } else if fault.SaveFails? {
          r := Reply(InternalServerError, ErrorBody(fault.message));
        } else {
          var notes := patient.complianceNotes + [pushed.value];
          patients := patients[id := patient.(complianceNotes := notes, updatedAt := now)];
          var saved := notes[|notes| - 1];
          r := Reply(Created, NoteReply(id, saved, iso));
        }
      }
    }
  }
}

/**
 * The `toJSON` transform of the patient schema. It rewrites the plain object `ret` of a
 * document in place: `_id` becomes a string `id`, `__v` goes, `assignedDate` becomes an ISO
 * string, and each element of the four embedded lists gets the same treatment for its own
 * `_id` and its own date field. Everything else is left as it was.
 *
 * The object is modelled as the dynamic `map<string, Value>` it is at run time, so that
 * "nothing else changes" can be stated exactly; `iso` stands for `Date.prototype.toISOString`.
 */
module PatientJson {
  import opened Options
  import opened Values
  import opened PatientModel

  datatype ListKind = Goals | DailyLogs | Reminders | ComplianceNotes

  /** The key under which the patient object holds the list. */
  function ListKey(k: ListKind): string {
    match k
    case Goals => "goals"
    case DailyLogs => "dailyLogs"
    case Reminders => "reminders"
    case ComplianceNotes => "complianceNotes"
  }

  /** The one date field each element of the list has converted. */
  function DateKey(k: ListKind): (key: string)
    ensures key != "_id" && key != "id" && key !in EmbeddedKeys
  {
    match k
    case Goals => "deadline"
    case DailyLogs => "date"
    case Reminders => "dueDate"
    case ComplianceNotes => "createdAt"
  }

  /** `ret.id = ret._id.toString()`: the string form of an ObjectId is its hex text. */
  function IdString(oid: ObjectId): Value {
    Str(oid.hex)
  }

  // ---------------------------------------------------------------------------
  // When the transform can run: `_id` is there (else `_id.toString()` throws), a truthy
  // date is a Date (else `toISOString` is missing), a truthy list is an array of objects.
  // ---------------------------------------------------------------------------

  predicate HasObjectId(o: Object) {
    "_id" in o && o["_id"].Oid?
  }

  predicate DateReady(o: Object, key: string) {
    key in o && Truthy(o[key]) ==> o[key].DateV?
  }

  predicate ElementReady(v: Value, k: ListKind) {
    v.Obj? && HasObjectId(v.fields) && DateReady(v.fields, DateKey(k))
  }

  predicate ListReady(o: Object, k: ListKind) {
    ListKey(k) in o && Truthy(o[ListKey(k)]) ==>
      o[ListKey(k)].Arr?
      && forall i :: 0 <= i < |o[ListKey(k)].items| ==> ElementReady(o[ListKey(k)].items[i], k)
  }

  predicate Transformable(ret: Object) {
    && HasObjectId(ret)
    && DateReady(ret, "assignedDate")
    && ListReady(ret, Goals) && ListReady(ret, DailyLogs)
    && ListReady(ret, Reminders) && ListReady(ret, ComplianceNotes)
  }

  // ---------------------------------------------------------------------------
  // What the transform does, as a relation between the object before and after
  // ---------------------------------------------------------------------------

  /** The field at `key` is rewritten to its ISO string exactly when it is truthy. */
  predicate DateConverted(before: Object, after: Object, key: string, iso: Date -> string) {
    key in before ==>
      key in after
      && after[key] == if Truthy(before[key]) && before[key].DateV? then Str(iso(before[key].date))
                       else before[key]
  }

  /** One element of an embedded list after the `map` callback has run on it. */
  predicate ElementTransformed(before: Value, after: Value, k: ListKind, iso: Date -> string) {
    && ElementReady(before, k)
    && after.Obj?
    && after.fields.Keys == before.fields.Keys - {"_id"} + {"id"}
    && after.fields["id"] == IdString(before.fields["_id"].oid)
    && DateConverted(before.fields, after.fields, DateKey(k), iso)
    && forall key :: key in before.fields && key !in {"_id", "id", DateKey(k)} ==>
         after.fields[key] == before.fields[key]
  }

  /** A whole list: same length, same order, each element transformed. */
  predicate ListTransformed(before: seq<Value>, after: seq<Value>, k: ListKind, iso: Date -> string) {
    |after| == |before|
    && forall i :: 0 <= i < |before| ==> ElementTransformed(before[i], after[i], k, iso)
  }

  /** A list value: rewritten when it is a (truthy) array, left as it was otherwise. */
  predicate ListValueTransformed(before: Value, after: Value, k: ListKind, iso: Date -> string) {
    if Truthy(before) && before.Arr?
    then after.Arr? && ListTransformed(before.items, after.items, k, iso)
    else after == before
  }

  /** The list under `ListKey(k)`; an absent list stays absent. */
  predicate ListFieldTransformed(before: Object, after: Object, k: ListKind, iso: Date -> string) {
    ListKey(k) in before ==>
      ListKey(k) in after && ListValueTransformed(before[ListKey(k)], after[ListKey(k)], k, iso)
  }

  /** The keys the transform may touch at the top level. */
  const TouchedKeys: set<string> := {"_id", "__v", "id", "assignedDate"} + EmbeddedKeys

  predicate PatientTransformed(ret: Object, out: Object, iso: Date -> string) {
    && Transformable(ret)
    && out.Keys == ret.Keys - {"_id", "__v"} + {"id"}
    && out["id"] == IdString(ret["_id"].oid)
    && DateConverted(ret, out, "assignedDate", iso)
    && ListFieldTransformed(ret, out, Goals, iso)
    && ListFieldTransformed(ret, out, DailyLogs, iso)
    && ListFieldTransformed(ret, out, Reminders, iso)
    && ListFieldTransformed(ret, out, ComplianceNotes, iso)
    && forall key :: key in ret && key !in TouchedKeys ==> out[key] == ret[key]
  }

  // ---------------------------------------------------------------------------
  // The transform itself
  // ---------------------------------------------------------------------------

  /** The `map` callback: set `id`, delete `_id`, convert the date when it is truthy. */
  method TransformElement(element: Value, k: ListKind, iso: Date -> string) returns (result: Value)
    requires ElementReady(element, k)
    ensures ElementTransformed(element, result, k, iso)
  {
    var fields := element.fields;
    fields := fields["id" := IdString(fields["_id"].oid)];
    fields := fields - {"_id"};
    var key := DateKey(k);
    if key in fields && Truthy(fields[key]) {
      fields := fields[key := Str(iso(fields[key].date))];
    }
    result := Obj(fields);
  }

  /** `list.map(callback)`. */
  method TransformList(items: seq<Value>, k: ListKind, iso: Date -> string) returns (result: seq<Value>)
    requires forall i :: 0 <= i < |items| ==> ElementReady(items[i], k)
    ensures ListTransformed(items, result, k, iso)
  {
    result := [];
    var i := 0;
    while i < |items|
      invariant 0 <= i <= |items|
      invariant |result| == i
      invariant forall j :: 0 <= j < i ==> ElementTransformed(items[j], result[j], k, iso)
    {
      var element := TransformElement(items[i], k, iso);
      result := result + [element];
      i := i + 1;
    }
  }

  /** The top-level part of the transform: `id`, `_id`, `__v` and `assignedDate`. */
  method TransformTop(ret: Object, iso: Date -> string) returns (out: Object)
    requires Transformable(ret)
    ensures out.Keys == ret.Keys - {"_id", "__v"} + {"id"}
    ensures out["id"] == IdString(ret["_id"].oid)
    ensures DateConverted(ret, out, "assignedDate", iso)
    ensures forall key :: key in ret && key !in {"_id", "__v", "id", "assignedDate"} ==> out[key] == ret[key]
  {
    out := ret["id" := IdString(ret["_id"].oid)];
    out := out - {"_id"};
    out := out - {"__v"};
    if "assignedDate" in out && Truthy(out["assignedDate"]) {
      out := out["assignedDate" := Str(iso(out["assignedDate"].date))];
    }
  }

  /**
   * The transform. It needs `_id` and removes it, so its output can never be fed to it
   * again.
   */
  method ToJson(ret: Object, iso: Date -> string) returns (out: Object)
    requires Transformable(ret)
    ensures PatientTransformed(ret, out, iso)
    ensures "id" in out && "_id" !in out && "__v" !in out
    ensures !Transformable(out)
  {
    var top := TransformTop(ret, iso);
    assert forall k: ListKind :: ListKey(k) in ret ==> top[ListKey(k)] == ret[ListKey(k)];
    out := TransformLists(top, iso);
  }

  /** The four `if (ret.<list>) ret.<list> = ret.<list>.map(callback)` statements. */
  method TransformLists(top: Object, iso: Date -> string) returns (out: Object)
    requires ListReady(top, Goals) && ListReady(top, DailyLogs)
    requires ListReady(top, Reminders) && ListReady(top, ComplianceNotes)
    ensures out.Keys == top.Keys
    ensures ListFieldTransformed(top, out, Goals, iso) && ListFieldTransformed(top, out, DailyLogs, iso)
    ensures ListFieldTransformed(top, out, Reminders, iso) && ListFieldTransformed(top, out, ComplianceNotes, iso)
    ensures forall key :: key in top && key !in EmbeddedKeys ==> out[key] == top[key]
  {
    out := top;
    if "goals" in out && Truthy(out["goals"]) {
      var items := TransformList(out["goals"].items, Goals, iso);
      out := out["goals" := Arr(items)];
    }
    if "dailyLogs" in out && Truthy(out["dailyLogs"]) {
      var items := TransformList(out["dailyLogs"].items, DailyLogs, iso);
      out := out["dailyLogs" := Arr(items)];
    }
    if "reminders" in out && Truthy(out["reminders"]) {
      var items := TransformList(out["reminders"].items, Reminders, iso);
      out := out["reminders" := Arr(items)];
    }
    if "complianceNotes" in out && Truthy(out["complianceNotes"]) {
      var items := TransformList(out["complianceNotes"].items, ComplianceNotes, iso);
      out := out["complianceNotes" := Arr(items)];
    }
  }

  // ---------------------------------------------------------------------------
  // Reference JSON of the typed documents, and the transform's agreement with it
  // ---------------------------------------------------------------------------

  function GoalJson(g: Goal, iso: Date -> string): Object {
    map["id" := Str(g.id.hex), "title" := Str(g.title), "description" := Str(g.description),
        "targetValue" := Num(g.targetValue), "currentValue" := Num(g.currentValue),
        "unit" := Str(g.unit), "deadline" := Str(iso(g.deadline)),
        "status" := Str(GoalStatusName(g.status))]
  }

  function DailyLogJson(l: DailyLog, iso: Date -> string): Object {
    var base := map["id" := Str(l.id.hex), "date" := Str(iso(l.date)), "steps" := Num(l.steps),
                    "sleepHours" := Num(l.sleepHours)];
    if l.notes.Some? then base["notes" := Str(l.notes.value)] else base
  }

  function ReminderJson(r: Reminder, iso: Date -> string): Object {
    map["id" := Str(r.id.hex), "title" := Str(r.title), "description" := Str(r.description),
        "dueDate" := Str(iso(r.dueDate)), "completed" := Bool(r.completed),
        "priority" := Str(PriorityName(r.priority))]
  }

  function NoteJson(n: ComplianceNote, iso: Date -> string): Object {
    map["id" := Str(n.id.hex), "note" := Str(n.note), "createdAt" := Str(iso(n.createdAt)),
        "createdBy" := Str(n.createdBy)]
  }

  /**
   * A patient in the list response: `id` instead of `_id`, no `__v`, `assignedDate` as an
   * ISO string, the timestamps untouched, and none of the embedded lists.
   */
  function SummaryJson(p: Patient, iso: Date -> string): (o: Object)
    ensures o.Keys * EmbeddedKeys == {} && "_id" !in o && "__v" !in o
  {
    map["id" := Str(p.id.hex), "name" := Str(p.name), "email" := Str(p.email),
        "phone" := Str(p.phone), "complianceStatus" := Str(ComplianceStatusName(p.complianceStatus)),
        "complianceScore" := Num(p.complianceScore), "assignedDate" := Str(iso(p.assignedDate)),
        "createdAt" := DateV(p.createdAt), "updatedAt" := DateV(p.updatedAt)]
  }

  function GoalJsonItems(gs: seq<Goal>, iso: Date -> string): seq<Value> {
    seq(|gs|, i requires 0 <= i < |gs| => Obj(GoalJson(gs[i], iso)))
  }

  function DailyLogJsonItems(ls: seq<DailyLog>, iso: Date -> string): seq<Value> {
    seq(|ls|, i requires 0 <= i < |ls| => Obj(DailyLogJson(ls[i], iso)))
  }

  function ReminderJsonItems(rs: seq<Reminder>, iso: Date -> string): seq<Value> {
    seq(|rs|, i requires 0 <= i < |rs| => Obj(ReminderJson(rs[i], iso)))
  }

  function NoteJsonItems(ns: seq<ComplianceNote>, iso: Date -> string): seq<Value> {
    seq(|ns|, i requires 0 <= i < |ns| => Obj(NoteJson(ns[i], iso)))
  }

  /** A patient in the detail response: the summary plus the four transformed lists. */
  function DetailJson(p: Patient, iso: Date -> string): Object {
    SummaryJson(p, iso)
      ["goals" := Arr(GoalJsonItems(p.goals, iso))]
      ["dailyLogs" := Arr(DailyLogJsonItems(p.dailyLogs, iso))]
      ["reminders" := Arr(ReminderJsonItems(p.reminders, iso))]
      ["complianceNotes" := Arr(NoteJsonItems(p.complianceNotes, iso))]
  }

  /** Every stored document can be transformed, with or without its embedded lists. */
  lemma DocumentsTransformable(p: Patient)
    ensures Transformable(SummaryObject(p))
    ensures Transformable(PatientObject(p))
  {
    TopLevelReady(p);
    GoalsReady(p);
    DailyLogsReady(p);
    RemindersReady(p);
    NotesReady(p);
  }

  lemma TopLevelReady(p: Patient)
    ensures HasObjectId(SummaryObject(p)) && DateReady(SummaryObject(p), "assignedDate")
    ensures HasObjectId(PatientObject(p)) && DateReady(PatientObject(p), "assignedDate")
    ensures forall k: ListKind :: ListReady(SummaryObject(p), k)
  {
    forall k: ListKind ensures ListReady(SummaryObject(p), k) {
      assert ListKey(k) in EmbeddedKeys;
    }
  }

  lemma GoalsReady(p: Patient)
    ensures ListReady(PatientObject(p), Goals)
  {
    var d := PatientObject(p);
    forall i | 0 <= i < |p.goals| ensures ElementReady(d["goals"].items[i], Goals) {
      assert d["goals"].items[i] == Obj(GoalObject(p.goals[i]));
    }
  }

  lemma DailyLogsReady(p: Patient)
    ensures ListReady(PatientObject(p), DailyLogs)
  {
    var d := PatientObject(p);
    forall i | 0 <= i < |p.dailyLogs| ensures ElementReady(d["dailyLogs"].items[i], DailyLogs) {
      assert d["dailyLogs"].items[i] == Obj(DailyLogObject(p.dailyLogs[i]));
    }
  }

  lemma RemindersReady(p: Patient)
    ensures ListReady(PatientObject(p), Reminders)
  {
    var d := PatientObject(p);
    forall i | 0 <= i < |p.reminders| ensures ElementReady(d["reminders"].items[i], Reminders) {
      assert d["reminders"].items[i] == Obj(ReminderObject(p.reminders[i]));
    }
  }

  lemma NotesReady(p: Patient)
    ensures ListReady(PatientObject(p), ComplianceNotes)
  {
    var d := PatientObject(p);
    forall i | 0 <= i < |p.complianceNotes| ensures ElementReady(d["complianceNotes"].items[i], ComplianceNotes) {
      assert d["complianceNotes"].items[i] == Obj(NoteObject(p.complianceNotes[i]));
    }
  }

  /** The transform of a goal is its reference JSON. */
  lemma GoalDetermined(g: Goal, after: Value, iso: Date -> string)
    requires ElementTransformed(Obj(GoalObject(g)), after, Goals, iso)
    ensures after == Obj(GoalJson(g, iso))
  {
    var b := GoalObject(g);
    var e := GoalJson(g, iso);
    assert after.fields.Keys == e.Keys;
    forall key | key in e ensures after.fields[key] == e[key] {
      if key != "id" && key != "deadline" {
        assert key in b && key !in {"_id", "id", DateKey(Goals)};
      }
    }
    assert after.fields == e;
  }

  lemma DailyLogDetermined(l: DailyLog, after: Value, iso: Date -> string)
    requires ElementTransformed(Obj(DailyLogObject(l)), after, DailyLogs, iso)
    ensures after == Obj(DailyLogJson(l, iso))
  {
    var b := DailyLogObject(l);
    var e := DailyLogJson(l, iso);
    assert after.fields.Keys == e.Keys;
    forall key | key in e ensures after.fields[key] == e[key] {
      if key != "id" && key != "date" {
        assert key in b && key !in {"_id", "id", DateKey(DailyLogs)};
      }
    }
    assert after.fields == e;
  }

  lemma ReminderDetermined(r: Reminder, after: Value, iso: Date -> string)
    requires ElementTransformed(Obj(ReminderObject(r)), after, Reminders, iso)
    ensures after == Obj(ReminderJson(r, iso))
  {
    var b := ReminderObject(r);
    var e := ReminderJson(r, iso);
    assert after.fields.Keys == e.Keys;
    forall key | key in e ensures after.fields[key] == e[key] {
      if key != "id" && key != "dueDate" {
        assert key in b && key !in {"_id", "id", DateKey(Reminders)};
      }
    }
    assert after.fields == e;
  }

  lemma NoteDetermined(n: ComplianceNote, after: Value, iso: Date -> string)
    requires ElementTransformed(Obj(NoteObject(n)), after, ComplianceNotes, iso)
    ensures after == Obj(NoteJson(n, iso))
  {
    var b := NoteObject(n);
    var e := NoteJson(n, iso);
    assert after.fields.Keys == e.Keys;
    forall key | key in e ensures after.fields[key] == e[key] {
      if key != "id" && key != "createdAt" {
        assert key in b && key !in {"_id", "id", DateKey(ComplianceNotes)};
      }
    }
    assert after.fields == e;
  }

  /** The transform of the projected record is the summary JSON. */
  lemma SummaryDetermined(p: Patient, out: Object, iso: Date -> string)
    requires PatientTransformed(SummaryObject(p), out, iso)
    ensures out == SummaryJson(p, iso)
  {
    var b := SummaryObject(p);
    var e := SummaryJson(p, iso);
    SummaryKeys(p, iso);
    forall key | key in e ensures out[key] == e[key] {
      if key != "id" && key != "assignedDate" {
        SummaryUntouched(p, key, iso);
      }
    }
    SameObject(out, e);
  }

  /** The fields of the summary the transform does not touch read the same in its JSON. */
  lemma SummaryUntouched(p: Patient, key: string, iso: Date -> string)
    requires key in SummaryJson(p, iso) && key != "id" && key != "assignedDate"
    ensures key in SummaryObject(p) && key !in TouchedKeys
    ensures SummaryJson(p, iso)[key] == SummaryObject(p)[key]
  {
  }

  /** The `goals` list of the transformed record is its reference JSON, element by element. */
  lemma GoalsDetermined(p: Patient, out: Object, iso: Date -> string)
    requires ListFieldTransformed(PatientObject(p), out, Goals, iso)
    ensures "goals" in out && out["goals"] == Arr(GoalJsonItems(p.goals, iso))
  {
    var before := GoalItems(p.goals);
    assert PatientObject(p)["goals"] == Arr(before);
    var after := out["goals"].items;
    forall i | 0 <= i < |before| ensures after[i] == Obj(GoalJson(p.goals[i], iso)) {
      GoalDetermined(p.goals[i], after[i], iso);
    }
    assert after == GoalJsonItems(p.goals, iso);
  }

  /** The `dailyLogs` list of the transformed record is its reference JSON, element by element. */
  lemma DailyLogsDetermined(p: Patient, out: Object, iso: Date -> string)
    requires ListFieldTransformed(PatientObject(p), out, DailyLogs, iso)
    ensures "dailyLogs" in out && out["dailyLogs"] == Arr(DailyLogJsonItems(p.dailyLogs, iso))
  {
    var before := DailyLogItems(p.dailyLogs);
    assert PatientObject(p)["dailyLogs"] == Arr(before);
    var after := out["dailyLogs"].items;
    forall i | 0 <= i < |before| ensures after[i] == Obj(DailyLogJson(p.dailyLogs[i], iso)) {
      DailyLogDetermined(p.dailyLogs[i], after[i], iso);
    }
    assert after == DailyLogJsonItems(p.dailyLogs, iso);
  }

  /** The `reminders` list of the transformed record is its reference JSON, element by element. */
  lemma RemindersDetermined(p: Patient, out: Object, iso: Date -> string)
    requires ListFieldTransformed(PatientObject(p), out, Reminders, iso)
    ensures "reminders" in out && out["reminders"] == Arr(ReminderJsonItems(p.reminders, iso))
  {
    var before := ReminderItems(p.reminders);
    assert PatientObject(p)["reminders"] == Arr(before);
    var after := out["reminders"].items;
    forall i | 0 <= i < |before| ensures after[i] == Obj(ReminderJson(p.reminders[i], iso)) {
      ReminderDetermined(p.reminders[i], after[i], iso);
    }
    assert after == ReminderJsonItems(p.reminders, iso);
  }

  /** The `complianceNotes` list of the transformed record is its reference JSON, element by element. */
  lemma ComplianceNotesDetermined(p: Patient, out: Object, iso: Date -> string)
    requires ListFieldTransformed(PatientObject(p), out, ComplianceNotes, iso)
    ensures "complianceNotes" in out && out["complianceNotes"] == Arr(NoteJsonItems(p.complianceNotes, iso))
  {
    var before := NoteItems(p.complianceNotes);
    assert PatientObject(p)["complianceNotes"] == Arr(before);
    var after := out["complianceNotes"].items;
    forall i | 0 <= i < |before| ensures after[i] == Obj(NoteJson(p.complianceNotes[i], iso)) {
      NoteDetermined(p.complianceNotes[i], after[i], iso);
    }
    assert after == NoteJsonItems(p.complianceNotes, iso);
  }

  /** The transform of the full record is the detail JSON. */
  lemma DetailDetermined(p: Patient, out: Object, iso: Date -> string)
    requires PatientTransformed(PatientObject(p), out, iso)
    ensures out == DetailJson(p, iso)
  {
    ListsDetermined(p, out, iso);
    TopLevelDetermined(p, out, iso);
    SameObject(out, DetailJson(p, iso));
  }

  /** The four lists of the transformed record are those of the detail JSON. */
  lemma ListsDetermined(p: Patient, out: Object, iso: Date -> string)
    requires ListFieldTransformed(PatientObject(p), out, Goals, iso)
    requires ListFieldTransformed(PatientObject(p), out, DailyLogs, iso)
    requires ListFieldTransformed(PatientObject(p), out, Reminders, iso)
    requires ListFieldTransformed(PatientObject(p), out, ComplianceNotes, iso)
    ensures forall key :: key in EmbeddedKeys ==> key in out && key in DetailJson(p, iso) && out[key] == DetailJson(p, iso)[key]
  {
    GoalsDetermined(p, out, iso);
    DailyLogsDetermined(p, out, iso);
    RemindersDetermined(p, out, iso);
    ComplianceNotesDetermined(p, out, iso);
    DetailLists(p, iso);
  }

  /** Two objects with the same keys and the same value at each key are equal. */
  lemma SameObject(a: Object, b: Object)
    requires a.Keys == b.Keys
    requires forall key :: key in a ==> a[key] == b[key]
    ensures a == b
  {
  }

  /** The four lists of the detail JSON. */
  lemma DetailLists(p: Patient, iso: Date -> string)
    ensures DetailJson(p, iso)["goals"] == Arr(GoalJsonItems(p.goals, iso))
    ensures DetailJson(p, iso)["dailyLogs"] == Arr(DailyLogJsonItems(p.dailyLogs, iso))
    ensures DetailJson(p, iso)["reminders"] == Arr(ReminderJsonItems(p.reminders, iso))
    ensures DetailJson(p, iso)["complianceNotes"] == Arr(NoteJsonItems(p.complianceNotes, iso))
    ensures EmbeddedKeys <= DetailJson(p, iso).Keys
  {
  }

  /** Apart from the lists, the transformed record agrees with the detail JSON. */
  lemma TopLevelDetermined(p: Patient, out: Object, iso: Date -> string)
    requires PatientTransformed(PatientObject(p), out, iso)
    ensures out.Keys == DetailJson(p, iso).Keys
    ensures forall key :: key in out && key !in EmbeddedKeys ==> out[key] == DetailJson(p, iso)[key]
  {
    RecordKeys(p, iso);
    WithoutLists(p, out, iso);
    SummaryDetermined(p, out - EmbeddedKeys, iso);
    forall key | key in out && key !in EmbeddedKeys ensures out[key] == DetailJson(p, iso)[key] {
      TopLevelKey(p, key, iso);
      assert out[key] == (out - EmbeddedKeys)[key];
    }
  }

  /** Without its lists, the transformed record is the transform of the projected one. */
  lemma WithoutLists(p: Patient, out: Object, iso: Date -> string)
    requires PatientTransformed(PatientObject(p), out, iso)
    ensures PatientTransformed(SummaryObject(p), out - EmbeddedKeys, iso)
  {
    var rest := out - EmbeddedKeys;
    RestKeys(p, out, iso);
    TopLevelKey(p, "assignedDate", iso);
    TopLevelReady(p);
    forall key | key in SummaryObject(p) && key !in TouchedKeys
      ensures rest[key] == SummaryObject(p)[key]
    {
      TopLevelKey(p, key, iso);
    }
  }

  lemma RestKeys(p: Patient, out: Object, iso: Date -> string)
    requires out.Keys == PatientObject(p).Keys - {"_id", "__v"} + {"id"}
    ensures (out - EmbeddedKeys).Keys == SummaryObject(p).Keys - {"_id", "__v"} + {"id"}
    ensures ListKey(Goals) !in SummaryObject(p) && ListKey(DailyLogs) !in SummaryObject(p)
    ensures ListKey(Reminders) !in SummaryObject(p) && ListKey(ComplianceNotes) !in SummaryObject(p)
  {
    PatientKeys(p);
    assert (out - EmbeddedKeys).Keys == out.Keys - EmbeddedKeys;
    DropLists(PatientObject(p).Keys, SummaryObject(p).Keys, EmbeddedKeys, {"_id", "__v"}, "id");
  }

  /** The full record and the detail JSON add the four lists to the summary ones. */
  lemma RecordKeys(p: Patient, iso: Date -> string)
    ensures PatientObject(p).Keys == SummaryObject(p).Keys + EmbeddedKeys
    ensures DetailJson(p, iso).Keys == SummaryJson(p, iso).Keys + EmbeddedKeys
    ensures SummaryObject(p).Keys - {"_id", "__v"} + {"id"} == SummaryJson(p, iso).Keys
  {
    PatientKeys(p);
    DetailKeys(p, iso);
    SummaryKeys(p, iso);
  }

  lemma PatientKeys(p: Patient)
    ensures PatientObject(p).Keys == SummaryObject(p).Keys + EmbeddedKeys
  {
  }

  lemma DetailKeys(p: Patient, iso: Date -> string)
    ensures DetailJson(p, iso).Keys == SummaryJson(p, iso).Keys + EmbeddedKeys
  {
  }

  lemma SummaryKeys(p: Patient, iso: Date -> string)
    ensures SummaryObject(p).Keys - {"_id", "__v"} + {"id"} == SummaryJson(p, iso).Keys
  {
  }

  /** Removing the lists again from a key set that had them added. */
  lemma DropLists(all: set<string>, rest: set<string>, lists: set<string>, gone: set<string>, added: string)
    requires all == rest + lists && rest * lists == {} && added !in lists
    ensures all - gone + {added} - lists == rest - gone + {added}
  {
    forall x | x in rest ensures x !in lists {
      assert x !in rest * lists;
    }
  }

  /** Outside the lists, the full record and the detail JSON are the summary ones. */
  lemma TopLevelKey(p: Patient, key: string, iso: Date -> string)
    requires key !in EmbeddedKeys
    ensures key in PatientObject(p) <==> key in SummaryObject(p)
    ensures key in SummaryObject(p) ==> PatientObject(p)[key] == SummaryObject(p)[key]
    ensures key in DetailJson(p, iso) <==> key in SummaryJson(p, iso)
    ensures key in SummaryJson(p, iso) ==> DetailJson(p, iso)[key] == SummaryJson(p, iso)[key]
  {
  }

}

/** `InMemoryStorage`: the application's id-keyed tables, which share one id
    counter, with their create, read, update and delete operations. */
module Storage {
  import opened Wrappers
  import opened Records
  import opened Tables

  /** The contents of every table, and the counter. */
  datatype State = State(
    users: Table<User>,
    units: Table<Unit>,
    documents: Table<Document>,
    notes: Table<Note>,
    assignments: Table<Assignment>,
    studyPlans: Table<StudyPlan>,
    aiChats: Table<AiChat>,
    currentId: int)

  /** Every key of the table was handed out by the counter before `next`. */
  predicate Issued<T>(t: Table<T>, next: int)
  {
    WellFormed(t) && forall k :: k in t.rows ==> 1 <= k < next
  }

  /** The storage invariant: every table is a well-formed dict whose keys
      the counter has already handed out. */
  predicate ValidState(s: State)
  {
    && 1 <= s.currentId
    && Issued(s.users, s.currentId)
    && Issued(s.units, s.currentId)
    && Issued(s.documents, s.currentId)
    && Issued(s.notes, s.currentId)
    && Issued(s.assignments, s.currentId)
    && Issued(s.studyPlans, s.currentId)
    && Issued(s.aiChats, s.currentId)
  }

  /** No table has a row under `id`. */
  predicate Unused(s: State, id: int)
  {
    && id !in s.users.rows && id !in s.units.rows && id !in s.documents.rows
    && id !in s.notes.rows && id !in s.assignments.rows && id !in s.studyPlans.rows
    && id !in s.aiChats.rows
  }

  /** The counter's next value is a key no table uses yet. */
  lemma NextIdIsUnused(s: State)
    requires ValidState(s)
    ensures Unused(s, s.currentId)
  {
  }

  function EmptyState(): State
  {
    State(Empty(), Empty(), Empty(), Empty(), Empty(), Empty(), Empty(), 1)
  }

  /* ---------- keyword arguments of update_* ---------- */

  /** One keyword argument of `update_unit`: a field of Unit with its new
      value, or a key Unit has no attribute for (`hasattr` is false). */
  datatype UnitField =
    | UnitId(id: int) | UnitName(name: string) | UnitDescription(description: Option<string>)
    | UnitColor(color: string) | UnitIcon(icon: string) | UnitTotalTopics(totalTopics: int)
    | UnitCompletedTopics(completedTopics: int) | UnitCreatedAt(createdAt: Timestamp)
    | UnitUnknown(key: string)

  datatype DocumentField =
    | DocumentId(id: int) | DocumentUnitId(unitId: Option<int>) | DocumentFilename(filename: string)
    | DocumentOriginalName(originalName: string) | DocumentFileType(fileType: string)
    | DocumentFilePath(filePath: string) | DocumentExtractedText(extractedText: Option<string>)
    | DocumentSummary(summary: Option<string>) | DocumentEmbeddings(embeddings: Option<Json>)
    | DocumentUploadedAt(uploadedAt: Timestamp)
    | DocumentUnknown(key: string)

  datatype NoteField =
    | NoteId(id: int) | NoteDocumentId(documentId: Option<int>) | NoteContent(content: string)
    | NoteIsMarkdown(isMarkdown: bool) | NoteCreatedAt(createdAt: Timestamp)
    | NoteUpdatedAt(updatedAt: Timestamp)
    | NoteUnknown(key: string)

  datatype AssignmentField =
    | AssignmentId(id: int) | AssignmentTitle(title: string)
    | AssignmentDescription(description: Option<string>) | AssignmentKind(kind: string)
    | AssignmentDeadline(deadline: Timestamp) | AssignmentStatus(status: string)
    | AssignmentQuestions(questions: Option<seq<Json>>)
    | AssignmentRelatedDocuments(relatedDocuments: Option<seq<int>>)
    | AssignmentCreatedAt(createdAt: Timestamp)
    | AssignmentUnknown(key: string)

  datatype StudyPlanField =
    | PlanId(id: int) | PlanDate(date: Timestamp) | PlanScheduledTopics(scheduledTopics: Option<seq<Topic>>)
    | PlanCompletedTopics(completedTopics: Option<seq<Topic>>) | PlanTotalStudyTime(totalStudyTime: int)
    | PlanActualStudyTime(actualStudyTime: int) | PlanBreaks(breaks: Option<seq<Break>>)
    | PlanCreatedAt(createdAt: Timestamp)
    | PlanUnknown(key: string)

  /** `if hasattr(unit, key): setattr(unit, key, value)` for one keyword. */
  function SetUnitField(u: Unit, f: UnitField): Unit
  {
    match f
    case UnitId(v) => u.(id := v)
    case UnitName(v) => u.(name := v)
    case UnitDescription(v) => u.(description := v)
    case UnitColor(v) => u.(color := v)
    case UnitIcon(v) => u.(icon := v)
    case UnitTotalTopics(v) => u.(totalTopics := v)
    case UnitCompletedTopics(v) => u.(completedTopics := v)
    case UnitCreatedAt(v) => u.(createdAt := v)
    case UnitUnknown(_) => u
  }

  function SetDocumentField(d: Document, f: DocumentField): Document
  {
    match f
    case DocumentId(v) => d.(id := v)
    case DocumentUnitId(v) => d.(unitId := v)
    case DocumentFilename(v) => d.(filename := v)
    case DocumentOriginalName(v) => d.(originalName := v)
    case DocumentFileType(v) => d.(fileType := v)
    case DocumentFilePath(v) => d.(filePath := v)
    case DocumentExtractedText(v) => d.(extractedText := v)
    case DocumentSummary(v) => d.(summary := v)
    case DocumentEmbeddings(v) => d.(embeddings := v)
    case DocumentUploadedAt(v) => d.(uploadedAt := v)
    case DocumentUnknown(_) => d
  }

  function SetNoteField(n: Note, f: NoteField): Note
  {
    match f
    case NoteId(v) => n.(id := v)
    case NoteDocumentId(v) => n.(documentId := v)
    case NoteContent(v) => n.(content := v)
    case NoteIsMarkdown(v) => n.(isMarkdown := v)
    case NoteCreatedAt(v) => n.(createdAt := v)
    case NoteUpdatedAt(v) => n.(updatedAt := v)
    case NoteUnknown(_) => n
  }

  function SetAssignmentField(a: Assignment, f: AssignmentField): Assignment
  {
    match f
    case AssignmentId(v) => a.(id := v)
    case AssignmentTitle(v) => a.(title := v)
    case AssignmentDescription(v) => a.(description := v)
    case AssignmentKind(v) => a.(kind := v)
    case AssignmentDeadline(v) => a.(deadline := v)
    case AssignmentStatus(v) => a.(status := v)
    case AssignmentQuestions(v) => a.(questions := v)
    case AssignmentRelatedDocuments(v) => a.(relatedDocuments := v)
    case AssignmentCreatedAt(v) => a.(createdAt := v)
    case AssignmentUnknown(_) => a
  }

  function SetStudyPlanField(p: StudyPlan, f: StudyPlanField): StudyPlan
  {
    match f
    case PlanId(v) => p.(id := v)
    case PlanDate(v) => p.(date := v)
    case PlanScheduledTopics(v) => p.(scheduledTopics := v)
    case PlanCompletedTopics(v) => p.(completedTopics := v)
    case PlanTotalStudyTime(v) => p.(totalStudyTime := v)
    case PlanActualStudyTime(v) => p.(actualStudyTime := v)
    case PlanBreaks(v) => p.(breaks := v)
    case PlanCreatedAt(v) => p.(createdAt := v)
    case PlanUnknown(_) => p
  }

  /** The record after the keyword arguments `fs`, applied in order. */
  function ApplyFields<T, F>(x: T, fs: seq<F>, assign: (T, F) -> T): T
  {
    if fs == [] then x else assign(ApplyFields(x, fs[..|fs| - 1], assign), fs[|fs| - 1])
  }

  /** The `setattr` loop of every `update_*`. */
  method SetAttrs<T, F>(x: T, fs: seq<F>, assign: (T, F) -> T) returns (r: T)
    ensures r == ApplyFields(x, fs, assign)
  {
    r := x;
    for i := 0 to |fs|
      invariant r == ApplyFields(x, fs[..i], assign)
    {
      assert fs[..i + 1][..i] == fs[..i];
      r := assign(r, fs[i]);
    }
    assert fs[..|fs|] == fs;
  }

  /** A field that no keyword argument touches keeps its value: if every
      keyword leaves the projection `get` alone, so does the whole update. */
  lemma {:induction false} ApplyFieldsKeeps<T, F, V>(x: T, fs: seq<F>, assign: (T, F) -> T, get: T -> V)
    requires forall y: T, i :: 0 <= i < |fs| ==> get(assign(y, fs[i])) == get(y)
    ensures get(ApplyFields(x, fs, assign)) == get(x)
  {
    if fs != [] {
      ApplyFieldsKeeps(x, fs[..|fs| - 1], assign, get);
      assert get(assign(ApplyFields(x, fs[..|fs| - 1], assign), fs[|fs| - 1]))
          == get(ApplyFields(x, fs[..|fs| - 1], assign));
    }
  }

  /** A field set by a keyword ends with the value of the last keyword that
      sets it. */
  lemma {:induction false} ApplyFieldsLastWins<T, F, V>(x: T, fs: seq<F>, assign: (T, F) -> T, get: T -> V, j: nat)
    requires j < |fs|
    requires forall y: T :: get(assign(y, fs[j])) == get(assign(x, fs[j]))
    requires forall y: T, i :: j < i < |fs| ==> get(assign(y, fs[i])) == get(y)
    ensures get(ApplyFields(x, fs, assign)) == get(assign(x, fs[j]))
    decreases |fs|
  {
    var init := fs[..|fs| - 1];
    if j == |fs| - 1 {
    } else {
      ApplyFieldsLastWins(x, init, assign, get, j);
      assert get(assign(ApplyFields(x, init, assign), fs[|fs| - 1])) == get(ApplyFields(x, init, assign));
    }
  }

  /** Keys the record has no attribute for are ignored, and keywords for
      other fields leave a unit's progress counters alone. */
  lemma UnitUpdateKeepsProgress(u: Unit, fs: seq<UnitField>)
    requires forall i :: 0 <= i < |fs| ==> !fs[i].UnitTotalTopics? && !fs[i].UnitCompletedTopics?
    ensures ApplyFields(u, fs, SetUnitField).totalTopics == u.totalTopics
    ensures ApplyFields(u, fs, SetUnitField).completedTopics == u.completedTopics
  {
    ApplyFieldsKeeps(u, fs, SetUnitField, (v: Unit) => v.totalTopics);
    ApplyFieldsKeeps(u, fs, SetUnitField, (v: Unit) => v.completedTopics);
  }

  /* ---------- filters used by the lookups and cascades ---------- */

  /** A list comprehension with condition `p`, in list order. */
  function Filter<T(!new)>(s: seq<T>, p: T -> bool): (r: seq<T>)
    ensures |r| <= |s|
    ensures forall x :: x in r <==> x in s && p(x)
  {
    if s == [] then []
    else
      var rest := Filter(s[..|s| - 1], p);
      assert forall x :: x in s <==> x in s[..|s| - 1] || x == s[|s| - 1];
      if p(s[|s| - 1]) then rest + [s[|s| - 1]] else rest
  }

  /** The filter keeps every element satisfying `p` as often as it occurs,
      and no other. */
  lemma {:induction false} FilterCounts<T(!new)>(s: seq<T>, p: T -> bool)
    ensures forall x :: multiset(Filter(s, p))[x] == if p(x) then multiset(s)[x] else 0
  {
    if s != [] {
      FilterCounts(s[..|s| - 1], p);
      assert s == s[..|s| - 1] + [s[|s| - 1]];
    }
  }

  /** The filter keeps the relative order of what it keeps: filtering a
      concatenation filters each part. */
  lemma {:induction false} FilterConcat<T(!new)>(a: seq<T>, b: seq<T>, p: T -> bool)
    ensures Filter(a + b, p) == Filter(a, p) + Filter(b, p)
    decreases |b|
  {
    if b == [] {
      assert a + b == a;
    } else {
      var n := |b| - 1;
      var ab := a + b;
      var x := b[n];
      assert ab[..|ab| - 1] == a + b[..n];
      assert ab[|ab| - 1] == x;
      FilterConcat(a, b[..n], p);
      var front := Filter(a, p);
      var back := Filter(b[..n], p);
      assert Filter(a + b[..n], p) == front + back;
      if p(x) {
        assert Filter(ab, p) == (front + back) + [x];
        assert Filter(b, p) == back + [x];
      } else {
        assert Filter(ab, p) == front + back;
        assert Filter(b, p) == back;
      }
    }
  }

  /** `[k for k, x in d.items() if p(x)]`: the keys whose record satisfies
      `p`, in table order. */
  function KeysWhere<T(!new)>(t: Table<T>, p: T -> bool): (ks: seq<int>)
    ensures forall k :: k in ks <==> k in t.order && k in t.rows && p(t.rows[k])
  {
    Filter(t.order, k => k in t.rows && p(t.rows[k]))
  }

  /** `doc.unit_id == unit_id`. */
  function OfUnit(unitId: Option<int>): Document -> bool
  {
    (d: Document) => d.unitId == unitId
  }

  /** `note.document_id == document_id`. */
  function OfDocument(documentId: Option<int>): Note -> bool
  {
    (n: Note) => n.documentId == documentId
  }

  /** The first plan, in table order, dated on calendar day `day`. */
  function FirstOnDay(plans: seq<StudyPlan>, day: int): Option<StudyPlan>
  {
    if plans == [] then None
    else if Day(plans[0].date) == day then Some(plans[0])
    else FirstOnDay(plans[1..], day)
  }

  /** FirstOnDay finds a plan of that day with no earlier one, or reports
      that there is none. */
  lemma {:induction false} FirstOnDaySpec(plans: seq<StudyPlan>, day: int)
    ensures FirstOnDay(plans, day).None? <==> forall i :: 0 <= i < |plans| ==> Day(plans[i].date) != day
    ensures FirstOnDay(plans, day).Some? ==>
              exists i :: 0 <= i < |plans| && plans[i] == FirstOnDay(plans, day).value
                && Day(plans[i].date) == day
                && forall j :: 0 <= j < i ==> Day(plans[j].date) != day
  {
    if plans != [] && Day(plans[0].date) != day {
      FirstOnDaySpec(plans[1..], day);
      assert forall i :: 1 <= i < |plans| ==> plans[i] == plans[1..][i - 1];
      if FirstOnDay(plans[1..], day).Some? {
        var i :| 0 <= i < |plans[1..]| && plans[1..][i] == FirstOnDay(plans[1..], day).value
          && Day(plans[1..][i].date) == day
          && forall j :: 0 <= j < i ==> Day(plans[1..][j].date) != day;
        assert plans[i + 1] == plans[1..][i];
        forall j | 0 <= j < i + 1 ensures Day(plans[j].date) != day {
          if j > 0 {
            assert plans[j] == plans[1..][j - 1];
          }
        }
      }
    }
  }

  /** The state after `delete_unit(id)` on a present unit: valid, without
      the unit, and without exactly the documents of that unit. */
  lemma UnitCascade(s: State, id: int)
    requires ValidState(s)
    ensures var t := s.(units := Remove(s.units, id),
                        documents := RemoveAll(s.documents, KeysWhere(s.documents, OfUnit(Some(id)))));
      && ValidState(t)
      && t.units.rows == s.units.rows - {id}
      && t.documents.rows == (map k | k in s.documents.rows && s.documents.rows[k].unitId != Some(id)
                               :: s.documents.rows[k])
  {
    RemoveSpec(s.units, id);
    var ks := KeysWhere(s.documents, OfUnit(Some(id)));
    RemoveAllSpec(s.documents, ks);
    assert forall k :: k in s.documents.rows ==> (k in ks <==> s.documents.rows[k].unitId == Some(id));
  }

  /** The state after `delete_document(id)` on a present document: valid,
      without the document, and without exactly its notes. */
  lemma DocumentCascade(s: State, id: int)
    requires ValidState(s)
    ensures var t := s.(documents := Remove(s.documents, id),
                        notes := RemoveAll(s.notes, KeysWhere(s.notes, OfDocument(Some(id)))));
      && ValidState(t)
      && t.documents.rows == s.documents.rows - {id}
      && t.notes.rows == (map k | k in s.notes.rows && s.notes.rows[k].documentId != Some(id)
                           :: s.notes.rows[k])
  {
    RemoveSpec(s.documents, id);
    var ks := KeysWhere(s.notes, OfDocument(Some(id)));
    RemoveAllSpec(s.notes, ks);
    assert forall k :: k in s.notes.rows ==> (k in ks <==> s.notes.rows[k].documentId == Some(id));
  }

  /* ---------- sample data ---------- */

  function SampleUser(now: Timestamp): User
  {
    User(1, "mitchell", "Mitchell", 45, 0, None, now)
  }

  /** The three sample units, before their ids are assigned. */
  function SampleUnitData(now: Timestamp): seq<Unit>
  {
    [ Unit(0, "Anatomy", Some("Human body systems and structures"), "green", "user-md", 5, 3, now),
      Unit(0, "Immunology", Some("Immune system and defense mechanisms"), "yellow", "shield-alt", 5, 1, now),
      Unit(0, "Physiology", Some("Body functions and processes"), "blue", "heartbeat", 5, 2, now) ]
  }

  /** The units table after storing `data` under consecutive ids from
      `firstId`. */
  function UnitsFrom(data: seq<Unit>, firstId: int): Table<Unit>
  {
    if data == [] then Empty()
    else
      var n := |data| - 1;
      Put(UnitsFrom(data[..n], firstId), firstId + n, data[n].(id := firstId + n))
  }

  function SampleState(now: Timestamp): State
  {
    EmptyState().(
      users := Put(Empty(), 1, SampleUser(now)),
      units := UnitsFrom(SampleUnitData(now), 2),
      currentId := 5)
  }

  /** After construction: user 1 ("mitchell"), units 2, 3 and 4 (Anatomy,
      Immunology, Physiology, five topics each with 3, 1 and 2 completed),
      every other table empty, and the counter at 5. */
  lemma SampleStateContents(now: Timestamp)
    ensures var s := SampleState(now);
      var d := SampleUnitData(now);
      && s.users == Table([1], map[1 := SampleUser(now)])
      && s.units == Table([2, 3, 4], map[2 := d[0].(id := 2), 3 := d[1].(id := 3), 4 := d[2].(id := 4)])
      && s.documents.rows == map[] && s.notes.rows == map[] && s.assignments.rows == map[]
      && s.studyPlans.rows == map[] && s.aiChats.rows == map[]
      && s.currentId == 5
      && ValidState(s)
  {
    SampleUnitsTable(now);
  }

  lemma SampleUnitsTable(now: Timestamp)
    ensures var d := SampleUnitData(now);
      UnitsFrom(d, 2) == Table([2, 3, 4], map[2 := d[0].(id := 2), 3 := d[1].(id := 3), 4 := d[2].(id := 4)])
  {
    var d := SampleUnitData(now);
    var t1 := Table([2], map[2 := d[0].(id := 2)]);
    var t2 := Table([2, 3], map[2 := d[0].(id := 2), 3 := d[1].(id := 3)]);
    assert UnitsFrom(d[..1], 2) == t1 by {
      assert d[..1][..0] == [];
    }
    assert UnitsFrom(d[..2], 2) == t2 by {
      assert d[..2][..1] == d[..1];
      assert Put(t1, 3, d[1].(id := 3)) == t2;
    }
    assert UnitsFrom(d, 2) == Put(t2, 4, d[2].(id := 4)) by {
      assert d[..2] == d[..|d| - 1];
    }
  }

  /** The storage object. Each dict is a table; `currentId` is the shared
      counter. Records are values here: an update writes the changed record
      back under its key. */
  class InMemoryStorage {
    var users: Table<User>
    var units: Table<Unit>
    var documents: Table<Document>
    var notes: Table<Note>
    var assignments: Table<Assignment>
    var studyPlans: Table<StudyPlan>
    var aiChats: Table<AiChat>
    var currentId: int

    function Snapshot(): State
      reads this
    {
      State(users, units, documents, notes, assignments, studyPlans, aiChats, currentId)
    }

    predicate Valid()
      reads this
    {
      ValidState(Snapshot())
    }

    /** `__init__`: empty tables, the counter at 1, then the sample data.
        Every timestamp of the sample records is `now`. */
    constructor(now: Timestamp)
      ensures Valid()
      ensures Snapshot() == SampleState(now)
    {
      users := Empty();
      units := Empty();
      documents := Empty();
      notes := Empty();
      assignments := Empty();
      studyPlans := Empty();
      aiChats := Empty();
      currentId := 1;
      new;
      InitializeSampleData(now);
      SampleStateContents(now);
    }

    /** `_get_next_id`: the counter's value, after which the counter moves
        on by one. */
    method NextId() returns (id: int)
      modifies this
      ensures id == old(currentId)
      ensures Snapshot() == old(Snapshot()).(currentId := id + 1)
    {
      id := currentId;
      currentId := currentId + 1;
    }

    /** `_initialize_sample_data`: user "mitchell", then the three units,
        each under the next id. */
    method InitializeSampleData(now: Timestamp)
      requires Snapshot() == EmptyState()
      modifies this
      ensures Snapshot() == SampleState(now)
    {
      var userId := NextId();
      var user := User(userId, "mitchell", "Mitchell", 45, 0, None, now);
      users := Put(users, user.id, user);
      var unitsData := SampleUnitData(now);
      for i := 0 to |unitsData|
        invariant Snapshot() == EmptyState().(
          users := Put(Empty(), 1, SampleUser(now)),
          units := UnitsFrom(unitsData[..i], 2),
          currentId := 2 + i)
      {
        var id := NextId();
        var unit := unitsData[i].(id := id);
        assert unitsData[..i + 1][..i] == unitsData[..i];
        units := Put(units, unit.id, unit);
      }
      assert unitsData[..|unitsData|] == unitsData;
    }

    /* ----- units ----- */

    /** Every stored record, one per key, in insertion order. */
    function GetUnits(): (r: seq<Unit>)
      reads this
      requires Valid()
      ensures |r| == |units.order|
      ensures forall u :: u in r <==> exists k :: k in units.rows && units.rows[k] == u
    {
      ValuesMembers(units);
      Values(units)
    }

    /** `d.get(id)`: the record stored under `id`, or None. */
    function GetUnit(id: int): (r: Option<Unit>)
      reads this
      ensures r.Some? <==> id in units.rows
      ensures r.Some? ==> r.value == units.rows[id]
    {
      Get(units, id)
    }

    /** `create_unit`: the record under a fresh id, appended to the units. */
    method CreateUnit(u: Unit) returns (r: Unit)
      requires Valid()
      modifies this
      ensures Valid()
      ensures r == u.(id := old(currentId)) && Unused(old(Snapshot()), r.id)
      ensures Snapshot() == old(Snapshot()).(units := Put(old(units), r.id, r), currentId := r.id + 1)
      ensures Values(units) == old(Values(units)) + [r]
    {
      var id := NextId();
      r := u.(id := id);
      PutSpec(units, r.id, r);
      units := Put(units, r.id, r);
    }

    /** `update_unit`: None and no change for an absent id; otherwise the
        keyword arguments applied to that unit alone. */
    method UpdateUnit(id: int, kwargs: seq<UnitField>) returns (r: Option<Unit>)
      requires Valid()
      modifies this
      ensures Valid()
      ensures id !in old(units.rows) ==> r == None && Snapshot() == old(Snapshot())
      ensures id in old(units.rows) ==>
                && r == Some(ApplyFields(old(units.rows[id]), kwargs, SetUnitField))
                && Snapshot() == old(Snapshot()).(units := Put(old(units), id, r.value))
                && units.order == old(units.order)
    {
      if id in units.rows {
        var unit := SetAttrs(units.rows[id], kwargs, SetUnitField);
        PutSpec(units, id, unit);
        units := Put(units, id, unit);
        return Some(unit);
      }
      return None;
    }

    /** `delete_unit`: removes the unit and every document of that unit;
        notes are left as they are. */
    method DeleteUnit(id: int) returns (deleted: bool)
      requires Valid()
      modifies this
      ensures Valid()
      ensures deleted <==> id in old(units.rows)
      ensures !deleted ==> Snapshot() == old(Snapshot())
      ensures deleted ==>
                && units.rows == old(units.rows) - {id}
                && documents.rows == (map k | k in old(documents.rows) && old(documents.rows)[k].unitId != Some(id)
                                        :: old(documents.rows)[k])
                && Snapshot() == old(Snapshot()).(units := Remove(old(units), id),
                                                  documents := RemoveAll(old(documents), KeysWhere(old(documents), OfUnit(Some(id)))))
    {
      if id in units.rows {
        UnitCascade(Snapshot(), id);
        units := Remove(units, id);
        var docsToDelete := KeysWhere(documents, OfUnit(Some(id)));
        for i := 0 to |docsToDelete|
          invariant Snapshot() == old(Snapshot()).(units := Remove(old(units), id),
                                                   documents := RemoveAll(old(documents), docsToDelete[..i]))
        {
          RemoveAllStep(old(documents), docsToDelete, i);
          documents := Remove(documents, docsToDelete[i]);
        }
        assert docsToDelete[..|docsToDelete|] == docsToDelete;
        return true;
      }
      return false;
    }

    /* ----- documents ----- */

    /** `get_documents`: every document, or those of one unit, in table
        order. */
    function GetDocuments(unitId: Option<int>): (docs: seq<Document>)
      reads this
      requires Valid()
      ensures unitId.None? ==> docs == Values(documents)
      ensures unitId.Some? ==> docs == Filter(Values(documents), OfUnit(unitId))
      ensures unitId.Some? ==>
                forall d :: multiset(docs)[d] == if d.unitId == unitId then multiset(Values(documents))[d] else 0
    {
      var all := Values(documents);
      if unitId.None? then all
      else
        FilterCounts(all, OfUnit(unitId));
        Filter(all, OfUnit(unitId))
    }

    /** `d.get(id)`: the record stored under `id`, or None. */
    function GetDocument(id: int): (r: Option<Document>)
      reads this
      ensures r.Some? <==> id in documents.rows
      ensures r.Some? ==> r.value == documents.rows[id]
    {
      Get(documents, id)
    }

    method CreateDocument(d: Document) returns (r: Document)
      requires Valid()
      modifies this
      ensures Valid()
      ensures r == d.(id := old(currentId)) && Unused(old(Snapshot()), r.id)
      ensures Snapshot() == old(Snapshot()).(documents := Put(old(documents), r.id, r), currentId := r.id + 1)
      ensures Values(documents) == old(Values(documents)) + [r]
    {
      var id := NextId();
      r := d.(id := id);
      PutSpec(documents, r.id, r);
      documents := Put(documents, r.id, r);
    }

    method UpdateDocument(id: int, kwargs: seq<DocumentField>) returns (r: Option<Document>)
      requires Valid()
      modifies this
      ensures Valid()
      ensures id !in old(documents.rows) ==> r == None && Snapshot() == old(Snapshot())
      ensures id in old(documents.rows) ==>
                && r == Some(ApplyFields(old(documents.rows[id]), kwargs, SetDocumentField))
                && Snapshot() == old(Snapshot()).(documents := Put(old(documents), id, r.value))
                && documents.order == old(documents.order)
    {
      if id in documents.rows {
        var document := SetAttrs(documents.rows[id], kwargs, SetDocumentField);
        PutSpec(documents, id, document);
        documents := Put(documents, id, document);
        return Some(document);
      }
      return None;
    }

    /** `delete_document`: removes the document and exactly the notes
        attached to it. */
    method DeleteDocument(id: int) returns (deleted: bool)
      requires Valid()
      modifies this
      ensures Valid()
      ensures deleted <==> id in old(documents.rows)
      ensures !deleted ==> Snapshot() == old(Snapshot())
      ensures deleted ==>
                && documents.rows == old(documents.rows) - {id}
                && notes.rows == (map k | k in old(notes.rows) && old(notes.rows)[k].documentId != Some(id)
                                    :: old(notes.rows)[k])
                && Snapshot() == old(Snapshot()).(documents := Remove(old(documents), id),
                                                  notes := RemoveAll(old(notes), KeysWhere(old(notes), OfDocument(Some(id)))))
    {
      if id in documents.rows {
        DocumentCascade(Snapshot(), id);
        documents := Remove(documents, id);
        var notesToDelete := KeysWhere(notes, OfDocument(Some(id)));
        for i := 0 to |notesToDelete|
          invariant Snapshot() == old(Snapshot()).(documents := Remove(old(documents), id),
                                                   notes := RemoveAll(old(notes), notesToDelete[..i]))
        {
          RemoveAllStep(old(notes), notesToDelete, i);
          notes := Remove(notes, notesToDelete[i]);
        }
        assert notesToDelete[..|notesToDelete|] == notesToDelete;
        return true;
      }
      return false;
    }

    /* ----- notes ----- */

    /** `get_notes`: every note, or those of one document, in table order. */
    function GetNotes(documentId: Option<int>): (ns: seq<Note>)
      reads this
      requires Valid()
      ensures documentId.None? ==> ns == Values(notes)
      ensures documentId.Some? ==> ns == Filter(Values(notes), OfDocument(documentId))
      ensures documentId.Some? ==>
                forall n :: multiset(ns)[n] == if n.documentId == documentId then multiset(Values(notes))[n] else 0
    {
      var all := Values(notes);
      if documentId.None? then all
      else
        FilterCounts(all, OfDocument(documentId));
        Filter(all, OfDocument(documentId))
    }

    /** `d.get(id)`: the record stored under `id`, or None. */
    function GetNote(id: int): (r: Option<Note>)
      reads this
      ensures r.Some? <==> id in notes.rows
      ensures r.Some? ==> r.value == notes.rows[id]
    {
      Get(notes, id)
    }

    method CreateNote(n: Note) returns (r: Note)
      requires Valid()
      modifies this
      ensures Valid()
      ensures r == n.(id := old(currentId)) && Unused(old(Snapshot()), r.id)
      ensures Snapshot() == old(Snapshot()).(notes := Put(old(notes), r.id, r), currentId := r.id + 1)
      ensures Values(notes) == old(Values(notes)) + [r]
    {
      var id := NextId();
      r := n.(id := id);
      PutSpec(notes, r.id, r);
      notes := Put(notes, r.id, r);
    }

    /** `update_note`: like the other updates, and the note's `updatedAt`
        is set to the clock reading `now` after the keyword arguments. */
    method UpdateNote(id: int, kwargs: seq<NoteField>, now: Timestamp) returns (r: Option<Note>)
      requires Valid()
      modifies this
      ensures Valid()
      ensures id !in old(notes.rows) ==> r == None && Snapshot() == old(Snapshot())
      ensures id in old(notes.rows) ==>
                && r == Some(ApplyFields(old(notes.rows[id]), kwargs, SetNoteField).(updatedAt := now))
                && Snapshot() == old(Snapshot()).(notes := Put(old(notes), id, r.value))
                && notes.order == old(notes.order)
    {
      if id in notes.rows {
        var note := SetAttrs(notes.rows[id], kwargs, SetNoteField);
        note := note.(updatedAt := now);
        PutSpec(notes, id, note);
        notes := Put(notes, id, note);
        return Some(note);
      }
      return None;
    }

    /** `delete_note`: true exactly when the note was there; it is gone
        afterwards. */
    method DeleteNote(id: int) returns (deleted: bool)
      requires Valid()
      modifies this
      ensures Valid()
      ensures deleted <==> id in old(notes.rows)
      ensures notes.rows == old(notes.rows) - {id}
      ensures deleted ==> Snapshot() == old(Snapshot()).(notes := Remove(old(notes), id))
      ensures !deleted ==> Snapshot() == old(Snapshot())
    {
      deleted := id in notes.rows;
      if deleted {
        RemoveSpec(notes, id);
        notes := Remove(notes, id);
      }
    }

    /* ----- assignments ----- */

    /** Every stored record, one per key, in insertion order. */
    function GetAssignments(): (r: seq<Assignment>)
      reads this
      requires Valid()
      ensures |r| == |assignments.order|
      ensures forall a :: a in r <==> exists k :: k in assignments.rows && assignments.rows[k] == a
    {
      ValuesMembers(assignments);
      Values(assignments)
    }

    /** `d.get(id)`: the record stored under `id`, or None. */
    function GetAssignment(id: int): (r: Option<Assignment>)
      reads this
      ensures r.Some? <==> id in assignments.rows
      ensures r.Some? ==> r.value == assignments.rows[id]
    {
      Get(assignments, id)
    }

    method CreateAssignment(a: Assignment) returns (r: Assignment)
      requires Valid()
      modifies this
      ensures Valid()
      ensures r == a.(id := old(currentId)) && Unused(old(Snapshot()), r.id)
      ensures Snapshot() == old(Snapshot()).(assignments := Put(old(assignments), r.id, r), currentId := r.id + 1)
      ensures Values(assignments) == old(Values(assignments)) + [r]
    {
      var id := NextId();
      r := a.(id := id);
      PutSpec(assignments, r.id, r);
      assignments := Put(assignments, r.id, r);
    }

    method UpdateAssignment(id: int, kwargs: seq<AssignmentField>) returns (r: Option<Assignment>)
      requires Valid()
      modifies this
      ensures Valid()
      ensures id !in old(assignments.rows) ==> r == None && Snapshot() == old(Snapshot())
      ensures id in old(assignments.rows) ==>
                && r == Some(ApplyFields(old(assignments.rows[id]), kwargs, SetAssignmentField))
                && Snapshot() == old(Snapshot()).(assignments := Put(old(assignments), id, r.value))
                && assignments.order == old(assignments.order)
    {
      if id in assignments.rows {
        var assignment := SetAttrs(assignments.rows[id], kwargs, SetAssignmentField);
        PutSpec(assignments, id, assignment);
        assignments := Put(assignments, id, assignment);
        return Some(assignment);
      }
      return None;
    }

    method DeleteAssignment(id: int) returns (deleted: bool)
      requires Valid()
      modifies this
      ensures Valid()
      ensures deleted <==> id in old(assignments.rows)
      ensures assignments.rows == old(assignments.rows) - {id}
      ensures deleted ==> Snapshot() == old(Snapshot()).(assignments := Remove(old(assignments), id))
      ensures !deleted ==> Snapshot() == old(Snapshot())
    {
      deleted := id in assignments.rows;
      if deleted {
        RemoveSpec(assignments, id);
        assignments := Remove(assignments, id);
      }
    }

    /* ----- study plans ----- */

    /** Every stored record, one per key, in insertion order. */
    function GetStudyPlans(): (r: seq<StudyPlan>)
      reads this
      requires Valid()
      ensures |r| == |studyPlans.order|
      ensures forall p :: p in r <==> exists k :: k in studyPlans.rows && studyPlans.rows[k] == p
    {
      ValuesMembers(studyPlans);
      Values(studyPlans)
    }

    /** `get_study_plan_by_date`: the first plan, in table order, on the
        calendar day of `date`. */
    method GetStudyPlanByDate(date: Timestamp) returns (r: Option<StudyPlan>)
      requires Valid()
      ensures r == FirstOnDay(Values(studyPlans), Day(date))
    {
      var plans := Values(studyPlans);
      var dateDay := Day(date);
      var i := 0;
      while i < |studyPlans.order|
        invariant 0 <= i <= |plans|
        invariant FirstOnDay(plans[i..], dateDay) == FirstOnDay(plans, dateDay)
      {
        var plan := studyPlans.rows[studyPlans.order[i]];
        assert plan == plans[i];
        assert plans[i..][1..] == plans[i + 1..];
        if Day(plan.date) == dateDay {
          return Some(plan);
        }
        i := i + 1;
      }
      return None;
    }

    method CreateStudyPlan(p: StudyPlan) returns (r: StudyPlan)
      requires Valid()
      modifies this
      ensures Valid()
      ensures r == p.(id := old(currentId)) && Unused(old(Snapshot()), r.id)
      ensures Snapshot() == old(Snapshot()).(studyPlans := Put(old(studyPlans), r.id, r), currentId := r.id + 1)
      ensures Values(studyPlans) == old(Values(studyPlans)) + [r]
    {
      var id := NextId();
      r := p.(id := id);
      PutSpec(studyPlans, r.id, r);
      studyPlans := Put(studyPlans, r.id, r);
    }

    method UpdateStudyPlan(id: int, kwargs: seq<StudyPlanField>) returns (r: Option<StudyPlan>)
      requires Valid()
      modifies this
      ensures Valid()
      ensures id !in old(studyPlans.rows) ==> r == None && Snapshot() == old(Snapshot())
      ensures id in old(studyPlans.rows) ==>
                && r == Some(ApplyFields(old(studyPlans.rows[id]), kwargs, SetStudyPlanField))
                && Snapshot() == old(Snapshot()).(studyPlans := Put(old(studyPlans), id, r.value))
                && studyPlans.order == old(studyPlans.order)
    {
      if id in studyPlans.rows {
        var plan := SetAttrs(studyPlans.rows[id], kwargs, SetStudyPlanField);
        PutSpec(studyPlans, id, plan);
        studyPlans := Put(studyPlans, id, plan);
        return Some(plan);
      }
      return None;
    }
  }
}

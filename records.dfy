/** The record types of the study-assistant backend: the dataclasses of
    `backend/models.py` and the topic and break dictionaries that the
    planner puts into a plan. */
module Records {
  import opened Wrappers

  /** A `datetime` is modelled as whole seconds since 1970-01-01 00:00 (naive
      local time, as the backend uses it). */
  type Timestamp = int

  const SecondsPerDay: int := 86400

  /** The calendar day of a timestamp, as `datetime.date()` gives it. Dafny's
      `/` floors for a positive divisor, as the calendar does. */
  function Day(t: Timestamp): int
  {
    t / SecondsPerDay
  }

  /** `datetime.weekday()`: Monday is 0 and Sunday is 6; 1970-01-01 was a
      Thursday (3). */
  function Weekday(t: Timestamp): (w: int)
    ensures 0 <= w < 7
  {
    (Day(t) + 3) % 7
  }

  /** The weekday follows the calendar: the epoch is a Thursday, each day
      moves to the next weekday, Sunday (6) wraps to Monday (0), and
      2024-01-06 00:00 was a Saturday (5). */
  lemma WeekdayCalendar(t: Timestamp)
    ensures Weekday(0) == 3
    ensures Weekday(t + SecondsPerDay) == (Weekday(t) + 1) % 7
    ensures Weekday(t + 7 * SecondsPerDay) == Weekday(t)
    ensures Weekday(1704499200) == 5
  {
    assert Day(t + SecondsPerDay) == Day(t) + 1;
    assert Day(t + 7 * SecondsPerDay) == Day(t) + 7;
  }

  /** A JSON-like value, for the dictionary- and list-typed fields the core
      stores without looking inside. */
  datatype Json =
    | JNull
    | JBool(b: bool)
    | JNumber(n: int)
    | JString(s: string)
    | JList(items: seq<Json>)
    | JObject(members: seq<(string, Json)>)

  /** The priority tier of a topic: "high", "medium" or "low". */
  datatype Tier = High | Medium | Low

  /** Where a topic comes from: an urgent assignment (`'type': 'assignment'`,
      `'assignment_id'`) or a unit with topics left (`'type': 'study'`,
      `'unit_id'`). */
  datatype TopicKind = AssignmentWork(assignmentId: int) | Study(unitId: int)

  /** One topic dictionary of a plan. */
  datatype Topic = Topic(
    kind: TopicKind,
    title: string,
    unitName: string,
    estimatedTime: int,
    priority: Tier,
    deadline: Option<Timestamp>,
    completed: bool)

  /** One break dictionary of a plan (`'type'` is always `'study_break'`). */
  datatype Break = Break(time: int, duration: int, suggestion: string)

  datatype User = User(
    id: int,
    username: string,
    name: string,
    learningPace: int,
    studyStreak: int,
    lastActiveDate: Option<Timestamp>,
    createdAt: Timestamp)

  datatype Unit = Unit(
    id: int,
    name: string,
    description: Option<string>,
    color: string,
    icon: string,
    totalTopics: int,
    completedTopics: int,
    createdAt: Timestamp)

  datatype Document = Document(
    id: int,
    unitId: Option<int>,
    filename: string,
    originalName: string,
    fileType: string,
    filePath: string,
    extractedText: Option<string>,
    summary: Option<string>,
    embeddings: Option<Json>,
    uploadedAt: Timestamp)

  datatype Note = Note(
    id: int,
    documentId: Option<int>,
    content: string,
    isMarkdown: bool,
    createdAt: Timestamp,
    updatedAt: Timestamp)

  /** `kind` is the dataclass field `type`: "assignment" or "cat";
      `status` is "pending", "in_progress" or "completed". */
  datatype Assignment = Assignment(
    id: int,
    title: string,
    description: Option<string>,
    kind: string,
    deadline: Timestamp,
    status: string,
    questions: Option<seq<Json>>,
    relatedDocuments: Option<seq<int>>,
    createdAt: Timestamp)

  datatype StudyPlan = StudyPlan(
    id: int,
    date: Timestamp,
    scheduledTopics: Option<seq<Topic>>,
    completedTopics: Option<seq<Topic>>,
    totalStudyTime: int,
    actualStudyTime: int,
    breaks: Option<seq<Break>>,
    createdAt: Timestamp)

  datatype AiChat = AiChat(
    id: int,
    messages: seq<Json>,
    sessionId: string,
    createdAt: Timestamp,
    updatedAt: Timestamp)
}

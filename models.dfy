/**
 * The records of coach/models.py: the level, status and task-kind choice
 * sets, each model's fields with their defaults, and the `__str__` formats
 * of Topic and GenerationTask.
 *
 * Rows the views update in place (UserProgress, Conversation, Book) are
 * classes; rows the core only creates and reads (Topic, Lesson,
 * GenerationTask) are datatypes. Dates are day numbers (proleptic
 * Gregorian ordinals) and timestamps are opaque integers.
 */
module Models {
  import opened Wrappers
  import opened PyJson

  type UserId = int

  // ---------------------------------------------------------------------
  // Topic.LEVEL_CHOICES
  // ---------------------------------------------------------------------

  /** Maximum length of every level column (`max_length=2`). */
  const LevelMaxLength: nat := 2

  datatype Level = A1 | A2 | B1 | B2 | C1 | C2 {
    /** The stored code. */
    function Code(): string
    {
      match this
      case A1 => "A1"
      case A2 => "A2"
      case B1 => "B1"
      case B2 => "B2"
      case C1 => "C1"
      case C2 => "C2"
    }

    /** The human-readable name shown next to the code. */
    function Label(): string
    {
      match this
      case A1 => "Beginner"
      case A2 => "Elementary"
      case B1 => "Intermediate"
      case B2 => "Upper Intermediate"
      case C1 => "Advanced"
      case C2 => "Expert"
    }
  }

  /** The levels in their declared order. */
  const Levels: seq<Level> := [A1, A2, B1, B2, C1, C2]

  /** A level's entry in the choice list. */
  function Choice(l: Level): (string, string)
  {
    (l.Code(), l.Label())
  }

  /** The choice list in its declared order, as (code, label) pairs. */
  const LevelChoices: seq<(string, string)> :=
    [Choice(A1), Choice(A2), Choice(B1), Choice(B2), Choice(C1), Choice(C2)]

  /** The level whose code is `code`, if `code` is one of the six choices. */
  function ParseLevel(code: string): (r: Option<Level>)
    ensures r.Some? ==> r.value.Code() == code
    ensures r.None? ==> forall l: Level :: l.Code() != code
    ensures r.Some? <==> code in {"A1", "A2", "B1", "B2", "C1", "C2"}
  {
    match code
    case "A1" => Some(A1)
    case "A2" => Some(A2)
    case "B1" => Some(B1)
    case "B2" => Some(B2)
    case "C1" => Some(C1)
    case "C2" => Some(C2)
    case _ => None
  }

  /**
   * LEVEL_CHOICES lists exactly the six levels, each once, with codes that
   * fit the two-character column.
   */
  lemma LevelChoicesAreTheLevels()
    ensures |LevelChoices| == 6
    ensures forall i :: 0 <= i < |LevelChoices| ==>
              && ParseLevel(LevelChoices[i].0).Some?
              && ParseLevel(LevelChoices[i].0).value.Label() == LevelChoices[i].1
              && |LevelChoices[i].0| <= LevelMaxLength
    ensures forall l: Level :: (l.Code(), l.Label()) in LevelChoices
    ensures forall i, j :: 0 <= i < j < |LevelChoices| ==> LevelChoices[i].0 != LevelChoices[j].0
  {
    forall l: Level
      ensures ParseLevel(l.Code()) == Some(l) && |l.Code()| <= LevelMaxLength
    {
    }
    forall i | 0 <= i < |LevelChoices|
      ensures LevelChoices[i] == Choice(Levels[i])
    {
    }
    forall l: Level
      ensures Choice(l) in LevelChoices
    {
      match l
      case A1 => assert LevelChoices[0] == Choice(l);
      case A2 => assert LevelChoices[1] == Choice(l);
      case B1 => assert LevelChoices[2] == Choice(l);
      case B2 => assert LevelChoices[3] == Choice(l);
      case C1 => assert LevelChoices[4] == Choice(l);
      case C2 => assert LevelChoices[5] == Choice(l);
    }
    forall i, j | 0 <= i < j < |LevelChoices|
      ensures LevelChoices[i].0 != LevelChoices[j].0
    {
      assert ParseLevel(LevelChoices[i].0) == Some(Levels[i]);
      assert ParseLevel(LevelChoices[j].0) == Some(Levels[j]);
    }
  }

  // ---------------------------------------------------------------------
  // GenerationTask.STATUS_CHOICES and TYPE_CHOICES
  // ---------------------------------------------------------------------

  datatype TaskStatus = Pending | Processing | Completed | Failed {
    function Code(): string
    {
      match this
      case Pending => "pending"
      case Processing => "processing"
      case Completed => "completed"
      case Failed => "failed"
    }
  }

  datatype TaskType = LessonTask | BookTask | ChapterTask {
    function Code(): string
    {
      match this
      case LessonTask => "lesson"
      case BookTask => "book"
      case ChapterTask => "chapter"
    }
  }

  function ParseTaskStatus(code: string): (r: Option<TaskStatus>)
    ensures r.Some? ==> r.value.Code() == code
    ensures r.None? ==> forall st: TaskStatus :: st.Code() != code
  {
    match code
    case "pending" => Some(Pending)
    case "processing" => Some(Processing)
    case "completed" => Some(Completed)
    case "failed" => Some(Failed)
    case _ => None
  }

  function ParseTaskType(code: string): (r: Option<TaskType>)
    ensures r.Some? ==> r.value.Code() == code
    ensures r.None? ==> forall k: TaskType :: k.Code() != code
  {
    match code
    case "lesson" => Some(LessonTask)
    case "book" => Some(BookTask)
    case "chapter" => Some(ChapterTask)
    case _ => None
  }

  /** Status and kind codes fit their `max_length=20` columns. */
  lemma TaskCodesFitColumns(st: TaskStatus, k: TaskType)
    ensures 0 < |st.Code()| <= 20 && 0 < |k.Code()| <= 20
  {
  }

  // ---------------------------------------------------------------------
  // Topic and Lesson
  // ---------------------------------------------------------------------

  /**
   * A topic. `level` is whatever the form posted: the choice list is not
   * enforced when a row is created.
   */
  datatype Topic = Topic(name: string, level: string, description: string, createdAt: int) {
    /** `__str__`: "name (level)" */
    function ToString(): string
    {
      name + " (" + level + ")"
    }
  }

  /**
   * With two-character levels, as every level code is, a topic's display
   * string determines its name and level.
   */
  lemma TopicToStringDeterminesFields(t1: Topic, t2: Topic)
    requires |t1.level| == 2 && |t2.level| == 2
    requires t1.ToString() == t2.ToString()
    ensures t1.name == t2.name && t1.level == t2.level
  {
    var s := t1.ToString();
    assert t1.name == s[..|s| - 5] && t1.level == s[|s| - 3..|s| - 1];
    assert t2.name == s[..|s| - 5] && t2.level == s[|s| - 3..|s| - 1];
  }

  /**
   * A stored lesson. The fields keep the generator's values as JSON values:
   * a null cannot be stored (the columns are NOT NULL), and the string
   * conversion the text columns apply to a non-string value on save is not
   * modelled, so such a value is kept as it was generated.
   */
  datatype Lesson = Lesson(
    topic: Topic,
    title: Json,
    summary: Json,
    content: Json,
    exercises: Json,
    quiz: Json,
    conversationalPractice: Json)

  /** Column defaults of Lesson's JSON fields (`default=dict`, `default=list`). */
  const DefaultExercises: Json := Obj(map[])
  const DefaultQuiz: Json := Obj(map[])
  const DefaultConversationalPractice: Json := Arr([])

  // ---------------------------------------------------------------------
  // UserProgress
  // ---------------------------------------------------------------------

  /** A snapshot of every stored UserProgress column except the owner. */
  datatype ProgressRow = ProgressRow(
    level: string,
    completed: set<int>,
    minutes: int,
    wordsLearned: int,
    streak: int,
    lastActivity: Option<int>)

  /** The row a new UserProgress starts with. */
  const FreshProgress: ProgressRow := ProgressRow("A1", {}, 0, 0, 0, None)

  /** A user's progress record; the views update its fields in place. */
  class UserProgress {
    const user: UserId
    var currentLevel: string
    var completedLessons: set<int>
    var practiceTimeMinutes: int
    var wordsLearned: int
    var currentStreak: int
    var lastActivityDate: Option<int>

    constructor (user: UserId)
      ensures this.user == user
      ensures currentLevel == "A1" && completedLessons == {}
      ensures practiceTimeMinutes == 0 && wordsLearned == 0 && currentStreak == 0
      ensures lastActivityDate == None
      ensures Row() == FreshProgress
    {
      this.user := user;
      currentLevel := "A1";
      completedLessons := {};
      practiceTimeMinutes := 0;
      wordsLearned := 0;
      currentStreak := 0;
      lastActivityDate := None;
    }

    function Row(): ProgressRow
      reads this
    {
      ProgressRow(currentLevel, completedLessons, practiceTimeMinutes,
                  wordsLearned, currentStreak, lastActivityDate)
    }
  }

  // ---------------------------------------------------------------------
  // Conversation
  // ---------------------------------------------------------------------

  /** One stored exchange of a conversation: `{'user': ..., 'ai': ...}`. */
  datatype Turn = Turn(user: Json, ai: string)

  class Conversation {
    const id: int
    const user: UserId
    const startedAt: int
    var history: seq<Turn>

    constructor (id: int, user: UserId, startedAt: int)
      ensures this.id == id && this.user == user && this.startedAt == startedAt
      ensures history == []
    {
      this.id := id;
      this.user := user;
      this.startedAt := startedAt;
      history := [];
    }
  }

  // ---------------------------------------------------------------------
  // Book
  // ---------------------------------------------------------------------

  class Book {
    const id: int
    var title: Json
    var description: Json
    var level: string
    var content: Json
    var isPublished: bool

    constructor (id: int, title: Json, description: Json, level: string, content: Json)
      ensures this.id == id && this.title == title && this.description == description
      ensures this.level == level && this.content == content
      ensures !isPublished
    {
      this.id := id;
      this.title := title;
      this.description := description;
      this.level := level;
      this.content := content;
      isPublished := false;
    }
  }

  // ---------------------------------------------------------------------
  // GenerationTask
  // ---------------------------------------------------------------------

  datatype GenerationTask = GenerationTask(
    user: UserId,
    taskType: TaskType,
    status: TaskStatus,
    topic: string,
    level: string,
    resultId: Option<int>,
    errorMessage: string,
    createdAt: int,
    completedAt: Option<int>)
  {
    /** `__str__`: "task_type - topic (status)" */
    function ToString(): string
    {
      TypePrefix(taskType) + topic + StatusSuffix(status)
    }
  }

  /** A task as created: only the fields without a default are given. */
  function NewGenerationTask(user: UserId, taskType: TaskType, topic: string, level: string, createdAt: int): (t: GenerationTask)
    ensures t.user == user && t.taskType == taskType && t.topic == topic && t.level == level
    ensures t.status == Pending && t.status.Code() == "pending"
    ensures t.resultId == None && t.errorMessage == "" && t.completedAt == None
    ensures t.createdAt == createdAt
  {
    GenerationTask(user, taskType, Pending, topic, level, None, "", createdAt, None)
  }

  /** The part of a task's display string that shows its kind. */
  function TypePrefix(k: TaskType): string
  {
    k.Code() + " - "
  }

  /** The kinds' codes start with different letters. */
  lemma TypePrefixesDistinct(a: TaskType, b: TaskType)
    requires TypePrefix(a)[0] == TypePrefix(b)[0]
    ensures a == b
  {
  }

  /** The part of a task's display string that shows its status. */
  function StatusSuffix(st: TaskStatus): string
  {
    " (" + st.Code() + ")"
  }

  /** Three characters near the end of a status suffix tell the statuses apart. */
  lemma StatusSuffixCharsDistinct(a: TaskStatus, b: TaskStatus)
    requires StatusSuffix(a)[|StatusSuffix(a)| - 2] == StatusSuffix(b)[|StatusSuffix(b)| - 2]
    requires StatusSuffix(a)[|StatusSuffix(a)| - 4] == StatusSuffix(b)[|StatusSuffix(b)| - 4]
    requires StatusSuffix(a)[|StatusSuffix(a)| - 5] == StatusSuffix(b)[|StatusSuffix(b)| - 5]
    ensures a == b
  {
  }

  /** No status suffix ends another one. */
  lemma StatusSuffixesDistinct(a: TaskStatus, b: TaskStatus)
    requires |StatusSuffix(a)| <= |StatusSuffix(b)|
    requires StatusSuffix(b)[|StatusSuffix(b)| - |StatusSuffix(a)|..] == StatusSuffix(a)
    ensures a == b
  {
    var x, y := StatusSuffix(a), StatusSuffix(b);
    var tail := y[|y| - |x|..];
    assert x[|x| - 2] == tail[|x| - 2] == y[|y| - 2];
    assert x[|x| - 4] == tail[|x| - 4] == y[|y| - 4];
    assert x[|x| - 5] == tail[|x| - 5] == y[|y| - 5];
    StatusSuffixCharsDistinct(a, b);
  }

  /** The three parts of p + m + q can be cut back out. */
  lemma SplitThree(s: string, p: string, m: string, q: string)
    requires s == p + m + q
    ensures s[..|p|] == p && s[|p|..|s| - |q|] == m && s[|s| - |q|..] == q
  {
  }

  /** A task's display string determines its kind, topic and status. */
  lemma TaskToStringDeterminesFields(t1: GenerationTask, t2: GenerationTask)
    requires t1.ToString() == t2.ToString()
    ensures t1.taskType == t2.taskType && t1.status == t2.status && t1.topic == t2.topic
  {
    var s := t1.ToString();
    var p1, p2 := TypePrefix(t1.taskType), TypePrefix(t2.taskType);
    var q1, q2 := StatusSuffix(t1.status), StatusSuffix(t2.status);
    SplitThree(s, p1, t1.topic, q1);
    SplitThree(s, p2, t2.topic, q2);
    assert s[0] == p1[0] == p2[0];
    TypePrefixesDistinct(t1.taskType, t2.taskType);
    if |q1| <= |q2| {
      assert q2[|q2| - |q1|..] == s[|s| - |q1|..];
      StatusSuffixesDistinct(t1.status, t2.status);
    } else {
      assert q1[|q1| - |q2|..] == s[|s| - |q2|..];
      StatusSuffixesDistinct(t2.status, t1.status);
    }
  }
}

/**
 * Lesson and book creation in coach/views.py: `generate_lesson_view` and
 * `admin_generate_book` fill a new row from the generator's dictionary,
 * with defaults for missing keys; `admin_generate_book_content` fills in
 * each chapter's body; `admin_publish_book` and `admin_unpublish_book`
 * switch the library flag. Every admin view sits behind the superuser gate.
 */
module Library {
  import opened Wrappers
  import opened PyJson
  import opened Models
  import opened Responses

  // ---------------------------------------------------------------------
  // generate_lesson_view
  // ---------------------------------------------------------------------

  /** The generated keys the view copies into the lesson's columns. */
  const LessonKeys: set<string> :=
    {"title", "summary", "full_content", "exercises", "quiz", "conversational_practice"}

  /** The generated keys the view copies into the book's text columns. */
  const BookKeys: set<string> := {"title", "description"}

  /** One of `keys` is present with a JSON null, which the row would store as SQL NULL. */
  predicate NullUnder(d: map<string, Json>, keys: set<string>)
  {
    exists k :: k in keys && k in d && d[k] == Null
  }

  /**
   * The lesson `Lesson.objects.create` stores for a generated dictionary:
   * each field takes the generated value when the key is there and the
   * view's default otherwise. A generated value that is not a dictionary
   * has no `.get`, so the view raises; a JSON null under one of the keys
   * is written as SQL NULL into a NOT NULL column, so the insert raises.
   */
  function LessonFromGenerated(topic: Topic, data: Json): (r: Result<Lesson, string>)
    ensures !data.Obj? ==> r == Err("AttributeError")
    ensures data.Obj? ==> (r == Err("IntegrityError") <==> NullUnder(data.fields, LessonKeys))
    ensures r.Ok? <==> data.Obj? && !NullUnder(data.fields, LessonKeys)
    ensures r.Ok? ==> r.value.topic == topic
    ensures r.Ok? ==> r.value.title == Get(data.fields, "title", Str("Untitled Lesson"))
    ensures r.Ok? ==> r.value.summary == Get(data.fields, "summary", Str(""))
    ensures r.Ok? ==> r.value.content == Get(data.fields, "full_content", Str(""))
    ensures r.Ok? ==> r.value.exercises == Get(data.fields, "exercises", Obj(map[]))
    ensures r.Ok? ==> r.value.quiz == Get(data.fields, "quiz", Obj(map[]))
    ensures r.Ok? ==> r.value.conversationalPractice == Get(data.fields, "conversational_practice", Str(""))
  {
    if !data.Obj? then Err("AttributeError")
    else
      var d := data.fields;
      var lesson := Lesson(topic,
                           Get(d, "title", Str("Untitled Lesson")),
                           Get(d, "summary", Str("")),
                           Get(d, "full_content", Str("")),
                           Get(d, "exercises", Obj(map[])),
                           Get(d, "quiz", Obj(map[])),
                           Get(d, "conversational_practice", Str("")));
      if lesson.title == Null || lesson.summary == Null || lesson.content == Null
         || lesson.exercises == Null || lesson.quiz == Null || lesson.conversationalPractice == Null
      then Err("IntegrityError")
      else Ok(lesson)
  }

  /**
   * A generated dictionary with none of the lesson keys yields a lesson
   * titled "Untitled Lesson" with empty text. Its exercises and quiz
   * fall back to the column default `{}`, but its conversational practice
   * falls back to the empty string, not to the column default `[]`.
   */
  lemma EmptyGenerationDefaults(topic: Topic)
    ensures var r := LessonFromGenerated(topic, Obj(map[]));
            && r.Ok?
            && r.value.title == Str("Untitled Lesson")
            && r.value.summary == Str("") && r.value.content == Str("")
            && r.value.exercises == DefaultExercises && r.value.quiz == DefaultQuiz
            && r.value.conversationalPractice != DefaultConversationalPractice
  {
  }

  /**
   * generate_lesson_view: a GET shows the form; a POST stores the lesson
   * built from the generator's output and redirects to it.
   */
  function GenerateLessonView(isPost: bool, topic: Topic, data: Json): (r: (Response, Option<Lesson>))
    ensures !isPost ==> r == (Page("lesson_form.html"), None)
    ensures isPost && LessonFromGenerated(topic, data).Ok? ==>
              r.0 == Redirect("lesson_detail") && r.1 == Some(LessonFromGenerated(topic, data).value)
    ensures isPost && LessonFromGenerated(topic, data).Err? ==>
              r.0 == ServerError(LessonFromGenerated(topic, data).error) && r.1.None?
  {
    if !isPost then (Page("lesson_form.html"), None)
    else
      match LessonFromGenerated(topic, data)
      case Ok(lesson) => (Redirect("lesson_detail"), Some(lesson))
      case Err(e) => (ServerError(e), None)
  }

  // ---------------------------------------------------------------------
  // admin_generate_book
  // ---------------------------------------------------------------------

  /**
   * admin_generate_book. A POST from a superuser stores a new unpublished
   * book from the generated outline `bookData` (kept whole as the book's
   * content) under id `newId`. A JSON null as the outline's title or
   * description meets a NOT NULL column, and the insert raises.
   */
  method AdminGenerateBook(isSuperuser: bool, isPost: bool, level: string, bookData: Json, newId: int)
    returns (resp: Response, book: Book?)
    ensures !isSuperuser ==> resp == Redirect("home") && book == null
    ensures isSuperuser && !isPost ==> resp == Page("admin_generate_book.html") && book == null
    ensures isSuperuser && isPost && !bookData.Obj? ==> resp.ServerError? && book == null
    ensures isSuperuser && isPost && bookData.Obj? && NullUnder(bookData.fields, BookKeys) ==>
              resp == ServerError("IntegrityError") && book == null
    ensures isSuperuser && isPost && bookData.Obj? && !NullUnder(bookData.fields, BookKeys) ==>
              && resp == Redirect("admin_book_preview")
              && book != null && fresh(book) && book.id == newId
              && book.title == Get(bookData.fields, "title", Str("Untitled Book"))
              && book.description == Get(bookData.fields, "description", Str(""))
              && book.level == level && book.content == bookData
              && !book.isPublished
  {
    book := null;
    var gate := AdminGate(isSuperuser);
    if gate.Some? {
      return gate.value, null;
    }
    if !isPost {
      return Page("admin_generate_book.html"), null;
    }
    if !bookData.Obj? {
      return ServerError("AttributeError"), null;
    }
    var title := Get(bookData.fields, "title", Str("Untitled Book"));
    var description := Get(bookData.fields, "description", Str(""));
    if title == Null || description == Null {
      return ServerError("IntegrityError"), null;
    }
    book := new Book(newId, title, description, level, bookData);
    resp := Redirect("admin_book_preview");
  }

  // ---------------------------------------------------------------------
  // admin_generate_book_content
  // ---------------------------------------------------------------------

  /**
   * The chapter-content generator: the decoded JSON value it returns for a
   * chapter title, the book's title and its level. It is meant to be a
   * dictionary, but nothing checks that it is.
   */
  type ChapterWriter = (Json, Json, string) -> Json

  /** `chapter['title']` succeeds. */
  predicate HasTitle(chapter: Json)
  {
    chapter.Obj? && "title" in chapter.fields
  }

  /** Both `chapter['title']` and the `.get` on the generator's reply succeed. */
  predicate Fillable(chapter: Json, bookTitle: Json, level: string, writer: ChapterWriter)
  {
    HasTitle(chapter) && writer(chapter.fields["title"], bookTitle, level).Obj?
  }

  /**
   * The exception a chapter that cannot be filled raises: indexing a
   * non-dictionary with 'title' is a TypeError, a dictionary without the
   * key a KeyError, and a reply without `.get` an AttributeError.
   */
  function ChapterError(chapter: Json, bookTitle: Json, level: string, writer: ChapterWriter): (e: string)
    requires !Fillable(chapter, bookTitle, level, writer)
    ensures e == "TypeError" <==> !chapter.Obj?
    ensures e == "KeyError" <==> chapter.Obj? && "title" !in chapter.fields
    ensures e == "AttributeError" <==> HasTitle(chapter)
  {
    if !chapter.Obj? then "TypeError"
    else if "title" !in chapter.fields then "KeyError"
    else "AttributeError"
  }

  /** `content_data.get('content', '')` */
  function GeneratedContent(contentData: map<string, Json>): Json
  {
    Get(contentData, "content", Str(""))
  }

  /** One chapter with its body filled in. */
  function FilledChapter(chapter: Json, bookTitle: Json, level: string, writer: ChapterWriter): Json
    requires Fillable(chapter, bookTitle, level, writer)
  {
    Obj(chapter.fields["content" := GeneratedContent(writer(chapter.fields["title"], bookTitle, level).fields)])
  }

  /**
   * The chapter list after the fill loop, or the exception of the first
   * chapter that cannot be filled.
   */
  function FilledChapters(chapters: seq<Json>, bookTitle: Json, level: string, writer: ChapterWriter): Result<seq<Json>, string>
  {
    if chapters == [] then Ok([])
    else if !Fillable(chapters[0], bookTitle, level, writer) then Err(ChapterError(chapters[0], bookTitle, level, writer))
    else
      match FilledChapters(chapters[1..], bookTitle, level, writer)
      case Ok(rest) => Ok([FilledChapter(chapters[0], bookTitle, level, writer)] + rest)
      case Err(e) => Err(e)
  }

  /**
   * The fill succeeds exactly when every chapter has a title and the
   * generator answers every one of them with a dictionary.
   */
  lemma {:induction false} FilledChaptersOkIff(chapters: seq<Json>, bookTitle: Json, level: string, writer: ChapterWriter)
    ensures FilledChapters(chapters, bookTitle, level, writer).Ok?
            <==> forall i :: 0 <= i < |chapters| ==> Fillable(chapters[i], bookTitle, level, writer)
  {
    if chapters != [] {
      FilledChaptersOkIff(chapters[1..], bookTitle, level, writer);
      assert forall i :: 0 < i < |chapters| ==> chapters[1..][i - 1] == chapters[i];
    }
  }

  /** A successful fill fills each chapter in place. */
  lemma {:induction false} FilledChaptersAt(chapters: seq<Json>, bookTitle: Json, level: string, writer: ChapterWriter)
    requires FilledChapters(chapters, bookTitle, level, writer).Ok?
    ensures var r := FilledChapters(chapters, bookTitle, level, writer).value;
            && |r| == |chapters|
            && forall i :: 0 <= i < |chapters| ==>
                 Fillable(chapters[i], bookTitle, level, writer)
                 && r[i] == FilledChapter(chapters[i], bookTitle, level, writer)
  {
    if chapters != [] {
      FilledChaptersAt(chapters[1..], bookTitle, level, writer);
      var r := FilledChapters(chapters, bookTitle, level, writer).value;
      forall i | 0 < i < |chapters|
        ensures Fillable(chapters[i], bookTitle, level, writer)
                && r[i] == FilledChapter(chapters[i], bookTitle, level, writer)
      {
        assert chapters[1..][i - 1] == chapters[i];
      }
    }
  }

  /**
   * The fill succeeds exactly when every chapter can be filled; it then
   * keeps the number and order of chapters, keeps every key of each chapter
   * but `content`, and sets `content` to what the generator returned for
   * that chapter's title ("" when its reply has no `content`).
   */
  lemma FilledChaptersShape(chapters: seq<Json>, bookTitle: Json, level: string, writer: ChapterWriter)
    ensures FilledChapters(chapters, bookTitle, level, writer).Ok?
            <==> forall i :: 0 <= i < |chapters| ==> Fillable(chapters[i], bookTitle, level, writer)
    ensures var r := FilledChapters(chapters, bookTitle, level, writer);
            r.Ok? ==>
              && |r.value| == |chapters|
              && forall i :: 0 <= i < |chapters| ==>
                   && r.value[i].Obj?
                   && r.value[i].fields.Keys == chapters[i].fields.Keys + {"content"}
                   && (forall k :: k in chapters[i].fields && k != "content" ==>
                         r.value[i].fields[k] == chapters[i].fields[k])
                   && r.value[i].fields["content"]
                      == GeneratedContent(writer(chapters[i].fields["title"], bookTitle, level).fields)
  {
    FilledChaptersOkIff(chapters, bookTitle, level, writer);
    if FilledChapters(chapters, bookTitle, level, writer).Ok? {
      FilledChaptersAt(chapters, bookTitle, level, writer);
    }
  }

  /** `done` followed by the outcome of the remaining chapters. */
  function AfterDone(done: seq<Json>, rest: Result<seq<Json>, string>): Result<seq<Json>, string>
  {
    match rest
    case Ok(tail) => Ok(done + tail)
    case Err(e) => Err(e)
  }

  /** One step of the chapter loop: a chapter that can be filled joins the done prefix. */
  lemma FillStep(chapters: seq<Json>, i: nat, done: seq<Json>, bookTitle: Json, level: string, writer: ChapterWriter)
    requires i < |chapters| && Fillable(chapters[i], bookTitle, level, writer)
    ensures AfterDone(done, FilledChapters(chapters[i..], bookTitle, level, writer))
            == AfterDone(done + [FilledChapter(chapters[i], bookTitle, level, writer)],
                         FilledChapters(chapters[i + 1..], bookTitle, level, writer))
  {
    assert chapters[i..][0] == chapters[i];
    assert chapters[i..][1..] == chapters[i + 1..];
    var c := FilledChapter(chapters[i], bookTitle, level, writer);
    match FilledChapters(chapters[i + 1..], bookTitle, level, writer) {
      case Ok(tail) =>
        assert (done + [c]) + tail == done + ([c] + tail);
      case Err(e) =>
    }
  }

  /** One step of the chapter loop: a chapter that cannot be filled stops it with its exception. */
  lemma FillStop(chapters: seq<Json>, i: nat, done: seq<Json>, bookTitle: Json, level: string, writer: ChapterWriter)
    requires i < |chapters| && !Fillable(chapters[i], bookTitle, level, writer)
    ensures AfterDone(done, FilledChapters(chapters[i..], bookTitle, level, writer))
            == Err(ChapterError(chapters[i], bookTitle, level, writer))
  {
    assert chapters[i..][0] == chapters[i];
  }

  /** The loop of admin_generate_book_content over the chapter list. */
  method FillChapters(chapters: seq<Json>, bookTitle: Json, level: string, writer: ChapterWriter)
    returns (r: Result<seq<Json>, string>)
    ensures r == FilledChapters(chapters, bookTitle, level, writer)
  {
    var updated: seq<Json> := [];
    assert chapters[0..] == chapters;
    assert AfterDone([], FilledChapters(chapters, bookTitle, level, writer)) == FilledChapters(chapters, bookTitle, level, writer) by {
      match FilledChapters(chapters, bookTitle, level, writer)
      case Ok(tail) => assert [] + tail == tail;
      case Err(e) =>
    }
    for i := 0 to |chapters|
      invariant FilledChapters(chapters, bookTitle, level, writer)
                == AfterDone(updated, FilledChapters(chapters[i..], bookTitle, level, writer))
    {
      var chapter := chapters[i];
      if !HasTitle(chapter) {
        FillStop(chapters, i, updated, bookTitle, level, writer);
        return Err(if chapter.Obj? then "KeyError" else "TypeError");
      }
      var contentData := writer(chapter.fields["title"], bookTitle, level);
      if !contentData.Obj? {
        FillStop(chapters, i, updated, bookTitle, level, writer);
        return Err("AttributeError");
      }
      FillStep(chapters, i, updated, bookTitle, level, writer);
      chapter := Obj(chapter.fields["content" := GeneratedContent(contentData.fields)]);
      updated := updated + [chapter];
    }
    assert chapters[|chapters|..] == [];
    assert updated + [] == updated;
    r := Ok(updated);
  }

  /**
   * `for chapter in book_content.get('chapters', [])`: the items the loop
   * visits. Content that is not a dictionary has no `.get`; iterating a
   * non-empty string or dictionary yields strings, which the loop then
   * indexes with 'title'; null, booleans and numbers cannot be iterated.
   */
  function ChapterList(content: Json): (r: Result<seq<Json>, string>)
    ensures !content.Obj? ==> r.Err?
    ensures content.Obj? && "chapters" !in content.fields ==> r == Ok([])
    ensures content.Obj? && "chapters" in content.fields && content.fields["chapters"].Arr? ==>
              r == Ok(content.fields["chapters"].items)
    ensures content.Obj? && "chapters" in content.fields && content.fields["chapters"] in {Str(""), Obj(map[])} ==>
              r == Ok([])
    ensures content.Obj? && "chapters" in content.fields
            && !content.fields["chapters"].Arr? && content.fields["chapters"] !in {Str(""), Obj(map[])} ==>
              r == Err("TypeError")
  {
    if !content.Obj? then Err("AttributeError")
    else
      match Get(content.fields, "chapters", Arr([]))
      case Arr(items) => Ok(items)
      case Str(s) => if s == "" then Ok([]) else Err("TypeError")
      case Obj(m) => if m == map[] then Ok([]) else Err("TypeError")
      case _ => Err("TypeError")
  }

  /**
   * The book content after the fill: the same dictionary with `chapters`
   * replaced by the filled list.
   */
  function FilledBookContent(content: Json, bookTitle: Json, level: string, writer: ChapterWriter): (r: Result<Json, string>)
    ensures r.Ok? ==> content.Obj? && r.value.Obj?
    ensures r.Ok? ==> r.value.fields.Keys == content.fields.Keys + {"chapters"}
    ensures r.Ok? ==> forall k :: k in content.fields && k != "chapters" ==> r.value.fields[k] == content.fields[k]
    ensures r.Ok? <==> ChapterList(content).Ok? && FilledChapters(ChapterList(content).value, bookTitle, level, writer).Ok?
    ensures r.Ok? ==> r.value.fields["chapters"] == Arr(FilledChapters(ChapterList(content).value, bookTitle, level, writer).value)
    ensures ChapterList(content).Err? ==> r == Err(ChapterList(content).error)
  {
    match ChapterList(content)
    case Err(e) => Err(e)
    case Ok(chapters) =>
      match FilledChapters(chapters, bookTitle, level, writer)
      case Err(e) => Err(e)
      case Ok(updated) => Ok(Obj(content.fields["chapters" := Arr(updated)]))
  }

  /**
   * admin_generate_book_content. `book` is the stored book with the
   * requested id, null if there is none. An exception leaves the stored
   * book as it was (the save is never reached).
   */
  method AdminGenerateBookContent(isSuperuser: bool, book: Book?, writer: ChapterWriter) returns (resp: Response)
    modifies book
    ensures !isSuperuser ==> resp == Redirect("home")
    ensures isSuperuser && book == null ==> resp == NotFound
    ensures book != null ==> book.title == old(book.title) && book.description == old(book.description)
    ensures book != null ==> book.level == old(book.level) && book.isPublished == old(book.isPublished)
    ensures book != null && (!isSuperuser || resp.ServerError?) ==> book.content == old(book.content)
    ensures isSuperuser && book != null ==>
              match FilledBookContent(old(book.content), old(book.title), old(book.level), writer)
              case Ok(content) => resp == Redirect("book_detail") && book.content == content
              case Err(e) => resp == ServerError(e)
  {
    var gate := AdminGate(isSuperuser);
    if gate.Some? {
      return gate.value;
    }
    if book == null {
      return NotFound;
    }
    var chapters := ChapterList(book.content);
    if chapters.Err? {
      return ServerError(chapters.error);
    }
    var updated := FillChapters(chapters.value, book.title, book.level, writer);
    if updated.Err? {
      return ServerError(updated.error);
    }
    book.content := Obj(book.content.fields["chapters" := Arr(updated.value)]);
    resp := Redirect("book_detail");
  }

  // ---------------------------------------------------------------------
  // admin_publish_book, admin_unpublish_book
  // ---------------------------------------------------------------------

  /** admin_publish_book: show the book in the library. */
  method AdminPublishBook(isSuperuser: bool, book: Book?) returns (resp: Response)
    modifies book
    ensures !isSuperuser ==> resp == Redirect("home")
    ensures isSuperuser && book == null ==> resp == NotFound
    ensures isSuperuser && book != null ==> resp == Redirect("library") && book.isPublished
    ensures book != null && !isSuperuser ==> book.isPublished == old(book.isPublished)
    ensures book != null ==> book.title == old(book.title) && book.description == old(book.description)
    ensures book != null ==> book.level == old(book.level) && book.content == old(book.content)
  {
    var gate := AdminGate(isSuperuser);
    if gate.Some? {
      return gate.value;
    }
    if book == null {
      return NotFound;
    }
    book.isPublished := true;
    resp := Redirect("library");
  }

  /** admin_unpublish_book: take the book out of the library. */
  method AdminUnpublishBook(isSuperuser: bool, book: Book?) returns (resp: Response)
    modifies book
    ensures !isSuperuser ==> resp == Redirect("home")
    ensures isSuperuser && book == null ==> resp == NotFound
    ensures isSuperuser && book != null ==> resp == Redirect("admin_generate_book") && !book.isPublished
    ensures book != null && !isSuperuser ==> book.isPublished == old(book.isPublished)
    ensures book != null ==> book.title == old(book.title) && book.description == old(book.description)
    ensures book != null ==> book.level == old(book.level) && book.content == old(book.content)
  {
    var gate := AdminGate(isSuperuser);
    if gate.Some? {
      return gate.value;
    }
    if book == null {
      return NotFound;
    }
    book.isPublished := false;
    resp := Redirect("admin_generate_book");
  }
}

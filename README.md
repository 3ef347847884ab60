# English coach: progress bookkeeping and content shaping

A Dafny model of the request handlers of the `coach` Django app of an
English-learning site and of the records they work on. The model covers:

- the lesson-completion credit and daily streak of `lesson_detail`;
- the conversation bookkeeping of `chat_api`: the stored `{user, ai}`
  exchanges become the chat model's alternating `user`/`model` messages,
  one new exchange is appended and one practice minute is credited;
- the practice-time endpoint `update_practice_time`, with Python's `int()`
  modelled on JSON values;
- the seven-day activity chart of `progress_view`;
- lesson and book creation from a generated dictionary, with the views'
  defaults for missing keys;
- the chapter-content fill of `admin_generate_book_content`;
- publishing and unpublishing a book, behind the superuser gate;
- the choice sets, defaults and display formats of `coach/models.py`.

Modules, one per concern:

- `Wrappers`: `Option` and `Result`.
- `PyJson`: decoded JSON values, `dict.get`, Python truthiness and `int()`.
- `Models`: `coach/models.py`.
- `Responses`: what a view returns, and the superuser gate.
- `Progress`: `lesson_detail`, `update_practice_time` and `progress_view`.
- `Chat`: `chat_api`.
- `Library`: `generate_lesson_view`, `admin_generate_book`,
  `admin_generate_book_content`, `admin_publish_book` and
  `admin_unpublish_book`.

Rows that the views change in place are classes: `UserProgress`,
`Conversation` and `Book`. The view methods in `Progress`, `Chat` and
`Library` update them; those methods have `modifies` clauses and state the
whole new row. The other records are datatypes.

The model's inputs stand in for things outside it:

- "today" is a day number, the proleptic Gregorian ordinal that Python's
  `date.toordinal()` gives.
- The chat model's reply is a total function of the converted history and
  the message. The chapter writer is a total function of the chapter title,
  the book title and the level.
- The generator's replies are plain JSON values. They are meant to be
  dictionaries, but any JSON value is accepted, and each view's path for a
  reply that is not a dictionary is modelled.
- A database lookup is a parameter: the stored row, or null when there is
  none.

## Model

| member | source | states |
|---|---|---|
| `Models.ParseLevel` | coach/models.py:5-14 | a code names a level exactly when it is one of A1, A2, B1, B2, C1, C2, and the level's code is that code |
| `Models.LevelChoicesAreTheLevels` | coach/models.py:5-14 | the choice list has six entries, one per level, with distinct codes, the level's own label, and codes no longer than the two-character column |
| `Models.ParseTaskStatus` | coach/models.py:68-73 | a status code names a status exactly when it is pending, processing, completed or failed |
| `Models.ParseTaskType` | coach/models.py:74-78 | a kind code names a kind exactly when it is lesson, book or chapter |
| `Models.TaskCodesFitColumns` | coach/models.py:81-82 | every status and kind code fits its 20-character column |
| `Models.TopicToStringDeterminesFields` | coach/models.py:18-19 | "name (level)" with a two-character level gives back the topic's name and level |
| `Models.TaskToStringDeterminesFields` | coach/models.py:90-91 | "task_type - topic (status)" gives back the task's kind, topic and status |
| `Models.NewGenerationTask` | coach/models.py:80-88 | a new task keeps the given user, kind, topic, level and creation time, and is pending, with no result id, an empty error message and no completion time |
| `Models.UserProgress.constructor` | coach/models.py:34-41 | a new progress record has level A1, no completed lessons, 0 minutes, 0 words, streak 0 and no last activity date |
| `Models.Conversation.constructor` | coach/models.py:46-49 | a new conversation has an empty history |
| `Models.Book.constructor` | coach/models.py:54-60 | a new book keeps the given fields and is unpublished |
| `Responses.AdminGate` | coach/views.py:156-158 | a non-superuser is redirected home, and only a superuser gets through |
| `PyJson.PyInt` | coach/views.py:298 | `int()` keeps integers, turns booleans into 0 or 1, reads strings as decimal literals, and raises on null, lists and objects |
| `PyJson.ParseDecimalOfDecimal` | coach/views.py:298 | `int()` reads the decimal rendering of any integer back as that integer |
| `PyJson.PyIntOfRenderedInt` | coach/views.py:298 | the same round trip through a JSON string |
| `PyJson.ParseDecimalIgnoresSpace` | coach/views.py:298 | `int()` gives the same answer for a string with any ASCII whitespace it skips (space, tab, line feed, vertical tab, form feed, carriage return) added before and after it |
| `PyJson.ParseDecimalOfDigitRun` | coach/views.py:298 | `int()` accepts an optional `+` or `-` followed by digits with single underscores between them, and gives their value with the underscores dropped, negated after `-` |
| `PyJson.ParseDecimalSignAndUnderscores` | coach/views.py:298 | for example, `int("+1_000")` is 1000 |
| `PyJson.ParseDecimalRejectsBlank` | coach/views.py:298 | `int()` raises ValueError on a string made only of whitespace |
| `PyJson.ParseDecimalRejectsStray` | coach/views.py:298 | `int()` raises ValueError on a string that holds any character other than whitespace, a sign, a digit or an underscore, such as the point of a fraction |
| `PyJson.ParseDecimalRejectsSeparator` | coach/views.py:298 | `int()` does not skip the separators 0x1C-0x1F, which `str.isspace()` accepts: one anywhere in the string raises ValueError |
| `PyJson.ParseDecimalRejectsTrailingUnderscore` | coach/views.py:298 | `int()` raises ValueError when an underscore is not followed by a digit |
| `PyJson.ParseDecimalRejectsLeadingUnderscore` | coach/views.py:298 | `int()` raises ValueError when an underscore is not preceded by a digit |
| `Progress.AfterLessonView` | coach/views.py:61-79 | a view completes the lesson; only a first view credits 10 minutes; the streak stays on the same day, grows by 1 on the next day, else restarts at 1; the last activity date becomes today; level and words are untouched |
| `Progress.AfterLessonViewAsWritten` | coach/views.py:61-79 | the row the view actually stores: the lesson is always completed; when the day differs from the last activity the row is the full update, and on a day that already had activity minutes, streak, date, level and words stay as stored |
| `Progress.SameDayFirstViewLosesCredit` | coach/views.py:61-79 | a new lesson viewed on a day that already had activity is completed, but its 10 minutes are lost as written and kept in the corrected view |
| `Progress.SameDayFirstViewLosesCreditExample` | coach/views.py:61-79 | a concrete instance of that loss |
| `Progress.LessonDetail` | coach/views.py:55-83 | an unknown lesson is a 404 that changes nothing; otherwise the stored progress becomes `AfterLessonView` of the old one |
| `Progress.StreakIsRunOfConsecutiveDays` | coach/views.py:66-78 | over any series of views with a clock that never goes back, the streak is the length of the run of consecutive activity days ending today |
| `Progress.PracticeCreditedOncePerLesson` | coach/views.py:61-64 | over any series of views, the credited minutes are 10 per distinct lesson not completed before, and the completed set gains exactly the viewed lessons |
| `Progress.MinutesToAdd` | coach/views.py:294-298 | the minutes are `int(minutes)`, 1 when the key is absent, and an error when the body is not an object |
| `Progress.UpdatePracticeTime` | coach/views.py:291-304 | a POST with a usable `minutes` adds exactly that many minutes and reports the new total; a failure answers 400 and changes nothing |
| `Progress.ProgressChart` | coach/views.py:99-118 | exactly 7 labels and 7 values for the days today-6 to today in order; each value is that day's count or 0; the labels are 7 distinct weekday names, the last one today's |
| `Progress.SameLabelSameWeekday` | coach/views.py:116 | two days with the same weekday label are a whole number of weeks apart |
| `Chat.ChatHistoryPositions` | coach/views.py:266-269 | the converted history has 2·n messages; message 2i is the i-th user text with role "user" and message 2i+1 the i-th reply with role "model" |
| `Chat.ChatHistoryRoundTrip` | coach/views.py:266-269 | the stored exchanges can be read back from the converted history unchanged and in order |
| `Chat.ToChatHistory` | coach/views.py:266-269 | the conversion loop computes the converted history |
| `Chat.FindConversation` | coach/views.py:251-256 | the lookup finds a conversation with that id owned by the requester, or there is none |
| `Chat.ChatApi` | coach/views.py:243-287 | a non-POST is a 400; a body that is not a JSON object is a 500; an id that `int()` rejects is a 500 with that exception; an id naming no conversation of the requester is a 404; a POST with no id, or with the id of one of the requester's conversations, always answers 200; every non-200 path changes nothing; a successful turn appends exactly one exchange `{message, reply}` to that conversation, leaves the others alone and adds one practice minute |
| `Library.LessonFromGenerated` | coach/views.py:40-48 | each lesson field takes the generated value when present and the view's default otherwise ("Untitled Lesson", "", {}, ""); a generated value that is not an object raises AttributeError; a JSON null under any of the six keys makes the NOT NULL insert raise IntegrityError; otherwise the lesson is stored |
| `Library.EmptyGenerationDefaults` | coach/views.py:40-48 | with no generated keys, exercises and quiz fall back to the column default, but conversational practice falls back to "", not the column's `[]` |
| `Library.GenerateLessonView` | coach/views.py:27-52 | a GET shows the form; a POST stores the generated lesson and redirects to it, or fails with the exception of building it |
| `Library.AdminGenerateBook` | coach/views.py:155-178 | a non-superuser is sent home; a GET shows the form; an outline that is not an object raises; a null title or description makes the insert raise IntegrityError; otherwise a superuser's POST stores a new unpublished book with the generated title (default "Untitled Book") and description (default ""), the posted level and the whole outline as content |
| `Library.ChapterError` | coach/views.py:200-203 | a chapter that cannot be filled raises TypeError when it is not a dictionary, KeyError when it has no title, and AttributeError when the generator's reply is not a dictionary |
| `Library.FilledChaptersOkIff` | coach/views.py:199-204 | the chapter loop finishes without an error exactly when every chapter has a title and the generator answers each with a dictionary |
| `Library.FilledChaptersAt` | coach/views.py:199-204 | a finished loop keeps the number and order of chapters, each replaced by its filled version |
| `Library.FillStep` | coach/views.py:200-204 | one iteration on a chapter that can be filled appends its filled version and goes on with the rest |
| `Library.FillStop` | coach/views.py:200-203 | one iteration on a chapter that cannot be filled ends the loop with that chapter's exception |
| `Library.FilledChaptersShape` | coach/views.py:197-206 | the fill succeeds exactly when every chapter can be filled; it keeps the chapters' number and order and every key but `content`, and sets `content` to the reply's `content` or "" |
| `Library.FillChapters` | coach/views.py:199-204 | the chapter loop computes the filled chapter list |
| `Library.ChapterList` | coach/views.py:196-202 | content that is not an object raises; a missing `chapters` key, `""` or `{}` means no chapters; a list is walked as it is; any other value (null, boolean, number, non-empty string or object) raises TypeError |
| `Library.FilledBookContent` | coach/views.py:196-207 | the fill succeeds exactly when the chapter list can be read and every chapter can be filled; it then gives the same object with only `chapters` replaced, by the filled chapter list; a chapter list that cannot be read fails with its exception |
| `Library.AdminGenerateBookContent` | coach/views.py:187-210 | a non-superuser is sent home; an unknown book is a 404; on success only the book's content changes, to the filled content; an exception leaves the book as it was |
| `Library.AdminPublishBook` | coach/views.py:212-219 | a superuser's request sets the book published and redirects to the library; no other field changes |
| `Library.AdminUnpublishBook` | coach/views.py:221-228 | a superuser's request clears the published flag; no other field changes |

## Findings

| source | as written | input that shows it | evidently intended | confidence | as-written member | corrected member |
|---|---|---|---|---|---|---|
| coach/views.py:61-79 | the +10 practice minutes for a first lesson view are saved only inside the `last_activity_date != today` branch, while the many-to-many add saves the completion at once | a user already active today opens a lesson they have not completed: it is marked completed and the minutes stay as they were | every first completion credits 10 minutes, as the comment on line 61 says | high, not executed | `Progress.AfterLessonViewAsWritten`, `Progress.SameDayFirstViewLosesCredit` | `Progress.AfterLessonView`, `Progress.LessonDetail`, `Progress.PracticeCreditedOncePerLesson` |

## Left out

- Calls to the generation service in `coach/services.py`, including prompts, model set-up, error fallbacks and audio chat. Replies and generated dictionaries are inputs.
- Markdown rendering in `lesson_detail` and `book_detail`, which uses foreign libraries.
- ORM and HTTP plumbing. This covers `get_or_create`, `get_object_or_404`, query sets, the per-day session count query of `progress_view` (its result is the `sessions` map), `render`/`redirect`/`JsonResponse` and the login and CSRF decorators.
- `home`, `my_lessons_view`, `conversation_view`, `library_view`, `book_detail`, `admin_book_preview` and `admin_delete_book`. They query, render or delete rows, and `home` also creates the user's progress row through `get_or_create`.
- The URL table and `voice_chat_api`, `generation_status`, `generation_status_api` and the `regenerate_*` views. The URL table names those views, but `coach/views.py` does not define them.
- The task life cycle, background execution, rate limiting and response repair. No code for them exists in these files; `GenerationTask` is modelled only as a record.
- `coach/admin.py` (admin display settings) and `coach/dynamic_preferences_registry.py` (settings registration).
- Clock access. `timezone.now()` is the `today`/`now` parameter. `strftime('%a')` is the C-locale weekday abbreviation of the ordinal.
- Topic creation in `generate_lesson_view` (`get_or_create`): the topic is an input.
- Missing form fields (`None` posted as a topic or level) are not modelled. The database would reject them on insert.
- Exception messages: an error carries only the exception's kind, not Python's text.
- JSON numbers with a fraction, and floating point in general. `int(2.5)` is not modelled.
- Unicode digits and non-ASCII whitespace in `int()`.
- Database integer width: `IntegerField` columns are unbounded integers here.
- Key order of stored JSON objects. Objects are maps.
- In-place aliasing of the chapter dictionaries in `admin_generate_book_content`. The model builds new chapter values. Since the loop runs to the end or raises before saving, the stored result is the same.
- The order and number of generator calls in the chapter loop. The writer is a pure function, so the calls made for chapters before a failing one are not visible.
- `__str__` of Lesson and Book (the title), of UserProgress (needs the user name) and of Conversation (needs datetime formatting).
- `Chat.ChatApi`: when several stored conversations share an id, the first one owned by the requester is taken. The database key makes ids unique.
- Concurrent requests. `practice_time_minutes += …` followed by `save()` in `lesson_detail`, `chat_api` and `update_practice_time` is an unlocked read, change and write, so two requests at once can lose one update. Every view here runs as one atomic step.
- `PyJson.ParseDecimal`: CPython's limit on the length of integer strings (`sys.int_max_str_digits`, 4300 digits by default) is not modelled. Beyond it, `int()` raises ValueError where the model reads the number. A longer `conversation_id` string is then a 500 where `Chat.ChatApi` answers 404, and `PyJson.ParseDecimalOfDecimal` holds only below that length.
- `Library.LessonFromGenerated`: a generated value that is neither null nor a string, stored in a text column (title, summary, content), is kept as the JSON value. Django would store its `str()` form. `Library.AdminGenerateBook` keeps a book's title and description the same way.
- Column lengths (`max_length`) are not enforced on insert. Whether the database enforces them depends on its engine, and the settings that choose it are not part of this model.

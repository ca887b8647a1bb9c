# Task intake of the task manager, in Dafny

This project models the task-intake layer of the task manager: the parts that
accept work tasks and keep them.

- **app.py**: an in-memory `/api/tasks` endpoint. A POST checks the
  `skillsRequired` field in a fixed order. It must be a list, of at most 15
  entries, each a string with no space. The skills are lower-cased, the task is
  numbered `len(tasks) + 1` and appended to the module-level list. A GET returns
  the list.
- **TASK_ALLOCATOR.py**: the same endpoint backed by a JSON file. A POST rejects
  non-JSON requests with 415. It checks five required fields in order, and the
  first absent or falsy one is named in a 400. `skillsRequired` must be a list.
  The task is numbered from the loaded list and appended, and the list is saved.
  A failed save answers 500. `ensure_tasks_file`, `load_tasks` and `save_tasks`
  act on an abstract file whose writes may fail.
- **static/js/app.js**: the form's skill list. `addSkill` trims the input text.
  It ignores empty and duplicate skills and refuses a sixteenth one with a
  message. `removeSkill` splices out the first occurrence of a skill.
- **data_fetch.py**: `Employee.validate_shift`. A day's shift must be a list of
  two slots, and each slot a list of two values.

Modules: `Wrappers` (Option, Result), `PyJson` (a decoded JSON value and Python
truthiness), `MemoryIntake` (app.py), `FileIntake` (TASK_ALLOCATOR.py),
`SkillPicker` (static/js/app.js), `ShiftSchema` (data_fetch.py).

Each piece of state the source updates in place is a class:
- `TaskBoard` holds app.py's `tasks`.
- `TaskFile` holds the tasks file.
- `SkillForm` holds the JavaScript `skills` array and the input text.

Each mutating method is proved equal to a pure function of the old state
(`Accept`, `Handle`, `Load`, `Ensure`, `AddStep`, `Removed`). The properties are
proved about those functions:
- ids are 1..n in order, when requests are handled one at a time;
- stored skills are lower-case single words, at most 15;
- the skill list stays duplicate-free and bounded;
- removing a just-added skill restores the list;
- a GET after a successful POST lists the new task.

These files contain no skill matching, time-window splitting, shift checking
or ranking of employees, so the model has none either. No handler checks that
a task's `endTime` is after its `startTime`, and the model does not either.

## Model

| member | source | states |
|---|---|---|
| `MemoryIntake.Lower` | app.py:32 | `str.lower()` on ASCII: same length, no upper-case letter left, only A-Z changed (by +32), a space occurs in the result iff in the input, a lower-case string is left as it is |
| `MemoryIntake.LowerAll` | app.py:32 | the comprehension keeps length and order and lower-cases each skill |
| `MemoryIntake.ValidateSkills` | app.py:20-32 | each message is answered iff its check is the first to fail: "Skills must be a list" iff the field is absent or not a list; "Maximum 15 skills allowed" iff it is a list of more than 15 (15 passes); "Each skill must be a single word" iff within 15 and some entry is not a str or holds a space; success iff the field is a list of at most 15 entries that are all single-word strings, and then the result is the element-wise lower-casing, normalised |
| `MemoryIntake.Accept` | app.py:17-36 | a non-dict body raises and a failed check answers 400 with its message, both leaving `tasks` unchanged; success iff the checks pass, then the id is old length + 1, the list grows by exactly that task at the end with earlier tasks unchanged, the task carries that id, `created_at` and the lower-cased skills, every other request key is kept, and it has no keys beyond the request's and those three; the well-formedness invariant (ids 1..n, normalised skills) is preserved |
| `MemoryIntake.TaskBoard.constructor` | app.py:7 | the list starts empty and well-formed |
| `MemoryIntake.TaskBoard.Post` | app.py:15-36 | the response and the new list are those of `Accept` on the old list; the invariant that ids are exactly 1..n in order is kept |
| `MemoryIntake.TaskBoard.Get` | app.py:39 | returns the current list and modifies nothing |
| `FileIntake.FirstFailing` | TASK_ALLOCATOR.py:81-84 | all fields pass iff each is present and truthy; a named missing field is absent or falsy with every earlier field present; a raised error comes from the first field that is not present |
| `FileIntake.CheckRequiredFields` | TASK_ALLOCATOR.py:81-84 | the early-return loop over the five required fields gives exactly `FirstFailing` on them |
| `FileIntake.EmptySkillsReportedMissing` | TASK_ALLOCATOR.py:81-88 | with name and description given, an empty `skillsRequired` list is answered 400 "Missing required field: skillsRequired" and the file is untouched |
| `FileIntake.StatusOf` | TASK_ALLOCATOR.py:83 | how `field not in task_data or not task_data[field]` evaluates: the field passes iff the body is a dict holding it with a truthy value; it raises iff the body is a list holding the field name, a str containing it as a substring (both then fail on indexing with a str), or None, a bool or a number (`in` fails); otherwise it is missing |
| `FileIntake.Ensure` | TASK_ALLOCATOR.py:10-36 | raises iff the file's bytes are not text in the locale encoding, and then leaves the file; reports success iff the file already holds a document or writes succeed (on any other file); after success the file holds a document or stays unreadable; an existing document and an unreadable file are kept; a missing, blank or garbled file becomes `[]` when writes succeed and is untouched otherwise |
| `FileIntake.Load` | TASK_ALLOCATOR.py:38-51 | the stored document when there is one; an escaping exception on a misencoded file; otherwise the empty list, leaving `[]` in a missing, blank or garbled file when writes succeed, and the file untouched when it is unreadable or writes fail |
| `FileIntake.Written` | TASK_ALLOCATOR.py:56-57 | a successful write leaves the written list in the file, except that an unreadable file stays unreadable |
| `FileIntake.Stamped` | TASK_ALLOCATOR.py:94-95 | the stored task is a dict with the request's keys plus `id` and `created_at`, carrying the given id and timestamp, every other key keeping its value |
| `FileIntake.Handle` | TASK_ALLOCATOR.py:67-109 | GET lists what `load_tasks` returns and leaves its file, or fails uncaught when it raises; non-JSON answers 415 and leaves the file; an unparsable body or a field check that raises answers 500; the first missing field is named in a 400; a present non-list `skillsRequired` answers "must be an array"; for an admitted body, a load that raises or yields a non-list answers 500, otherwise with writable storage the task is created with id loaded count + 1 and the loaded list plus that task at the end is written to the file, and without it the answer is 500 "Failed to save task" with the file unchanged; a task is created only for an admitted body with writable storage; every other non-500 POST leaves the file unchanged |
| `FileIntake.PostKeepsNumbering` | TASK_ALLOCATOR.py:91-99 | a successful POST on a readable file whose tasks are numbered 1..n (or that holds no document) leaves tasks numbered 1..n+1 |
| `FileIntake.PostThenGet` | TASK_ALLOCATOR.py:67-106 | after a successful POST on a readable file, a GET lists the earlier tasks followed by the new one, whose `id` is the returned `task_id`, and does not change the file |
| `FileIntake.UnreadableFileForgetsTasks` | TASK_ALLOCATOR.py:20-99 | on a file that can be written but not read, a GET lists no tasks, every POST leaves the file unreadable, and every created task gets id 1 |
| `FileIntake.TaskFile.Write` | TASK_ALLOCATOR.py:56-57 | a write succeeds iff the storage is writable, and then the file holds exactly the list unless it is unreadable |
| `FileIntake.TaskFile.EnsureTasksFile` | TASK_ALLOCATOR.py:10-36 | result and new file are those of `Ensure`, including the retry of the except branch and the exception that escapes on a misencoded file |
| `FileIntake.TaskFile.LoadTasks` | TASK_ALLOCATOR.py:38-51 | result and new file are those of `Load` |
| `FileIntake.TaskFile.SaveTasks` | TASK_ALLOCATOR.py:53-61 | reports success iff the write succeeds; on success the file is `Written` with the list, otherwise it is unchanged |
| `FileIntake.HandleTasks` | TASK_ALLOCATOR.py:67-109 | the response and the new file are those of `Handle` on the old file |
| `SkillPicker.TrimStart` | static/js/app.js:22 | a suffix of the input that starts with no white space, and everything cut off is white space |
| `SkillPicker.TrimEnd` | static/js/app.js:22 | a prefix of the input that ends with no white space, and everything cut off is white space |
| `SkillPicker.Trim` | static/js/app.js:22 | a contiguous part of the input that neither starts nor ends with white space, with only white space cut off at either end |
| `SkillPicker.TrimFixesTrimmed` | static/js/app.js:22 | trimming a trimmed string gives it back |
| `SkillPicker.IndexOf` | static/js/app.js:46 | -1 iff the skill is absent; otherwise an index holding the skill with no earlier occurrence |
| `SkillPicker.AddStep` | static/js/app.js:21-34 | a skill is added iff its trimmed text is non-empty, not already listed and the list holds fewer than 15; it is then appended at the end and the input cleared; the limit outcome, carrying "Maximum 15 skills allowed", happens iff a new distinct skill meets a full list; otherwise list and input are unchanged; no duplicates, at most 15, trimmed non-empty entries is preserved |
| `SkillPicker.Removed` | static/js/app.js:45-48 | an absent skill changes nothing; a present one is removed once at the index `indexOf` finds, the others keeping their order (length − 1, the multiset loses one copy); the invariant is preserved and the skill is gone |
| `SkillPicker.SpliceAt` | static/js/app.js:48 | entries before the removed index stay in place, later ones move down by one |
| `SkillPicker.SpliceOut` | static/js/app.js:48 | splicing out an entry removes one copy from the multiset and keeps a good list good without that entry |
| `SkillPicker.RemoveUndoesAdd` | static/js/app.js:21-48 | removing the skill that `addSkill` has just added gives back the previous list |
| `SkillPicker.SkillForm.constructor` | static/js/app.js:2-3 | the list starts empty and satisfies the invariant |
| `SkillPicker.SkillForm.AddSkill` | static/js/app.js:21-34 | outcome, new list and new input text are those of `AddStep`; the invariant is kept |
| `SkillPicker.SkillForm.RemoveSkill` | static/js/app.js:45-48 | the new list is `Removed` of the old one; the invariant is kept |
| `ShiftSchema.CheckSlots` | data_fetch.py:25-27 | no error iff every slot is a list of length 2; an error is the slot message |
| `ShiftSchema.ValidateShift` | data_fetch.py:22-28 | a value that is not a list of length 2 fails with the shift message; otherwise it is accepted iff both slots are lists of length 2, and a bad slot fails with the slot message; an accepted value is returned unchanged |
| `ShiftSchema.ValidateShiftAcceptsTwoByTwo` | data_fetch.py:22-28 | accepted iff the value is `[[a, b], [c, d]]` for some values; validating an accepted value again accepts it again |

## Left out

- Flask plumbing (`@app.route`, `render_template`, `request.is_json`, `jsonify`) is not modelled. Responses are datatypes, and the JSON-ness of a request is a field of the request.
- In app.py the body is taken already decoded. How Flask treats a body that is not JSON there depends on the Flask version and is not modelled. A decoded body that is not a dict makes `task_data.get` raise, and this is modelled as `Uncaught`.
- In TASK_ALLOCATOR.py the text of a caught exception (`str(e)`, line 109) is not modelled. Every such case is `ServerError`, status 500.
- `created_at` comes from the clock (`datetime.now()`). It is a parameter of the POST.
- The order of keys inside a JSON object is not modelled. Objects are maps.
- JSON numbers are reals. Python's distinction between int, float and bool numbers is not modelled.
- The debug `print` calls are not modelled.
- Real file I/O is not modelled. The tasks file is an abstract `Disk`: missing, blank, garbled (its text is not JSON), unreadable (every read raises an I/O error, for instance when the process may write the file but not read it; a write does not change that), misencoded (its bytes are not text in the locale encoding, so the read raises an exception that no except clause names) or holding a document. A `writable` flag decides whether every write succeeds.
- Requests to both handlers are modelled one at a time. `app.run(debug=True)` (app.py:42) starts a development server that serves requests on separate threads, and app.py reads `len(tasks)` (line 30) and appends (line 34) without a lock. Two concurrent POSTs can therefore both take the same id, which the model's ids-are-1..n invariant does not cover.
- Partial writes and concurrent writers are not modelled, including another process changing the file between load and save. Without them, after a successful `ensure_tasks_file` the re-read inside `load_tasks` (TASK_ALLOCATOR.py:44-51) either finds a document or, on an unreadable file, raises the I/O error that line 49 catches. A blank or non-JSON re-read cannot happen. A read error that comes and goes is not modelled: a file is either unreadable on every read or readable on every read.
- `FileIntake.PostKeepsNumbering` and `FileIntake.PostThenGet` are stated for readable files only: on an unreadable file every task is numbered 1 and a GET lists none (`UnreadableFileForgetsTasks`).
- The call to `ensure_tasks_file` at startup (TASK_ALLOCATOR.py:112) and the server start-up are not modelled.
- `MemoryIntake.Lower`: only ASCII letters are lower-cased. Python's full Unicode `str.lower()` is not modelled, because it depends on Unicode case tables.
- JavaScript strings are sequences of UTF-16 code units. Here they are sequences of Unicode characters. The white-space set `trim` removes is the ECMAScript one, and it lies inside the Basic Multilingual Plane.
- static/js/app.js stops in the middle of line 48. The removal statement is cut off after `skills.s`. `removeSkill` is modelled as `splice(index, 1)` at the index `indexOf` found.
- In static/js/app.js, `renderSkills`, `handleFormSubmit`, `handleSkillInputKeypress`, `init` and the DOM lookups are not modelled: they are DOM-bound, and most of them are cut off. `showMessage` is modelled as the `LimitReached` outcome of `addSkill`.
- data_fetch.py imports `Validator` (line 2) but decorates with `validator` (line 21), so the module as written fails at import. Only the body of `validate_shift` is modelled.
- In data_fetch.py, the pydantic `each_item` application to every day of the `Shift` dict is not modelled. The parsing of the slot values as `time` is not modelled either.
- The Gemini API call and the file write in data_fetch.py (lines 30-46) are a third-party service and I/O, and are not modelled.
- websocketsserver.py, static/app.py, app/app.py, app/app.js, app/tests/script.js and app/tests/server.js are echo servers and UI code, and are not part of this model.
- No skill matching, time-window splitting, shift checking or ranking of employees is modelled: none of it is in these sources.

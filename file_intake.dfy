/**
 * The file-backed task endpoint of TASK_ALLOCATOR.py. The JSON file is an
 * abstract store whose writes may fail; `ensure_tasks_file`, `load_tasks` and
 * `save_tasks` act on it, and `handle_tasks` serves GET and POST on top of them.
 */
module FileIntake {
  import opened Wrappers
  import opened PyJson

  /** What the tasks file holds. */
  datatype Disk =
    | Missing                // no file
    | Blank                  // a file whose content is empty after stripping
    | Garbled                // a file whose text is not JSON
    | Unreadable             // a file whose every read raises IOError; writing to it does not change that
    | Misencoded             // a file whose bytes are not text in the locale's encoding
    | Document(doc: Json)    // a file holding this JSON document

  const RequiredFields: seq<string> := ["taskName", "taskDescription", "skillsRequired", "startTime", "endTime"]
  const JsonMessage := "Content-Type must be application/json"
  const MissingPrefix := "Missing required field: "
  const ArrayMessage := "skillsRequired must be an array"
  const SaveMessage := "Failed to save task"
  const CreatedMessage := "Task created successfully"

  /** A request to `/api/tasks`; `body` is None when the JSON body cannot be parsed. */
  datatype Request =
    | Get
    | Post(isJson: bool, body: Option<Json>, createdAt: string)

  /** What `handle_tasks` answers. */
  datatype Response =
    | Rejected(code: nat, message: string)     // {"status": "error", "message": ...} with that status code
    | Created(taskId: nat, message: string)    // {"status": "success", "task_id": ..., "message": ...}
    | Listing(tasks: Json)                     // {"tasks": ...}
    | ServerError                              // an exception caught at line 108: 500 with its text
    | Uncaught                                 // an exception escapes the GET branch; Flask answers 500
  {
    function Code(): nat {
      match this
      case Rejected(code, _) => code
      case ServerError => 500
      case Uncaught => 500
      case _ => 200
    }
  }

  /** `f in s` on two Python strings: `f` occurs in `s` as a substring. */
  predicate Occurs(f: string, s: string)
    decreases |s|
  {
    |f| <= |s| && (s[..|f|] == f || (s != [] && Occurs(f, s[1..])))
  }

  /** How `field not in task_data or not task_data[field]` (line 83) evaluates. */
  datatype FieldStatus = Present | Absent | Raises

  function StatusOf(data: Json, field: string): (r: FieldStatus)
    ensures r == Present <==> data.JObj? && field in data.fields && Truthy(data.fields[field])
    ensures r == Raises <==>
      || (data.JArr? && JStr(field) in data.items)
      || (data.JStr? && Occurs(field, data.s))
      || data.JNull? || data.JBool? || data.JNum?
  {
    match data
    case JObj(fields) => if field in fields && Truthy(fields[field]) then Present else Absent
    // `in` on a list compares elements; indexing a list with a str raises
    case JArr(items) => if JStr(field) in items then Raises else Absent
    // `in` on a str looks for a substring; indexing a str with a str raises
    case JStr(s) => if Occurs(field, s) then Raises else Absent
    // `in` on None, a bool or a number raises
    case _ => Raises
  }

  /** The outcome of the loop of lines 82-84 over a list of field names. */
  datatype FieldCheck = AllPresent | MissingField(name: string) | Raised

  /** The fields are looked at in order, and the first one that is not `Present` decides. */
  function FirstFailing(data: Json, fields: seq<string>): (r: FieldCheck)
    ensures r.AllPresent? <==> forall i :: 0 <= i < |fields| ==> StatusOf(data, fields[i]) == Present
    ensures r.MissingField? ==>
      exists k :: 0 <= k < |fields| && fields[k] == r.name && StatusOf(data, fields[k]) == Absent
        && forall j :: 0 <= j < k ==> StatusOf(data, fields[j]) == Present
    ensures r.Raised? ==>
      exists k :: 0 <= k < |fields| && StatusOf(data, fields[k]) == Raises
        && forall j :: 0 <= j < k ==> StatusOf(data, fields[j]) == Present
  {
    if fields == [] then AllPresent
    else
      match StatusOf(data, fields[0])
      case Absent => MissingField(fields[0])
      case Raises => Raised
      case Present =>
        var r := FirstFailing(data, fields[1..]);
        assert forall j :: 1 <= j < |fields| ==> fields[j] == fields[1..][j - 1];
        r
  }

  /** The loop of lines 81-84: it returns at the first field that is absent or falsy. */
  method CheckRequiredFields(data: Json) returns (r: FieldCheck)
    ensures r == FirstFailing(data, RequiredFields)
  {
    var i := 0;
    while i < |RequiredFields|
      invariant 0 <= i <= |RequiredFields|
      invariant FirstFailing(data, RequiredFields) == FirstFailing(data, RequiredFields[i..])
    {
      var field := RequiredFields[i];
      var status := StatusOf(data, field);
      if status == Absent {
        return MissingField(field);
      }
      if status == Raises {
        return Raised;
      }
      assert RequiredFields[i..][1..] == RequiredFields[i + 1..];
      i := i + 1;
    }
    return AllPresent;
  }

  /**
   * `ensure_tasks_file` (lines 10-36): `Some` of what it returns, and the file
   * afterwards; `None` when the read of line 21 raises UnicodeDecodeError, which
   * the except clause of line 28 does not catch.
   */
  function Ensure(disk: Disk, writable: bool): (out: (Option<bool>, Disk))
    ensures out.0.None? <==> disk.Misencoded?
    ensures out.0 == Some(true) <==> disk.Document? || (writable && !disk.Misencoded?)
    ensures out.0 == Some(true) ==> out.1.Document? || out.1.Unreadable?
    ensures disk.Document? || disk.Misencoded? || disk.Unreadable? || !writable ==> out.1 == disk
    ensures !disk.Document? && !disk.Misencoded? && !disk.Unreadable? && writable ==> out.1 == Document(JArr([]))
  {
    match disk
    case Document(_) => (Some(true), disk)
    case Misencoded => (None, disk)
    // the IOError of line 21 is caught at line 28, and the rewrite of line 33
    // succeeds or fails with the storage, but the file stays unreadable
    case Unreadable => (Some(writable), disk)
    case _ => if writable then (Some(true), Document(JArr([]))) else (Some(false), disk)
  }

  /**
   * `load_tasks` (lines 38-51): `Some` of the stored document, or of the empty
   * list on any failure it catches, and the file afterwards; `None` when the
   * exception of `ensure_tasks_file` escapes.
   */
  function Load(disk: Disk, writable: bool): (out: (Option<Json>, Disk))
    ensures disk.Document? ==> out == (Some(disk.doc), disk)
    ensures disk.Misencoded? ==> out == (None, disk)
    ensures !disk.Document? && !disk.Misencoded? ==> out.0 == Some(JArr([]))
    ensures !disk.Document? && !disk.Misencoded? && !disk.Unreadable? && writable ==> out.1 == Document(JArr([]))
    ensures disk.Unreadable? || !writable ==> out.1 == disk
  {
    var (ok, disk') := Ensure(disk, writable);
    if ok.None? then (None, disk')
    else if ok.value && disk'.Document? then (Some(disk'.doc), disk')
    // `ensure_tasks_file` returned False, or the re-read of lines 44-45 raised
    // IOError, which line 49 catches
    else (Some(JArr([])), disk')
  }

  /** The file after a successful write of `tasks`: an unreadable file stays unreadable. */
  function Written(disk: Disk, tasks: seq<Json>): (after: Disk)
    ensures after.Unreadable? <==> disk.Unreadable?
    ensures !disk.Unreadable? ==> after == Document(JArr(tasks))
  {
    if disk.Unreadable? then disk else Document(JArr(tasks))
  }

  /** The new task of lines 94-95: the request's dict with `id` and `created_at` set. */
  function Stamped(fields: map<string, Json>, id: nat, createdAt: string): (task: Json)
    ensures task.JObj? && task.fields.Keys == fields.Keys + {"id", "created_at"}
    ensures task.fields["id"] == JNum(id as real) && task.fields["created_at"] == JStr(createdAt)
    ensures forall k :: k in fields && k != "id" && k != "created_at" ==> task.fields[k] == fields[k]
  {
    JObj(fields["id" := JNum(id as real)]["created_at" := JStr(createdAt)])
  }

  /** A POST whose body passes the field loop (lines 82-84) and the list check (line 87). */
  predicate Admitted(req: Request) {
    && req.Post? && req.isJson && req.body.Some?
    && FirstFailing(req.body.value, RequiredFields).AllPresent?
    && req.body.value.JObj? && "skillsRequired" in req.body.value.fields
    && req.body.value.fields["skillsRequired"].JArr?
  }

  /** `handle_tasks` (lines 67-109): the response and the file afterwards. */
  function Handle(req: Request, disk: Disk, writable: bool): (out: (Response, Disk))
    ensures req.Get? ==>
      var (tasks, loaded) := Load(disk, writable);
      out == (if tasks.None? then Uncaught else Listing(tasks.value), loaded)
    ensures req.Post? && !req.isJson ==> out == (Rejected(415, JsonMessage), disk)
    ensures req.Post? && req.isJson && req.body.None? ==> out == (ServerError, disk)
    ensures req.Post? && req.isJson && req.body.Some? && FirstFailing(req.body.value, RequiredFields).MissingField? ==>
      out == (Rejected(400, MissingPrefix + FirstFailing(req.body.value, RequiredFields).name), disk)
    ensures req.Post? && req.isJson && req.body.Some? && FirstFailing(req.body.value, RequiredFields).Raised? ==>
      out == (ServerError, disk)
    ensures req.Post? && req.isJson && req.body.Some? && FirstFailing(req.body.value, RequiredFields).AllPresent? ==>
      && req.body.value.JObj? && "skillsRequired" in req.body.value.fields
      && (!req.body.value.fields["skillsRequired"].JArr? ==> out == (Rejected(400, ArrayMessage), disk))
    ensures Admitted(req) ==>
      var (prior, loaded) := Load(disk, writable);
      && (prior.None? || !prior.value.JArr? ==> out == (ServerError, loaded))
      && (prior.Some? && prior.value.JArr? && writable ==>
            var id := |prior.value.items| + 1;
            out == (Created(id, CreatedMessage), Written(loaded, prior.value.items + [Stamped(req.body.value.fields, id, req.createdAt)])))
      && (prior.Some? && prior.value.JArr? && !writable ==> out == (Rejected(500, SaveMessage), disk))
    ensures out.0.Created? ==> Admitted(req) && writable
    ensures req.Post? && out.0.Code() != 500 && !out.0.Created? ==> out.1 == disk
    ensures !writable ==> out.1 == disk && !out.0.Created?
  {
    match req
    case Get =>
      var (tasks, disk') := Load(disk, writable);
      if tasks.None? then (Uncaught, disk') else (Listing(tasks.value), disk')
    case Post(isJson, body, createdAt) =>
      if !isJson then (Rejected(415, JsonMessage), disk)
      // `request.get_json()` raises on a body it cannot parse
      else if body.None? then (ServerError, disk)
      else
        var data := body.value;
        match FirstFailing(data, RequiredFields)
        case MissingField(name) => (Rejected(400, MissingPrefix + name), disk)
        case Raised => (ServerError, disk)
        case AllPresent =>
          assert StatusOf(data, RequiredFields[2]) == Present;
          var skills := data.fields["skillsRequired"];
          if !skills.JArr? then (Rejected(400, ArrayMessage), disk)
          else
            var (tasks, disk') := Load(disk, writable);
            // an exception escaping `load_tasks`, or `len` or `append` on anything
            // but a list, is caught at line 108
            if tasks.None? || !tasks.value.JArr? then (ServerError, disk')
            else
              var id := |tasks.value.items| + 1;
              if writable then (Created(id, CreatedMessage), Written(disk', tasks.value.items + [Stamped(data.fields, id, createdAt)]))
              else (Rejected(500, SaveMessage), disk')
  }

  /**
   * An empty `skillsRequired` list is falsy, so it is reported as a missing
   * field (line 83) before the list check of line 87 is reached.
   */
  lemma EmptySkillsReportedMissing(fields: map<string, Json>, createdAt: string, disk: Disk, writable: bool)
    requires "taskName" in fields && Truthy(fields["taskName"])
    requires "taskDescription" in fields && Truthy(fields["taskDescription"])
    requires "skillsRequired" in fields && fields["skillsRequired"] == JArr([])
    ensures Handle(Post(true, Some(JObj(fields)), createdAt), disk, writable)
         == (Rejected(400, "Missing required field: skillsRequired"), disk)
  {
    var req := Post(true, Some(JObj(fields)), createdAt);
    SkillsFirstMissing(fields);
    var message := MissingPrefix + "skillsRequired";
    assert Handle(req, disk, writable) == (Rejected(400, message), disk);
    SkillsMessage();
  }

  /** The message of line 84 for `skillsRequired`, spelled out. */
  lemma SkillsMessage()
    ensures MissingPrefix + "skillsRequired" == "Missing required field: skillsRequired"
  {
  }

  /** With a name and description present, an empty skill list is the first field reported. */
  lemma SkillsFirstMissing(fields: map<string, Json>)
    requires "taskName" in fields && Truthy(fields["taskName"])
    requires "taskDescription" in fields && Truthy(fields["taskDescription"])
    requires "skillsRequired" in fields && fields["skillsRequired"] == JArr([])
    ensures FirstFailing(JObj(fields), RequiredFields) == MissingField("skillsRequired")
  {
    var data := JObj(fields);
    assert StatusOf(data, "taskName") == Present && StatusOf(data, "taskDescription") == Present;
    assert StatusOf(data, "skillsRequired") == Absent;
    assert RequiredFields[1..][1..] == ["skillsRequired", "startTime", "endTime"];
    assert FirstFailing(data, RequiredFields) == FirstFailing(data, RequiredFields[1..]);
    assert FirstFailing(data, RequiredFields[1..]) == FirstFailing(data, RequiredFields[1..][1..]);
  }

  /** The tasks of a list are numbered 1, 2, ... in order. */
  predicate Numbered(items: seq<Json>) {
    forall i :: 0 <= i < |items| ==>
      items[i].JObj? && "id" in items[i].fields && items[i].fields["id"] == JNum((i + 1) as real)
  }

  /**
   * A successful POST leaves a file whose tasks are still numbered 1..n when
   * they were before (or when there was no document yet): ids come only from
   * `len(tasks) + 1` at line 94.
   */
  lemma PostKeepsNumbering(req: Request, disk: Disk, writable: bool)
    requires !disk.Unreadable?
    requires !disk.Document? || (disk.doc.JArr? && Numbered(disk.doc.items))
    requires Handle(req, disk, writable).0.Created?
    ensures var after := Handle(req, disk, writable).1;
      after.Document? && after.doc.JArr? && Numbered(after.doc.items)
  {
  }

  /** After a successful POST, a GET lists the earlier tasks followed by the new one, with the returned id. */
  lemma PostThenGet(req: Request, disk: Disk, writable: bool)
    requires !disk.Unreadable?
    requires Handle(req, disk, writable).0.Created?
    ensures var (resp, after) := Handle(req, disk, writable);
      var prior := Load(disk, writable).0.value;
      && Handle(Get, after, writable).0 == Listing(JArr(prior.items + [Stamped(req.body.value.fields, resp.taskId, req.createdAt)]))
      && Handle(Get, after, writable).1 == after
      && Stamped(req.body.value.fields, resp.taskId, req.createdAt).fields["id"] == JNum(resp.taskId as real)
  {
  }

  /**
   * On a file that can be written but not read (lines 20-21 and 44-45 raise
   * IOError every time), every task is loaded from `[]`: each created task
   * gets id 1, the file stays unreadable, and a GET lists no tasks.
   */
  lemma UnreadableFileForgetsTasks(req: Request, writable: bool)
    ensures Handle(Get, Unreadable, writable) == (Listing(JArr([])), Unreadable)
    ensures Handle(req, Unreadable, writable).1 == Unreadable
    ensures Handle(req, Unreadable, writable).0.Created? ==> Handle(req, Unreadable, writable).0.taskId == 1
  {
  }

  /** The tasks file `tasks.json`; `writable` says whether the environment lets writes to it succeed. */
  class TaskFile {
    var disk: Disk
    var writable: bool

    constructor (disk: Disk, writable: bool)
      ensures this.disk == disk && this.writable == writable
    {
      this.disk := disk;
      this.writable := writable;
    }

    /** Opening the file for writing and dumping `tasks` into it. */
    method Write(tasks: seq<Json>) returns (ok: bool)
      modifies this`disk
      ensures ok == writable
      ensures disk == if ok then Written(old(disk), tasks) else old(disk)
    {
      ok := writable;
      if ok && !disk.Unreadable? {
        disk := Document(JArr(tasks));
      }
    }

    /** `ensure_tasks_file` (lines 10-36). */
    method EnsureTasksFile() returns (r: Option<bool>)
      modifies this`disk
      ensures (r, disk) == Ensure(old(disk), writable)
    {
      match disk
      case Document(_) =>
        r := Some(true);
      case Misencoded =>
        // the UnicodeDecodeError of line 21 is not among the exceptions of line 28
        r := None;
      case Garbled | Unreadable =>
        // the except branch of line 28 recreates the file
        var ok := Write([]);
        r := Some(ok);
      case _ =>
        // a missing or blank file is initialised with []; if that write
        // raises, the except branch of line 28 tries once more
        var ok := Write([]);
        if !ok {
          ok := Write([]);
        }
        r := Some(ok);
    }

    /**
     * `load_tasks` (lines 38-51). Once `ensure_tasks_file` succeeds the file
     * holds a document or is unreadable, so the blank and undecodable
     * re-reads cannot happen.
     */
    method LoadTasks() returns (tasks: Option<Json>)
      modifies this`disk
      ensures (tasks, disk) == Load(old(disk), writable)
    {
      var ok := EnsureTasksFile();
      if ok.None? {
        return None;
      }
      if !ok.value {
        return Some(JArr([]));
      }
      if !disk.Document? {
        // the re-read of lines 44-45 raises IOError, caught at line 49
        return Some(JArr([]));
      }
      tasks := Some(disk.doc);
    }

    /** `save_tasks` (lines 53-61). */
    method SaveTasks(tasks: seq<Json>) returns (ok: bool)
      modifies this`disk
      ensures ok == writable
      ensures disk == if ok then Written(old(disk), tasks) else old(disk)
    {
      ok := Write(tasks);
    }
  }

  /** `handle_tasks` (lines 67-109) against the tasks file. */
  method HandleTasks(file: TaskFile, req: Request) returns (resp: Response)
    modifies file`disk
    ensures (resp, file.disk) == Handle(req, old(file.disk), file.writable)
  {
    if req.Get? {
      var tasks := file.LoadTasks();
      if tasks.None? {
        return Uncaught;
      }
      return Listing(tasks.value);
    }
    if !req.isJson {
      return Rejected(415, JsonMessage);
    }
    if req.body.None? {
      return ServerError;
    }
    var taskData := req.body.value;
    var check := CheckRequiredFields(taskData);
    if check.MissingField? {
      return Rejected(400, MissingPrefix + check.name);
    }
    if check.Raised? {
      return ServerError;
    }
    assert StatusOf(taskData, RequiredFields[2]) == Present;
    if !taskData.fields["skillsRequired"].JArr? {
      return Rejected(400, ArrayMessage);
    }
    var tasks := file.LoadTasks();
    if tasks.None? || !tasks.value.JArr? {
      return ServerError;
    }
    var id := |tasks.value.items| + 1;
    var task := Stamped(taskData.fields, id, req.createdAt);
    var ok := file.SaveTasks(tasks.value.items + [task]);
    if !ok {
      return Rejected(500, SaveMessage);
    }
    return Created(id, CreatedMessage);
  }
}

/**
 * The in-memory task endpoint of app.py. A POST checks the `skillsRequired`
 * field of the request (a list, at most 15 entries, each a string without a
 * space), lower-cases the skills, numbers the task with the next id and
 * appends it to the module-level list `tasks`; a GET returns that list.
 */
module MemoryIntake {
  import opened Wrappers
  import opened PyJson

  /** A stored task: the request's dict, with `id`, `created_at` and the normalised skills set. */
  type Task = map<string, Json>

  const MaxSkills: nat := 15
  const ListMessage := "Skills must be a list"
  const CountMessage := "Maximum 15 skills allowed"
  const WordMessage := "Each skill must be a single word"

  /** What `handle_tasks` answers. */
  datatype Response =
    | Rejected(code: nat, message: string)   // {"status": "error", "message": ...} with that status code
    | Accepted(taskId: nat)                  // {"status": "success", "task_id": ...}
    | Listing(tasks: seq<Task>)              // {"tasks": ...}
    | Uncaught                               // an exception escapes the handler; Flask answers 500

  predicate IsUpper(c: char) { 'A' <= c <= 'Z' }

  predicate IsLowerCase(s: string) {
    forall i :: 0 <= i < |s| ==> !IsUpper(s[i])
  }

  function LowerChar(c: char): char {
    if IsUpper(c) then (c as int + 32) as char else c
  }

  /** `str.lower()`, restricted to the ASCII letters. */
  function Lower(s: string): (r: string)
    ensures |r| == |s| && IsLowerCase(r)
    ensures forall i :: 0 <= i < |s| ==>
      r[i] == s[i] || (IsUpper(s[i]) && r[i] as int == s[i] as int + 32)
    ensures ' ' in r <==> ' ' in s
    ensures IsLowerCase(s) ==> r == s
  {
    seq(|s|, i requires 0 <= i < |s| => LowerChar(s[i]))
  }

  /** A skill passes the check of line 26: a str with no space character in it. */
  predicate SingleWord(v: Json) {
    v.JStr? && ' ' !in v.s
  }

  /** `isinstance(task_data.get('skillsRequired'), list)` (line 20). */
  predicate SkillsIsList(data: map<string, Json>) {
    "skillsRequired" in data && data["skillsRequired"].JArr?
  }

  function Skills(data: map<string, Json>): seq<Json>
    requires SkillsIsList(data)
  {
    data["skillsRequired"].items
  }

  /** The shape every stored skill list has: at most 15 lower-case single words. */
  predicate Normalised(skills: seq<Json>) {
    && |skills| <= MaxSkills
    && forall i :: 0 <= i < |skills| ==> SingleWord(skills[i]) && IsLowerCase(skills[i].s)
  }

  /** The list comprehension of line 32. */
  function LowerAll(items: seq<Json>): (r: seq<Json>)
    requires forall i :: 0 <= i < |items| ==> SingleWord(items[i])
    ensures |r| == |items|
    ensures forall i :: 0 <= i < |items| ==> items[i].JStr? && r[i] == JStr(Lower(items[i].s))
  {
    seq(|items|, i requires 0 <= i < |items| && SingleWord(items[i]) => JStr(Lower(items[i].s)))
  }

  /**
   * The three checks of lines 20-27, in their order, and on success the
   * lower-cased skills of line 32. The first failing check decides the message.
   */
  function ValidateSkills(data: map<string, Json>): (r: Result<seq<Json>, string>)
    ensures r == Failure(ListMessage) <==> !SkillsIsList(data)
    ensures r == Failure(CountMessage) <==> SkillsIsList(data) && |Skills(data)| > MaxSkills
    ensures r == Failure(WordMessage) <==>
      && SkillsIsList(data) && |Skills(data)| <= MaxSkills
      && exists i :: 0 <= i < |Skills(data)| && !SingleWord(Skills(data)[i])
    ensures r.Success? <==>
      && SkillsIsList(data) && |Skills(data)| <= MaxSkills
      && forall i :: 0 <= i < |Skills(data)| ==> SingleWord(Skills(data)[i])
    ensures r.Success? ==>
      && SkillsIsList(data)
      && |r.value| == |Skills(data)|
      && forall i :: 0 <= i < |r.value| ==>
           Skills(data)[i].JStr? && r.value[i] == JStr(Lower(Skills(data)[i].s))
    ensures r.Success? ==> Normalised(r.value)
  {
    if !SkillsIsList(data) then Failure(ListMessage)
    else if |Skills(data)| > MaxSkills then Failure(CountMessage)
    else if exists i | 0 <= i < |Skills(data)| :: !SingleWord(Skills(data)[i]) then Failure(WordMessage)
    else Success(LowerAll(Skills(data)))
  }

  /** The invariant of the list: every task's id is its 1-based position, and its skills are normalised. */
  predicate WellFormed(tasks: seq<Task>) {
    forall i :: 0 <= i < |tasks| ==>
      && "id" in tasks[i] && tasks[i]["id"] == JNum((i + 1) as real)
      && "skillsRequired" in tasks[i] && tasks[i]["skillsRequired"].JArr?
      && Normalised(tasks[i]["skillsRequired"].items)
  }

  /** The POST branch (lines 17-36) on the list `tasks`: the response and the list afterwards. */
  function Accept(tasks: seq<Task>, body: Json, createdAt: string): (out: (Response, seq<Task>))
    ensures !body.JObj? ==> out == (Uncaught, tasks)
    ensures body.JObj? && ValidateSkills(body.fields).Failure? ==>
      out == (Rejected(400, ValidateSkills(body.fields).error), tasks)
    ensures out.0.Accepted? <==> body.JObj? && ValidateSkills(body.fields).Success?
    ensures out.0.Accepted? ==>
      && out.0.taskId == |tasks| + 1
      && |out.1| == |tasks| + 1 && out.1[..|tasks|] == tasks
      && var task := out.1[|tasks|];
      && "id" in task && task["id"] == JNum(out.0.taskId as real)
      && "created_at" in task && task["created_at"] == JStr(createdAt)
      && "skillsRequired" in task && task["skillsRequired"] == JArr(ValidateSkills(body.fields).value)
      && forall k :: k in body.fields && k != "id" && k != "created_at" && k != "skillsRequired" ==>
           k in task && task[k] == body.fields[k]
    ensures out.0.Accepted? ==> out.1[|tasks|].Keys == body.fields.Keys + {"id", "created_at", "skillsRequired"}
    ensures WellFormed(tasks) ==> WellFormed(out.1)
  {
    if !body.JObj? then (Uncaught, tasks)
    else match ValidateSkills(body.fields)
      case Failure(message) => (Rejected(400, message), tasks)
      case Success(skills) =>
        var id := |tasks| + 1;
        var task := body.fields["id" := JNum(id as real)]["created_at" := JStr(createdAt)]["skillsRequired" := JArr(skills)];
        (Accepted(id), tasks + [task])
  }

  /** The in-memory store of app.py: the module-level list `tasks` (line 7). */
  class TaskBoard {
    var tasks: seq<Task>

    ghost predicate Valid()
      reads this
    {
      WellFormed(tasks)
    }

    constructor ()
      ensures Valid() && tasks == []
    {
      tasks := [];
    }

    /** The POST branch of `handle_tasks` (lines 15-36). */
    method Post(body: Json, createdAt: string) returns (resp: Response)
      requires Valid()
      modifies this
      ensures Valid()
      ensures (resp, tasks) == Accept(old(tasks), body, createdAt)
    {
      if !body.JObj? {
        // `task_data.get` raises on anything but a dict
        return Uncaught;
      }
      var taskData := body.fields;
      var skills := if "skillsRequired" in taskData then taskData["skillsRequired"] else JNull;
      if !skills.JArr? {
        return Rejected(400, ListMessage);
      }
      if |skills.items| > MaxSkills {
        return Rejected(400, CountMessage);
      }
      if exists i | 0 <= i < |skills.items| :: !SingleWord(skills.items[i]) {
        return Rejected(400, WordMessage);
      }
      var id := |tasks| + 1;
      taskData := taskData["id" := JNum(id as real)];
      taskData := taskData["created_at" := JStr(createdAt)];
      taskData := taskData["skillsRequired" := JArr(LowerAll(skills.items))];
      tasks := tasks + [taskData];
      resp := Accepted(id);
    }

    /** The GET branch of `handle_tasks` (line 39): the current list, which it leaves as it is. */
    method Get() returns (resp: Response)
      ensures resp == Listing(tasks)
    {
      resp := Listing(tasks);
    }
  }
}

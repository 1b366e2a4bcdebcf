/**
 * The task entity: one to-do item, tied one-to-one to a terminal
 * multiplexer session that runs the coding assistant on it.
 */
module Tasks {
  import opened Wrappers
  import opened JsString

  /** Every session name is this prefix followed by the task id. */
  const SessionPrefix: string := "gemini-task-"
  const MaxTitleLength: nat := 200
  const MaxDetailsLength: nat := 2000

  /** The task's id and creation time come from the id generator and the clock,
      which are parameters of `NewTask`; `createdAt` is the ISO-8601 text. */
  datatype Task = Task(
    id: string,
    title: string,
    details: string,
    done: bool,
    sessionName: string,
    createdAt: string)

  /** The three reasons `validate` throws, in the order it checks them. */
  datatype ValidationError = EmptyTitle | TitleTooLong | DetailsTooLong

  /** The multiplexer session key of the task with this id. */
  function SessionName(id: string): (name: string)
    ensures |name| == |SessionPrefix| + |id|
    ensures name[..|SessionPrefix|] == SessionPrefix && name[|SessionPrefix|..] == id
  {
    SessionPrefix + id
  }

  /** Distinct ids give distinct session names. */
  lemma SessionNameInjective(id1: string, id2: string)
    ensures SessionName(id1) == SessionName(id2) ==> id1 == id2
  {
  }

  /** Title and details (already trimmed) that pass validation. */
  predicate ValidFields(title: string, details: string)
  {
    title != [] && Utf16Length(title) <= MaxTitleLength && Utf16Length(details) <= MaxDetailsLength
  }

  /** `validate`: None when it returns normally, otherwise the first failing check. */
  function Validate(title: string, details: string): (r: Option<ValidationError>)
    ensures r == None <==> ValidFields(title, details)
    ensures r == Some(EmptyTitle) <==> title == []
    ensures r == Some(TitleTooLong) <==> title != [] && Utf16Length(title) > MaxTitleLength
    ensures r == Some(DetailsTooLong) <==>
      title != [] && Utf16Length(title) <= MaxTitleLength && Utf16Length(details) > MaxDetailsLength
  {
    if title == [] then Some(EmptyTitle)
    else if Utf16Length(title) > MaxTitleLength then Some(TitleTooLong)
    else if Utf16Length(details) > MaxDetailsLength then Some(DetailsTooLong)
    else None
  }

  /** What every task built by `NewTask` satisfies. */
  ghost predicate WellFormed(t: Task)
  {
    ValidFields(t.title, t.details) && NoEdgeSpace(t.title) && NoEdgeSpace(t.details) &&
    t.sessionName == SessionName(t.id)
  }

  /** `new Task(title, details)`, with the generated id and the current time as
      parameters. */
  function NewTask(id: string, title: string, details: string, createdAt: string): (r: Result<Task, ValidationError>)
    ensures r.Ok? <==> ValidFields(Trim(title), Trim(details))
    ensures r == Err(EmptyTitle) <==> AllSpace(title)
    ensures r == Err(TitleTooLong) <==> !AllSpace(title) && Utf16Length(Trim(title)) > MaxTitleLength
    ensures r == Err(DetailsTooLong) <==>
      !AllSpace(title) && Utf16Length(Trim(title)) <= MaxTitleLength &&
      Utf16Length(Trim(details)) > MaxDetailsLength
    ensures r.Ok? ==> WellFormed(r.value) && !r.value.done
    ensures r.Ok? ==> r.value.id == id && r.value.createdAt == createdAt && r.value.sessionName == SessionName(id)
    ensures r.Ok? ==> TrimmedFrom(r.value.title, title) && TrimmedFrom(r.value.details, details)
  {
    TrimIsTrimmedFrom(title);
    TrimIsTrimmedFrom(details);
    var t := Task(id, Trim(title), Trim(details), false, SessionName(id), createdAt);
    match Validate(t.title, t.details)
    case Some(e) => Err(e)
    case None => Ok(t)
  }

  /** `buildPrompt`: the initial instruction handed to the assistant. */
  function BuildPrompt(t: Task): (p: string)
    ensures |t.title| <= |p| && p[..|t.title|] == t.title
  {
    if |t.details| > 0 then t.title + ". " + t.details else t.title
  }

  /** Recovers the details from a prompt, given the title it starts with. */
  function PromptDetails(prompt: string, title: string): string
  {
    if |prompt| <= |title| + 2 then "" else prompt[|title| + 2..]
  }

  /** The prompt is the title, followed, when there are details, by ". " and the
      details, so the details can be read back from it. */
  lemma PromptCarriesDetails(t: Task)
    ensures PromptDetails(BuildPrompt(t), t.title) == t.details
    ensures t.details == [] <==> BuildPrompt(t) == t.title
    ensures t.details != [] ==> BuildPrompt(t)[|t.title|..|t.title| + 2] == ". "
  {
    var p := BuildPrompt(t);
    if |t.details| > 0 {
      assert p[|t.title| + 2..] == t.details;
      assert p[|t.title|..|t.title| + 2] == ". ";
    }
  }

  /** Input that is already trimmed and within the limits always builds a
      task, whose prompt is the title alone or "<title>. <details>". */
  lemma TrimmedInputPrompt(id: string, title: string, details: string, createdAt: string)
    requires NoEdgeSpace(title) && NoEdgeSpace(details) && ValidFields(title, details)
    ensures NewTask(id, title, details, createdAt).Ok?
    ensures var t := NewTask(id, title, details, createdAt).value;
      t.title == title && t.details == details &&
      BuildPrompt(t) == if details == [] then title else title + ". " + details
  {
    TrimOfUnpadded(title);
    TrimOfUnpadded(details);
    var r := NewTask(id, title, details, createdAt);
    assert r == Ok(Task(id, title, details, false, SessionName(id), createdAt));
  }

  /** `toggleDone`: flips `done` and nothing else. */
  function ToggleDone(t: Task): (r: Task)
    ensures r.done == !t.done
    ensures r.id == t.id && r.title == t.title && r.details == t.details
    ensures r.sessionName == t.sessionName && r.createdAt == t.createdAt
    ensures WellFormed(t) ==> WellFormed(r)
  {
    t.(done := !t.done)
  }

  lemma ToggleDoneTwice(t: Task)
    ensures ToggleDone(ToggleDone(t)) == t
  {
  }

  /** The JSON values a persisted task record can hold. */
  datatype JsonValue = JString(str: string) | JBool(flag: bool) | JNumber(num: int) | JNull

  type JsonObject = map<string, JsonValue>

  const TaskKeys: set<string> := {"id", "title", "details", "done", "sessionName", "createdAt"}

  /** A record holding the six task properties with the kinds `toJSON` writes. */
  predicate IsTaskRecord(o: JsonObject)
  {
    TaskKeys <= o.Keys &&
    o["id"].JString? && o["title"].JString? && o["details"].JString? &&
    o["done"].JBool? && o["sessionName"].JString? && o["createdAt"].JString?
  }

  /** `toJSON`. */
  function ToJson(t: Task): (o: JsonObject)
    ensures o.Keys == TaskKeys && IsTaskRecord(o)
  {
    map[
      "id" := JString(t.id),
      "title" := JString(t.title),
      "details" := JString(t.details),
      "done" := JBool(t.done),
      "sessionName" := JString(t.sessionName),
      "createdAt" := JString(t.createdAt)]
  }

  /** `Task.fromJSON`: copies the record's properties onto a task without
      validating them. */
  function FromJson(o: JsonObject): (r: Option<Task>)
    ensures r.Some? <==> IsTaskRecord(o)
  {
    if IsTaskRecord(o) then
      Some(Task(o["id"].str, o["title"].str, o["details"].str, o["done"].flag,
                o["sessionName"].str, o["createdAt"].str))
    else None
  }

  /** Reading back what was written reproduces every field. */
  lemma FromJsonToJson(t: Task)
    ensures FromJson(ToJson(t)) == Some(t)
  {
  }

  /** Writing back what was read reproduces a record holding exactly the six
      task properties. */
  lemma ToJsonFromJson(o: JsonObject)
    requires IsTaskRecord(o) && o.Keys == TaskKeys
    ensures ToJson(FromJson(o).value) == o
  {
    var o' := ToJson(FromJson(o).value);
    forall k | k in TaskKeys ensures o'[k] == o[k] {
      if k == "id" { } else if k == "title" { } else if k == "details" { }
      else if k == "done" { } else if k == "sessionName" { } else { }
    }
  }

  /** `fromJSON` does not re-run `validate`: a stored record with an empty title
      is accepted and yields a task `NewTask` could never have built. */
  lemma FromJsonSkipsValidation(o: JsonObject)
    requires IsTaskRecord(o) && o["title"] == JString("")
    ensures FromJson(o).Some? && FromJson(o).value.title == "" && !WellFormed(FromJson(o).value)
  {
  }
}

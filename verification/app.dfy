/**
 * The session coordinator (`TodoApp`): the ordered task list, the selection
 * cursor and two per-task side tables keyed by task id, with one method per
 * key handler and one per tick of the polling timer. The multiplexer, the
 * store and the terminal widgets are outside: what they report comes in as
 * parameters, and what the coordinator asks of them goes out as results.
 */
module App {
  import opened Wrappers
  import opened Tasks

  /** What a handler asks the preview pane to do with its scroll position. */
  datatype ViewRequest = NoRequest | ScrollBy(lines: int) | ScrollToBottom

  /** The `createSession` call `addTask` issues. */
  datatype SessionRequest = SessionRequest(name: string, prompt: string, width: int, height: int, yoloMode: bool)

  /** Why a handler stopped early: `new Task` threw, or `saveTasks` rejected. */
  datatype Failure = Invalid(reason: ValidationError) | StorageFailed

  datatype AttachOutcome = NothingSelected | SessionNotFound(name: string) | Attached(name: string)

  /** What one poll tick does to the preview pane: nothing (no task selected),
      the no-session placeholder, or the captured output, scrolled to the
      bottom when `autoScroll` holds. */
  datatype Preview = Untouched | NoActiveSession | Shown(sessionName: string, output: string, autoScroll: bool)

  datatype Size = Size(width: int, height: int)

  /** The preview pane's size inside a terminal of the given size: 60% of the
      width and all but two lines of the height, each less two for the border. */
  function PreviewSize(termWidth: nat, termHeight: int): (s: Size)
    ensures 10 * (s.width + 2) <= 6 * termWidth < 10 * (s.width + 3)
    ensures s.height + 4 == termHeight
  {
    Size(6 * termWidth / 10 - 2, termHeight - 4)
  }

  /** `s` without its element at `i` (`splice(i, 1)`). */
  function RemoveAt<T>(s: seq<T>, i: nat): (r: seq<T>)
    requires i < |s|
    ensures |r| == |s| - 1
    ensures forall k :: 0 <= k < i ==> r[k] == s[k]
    ensures forall k :: i <= k < |r| ==> r[k] == s[k + 1]
  {
    s[..i] + s[i + 1..]
  }

  /** The cursor after a deletion: pulled back to the last index when it fell
      off the end, and never below 0. */
  function ClampCursor(index: int, len: nat): (r: int)
    requires 0 <= index
    ensures 0 <= r && (r < len || r == 0)
    ensures index < len ==> r == index
    ensures len <= index ==> r == if len == 0 then 0 else len - 1
  {
    if index >= len then (if len - 1 > 0 then len - 1 else 0) else index
  }

  /** No two tasks of `ts` share a multiplexer session. */
  ghost predicate DistinctSessions(ts: seq<Task>)
  {
    forall i, j :: 0 <= i < j < |ts| ==> ts[i].sessionName != ts[j].sessionName
  }

  /** No task of `ts` uses the session `name`. */
  ghost predicate SessionUnused(ts: seq<Task>, name: string)
  {
    forall k :: 0 <= k < |ts| ==> ts[k].sessionName != name
  }

  /** Appending a task whose session is new keeps the sessions distinct. */
  lemma AppendKeepsDistinct(ts: seq<Task>, t: Task)
    requires DistinctSessions(ts) && SessionUnused(ts, t.sessionName)
    ensures DistinctSessions(ts + [t])
  {
    var ts' := ts + [t];
    forall i, j | 0 <= i < j < |ts'| ensures ts'[i].sessionName != ts'[j].sessionName {
      assert ts'[i] == ts[i];
      if j < |ts| { assert ts'[j] == ts[j]; }
    }
  }

  /** Removing a task keeps the sessions distinct. */
  lemma RemoveKeepsDistinct(ts: seq<Task>, i: nat)
    requires i < |ts| && DistinctSessions(ts)
    ensures DistinctSessions(RemoveAt(ts, i))
  {
    var r := RemoveAt(ts, i);
    forall a, b | 0 <= a < b < |r| ensures r[a].sessionName != r[b].sessionName {
      var a', b' := if a < i then a else a + 1, if b < i then b else b + 1;
      assert r[a] == ts[a'] && r[b] == ts[b'];
    }
  }

  /** A missing flag reads as `undefined`, which is falsy. This holds for ids
      that are not names of `Object.prototype` properties, which are the only
      ids this model covers. */
  function FlagSet(m: map<string, bool>, id: string): bool
  {
    id in m && m[id]
  }

  class TodoApp {
    var tasks: seq<Task>
    var selectedIndex: int
    /** The last captured output per task id, to detect new content. */
    var lastOutputs: map<string, string>
    /** Per task id: the user scrolled the preview by hand. */
    var manualScroll: map<string, bool>

    /** Kept by every handler: the cursor is never negative and at most one
        past the last task. */
    ghost predicate Valid()
      reads this
    {
      0 <= selectedIndex <= |tasks|
    }

    /** The cursor names a task, or is 0 on an empty list: it lies in
        `[0, max(0, |tasks| - 1)]`. */
    ghost predicate CursorInRange()
      reads this
    {
      0 <= selectedIndex && (selectedIndex < |tasks| || selectedIndex == 0)
    }

    /** No two listed tasks share a multiplexer session. */
    ghost predicate SessionsDistinct()
      reads this
    {
      DistinctSessions(tasks)
    }

    /** `init`, given the tasks the store loaded. */
    constructor (loaded: seq<Task>)
      ensures tasks == loaded && selectedIndex == 0
      ensures lastOutputs == map[] && manualScroll == map[]
      ensures Valid() && CursorInRange()
    {
      tasks := loaded;
      selectedIndex := 0;
      lastOutputs := map[];
      manualScroll := map[];
    }

    /** `resetScroll`: clears the selected task's manual-scroll flag and asks
        for the preview to be scrolled to the bottom. */
    method ResetScroll() returns (view: ViewRequest)
      requires Valid()
      modifies this
      ensures tasks == old(tasks) && selectedIndex == old(selectedIndex) && lastOutputs == old(lastOutputs)
      ensures selectedIndex < |tasks| ==> manualScroll == old(manualScroll)[tasks[selectedIndex].id := false]
      ensures selectedIndex == |tasks| ==> manualScroll == old(manualScroll)
      ensures view == ScrollToBottom
    {
      if selectedIndex < |tasks| {
        manualScroll := manualScroll[tasks[selectedIndex].id := false];
      }
      view := ScrollToBottom;
    }

    /** `navigateUp`: one step towards the top, never past it. */
    method NavigateUp() returns (view: ViewRequest)
      requires Valid()
      modifies this
      ensures Valid() && (old(CursorInRange()) ==> CursorInRange())
      ensures tasks == old(tasks) && lastOutputs == old(lastOutputs)
      ensures old(selectedIndex) > 0 ==>
        selectedIndex == old(selectedIndex) - 1 &&
        manualScroll == old(manualScroll)[tasks[selectedIndex].id := false] &&
        view == ScrollToBottom
      ensures old(selectedIndex) == 0 ==>
        selectedIndex == 0 && manualScroll == old(manualScroll) && view == NoRequest
    {
      view := NoRequest;
      if selectedIndex > 0 {
        selectedIndex := selectedIndex - 1;
        view := ResetScroll();
      }
    }

    /** `navigateDown`: one step towards the bottom, never past the last task. */
    method NavigateDown() returns (view: ViewRequest)
      requires Valid()
      modifies this
      ensures Valid() && (old(CursorInRange()) ==> CursorInRange())
      ensures tasks == old(tasks) && lastOutputs == old(lastOutputs)
      ensures old(selectedIndex) < |tasks| - 1 ==>
        selectedIndex == old(selectedIndex) + 1 &&
        manualScroll == old(manualScroll)[tasks[selectedIndex].id := false] &&
        view == ScrollToBottom
      ensures old(selectedIndex) >= |tasks| - 1 ==>
        selectedIndex == old(selectedIndex) && manualScroll == old(manualScroll) && view == NoRequest
    {
      view := NoRequest;
      if selectedIndex < |tasks| - 1 {
        selectedIndex := selectedIndex + 1;
        view := ResetScroll();
      }
    }

    /** `addTask`. The new task's id and creation time, the terminal size, and
        what the multiplexer and the store report are parameters. The session
        is requested whether or not the multiplexer then creates it, and the
        task stays listed either way: `sessionCreated` only picks the status
        line, so the new state does not depend on it. */
    method AddTask(title: string, details: string, yoloMode: bool,
                   id: string, createdAt: string, termWidth: nat, termHeight: int,
                   sessionCreated: bool, saved: bool)
      returns (failure: Option<Failure>, request: Option<SessionRequest>)
      requires Valid()
      modifies this
      ensures Valid() && (old(CursorInRange()) ==> CursorInRange())
      ensures lastOutputs == old(lastOutputs) && manualScroll == old(manualScroll)
      ensures var created := NewTask(id, title, details, createdAt);
        created.Err? ==>
          failure == Some(Invalid(created.error)) && request == None &&
          tasks == old(tasks) && selectedIndex == old(selectedIndex)
      ensures var created := NewTask(id, title, details, createdAt);
        var size := PreviewSize(termWidth, termHeight);
        created.Ok? ==>
          tasks == old(tasks) + [created.value] &&
          request == Some(SessionRequest(SessionName(id), BuildPrompt(created.value), size.width, size.height, yoloMode)) &&
          (saved ==> failure == None && selectedIndex == |tasks| - 1) &&
          (!saved ==> failure == Some(StorageFailed) && selectedIndex == old(selectedIndex))
      ensures old(SessionsDistinct()) && SessionUnused(old(tasks), SessionName(id)) ==> SessionsDistinct()
    {
      var created := NewTask(id, title, details, createdAt);
      if created.Err? {
        failure, request := Some(Invalid(created.error)), None;
        return;
      }
      failure, request := PushTask(created.value, PreviewSize(termWidth, termHeight), yoloMode, saved);
    }

    /** The part of `addTask` after the task is built: append it, request its
        session, save, and select it once the save went through. */
    method PushTask(task: Task, size: Size, yoloMode: bool, saved: bool)
      returns (failure: Option<Failure>, request: Option<SessionRequest>)
      requires Valid()
      modifies this
      ensures Valid() && (old(CursorInRange()) ==> CursorInRange())
      ensures lastOutputs == old(lastOutputs) && manualScroll == old(manualScroll)
      ensures tasks == old(tasks) + [task]
      ensures request == Some(SessionRequest(task.sessionName, BuildPrompt(task), size.width, size.height, yoloMode))
      ensures saved ==> failure == None && selectedIndex == |tasks| - 1
      ensures !saved ==> failure == Some(StorageFailed) && selectedIndex == old(selectedIndex)
      ensures old(SessionsDistinct()) && SessionUnused(old(tasks), task.sessionName) ==> SessionsDistinct()
    {
      ghost var before := tasks;
      tasks := tasks + [task];
      if DistinctSessions(before) && SessionUnused(before, task.sessionName) {
        AppendKeepsDistinct(before, task);
      }
      request := Some(SessionRequest(task.sessionName, BuildPrompt(task), size.width, size.height, yoloMode));
      if !saved {
        failure := Some(StorageFailed);
        return;
      }
      failure := None;
      selectedIndex := |tasks| - 1;
    }

    /** `attachToTask`, as far as the coordinator's state goes: it hands the
        terminal over only when the selected task's session exists, and
        changes nothing in either case. */
    method AttachToTask(sessionExists: bool) returns (outcome: AttachOutcome)
      requires Valid()
      ensures outcome == NothingSelected <==> selectedIndex == |tasks|
      ensures selectedIndex < |tasks| ==>
        outcome == if sessionExists then Attached(tasks[selectedIndex].sessionName)
                   else SessionNotFound(tasks[selectedIndex].sessionName)
    {
      if selectedIndex == |tasks| {
        return NothingSelected;
      }
      var name := tasks[selectedIndex].sessionName;
      outcome := if sessionExists then Attached(name) else SessionNotFound(name);
    }

    /** `toggleDone` on the selected task. A failed save comes after the flip
        and changes nothing here. */
    method ToggleDone()
      requires Valid()
      modifies this
      ensures Valid() && (old(CursorInRange()) ==> CursorInRange())
      ensures old(SessionsDistinct()) ==> SessionsDistinct()
      ensures selectedIndex == old(selectedIndex)
      ensures lastOutputs == old(lastOutputs) && manualScroll == old(manualScroll)
      ensures old(selectedIndex) < |old(tasks)| ==>
        tasks == old(tasks)[old(selectedIndex) := Tasks.ToggleDone(old(tasks)[old(selectedIndex)])]
      ensures old(selectedIndex) == |old(tasks)| ==> tasks == old(tasks)
    {
      if selectedIndex < |tasks| {
        tasks := tasks[selectedIndex := Tasks.ToggleDone(tasks[selectedIndex])];
      }
    }

    /** `deleteTask`: kills the selected task's session (which never fails),
        removes the task and clamps the cursor, unless the save rejects first. */
    method DeleteTask(saved: bool) returns (killed: Option<string>, failure: Option<Failure>)
      requires Valid()
      modifies this
      ensures Valid()
      ensures old(SessionsDistinct()) ==> SessionsDistinct()
      ensures lastOutputs == old(lastOutputs) && manualScroll == old(manualScroll)
      ensures old(selectedIndex) == |old(tasks)| ==>
        killed == None && failure == None && tasks == old(tasks) && selectedIndex == old(selectedIndex)
      ensures old(selectedIndex) < |old(tasks)| ==>
        killed == Some(old(tasks)[old(selectedIndex)].sessionName) &&
        tasks == RemoveAt(old(tasks), old(selectedIndex)) &&
        (saved ==> failure == None && selectedIndex == ClampCursor(old(selectedIndex), |tasks|)) &&
        (!saved ==> failure == Some(StorageFailed) && selectedIndex == old(selectedIndex))
      ensures saved && (old(CursorInRange()) || old(selectedIndex) < |old(tasks)|) ==> CursorInRange()
    {
      if selectedIndex == |tasks| {
        killed, failure := None, None;
        return;
      }
      killed := Some(tasks[selectedIndex].sessionName);
      ghost var before := tasks;
      tasks := RemoveAt(tasks, selectedIndex);
      if DistinctSessions(before) {
        RemoveKeepsDistinct(before, selectedIndex);
      }
      if !saved {
        failure := Some(StorageFailed);
        return;
      }
      failure := None;
      selectedIndex := ClampCursor(selectedIndex, |tasks|);
    }

    /** The `[` key: scroll the preview up one line and mark it scrolled by
        hand, whether or not the view could move. */
    method ScrollUp() returns (view: ViewRequest)
      requires Valid()
      modifies this
      ensures tasks == old(tasks) && selectedIndex == old(selectedIndex) && lastOutputs == old(lastOutputs)
      ensures selectedIndex < |tasks| ==>
        manualScroll == old(manualScroll)[tasks[selectedIndex].id := true] && view == ScrollBy(-1)
      ensures selectedIndex == |tasks| ==> manualScroll == old(manualScroll) && view == NoRequest
    {
      view := NoRequest;
      if selectedIndex < |tasks| {
        view := ScrollBy(-1);
        manualScroll := manualScroll[tasks[selectedIndex].id := true];
      }
    }

    /** The `]` key: as `[`, one line down. */
    method ScrollDown() returns (view: ViewRequest)
      requires Valid()
      modifies this
      ensures tasks == old(tasks) && selectedIndex == old(selectedIndex) && lastOutputs == old(lastOutputs)
      ensures selectedIndex < |tasks| ==>
        manualScroll == old(manualScroll)[tasks[selectedIndex].id := true] && view == ScrollBy(1)
      ensures selectedIndex == |tasks| ==> manualScroll == old(manualScroll) && view == NoRequest
    {
      view := NoRequest;
      if selectedIndex < |tasks| {
        view := ScrollBy(1);
        manualScroll := manualScroll[tasks[selectedIndex].id := true];
      }
    }

    /** The `g` key: allow auto-scroll again and jump to the bottom. */
    method JumpToLatest() returns (view: ViewRequest)
      requires Valid()
      modifies this
      ensures tasks == old(tasks) && selectedIndex == old(selectedIndex) && lastOutputs == old(lastOutputs)
      ensures selectedIndex < |tasks| ==>
        manualScroll == old(manualScroll)[tasks[selectedIndex].id := false] && view == ScrollToBottom
      ensures selectedIndex == |tasks| ==> manualScroll == old(manualScroll) && view == NoRequest
    {
      view := NoRequest;
      if selectedIndex < |tasks| {
        manualScroll := manualScroll[tasks[selectedIndex].id := false];
        view := ScrollToBottom;
      }
    }

    /** One tick of the update loop. `output` is what capturing the selected
        task's session returned; empty means there is no session. Whether to
        auto-scroll is decided from the flag as it was before the tick; new
        output is then remembered and clears the flag. */
    method PollTick(output: string) returns (preview: Preview)
      requires Valid()
      modifies this
      ensures tasks == old(tasks) && selectedIndex == old(selectedIndex)
      ensures selectedIndex == |tasks| ==>
        preview == Untouched && lastOutputs == old(lastOutputs) && manualScroll == old(manualScroll)
      ensures selectedIndex < |tasks| && output == "" ==>
        preview == NoActiveSession && lastOutputs == old(lastOutputs) && manualScroll == old(manualScroll)
      ensures selectedIndex < |tasks| && output != "" ==>
        var t := tasks[selectedIndex];
        preview == Shown(t.sessionName, output, !FlagSet(old(manualScroll), t.id)) &&
        if t.id in old(lastOutputs) && old(lastOutputs)[t.id] == output then
          lastOutputs == old(lastOutputs) && manualScroll == old(manualScroll)
        else
          lastOutputs == old(lastOutputs)[t.id := output] && manualScroll == old(manualScroll)[t.id := false]
    {
      if selectedIndex == |tasks| {
        return Untouched;
      }
      var task := tasks[selectedIndex];
      if output == "" {
        return NoActiveSession;
      }
      var hasNewContent := !(task.id in lastOutputs && lastOutputs[task.id] == output);
      preview := Shown(task.sessionName, output, !FlagSet(manualScroll, task.id));
      if hasNewContent {
        lastOutputs := lastOutputs[task.id := output];
        manualScroll := manualScroll[task.id := false];
      }
    }
  }
}

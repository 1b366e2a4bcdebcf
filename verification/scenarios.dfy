/**
 * Runs of several coordinator handlers in a row, each proved from the
 * handlers' contracts alone: the scroll-override rules across poll ticks,
 * the cursor across deletions, and adding a task.
 */
module Scenarios {
  import opened Wrappers
  import opened JsString
  import opened Tasks
  import opened App

  /** A manual scroll survives a tick whose output did not change: that tick
      does not auto-scroll and the override stays set. */
  method ScrollThenSameOutput(t: Task, output: string) returns (autoScroll: bool, overrideSet: bool)
    requires output != ""
    ensures !autoScroll && overrideSet
  {
    var app := new TodoApp([t]);
    var preview := app.PollTick(output);
    var view := app.ScrollUp();
    preview := app.PollTick(output);
    autoScroll := preview.autoScroll;
    overrideSet := FlagSet(app.manualScroll, t.id);
  }

  /** After a manual scroll, new output clears the override but the tick that
      brings it does not scroll to the bottom, since that is decided from the
      flag as it was; the next tick does. */
  method ScrollThenNewOutput(t: Task, first: string, second: string)
    returns (autoScrollOnArrival: bool, overrideSet: bool, autoScrollNext: bool)
    requires first != "" && second != "" && first != second
    ensures !autoScrollOnArrival && !overrideSet && autoScrollNext
  {
    var app := new TodoApp([t]);
    var preview := app.PollTick(first);
    var view := app.ScrollDown();
    preview := app.PollTick(second);
    autoScrollOnArrival := preview.autoScroll;
    overrideSet := FlagSet(app.manualScroll, t.id);
    preview := app.PollTick(second);
    autoScrollNext := preview.autoScroll;
  }

  /** Moving away and back re-anchors a task's preview, while the output
      remembered for it is kept. */
  method LeaveAndReturn(a: Task, b: Task, output: string)
    returns (overrideSet: bool, remembered: Option<string>)
    requires output != ""
    ensures !overrideSet && remembered == Some(output)
  {
    var app := new TodoApp([a, b]);
    var preview := app.PollTick(output);
    var view := app.ScrollUp();
    view := app.NavigateDown();
    view := app.NavigateUp();
    overrideSet := FlagSet(app.manualScroll, a.id);
    remembered := if a.id in app.lastOutputs then Some(app.lastOutputs[a.id]) else None;
  }

  /** Deleting from the end of three tasks: the cursor follows the new last
      task down to 0, and deleting from the empty list changes nothing. */
  method DeleteFromTheEnd(a: Task, b: Task, c: Task)
    returns (cursors: seq<int>, remaining: nat, lastKilled: Option<string>)
    ensures cursors == [1, 0, 0, 0] && remaining == 0 && lastKilled == None
  {
    var app := new TodoApp([a, b, c]);
    var view := app.NavigateDown();
    view := app.NavigateDown();
    var killed, failure := app.DeleteTask(true);
    cursors := [app.selectedIndex];
    killed, failure := app.DeleteTask(true);
    cursors := cursors + [app.selectedIndex];
    killed, failure := app.DeleteTask(true);
    cursors := cursors + [app.selectedIndex];
    killed, failure := app.DeleteTask(true);
    cursors := cursors + [app.selectedIndex];
    remaining := |app.tasks|;
    lastKilled := killed;
  }

  /** Toggling the selected task twice gives back the list it started with. */
  method ToggleTwice(loaded: seq<Task>) returns (tasks: seq<Task>)
    ensures tasks == loaded
  {
    var app := new TodoApp(loaded);
    app.ToggleDone();
    app.ToggleDone();
    if |loaded| > 0 {
      ToggleDoneTwice(loaded[0]);
    }
    tasks := app.tasks;
  }

  /** Adding a title and details that are already trimmed and within the
      limits to a loaded list appends the task, requests its session with the
      prompt "<title>. <details>", and selects it. */
  method AddTrimmedTask(loaded: seq<Task>, title: string, details: string,
                        id: string, createdAt: string, termWidth: nat, termHeight: int)
    returns (prompt: Option<string>, sessionName: Option<string>, selected: int, count: nat)
    requires NoEdgeSpace(title) && NoEdgeSpace(details) && ValidFields(title, details) && details != []
    ensures prompt == Some(title + ". " + details) && sessionName == Some(SessionPrefix + id)
    ensures selected == |loaded| && count == |loaded| + 1
  {
    TrimmedInputPrompt(id, title, details, createdAt);
    var app := new TodoApp(loaded);
    var failure, request := app.AddTask(title, details, false, id, createdAt, termWidth, termHeight, true, true);
    prompt := if request.Some? then Some(request.value.prompt) else None;
    sessionName := if request.Some? then Some(request.value.name) else None;
    selected := app.selectedIndex;
    count := |app.tasks|;
  }
}

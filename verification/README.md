# todo-cli core, modelled in Dafny

todo-cli is a terminal to-do list in which every task owns a terminal
multiplexer (tmux) session running a coding assistant on it. This project
models its two pieces of logic:

- **The task entity** (`src/models/task.js`), in `tasks.dfy`. The model has:
  - the task record;
  - its constructor, which trims the title and details and then validates them;
  - the session name derived from the id;
  - the prompt builder, the `done` toggle, and the JSON pair that persistence uses.

  JavaScript's `String.prototype.trim` and the UTF-16 `length` the limits are
  measured in are modelled exactly, in `jsstring.dfy`, for strings without
  unpaired surrogates, which Dafny's `char` cannot hold.
- **The session coordinator** (`TodoApp` in `src/app.js`), in `app.dfy`. It is a
  class whose state is:
  - the ordered task list;
  - the `selectedIndex` cursor;
  - the two tables keyed by task id: `lastOutputs` (the last captured output) and
    `manualScroll` (the user scrolled the preview by hand).

  Each key handler, and each tick of the one-second polling timer, is one method
  and one atomic step. The collaborators the coordinator calls are parameters:
  - does the session exist;
  - the captured output, where empty means no session;
  - did session creation succeed;
  - did the save go through.

  What the coordinator asks of the collaborators comes back as results: the
  session to create, the session to kill, what the preview pane should show, and
  how it should scroll.

`scenarios.dfy` chains handlers and proves, from their contracts alone, how the
scroll override behaves across poll ticks, where the cursor goes across
deletions, and what adding a task produces. `wrappers.dfy` holds `Option` and
`Result`.

Points where the code does something one might not expect, all modelled as
the code does them:

- Session names are `"gemini-task-" + id` (`src/models/task.js:9`).
- On the tick where new output arrives after a manual scroll, the preview does
  not scroll to the bottom. Whether to scroll is decided from the flag as it was
  before the tick (`src/app.js:231`), and only then is the flag cleared
  (`src/app.js:244`). The bottom is shown from the next tick on; see
  `Scenarios.ScrollThenNewOutput`.
- Neither a failed save nor a validation error is caught. `addTask`,
  `deleteTask` and `toggleDone` end at the rejected `saveTasks` call, after the
  list has already changed, and `addTask` ends at the throw from `new Task`
  before changing anything. Nothing catches the rejection: the async callbacks
  that run these handlers catch nothing (`src/app.js:35-37`,
  `src/app.js:56-62`), and whatever calls those callbacks drops the promise
  they return. On Node.js 15 and later an
  unhandled rejection ends the process with the error printed; older versions
  print a warning and carry on. The `Invalid` and `StorageFailed` results, and
  the state the handler leaves behind, are therefore the state at the moment
  the program stops. After a rejected save, `addTask` has not moved the
  selection and `deleteTask` has not clamped the cursor, so the cursor can rest
  one past the last task. `TodoApp.Valid` allows that, and
  `TodoApp.CursorInRange` is the stronger invariant that holds whenever saves
  succeed. The model lets later handlers run from such a state, which covers
  both the older runtimes and the current ones: on a current runtime no later
  handler runs at all.
- While a task's manual-scroll flag is clear, every tick with output asks for
  the preview to be scrolled to the bottom, whether or not the output changed.
  The comment at `src/app.js:230` speaks of new content as a condition too, but
  the test at `src/app.js:231` reads only the flag. `App.TodoApp.PollTick`
  follows the code.
- `lastOutputs` is never cleared when the selection changes. Only the newly
  selected task's `manualScroll` entry is reset (`src/app.js:141-144`).

## Model

| member | source | states |
|---|---|---|
| JsString.TrimStart | src/models/task.js:6-7 | the result is a suffix of the input, everything cut is white space, and the result does not start with white space |
| JsString.TrimEnd | src/models/task.js:6-7 | the result is a prefix of the input, everything cut is white space, and the result does not end with white space |
| JsString.Trim | src/models/task.js:6-7 | the result is no longer than the input and has no white space at either end; it is empty exactly when the input is all white space |
| JsString.TrimIsTrimmedFrom | src/models/task.js:6-7 | `Trim(s)` is a slice of `s` obtained by cutting only white space from each end, leaving no white space at either edge |
| JsString.TrimOfPadded | src/models/task.js:6-7 | white space + a part with no white space at its edges + white space trims to that part |
| JsString.TrimOfUnpadded | src/models/task.js:6-7 | a string with no white space at its edges is left unchanged by trimming |
| JsString.TrimUnique | src/models/task.js:6-7 | whatever satisfies the reference meaning of trimming for `s` is exactly `Trim(s)` |
| JsString.TrimIdempotent | src/models/task.js:6-7 | trimming twice is trimming once |
| JsString.Utf16Length | src/models/task.js:19-22 | the JavaScript length is between the number of code points and twice that number |
| JsString.Utf16LengthOfConcat | src/models/task.js:19-22 | the JavaScript length of a concatenation is the sum of the lengths, and a single code point counts 2 when above U+FFFF and 1 otherwise |
| JsString.Utf16LengthOfBmp | src/models/task.js:19-22 | the JavaScript length equals the number of code points iff every code point is in the Basic Multilingual Plane |
| Tasks.SessionName | src/models/task.js:9 | the session name is the prefix `gemini-task-` followed by the id, and nothing else |
| Tasks.SessionNameInjective | src/models/task.js:9 | distinct ids give distinct session names |
| Tasks.Validate | src/models/task.js:15-25 | validation passes iff the title is non-empty, at most 200 long, and the details at most 2000 long; each error is reported exactly when its own check is the first that fails, in the order empty title, title too long, details too long |
| Tasks.NewTask | src/models/task.js:4-13 | construction succeeds iff the trimmed fields pass validation; it fails with the empty-title error iff the title is all white space, and with each length error iff that check is the first to fail on the trimmed fields; a built task is well formed and not done, keeps the given id and time, has session `SessionName(id)`, and its title and details are the trims of the inputs |
| Tasks.BuildPrompt | src/models/task.js:27-31 | the prompt starts with the title |
| Tasks.PromptCarriesDetails | src/models/task.js:27-31 | with details, the two characters after the title are `. ` and the details follow them, so they can be read back from the prompt; the prompt is the title alone iff there are no details |
| Tasks.TrimmedInputPrompt | src/models/task.js:4-31 | input that is already trimmed and within the limits always builds a task that keeps it verbatim, and the prompt is the title when there are no details, otherwise `title + ". " + details` |
| Tasks.ToggleDone | src/models/task.js:33-35 | `done` is negated, every other field is kept, and a well-formed task stays well formed |
| Tasks.ToggleDoneTwice | src/models/task.js:33-35 | toggling twice gives back the task |
| Tasks.ToJson | src/models/task.js:37-46 | the record holds exactly the six task properties, each of the kind a task record has |
| Tasks.FromJson | src/models/task.js:48-52 | a task is read iff the record holds the six properties with the right kinds |
| Tasks.FromJsonToJson | src/models/task.js:37-52 | reading back a written task reproduces all six fields |
| Tasks.ToJsonFromJson | src/models/task.js:37-52 | writing back a record that was read, and that holds exactly the six properties, reproduces the record |
| Tasks.FromJsonSkipsValidation | src/models/task.js:48-52 | a stored record with an empty title is accepted, and gives a task that construction could never build |
| App.PreviewSize | src/app.js:104-107 | the width is the floor of 60% of the terminal width, less 2; the height is the terminal height less 4 |
| App.RemoveAt | src/app.js:187 | `splice(i, 1)`: one element shorter, the elements before `i` kept in place, and those after it shifted down by one |
| App.ClampCursor | src/app.js:190-192 | a cursor still inside the list is kept; one past the end moves to the last index, or to 0 on an empty list; the result always names a task or is 0 |
| App.AppendKeepsDistinct | src/app.js:97 | appending a task whose session is not in use keeps the sessions of the list distinct |
| App.RemoveKeepsDistinct | src/app.js:187 | removing a task keeps the sessions of the list distinct |
| App.TodoApp.constructor | src/app.js:8-25 | the list is the loaded one, the cursor is 0, the tables are empty, and the cursor invariants hold |
| App.TodoApp.ResetScroll | src/app.js:138-151 | clears the selected task's manual-scroll flag, touches no other entry, and requests a scroll to the bottom |
| App.TodoApp.NavigateUp | src/app.js:122-128 | moves the cursor up by one iff it is above 0, resetting the newly selected task's flag and nothing else; otherwise nothing changes; the cursor stays in range |
| App.TodoApp.NavigateDown | src/app.js:130-136 | moves the cursor down by one iff it is before the last task, resetting the newly selected task's flag and nothing else; otherwise nothing changes; the cursor stays in range |
| App.TodoApp.AddTask | src/app.js:95-120 | when `new Task` throws, nothing changes and the model returns the reason as `Invalid(reason)`; valid input appends exactly the built task after the earlier ones and requests its session with its prompt and the preview size; the new task is selected once the save goes through, whether or not the session was created; distinct sessions stay distinct when the new id is unused |
| App.TodoApp.PushTask | src/app.js:97-118 | appends the task, requests its session, and selects it iff the save went through |
| App.TodoApp.AttachToTask | src/app.js:153-161 | with no task selected nothing happens; otherwise the selected task's session is attached iff it exists, and reported as not found iff it does not |
| App.TodoApp.ToggleDone | src/app.js:173-180 | flips `done` on the selected task only; every other task and the cursor are unchanged; on an empty selection nothing changes |
| App.TodoApp.DeleteTask | src/app.js:182-195 | with no task selected nothing happens; otherwise kills the selected task's session and removes exactly that task, keeping the others in order; the cursor is then clamped once the save goes through, and stays in range |
| App.TodoApp.ScrollUp | src/app.js:66-73 | with a task selected, scrolls up one line and sets that task's manual-scroll flag, touching no other entry; otherwise nothing changes |
| App.TodoApp.ScrollDown | src/app.js:75-82 | with a task selected, scrolls down one line and sets that task's manual-scroll flag, touching no other entry; otherwise nothing changes |
| App.TodoApp.JumpToLatest | src/app.js:85-92 | with a task selected, clears that task's manual-scroll flag and requests a scroll to the bottom; otherwise nothing changes |
| App.TodoApp.PollTick | src/app.js:215-252 | with no task selected, nothing happens; with empty output, the placeholder is shown and neither table changes; otherwise the output is shown, it is scrolled to the bottom iff the flag was clear before the tick, and new output is recorded and clears the flag, touching only the selected task's entries |
| Scenarios.ScrollThenSameOutput | src/app.js:215-252 | after a manual scroll, a tick with unchanged output does not scroll, and the override stays set |
| Scenarios.ScrollThenNewOutput | src/app.js:215-252 | after a manual scroll, the tick that brings new output does not scroll but clears the override, and the next tick scrolls to the bottom |
| Scenarios.LeaveAndReturn | src/app.js:122-151 | moving away and back clears the task's override and keeps its remembered output |
| Scenarios.DeleteFromTheEnd | src/app.js:182-195 | deleting the last of three tasks three times moves the cursor 1, 0, 0, and a fourth delete on the empty list kills nothing |
| Scenarios.ToggleTwice | src/app.js:173-180 | toggling the selected task twice gives back the loaded list |
| Scenarios.AddTrimmedTask | src/app.js:95-120 | adding trimmed, valid input with details requests the session `gemini-task-<id>` with prompt `title + ". " + details`, and selects the new, last task |

## Left out

- Process I/O is not modelled: the tmux calls, the lowdb store and the terminal widgets. Their answers are method parameters, and their requests are method results.
- Concurrency is not modelled. Each handler and each timer tick is one atomic step, and interleavings at `await` points are not represented.
- `setupKeyBindings`, `updateUI`, `showStatus`, `cleanup` (the `q` key: save and exit) and the text of status messages are presentation, process control or I/O.
- `App.TodoApp` keeps `lastOutputs` and `manualScroll` as maps, where the source uses plain JavaScript objects (`src/app.js:12-13`). The two agree only for ids that are not names of `Object.prototype` properties. For an id such as `constructor` or `toString`, the source reads an inherited, truthy function before any write. For `__proto__`, the source's writes store nothing at all. The model covers only ids that are not such names, which `nanoid` ids never are, since they use only `A-Za-z0-9_-` and are 21 characters long. Such an id could only come from a hand-edited store.
- `scrollPositions` (`src/app.js:11`) is declared but never read, so it has no counterpart.
- `App.TodoApp.AttachToTask` models only the existence check. After a successful attach, the source rebuilds the UI and starts a second polling interval without stopping the first; that is not modelled.
- `App.PreviewSize`: `Math.floor(termWidth * 0.6)` is modelled as `(6 * termWidth) / 10` on integers. For any realistic terminal width the floating-point product is off by far less than what would change the floor, but float semantics as such are not modelled.
- `Tasks.FromJson`: a record that lacks one of the six properties, or holds one of the wrong kind, gives `None`. The source would build an object whose missing properties are `undefined`. Extra properties, which the source would copy onto the object, are dropped.
- `Tasks.ToggleDone` returns a new value where the source mutates the object. The coordinator replaces the list element, and no other reference to a task exists in the modelled state, so the aliasing is not observable.
- `Tasks.NewTask` takes the `nanoid` id and the ISO time from `new Date()` as parameters. Distinct ids are a hypothesis of `App.TodoApp.AddTask`'s distinct-sessions clause, not a fact proved about the generator.
- `Tasks.NewTask` does not model `yoloMode`, which `addTask` passes to the Task constructor as a third argument and the constructor ignores. It also does not model non-string arguments, on which `trim` would throw.
- `App.TodoApp.AddTask` and `App.TodoApp.DeleteTask` model a rejected save only as the `saved == false` outcome, returned as `StorageFailed`. `App.TodoApp.ToggleDone` takes no such outcome, since its save comes after its only change. What becomes of the unhandled rejection a failed save causes is not modelled: on Node.js 15 and later it ends the process, while the model lets later handlers run from the state left behind.
- `App.TodoApp.AddTask` returns the error `new Task` throws as `Invalid(reason)`. In the source that throw is not caught: the add-task dialog calls `addTask` without awaiting it or catching its rejection (`src/app.js:35-37`), so it becomes an unhandled rejection, which on Node.js 15 and later ends the process with the error printed. The model does not capture the process ending; it lets later handlers run from the unchanged state.

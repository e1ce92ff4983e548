# Terminal task list — Dafny model

A model of the task store of a small command-line to-do tool (`list.js`). The tool keeps an
ordered list of tasks `{task, done, date}` in memory, loads it from `todos.json` at start-up,
and offers four commands: `add <task>` appends a not-done task stamped with today's date,
`view` lists the tasks, `done <n>` marks the n-th task (1-based) done and prints the
done-annotated listing, and `clear` empties the list. Every command that changes the list
writes the whole list back to the file.

The model is functional: the list is an immutable `seq<Task>`, the storage file is a `Disk`
value (`Missing`, `Unreadable`, or `Holds(tasks)`), and each command is a pure function from a
`Store(memory, disk)` to an `Outcome` that carries the new store, whether it saved, and the
lines it printed — or the fatal error that stopped it.

Modules:

- `Wrappers` — `Option` and `Result`.
- `Decimal` — decimal text of integers as a JavaScript template literal renders them (for
  magnitudes below 10^21), with the parser that inverts it.
- `Dates` — the `day/month/year` creation date and its parser.
- `Tasks` — the task record and the two list edits (append, mark done).
- `Render` — the plain listing and the done listing.
- `TaskStore` — load, save, the command bodies, and one invocation of the program.
- `Scenarios` — runs over consecutive invocations, each starting from the file the previous
  one left.

Behaviour of `list.js` the model keeps as written:

- `loadTodos` uses the in-memory list when it is non-empty and reads the file only otherwise.
  `Load` models that branch. `main` loads before running any command, so `Run` starts every
  invocation from an empty memory and the branch is never taken within one invocation.
- The empty-list notice reads `No tasks to show 🥳`. The non-numeric-argument message reads
  `Provide a valid task index 🖕🏻` and the clear confirmation reads `All tasks cleared 🧹`.
- `add` accepts any description, the empty one included.
- After a successful mark-done the program prints `Task <n> marked as done` and then the done
  listing.
- The "(Completed on: …)" annotation shows the task's only date, which is its creation date.

## Model

| member | source | states |
|---|---|---|
| Decimal.NatToString | list.js:9 | a date component is written in base ten with no leading zeros (canonical digit text) and reads back as the same number |
| Decimal.CanonicalRoundTrip | list.js:9 | conversely, every canonical digit string is the rendering of the number it denotes, so rendering is a bijection onto canonical text |
| Decimal.IntRoundTrip | list.js:9 | the year, negative ones included, is rendered so that it reads back as the same integer |
| Dates.FormatDate | list.js:7-10 | the date text is the day, "/", the month index plus one, "/", and the year, each in unpadded decimal: its '/'-separated fields are exactly those three, and it parses back to the clock readings it came from |
| Dates.DateFields | list.js:9 | the date text has exactly three '/'-separated fields: day, month index plus one, and year, each unpadded; for a month index in 0..11 the month field is in 1..12 |
| Dates.DateRoundTrip | list.js:9 | parsing the date text gives back the day, month index and year it was built from |
| Dates.FormatDateInjective | list.js:9 | two clock readings give the same date text exactly when they are equal |
| Tasks.Append | list.js:36 | the pushed list is one longer, keeps every earlier task at its position, and ends with a not-done task with the given description and date |
| Tasks.MarkDone | list.js:66 | for an in-range index, the task there becomes done with its description and date kept, and every other task and the length are unchanged |
| Tasks.MarkDoneCount | list.js:66 | marking a task done raises the number of done tasks by one exactly when that task was not done yet |
| Tasks.AppendCount | list.js:36 | adding a task does not change the number of done tasks |
| Tasks.MarkDoneIdempotent | list.js:66 | marking the same task done twice equals marking it once |
| Tasks.MarkDoneCommutes | list.js:66 | marking two tasks done gives the same list in either order |
| Tasks.AppendNeverUndoes | list.js:36 | appending a task takes no task from done back to not done |
| Tasks.MarkDoneNeverUndoes | list.js:66 | marking a task done takes no task from done back to not done |
| Render.Glyph | list.js:47 | the status glyph is the check mark exactly when the task is done and the cross exactly when it is not |
| Render.LineShape | list.js:46-61 | a printed line is k+1, ". ", the description, " " and the glyph, followed by " " and the date in the plain view or by the completion annotation in the done view; the header ends with the glyph |
| Render.Lines | list.js:46-49 | the forEach prints one line per task, in list order, the i-th line describing the i-th task with number start+i+1 |
| Render.View | list.js:41-62 | an empty list prints only the "No tasks to show" notice; a non-empty one prints exactly one line per task, in order |
| Render.NoticeOnlyWhenEmpty | list.js:42-45 | the notice is the whole output exactly when the list is empty, and no line of a non-empty list's listing is the notice |
| Render.ViewNumbering | list.js:48 | in both listings, line k begins with the number k+1, recoverable by reading its leading digits |
| Render.PlainStatus | list.js:47-48 | in the plain listing, the line ends with " " and the task's date, and the character before that is the check mark iff the task is done |
| Render.DoneViewStatus | list.js:58-60 | in the done listing, the character ending the header is the check mark iff the task is done and the cross iff it is not |
| Render.CompletionAnnotation | list.js:59-60 | a done-listing line ends with ')' iff the task is done and has a non-empty date; then it carries " (Completed on: <date>)", otherwise nothing follows the glyph |
| Render.ViewsShareHeaders | list.js:46-60 | both listings print the same number, description and glyph for each task and differ only in what follows |
| TaskStore.Save | list.js:26-31 | a successful write leaves storage holding exactly the in-memory list; a failed write is a save error |
| TaskStore.Load | list.js:12-23 | a non-empty in-memory list is kept without reading; otherwise an absent file gives the empty list, a readable file gives its list, any other failure is a load error; loading never changes the file |
| TaskStore.Commit | list.js:26-37 | after a change in memory, a successful save prints the command's lines and leaves file and memory equal; a failed save keeps the change in memory only and, assuming a failed write leaves the old file, the file as it was |
| TaskStore.AddTask | list.js:34-39 | add appends exactly one not-done task dated today after the unchanged earlier tasks, saves, and prints "<date>: Task added: <task>"; a failed save is reported and, assuming a failed write leaves the old file, the file is untouched |
| TaskStore.ViewTasks | list.js:41-50 | view prints the plain listing and changes and saves nothing |
| TaskStore.MarkDoneAt | list.js:64-73 | for an index in range, only that task becomes done, the list is saved and "Task <n> marked as done" plus the done listing is printed; out of range (negative included) nothing changes, nothing is saved and "Invalid task index" is printed |
| TaskStore.DoneCommand | list.js:99-104 | a non-numeric argument prints "Provide a valid task index" and touches nothing; an integer argument n is exactly mark-done at index n-1, so n outside 1..length (0 and negatives included) prints "Invalid task index" and changes nothing, while n inside marks only task n-1 done, keeps its description and date and every other task, saves, and prints "Task n marked as done" followed by the done listing |
| TaskStore.ClearAll | list.js:111-113 | clear always leaves the empty list and, when the write succeeds, storage holding the empty list, even if it was empty before; assuming a failed write leaves the old file, a failed save leaves the file as it was |
| TaskStore.Run | list.js:116-117 | an invocation whose storage file cannot be read or parsed stops with a load error before any command runs, and writes nothing |
| TaskStore.RunStartsFromFile | list.js:116-117 | an invocation with an absent file runs its command on the empty list; one with a readable file runs it on the stored list |
| TaskStore.CommandInvariants | list.js:34-112 | after every command: if it saved, file and memory are equal; if it completed without saving, nothing changed; if its save failed, the file is as before (assuming a failed write leaves the old file); no task goes from done to not done |
| TaskStore.SavedOnlyByMutation | list.js:64-72 | only add, clear and an in-range done ever write the file |
| TaskStore.SaveLoadRoundTrip | list.js:12-31 | the list one invocation saves is exactly the list the next invocation loads |
| TaskStore.ClearIdempotent | list.js:111-112 | clearing twice gives the same state, output and save as clearing once, whether or not the writes succeed |
| Scenarios.BuyMilkScenario | list.js:81-114 | from no file: add "buy milk" stores one not-done task; view prints "1. buy milk ❌ <date>"; done 1 stores it done; view prints "1. buy milk ✅ <date>"; clear stores the empty list |
| Scenarios.DoneOutOfRangeScenario | list.js:99-104 | done 5 on a two-task list prints "Invalid task index" and saves nothing |
| Scenarios.DoneNonNumericScenario | list.js:99-104 | done with a non-numeric argument prints the argument error and saves nothing |

## Left out

- File I/O (`readFile`, `writeFile`): the file is the `Disk` value. A write that fails is the `writeOk = false` parameter and is assumed to leave the old file in place. `writeFile` truncates before writing, so a write failing partway can leave a partial file; that outcome is not modelled.
- JSON encoding and decoding: a readable file is `Holds(tasks)`, so save followed by load is exact by construction. A file holding valid JSON that is not a list of tasks has no `Disk` value. In `list.js` such content loads without error (list.js:16-17). What the later commands then do depends on the value: some throw a TypeError, a list of non-task values is listed with `undefined` fields, and `done` on a non-list object prints "Invalid task index"; only `clear` always succeeds (list.js:111-112). The model treats every such file as `Unreadable`, which stops every command with `LoadError`.
- The text of the two fatal errors ("Error loading tasks: …", "Error saving tasks: …") and the underlying system error message: they are the `LoadError` and `SaveError` values.
- The clock (`new Date()`): `FormatDate` takes the day, 0-based month index and year as a `CalendarDate`.
- `parseInt`: the `done` argument arrives already parsed as `Option<int>`. How `parseInt` turns text into a number is not modelled. It reads a leading-digit prefix and skips leading whitespace, so `1abc` and ` 2` give integers that may be in range and mark a task done. The model covers those runs because `arg` can be any `Option<int>`. A digit string long enough to parse as `Infinity` reaches `markDone` as a non-integer and takes the invalid-index branch; the model has no such value and covers it only through large integers, which take the same branch.
- Number rendering: `NatToString` and `IntToString` match the template literal only for magnitudes below 10^21; beyond that JavaScript switches to exponent notation, which is not modelled.
- The `commander` setup: program name, description, version, help text, and unknown commands. The dispatch is only the four-case `Execute`.
- Asynchrony and `console.log`: printed output is the returned `out` sequence. Fatal errors end the invocation with `Failed`.
- Concurrent invocations racing on the file: each `Run` is one sequential invocation.

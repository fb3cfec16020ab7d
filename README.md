# task-tracker, modelled in Dafny

`task-tracker` is a command-line to-do list. It keeps an ordered list of
tasks in `tasks.json`; each run reads the whole list, applies one command
(`add`, `update`, `delete`, `mark-in-progress`, `mark-done`, `list`),
rewrites every task's id to its 1-based position, and writes the whole
list back.

This project models that task store and proves what each command does
to it.

- `TaskList.dfy` (module `TaskList`): the `Task` record and the list as
  a sequence. It has one function per change: `AddTask`,
  `WithDescription`, `WithStatus`, `Without` and `Renumbered`. Lemmas
  relate them (adding and deleting against renumbering, renumbering
  being idempotent, marking being an overwrite).
- `InPlace.dfy` (module `InPlace`): the operations the Go code performs
  in place on the slice's backing array. These are `UpdateTask`,
  `MarkInProgress`, `MarkDone`, `DeleteTasks` (the slice shifts down
  inside its own array and the last slot keeps a stale task) and the
  renumbering loop of `LoadTasks`. Each method is proved against the
  matching function of `TaskList`.
- `Filters.dfy` (module `Filters`): the listings. `Matching` selects the
  tasks that have a given status. It is proved to be exactly the
  subsequence at the matching positions, in stored order. The loops
  behind `List`, `ListToDo`, `ListDone` and `ListInProgress` are proved
  to return that selection.
- `Storage.dfy` (module `Storage`): the part of `ReadTasks` before
  decoding. Blank stored text gives the empty list; any other text goes
  to the JSON decoder.
- `Cli.dfy` (module `Cli`): one run of `main` on a list already read in.
  This covers the id check that guards positional commands, the
  mutation, the listing, and the renumbering before the save. `Run`
  states this as a function and `Execute` performs it on an array.

Statuses are the stored strings (`"todo"`, `"in-progress"`, `"done"`),
not an enum, because the record's field is a string and a loaded file
may hold anything there. Timestamps are opaque instants (`Time`) passed
in by the caller. `AddTask` takes two of them because the Go code reads
the clock twice, once for `CreatedAt` and once for `UpdatedAt`.

In these places the model keeps behaviour of the code that one might
not expect:
- The code reads the clock twice, so the two timestamps need not be
  equal.
- Neither update nor mark touches `UpdatedAt`.

The id checks in `main` are modelled twice (see Findings).
`Cli.AdmitsAsWritten` follows the code: `update` has no range check, and
delete and the marks refuse only an id past the end. `Cli.Run` and
`Cli.Execute` apply the corrected check `Cli.Admits` instead. They end in
"Wrong index" where the code faults on an out-of-range index.

## Model

| member | source | states |
|---|---|---|
| TaskList.AddTask | main.go:66-75 | The result is one longer. The old tasks are an unchanged prefix. The new last task has the description, status "todo", the two given instants, and id equal to the old length. |
| TaskList.AddTaskBreaksDenseIds | main.go:68 | Adding to a list whose ids are 1..N leaves ids that are not dense. The new id repeats the last task's id. |
| TaskList.AddThenRenumber | main.go:55-75 | Saving after an add numbers the new task N+1 and the old tasks as renumbering alone would. |
| TaskList.WithDescription | main.go:77-79 | Only the task at position id-1 changes, and only its description. The length and every other task are unchanged. |
| TaskList.WithStatus | main.go:86-92 | Only the task at position id-1 changes, and only its status. Id, description and both timestamps (including the update time) stay the same. |
| TaskList.WithStatusOverwrites | main.go:86-92 | Marks are unguarded overwrites: a second mark replaces the first, and re-marking a task with its current status changes nothing. |
| TaskList.Without | main.go:81-84 | Deleting leaves a list one shorter. |
| TaskList.WithoutShifts | main.go:81-84 | Delete removes exactly the id-th task. Earlier tasks stay in place and later ones move down by one. As a multiset the result is the input minus that task. |
| TaskList.Renumbered | main.go:55-57 | Renumbering keeps the length, makes ids 1..N in order, and keeps every field other than the id. |
| TaskList.RenumberedFixpoint | main.go:55-57 | Renumbering leaves a list unchanged if and only if its ids are already 1..N. Renumbering twice gives the same result as renumbering once. |
| TaskList.RenumberedAppend | main.go:55-57 | Renumbering a list with one task appended gives the renumbered list plus that task with id N+1. |
| TaskList.DeleteThenRenumber | main.go:81-84 | Deleting from a list with ids 1..N and then saving: tasks before the deleted one keep their ids, and later tasks get ids one smaller. |
| InPlace.UpdateTask | main.go:77-79 | The array afterwards is WithDescription of the array before. |
| InPlace.MarkInProgress | main.go:86-88 | The array afterwards is the array before with the id-th status set to "in-progress". |
| InPlace.MarkDone | main.go:90-92 | The array afterwards is the array before with the id-th status set to "done". |
| InPlace.DeleteTasks | main.go:81-84 | The new slice length is one less, and the slice holds Without of the old array. The slot after the new end keeps its old task. |
| InPlace.Renumber | main.go:54-57 | The loop leaves `a[..n]` equal to Renumbered of its old contents and leaves the rest of the array untouched. |
| Filters.Matching | main.go:100-122 | The selection is no longer than the list, and every task in it has the requested status. |
| Filters.MatchingIsSubsequence | main.go:100-122 | The selection is exactly the tasks at the matching positions. The k-th task shown is at the k-th matching position, positions strictly increase, and a position is selected if and only if its status matches. |
| Filters.MatchingMembers | main.go:100-122 | A task is shown if and only if it is stored and has the status. |
| Filters.MatchingAppend | main.go:100-122 | Filtering a concatenation gives the concatenation of the filtered parts, so order is kept. |
| Filters.MarkedListings | main.go:86-122 | After a mark, the marked task appears in its new status's listing at its stored place. It is absent from every other status's listing, which then equals the listing of the list without it. |
| Filters.ListWithStatus | main.go:100-122 | The selection loop returns exactly Matching of the list and the status. |
| Filters.ListToDo | main.go:100-106 | `list todo` shows exactly the tasks with status "todo", in order. |
| Filters.ListDone | main.go:108-114 | `list done` shows exactly the tasks with status "done", in order. |
| Filters.ListInProgress | main.go:116-122 | `list in-progress` shows exactly the tasks with status "in-progress", in order. |
| Filters.List | main.go:94-98 | `list` shows every task in stored order. |
| Storage.TrimLeft | main.go:45 | The result is a suffix of the text. The part removed is all white space, and the result does not start with white space. |
| Storage.TrimRight | main.go:45 | The result is a prefix of the text. The part removed is all white space, and the result does not end with white space. |
| Storage.TrimSpaceEmptyIffBlank | main.go:45 | Trimming leaves nothing if and only if the text is all white space. Otherwise what is left starts and ends with a non-space character. |
| Storage.ReadTasks | main.go:45-51 | Stored text gives the empty task list if and only if it is blank. Any other text goes to the decoder whole and untrimmed. |
| Cli.AdmitsAsWritten | main.go:144-203 | The written check refuses delete and both marks exactly when the id exceeds the list length. It lets every other command through, update with any id included. |
| Cli.Admits | main.go:156-203 | The corrected check passes a command exactly when every index its mutator uses (id-1) lies in the list. It never passes what the written check refuses. |
| Cli.AsWrittenAdmitsNonPositiveId | main.go:167-203 | The check `id > len(tasks)` lets id 0 and negative ids through to delete and to both marks, although those ids name no task. |
| Cli.AsWrittenAdmitsUpdatePastEnd | main.go:144-155 | Update reaches the mutator with an id that names no task, even on an empty list. |
| Cli.AdmitsNarrowsAsWritten | main.go:156-203 | The corrected check passes a positional command if and only if 1 <= id <= N. It never passes what the written check refuses. The two checks differ exactly on ids below 1 and on update. |
| Cli.Apply | main.go:137-203 | Each command's mutation changes the length by +1 for add, -1 for delete and 0 otherwise. |
| Cli.Shown | main.go:204-219 | `list` shows every stored task in order. `list done`, `list in-progress` and `list todo` show exactly the Matching selection for that status. An unknown filter and every other command show nothing. |
| Cli.Run | main.go:137-229 | With the corrected check, a run ends in "Wrong index" if and only if a positional id names no task. Otherwise the saved list has ids 1..N, and its length changes by one exactly for add and delete. |
| Cli.ListingKeepsStore | main.go:204-229 | Listing a list whose ids are already 1..N saves it back unchanged. |
| Cli.PositionalEditsAtRest | main.go:144-203 | On a list whose ids are 1..N, update and both marks save a list that differs from the input only at the named task. |
| Cli.BuyMilkScenario | main.go:137-229 | Starting from an empty list: add "buy milk" gives one task with id 1 and status "todo". mark-done 1 marks it done, and `list done` shows it. delete 1 leaves the empty list. |
| Cli.Execute | main.go:137-229 | The in-place run, on arrays with the in-place methods and the listing loops, gives exactly the outcome Run specifies. |

## Left out

- JSON encoding and decoding (`json.Unmarshal`, `json.MarshalIndent`) are foreign library calls. The model stops at the text handed to the decoder and at the renumbered list handed to the encoder.
- File I/O is not modelled. This covers opening or creating `tasks.json`, `io.ReadAll`, `os.WriteFile`, and the exits when these fail.
- `time.Now()` is not called. The two instants are parameters of `AddTask` and `Run`.
- The printed text of `Usage`, `Help` and the listing functions is not modelled, only which tasks each listing shows and in what order.
- Command-line plumbing is not modelled: argument-count checks, `strconv.Atoi`, "Wrong task id", the help-and-return path for an unknown command, and process exit codes. A `Cli.Command` is a command that already parsed.
- Cli.Run, Cli.Execute: use the corrected id check, so a run with an id below 1, or an update with any id that names no task, ends in `WrongIndex`. The Go code instead faults at run time. That fault is only exhibited by `Cli.AsWrittenAdmitsNonPositiveId` and `Cli.AsWrittenAdmitsUpdatePastEnd`; it is not modelled as an outcome.
- Storage.ReadTasks: works on decoded characters, so the UTF-8 decoding of the stored bytes by `bytes.TrimSpace` is not modelled. An invalid byte sequence counts as non-space there.
- Ids are Go's 64-bit `int`, modelled as unbounded integers. An id typed on the command line may be any 64-bit value, and `id-1` wraps for the smallest one. Every id that reaches a mutator in the model lies in 1..len(tasks), so the only wrap-around is on an id the model refuses (the code faults on it either way).
- Go's `append` in `AddTask` may reuse the caller's backing array when capacity allows. `main` always takes the returned slice, so the model treats add as producing a new list.

## Findings

| source | as written | input that shows it | evidently intended | confidence | as-written member | corrected member |
|---|---|---|---|---|---|---|
| main.go:167 | Delete and both marks (main.go:183, main.go:199) refuse only `id > len(tasks)`. | `delete 0` or `mark-done -1` on a one-task list passes the check, then `tasks[:id-1]` or `tasks[id-1]` is out of range. | Refuse every id outside 1..len(tasks) with "Wrong index". | high; not executed | Cli.AsWrittenAdmitsNonPositiveId | Cli.Admits |
| main.go:155 | `update` calls `UpdateTask` with no range check. | `update 1 x` on an empty list indexes `tasks[0]`. | Apply the same range check as delete. | high; not executed | Cli.AsWrittenAdmitsUpdatePastEnd | Cli.Admits |

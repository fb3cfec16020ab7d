/**
 * One invocation of the tracker on a task list already read in: the
 * command chosen by its first argument, the id check that guards the
 * positional commands, the mutation, and the renumbering that precedes
 * every save. Argument counting, id parsing, help text and exit codes are
 * not part of this model; a command here is one that parsed.
 */
module Cli {
  import opened TaskList
  import Filters
  import InPlace

  datatype Command =
    | Add(text: string)
    | Update(id: int, text: string)
    | Delete(id: int)
    | MarkInProgress(id: int)
    | MarkDone(id: int)
    | List
    | ListStatus(filter: string)
  {
    /** The commands that name a task by its 1-based position. */
    predicate Positional()
    {
      Update? || Delete? || MarkInProgress? || MarkDone?
    }
  }

  /** What an invocation ends in: the list it saves together with the
    * tasks it printed, or the "Wrong index" exit, which saves nothing. */
  datatype Outcome = Saved(stored: seq<Task>, shown: seq<Task>) | WrongIndex

  // ---------------------------------------------------------------------
  // The id check

  /** The check as the tracker writes it: delete and both marks refuse
    * only an id past the end; update is not checked at all. */
  function AdmitsAsWritten(cmd: Command, n: nat): (ok: bool)
    ensures (cmd.Delete? || cmd.MarkInProgress? || cmd.MarkDone?) ==> (ok <==> cmd.id <= n)
    ensures !(cmd.Delete? || cmd.MarkInProgress? || cmd.MarkDone?) ==> ok
  {
    match cmd
    case Update(_, _) => true
    case Delete(id) => !(id > n)
    case MarkInProgress(id) => !(id > n)
    case MarkDone(id) => !(id > n)
    case _ => true
  }

  /** Zero or a negative id passes the check as written for delete and for
    * both marks, yet names no task: indexing with it faults. */
  lemma AsWrittenAdmitsNonPositiveId()
    ensures AdmitsAsWritten(Delete(0), 1) && !ValidPosition(0, 1)
    ensures AdmitsAsWritten(MarkInProgress(0), 1) && !ValidPosition(0, 1)
    ensures AdmitsAsWritten(MarkDone(-1), 1) && !ValidPosition(-1, 1)
  {
  }

  /** Update reaches the mutator with any id, even on an empty list. */
  lemma AsWrittenAdmitsUpdatePastEnd()
    ensures AdmitsAsWritten(Update(1, "x"), 0) && !ValidPosition(1, 0)
  {
  }

  /** The check the tracker evidently intends, applied to every positional
    * command alike. */
  function Admits(cmd: Command, n: nat): (ok: bool)
    ensures ok <==> (cmd.Positional() ==> 0 <= cmd.id - 1 < n)
    ensures ok ==> AdmitsAsWritten(cmd, n)
  {
    cmd.Positional() ==> ValidPosition(cmd.id, n)
  }

  /** The intended check lets a command through exactly when its id names a
    * task; it never admits what the written check refuses, and the two
    * differ exactly on ids below 1 and on update. */
  lemma AdmitsNarrowsAsWritten(cmd: Command, n: nat)
    ensures Admits(cmd, n) <==> !cmd.Positional() || 1 <= cmd.id <= n
    ensures Admits(cmd, n) ==> AdmitsAsWritten(cmd, n)
    ensures AdmitsAsWritten(cmd, n) && !Admits(cmd, n) <==>
      (cmd.Update? && !ValidPosition(cmd.id, n)) ||
      ((cmd.Delete? || cmd.MarkInProgress? || cmd.MarkDone?) && cmd.id < 1)
  {
  }

  // ---------------------------------------------------------------------
  // One invocation, as values

  /** The list after the command's mutation, before renumbering. */
  function Apply(tasks: seq<Task>, cmd: Command, created: Time, updated: Time): (r: seq<Task>)
    requires Admits(cmd, |tasks|)
    ensures |r| == |tasks| + (if cmd.Add? then 1 else if cmd.Delete? then -1 else 0)
  {
    match cmd
    case Add(text) => AddTask(tasks, text, created, updated)
    case Update(id, text) => WithDescription(tasks, id, text)
    case Delete(id) => Without(tasks, id)
    case MarkInProgress(id) => WithStatus(tasks, id, InProgress)
    case MarkDone(id) => WithStatus(tasks, id, Done)
    case _ => tasks
  }

  /** The tasks the command prints: all for `list`, the matching ones for
    * `list done`, `list in-progress` and `list todo`, none for any other
    * filter and any other command. */
  function Shown(tasks: seq<Task>, cmd: Command): (r: seq<Task>)
    ensures |r| <= |tasks|
    ensures cmd.ListStatus? ==> forall k :: 0 <= k < |r| ==> r[k].status == cmd.filter
    ensures cmd.List? ==> r == tasks
    ensures cmd.ListStatus? && (cmd.filter == Done || cmd.filter == InProgress || cmd.filter == Todo)
      ==> r == Filters.Matching(tasks, cmd.filter)
    ensures !cmd.List? && !(cmd.ListStatus? && (cmd.filter == Done || cmd.filter == InProgress || cmd.filter == Todo))
      ==> r == []
  {
    match cmd
    case List => tasks
    case ListStatus(f) =>
      if f == Done || f == InProgress || f == Todo then Filters.Matching(tasks, f) else []
    case _ => []
  }

  /** One invocation: refused with "Wrong index" when the id names no task,
    * otherwise mutated, renumbered and saved. What is saved is always at
    * rest, and its length moves by one exactly for add and delete. */
  function Run(tasks: seq<Task>, cmd: Command, created: Time, updated: Time): (r: Outcome)
    ensures r.WrongIndex? <==> cmd.Positional() && !ValidPosition(cmd.id, |tasks|)
    ensures r.Saved? ==> DenseIds(r.stored)
    ensures r.Saved? ==> |r.stored| == |tasks| + (if cmd.Add? then 1 else if cmd.Delete? then -1 else 0)
  {
    if !Admits(cmd, |tasks|) then WrongIndex
    else Saved(Renumbered(Apply(tasks, cmd, created, updated)), Shown(tasks, cmd))
  }

  /** Listing a list at rest saves it back unchanged. */
  lemma ListingKeepsStore(tasks: seq<Task>, cmd: Command, created: Time, updated: Time)
    requires DenseIds(tasks)
    requires cmd.List? || cmd.ListStatus?
    ensures Run(tasks, cmd, created, updated) == Saved(tasks, Shown(tasks, cmd))
  {
    RenumberedFixpoint(tasks);
  }

  /** Marking and updating a list at rest change exactly one field of one
    * task in what is saved. */
  lemma PositionalEditsAtRest(tasks: seq<Task>, cmd: Command, created: Time, updated: Time)
    requires DenseIds(tasks)
    requires cmd.Update? || cmd.MarkInProgress? || cmd.MarkDone?
    requires ValidPosition(cmd.id, |tasks|)
    ensures Run(tasks, cmd, created, updated).stored == Apply(tasks, cmd, created, updated)
    ensures AgreeExcept(tasks, Run(tasks, cmd, created, updated).stored, cmd.id - 1)
  {
    var r := Apply(tasks, cmd, created, updated);
    assert DenseIds(r);
    RenumberedFixpoint(r);
  }

  /** Empty list, `add "buy milk"`, `mark-done 1`, `list done`, `delete 1`:
    * one task with id 1 and status "todo", then the same task done and
    * listed as done, then the empty list again. */
  lemma BuyMilkScenario(t: Time)
    ensures Run([], Add("buy milk"), t, t) == Saved([Task(1, "buy milk", Todo, t, t)], [])
    ensures Run([Task(1, "buy milk", Todo, t, t)], MarkDone(1), t, t)
         == Saved([Task(1, "buy milk", Done, t, t)], [])
    ensures Run([Task(1, "buy milk", Done, t, t)], ListStatus(Done), t, t).shown
         == [Task(1, "buy milk", Done, t, t)]
    ensures Run([Task(1, "buy milk", Done, t, t)], Delete(1), t, t) == Saved([], [])
  {
    var milk := Task(1, "buy milk", Todo, t, t);
    AddThenRenumber([], "buy milk", t, t);
    RenumberedFixpoint([milk.(status := Done)]);
    RenumberedFixpoint([milk]);
    Filters.MatchingSingle(milk.(status := Done), Done);
  }

  // ---------------------------------------------------------------------
  // One invocation, in place

  /** The dispatch of the tracker's entry point: check the id, mutate the
    * task slice where it lies, renumber it and hand back what is saved. */
  method Execute(tasks: seq<Task>, cmd: Command, created: Time, updated: Time) returns (out: Outcome)
    ensures out == Run(tasks, cmd, created, updated)
  {
    if !Admits(cmd, |tasks|) {
      return WrongIndex;
    }
    var current := if cmd.Add? then AddTask(tasks, cmd.text, created, updated) else tasks;
    var a := new Task[|current|](k requires 0 <= k < |current| => current[k]);
    assert a[..] == current;
    var n := a.Length;
    var shown: seq<Task> := [];
    match cmd {
      case Add(_) =>
      case Update(id, text) =>
        InPlace.UpdateTask(a, id, text);
      case Delete(id) =>
        n := InPlace.DeleteTasks(a, id);
      case MarkInProgress(id) =>
        InPlace.MarkInProgress(a, id);
      case MarkDone(id) =>
        InPlace.MarkDone(a, id);
      case List =>
        shown := Filters.List(tasks);
      case ListStatus(f) =>
        if f == Done {
          shown := Filters.ListDone(tasks);
        } else if f == InProgress {
          shown := Filters.ListInProgress(tasks);
        } else if f == Todo {
          shown := Filters.ListToDo(tasks);
        }
    }
    assert a[..n] == Apply(tasks, cmd, created, updated);
    InPlace.Renumber(a, n);
    out := Saved(a[..n], shown);
  }
}

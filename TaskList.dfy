/**
 * The task record and the value-level view of the task list: the list as
 * a sequence, and what each operation of the tracker makes of it. The
 * in-place methods in module InPlace are proved against these functions.
 */
module TaskList {

  /** An instant as the caller supplies it; the model never reads a clock. */
  type Time = int

  /** One tracked task. `status` is the stored string, not an enum, so a
    * loaded file may hold any value there. */
  datatype Task = Task(
    id: int,
    description: string,
    status: string,
    createdAt: Time,
    updatedAt: Time)

  const Todo: string := "todo"
  const InProgress: string := "in-progress"
  const Done: string := "done"

  /** 1-based `id` names an existing position of a list of length `n`. */
  predicate ValidPosition(id: int, n: nat)
  {
    1 <= id <= n
  }

  /** Ids are 1..N in stored order: the state of the list at rest. */
  predicate DenseIds(s: seq<Task>)
  {
    forall k :: 0 <= k < |s| ==> s[k].id == k + 1
  }

  /** `t` and `u` agree on every field except possibly the id. */
  predicate SameExceptId(t: Task, u: Task)
  {
    t.description == u.description && t.status == u.status &&
    t.createdAt == u.createdAt && t.updatedAt == u.updatedAt
  }

  /** `s` and `r` agree at every position other than `i`. */
  predicate AgreeExcept(s: seq<Task>, r: seq<Task>, i: int)
  {
    |s| == |r| && forall k :: 0 <= k < |s| && k != i ==> r[k] == s[k]
  }

  // ---------------------------------------------------------------------
  // Add: a new task at the end, before renumbering

  /** The task list after adding `description`: the new task takes the old
    * length as its id, status "todo", and the two instants the two clock
    * readings gave. */
  function AddTask(tasks: seq<Task>, description: string, created: Time, updated: Time): (r: seq<Task>)
    ensures |r| == |tasks| + 1
    ensures r[..|tasks|] == tasks
    ensures r[|tasks|].id == |tasks| && r[|tasks|].description == description
    ensures r[|tasks|].status == Todo
    ensures r[|tasks|].createdAt == created && r[|tasks|].updatedAt == updated
  {
    tasks + [Task(|tasks|, description, Todo, created, updated)]
  }

  /** Adding to a list at rest leaves it not at rest: the new id repeats
    * the id of the last task, or is 0 on an empty list. */
  lemma AddTaskBreaksDenseIds(tasks: seq<Task>, description: string, created: Time, updated: Time)
    requires DenseIds(tasks)
    ensures !DenseIds(AddTask(tasks, description, created, updated))
    ensures |tasks| > 0 ==> AddTask(tasks, description, created, updated)[|tasks|].id == tasks[|tasks| - 1].id
  {
    var r := AddTask(tasks, description, created, updated);
    assert r[|tasks|].id != |tasks| + 1;
  }

  // ---------------------------------------------------------------------
  // Update and mark: one field of one task

  /** The list with the description of the task at 1-based `id` replaced. */
  function WithDescription(s: seq<Task>, id: int, description: string): (r: seq<Task>)
    requires ValidPosition(id, |s|)
    ensures AgreeExcept(s, r, id - 1)
    ensures r[id - 1].description == description
    ensures r[id - 1].id == s[id - 1].id && r[id - 1].status == s[id - 1].status
    ensures r[id - 1].createdAt == s[id - 1].createdAt && r[id - 1].updatedAt == s[id - 1].updatedAt
  {
    s[id - 1 := s[id - 1].(description := description)]
  }

  /** The list with the status of the task at 1-based `id` replaced. The
    * update time is left as it was, as the tracker leaves it. */
  function WithStatus(s: seq<Task>, id: int, status: string): (r: seq<Task>)
    requires ValidPosition(id, |s|)
    ensures AgreeExcept(s, r, id - 1)
    ensures r[id - 1].status == status
    ensures r[id - 1].id == s[id - 1].id && r[id - 1].description == s[id - 1].description
    ensures r[id - 1].createdAt == s[id - 1].createdAt && r[id - 1].updatedAt == s[id - 1].updatedAt
  {
    s[id - 1 := s[id - 1].(status := status)]
  }

  /** Marking is an overwrite, not a guarded transition: the second mark
    * wins whatever the first one set, and marking a task with the status
    * it has changes nothing. */
  lemma WithStatusOverwrites(s: seq<Task>, id: int, first: string, second: string)
    requires ValidPosition(id, |s|)
    ensures WithStatus(WithStatus(s, id, first), id, second) == WithStatus(s, id, second)
    ensures WithStatus(s, id, s[id - 1].status) == s
  {
    var a := WithStatus(WithStatus(s, id, first), id, second);
    var b := WithStatus(s, id, second);
    assert forall k :: 0 <= k < |s| ==> a[k] == b[k];
    var c := WithStatus(s, id, s[id - 1].status);
    assert forall k :: 0 <= k < |s| ==> c[k] == s[k];
  }

  // ---------------------------------------------------------------------
  // Delete: one task out, the rest shift down

  /** The list without the task at 1-based `id`. */
  function Without(s: seq<Task>, id: int): (r: seq<Task>)
    requires ValidPosition(id, |s|)
    ensures |r| == |s| - 1
  {
    s[..id - 1] + s[id..]
  }

  /** Delete removes exactly the `id`-th task: the tasks before it keep
    * their positions, the ones after it move down by one, and as a bag the
    * result is the input less that one task. */
  lemma WithoutShifts(s: seq<Task>, id: int)
    requires ValidPosition(id, |s|)
    ensures forall k :: 0 <= k < id - 1 ==> Without(s, id)[k] == s[k]
    ensures forall k :: id - 1 <= k < |s| - 1 ==> Without(s, id)[k] == s[k + 1]
    ensures multiset(Without(s, id)) + multiset{s[id - 1]} == multiset(s)
  {
    assert s == s[..id - 1] + [s[id - 1]] + s[id..];
  }

  // ---------------------------------------------------------------------
  // Renumbering: every id becomes the 1-based position

  /** The list with every id set to its 1-based position. */
  function Renumbered(s: seq<Task>): (r: seq<Task>)
    ensures |r| == |s|
    ensures DenseIds(r)
    ensures forall k :: 0 <= k < |s| ==> SameExceptId(r[k], s[k])
  {
    seq(|s|, k requires 0 <= k < |s| => s[k].(id := k + 1))
  }

  /** A list is left as it is by renumbering exactly when it is at rest;
    * so renumbering twice is renumbering once. */
  lemma RenumberedFixpoint(s: seq<Task>)
    ensures Renumbered(s) == s <==> DenseIds(s)
    ensures Renumbered(Renumbered(s)) == Renumbered(s)
  {
    if DenseIds(s) {
      assert forall k :: 0 <= k < |s| ==> Renumbered(s)[k] == s[k];
    }
    var r := Renumbered(s);
    assert forall k :: 0 <= k < |s| ==> Renumbered(r)[k] == r[k];
  }

  /** Renumbering only looks at the order of the tasks, so it commutes with
    * taking a prefix and appending. */
  lemma RenumberedAppend(s: seq<Task>, t: Task)
    ensures Renumbered(s + [t]) == Renumbered(s) + [t.(id := |s| + 1)]
  {
    var a := Renumbered(s + [t]);
    var b := Renumbered(s) + [t.(id := |s| + 1)];
    assert forall k :: 0 <= k < |a| ==> a[k] == b[k];
  }

  /** Adding and then saving: the new task is numbered one past the old
    * length, and the tasks already there are numbered as before. */
  lemma AddThenRenumber(tasks: seq<Task>, description: string, created: Time, updated: Time)
    ensures Renumbered(AddTask(tasks, description, created, updated))
         == Renumbered(tasks) + [Task(|tasks| + 1, description, Todo, created, updated)]
  {
    RenumberedAppend(tasks, Task(|tasks|, description, Todo, created, updated));
  }

  /** Deleting from a list at rest and saving: the tasks before the deleted
    * one keep their ids, the ones after it get ids one smaller. */
  lemma DeleteThenRenumber(s: seq<Task>, id: int)
    requires ValidPosition(id, |s|)
    requires DenseIds(s)
    ensures forall k :: 0 <= k < id - 1 ==> Renumbered(Without(s, id))[k] == s[k]
    ensures forall k :: id - 1 <= k < |s| - 1 ==>
      Renumbered(Without(s, id))[k] == s[k + 1].(id := s[k + 1].id - 1)
  {
    WithoutShifts(s, id);
  }
}

/**
 * The operations that change the task list where it lies. A Go slice of
 * tasks is modelled by its backing array `a`; where the slice is shorter
 * than the array (after a delete) its length `n` is passed alongside and
 * the slice is `a[..n]`. Each method is proved against the function of
 * module TaskList that says what the list becomes.
 */
module InPlace {
  import opened TaskList

  /** Replace the description of the task at 1-based `id`. */
  method UpdateTask(a: array<Task>, id: int, description: string)
    requires ValidPosition(id, a.Length)
    modifies a
    ensures a[..] == WithDescription(old(a[..]), id, description)
  {
    a[id - 1] := a[id - 1].(description := description);
  }

  /** Set the status of the task at 1-based `id` to "in-progress". */
  method MarkInProgress(a: array<Task>, id: int)
    requires ValidPosition(id, a.Length)
    modifies a
    ensures a[..] == WithStatus(old(a[..]), id, InProgress)
  {
    a[id - 1] := a[id - 1].(status := InProgress);
  }

  /** Set the status of the task at 1-based `id` to "done". */
  method MarkDone(a: array<Task>, id: int)
    requires ValidPosition(id, a.Length)
    modifies a
    ensures a[..] == WithStatus(old(a[..]), id, Done)
  {
    a[id - 1] := a[id - 1].(status := Done);
  }

  /** Remove the task at 1-based `id` by moving every later task down one
    * slot in the same array, as appending the tail of a slice to its own
    * head does. The returned length `n` is one less; the slot past the new
    * end keeps the task that was last. */
  method DeleteTasks(a: array<Task>, id: int) returns (n: nat)
    requires ValidPosition(id, a.Length)
    modifies a
    ensures n == a.Length - 1
    ensures a[..n] == Without(old(a[..]), id)
    ensures a[n] == old(a[n])
  {
    n := a.Length - 1;
    forall k | id - 1 <= k < n {
      a[k] := a[k + 1];
    }
    assert a[..n] == old(a[..])[..id - 1] + old(a[..])[id..];
  }

  /** Give every task of the slice `a[..n]` its 1-based position as id;
    * the array past the slice is untouched. */
  method Renumber(a: array<Task>, n: nat)
    requires n <= a.Length
    modifies a
    ensures a[..n] == Renumbered(old(a[..n]))
    ensures a[n..] == old(a[n..])
  {
    for i := 0 to n
      invariant forall k :: 0 <= k < i ==> a[k] == old(a[k]).(id := k + 1)
      invariant forall k :: i <= k < a.Length ==> a[k] == old(a[k])
    {
      a[i] := a[i].(id := i + 1);
    }
  }
}

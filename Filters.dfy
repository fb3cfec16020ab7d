/**
 * Listing. The tracker prints every task, or only the tasks with one
 * status, in stored order. The model keeps which tasks are shown and in
 * which order (the sequence `shown`), not how each one is rendered.
 */
module Filters {
  import opened TaskList

  /** The tasks of `s` whose status is `status`, in stored order. */
  function Matching(s: seq<Task>, status: string): (r: seq<Task>)
    ensures |r| <= |s|
    ensures forall k :: 0 <= k < |r| ==> r[k].status == status
  {
    if s == [] then []
    else
      var init, last := s[..|s| - 1], s[|s| - 1];
      assert s == init + [last];
      Matching(init, status) + (if last.status == status then [last] else [])
  }

  /** The positions of `s` whose task has status `status`, ascending. */
  function MatchIndices(s: seq<Task>, status: string): (r: seq<nat>)
  {
    if s == [] then []
    else
      MatchIndices(s[..|s| - 1], status) + (if s[|s| - 1].status == status then [|s| - 1] else [])
  }

  /** `Matching` is exactly the subsequence of the matching positions: the
    * k-th task shown is the task at the k-th matching position, the
    * positions strictly increase, and a position is among them exactly
    * when its task has the status. */
  lemma {:induction false} MatchingIsSubsequence(s: seq<Task>, status: string)
    ensures |MatchIndices(s, status)| == |Matching(s, status)|
    ensures forall k :: 0 <= k < |MatchIndices(s, status)| ==>
      MatchIndices(s, status)[k] < |s| && Matching(s, status)[k] == s[MatchIndices(s, status)[k]]
    ensures forall j, k :: 0 <= j < k < |MatchIndices(s, status)| ==>
      MatchIndices(s, status)[j] < MatchIndices(s, status)[k]
    ensures forall i :: 0 <= i < |s| ==> (i in MatchIndices(s, status) <==> s[i].status == status)
  {
    if s != [] {
      var n := |s| - 1;
      var init := s[..n];
      MatchingIsSubsequence(init, status);
      var i0, m0 := MatchIndices(init, status), Matching(init, status);
      var hit := s[n].status == status;
      assert MatchIndices(s, status) == i0 + (if hit then [n] else []);
      assert Matching(s, status) == m0 + (if hit then [s[n]] else []);
      forall k | 0 <= k < |i0|
        ensures i0[k] < n && m0[k] == s[i0[k]]
      {
        assert init[i0[k]] == s[i0[k]];
      }
      forall i | 0 <= i < n
        ensures i in MatchIndices(s, status) <==> s[i].status == status
      {
        assert init[i] == s[i];
      }
    }
  }

  /** A task is shown exactly when it is stored and has the status. */
  lemma MatchingMembers(s: seq<Task>, status: string)
    ensures forall t :: t in Matching(s, status) <==> t in s && t.status == status
  {
    MatchingIsSubsequence(s, status);
    var m, ix := Matching(s, status), MatchIndices(s, status);
    forall t | t in s && t.status == status
      ensures t in m
    {
      var i :| 0 <= i < |s| && s[i] == t;
      assert i in ix;
      var k :| 0 <= k < |ix| && ix[k] == i;
      assert m[k] == t;
    }
  }

  /** Filtering distributes over concatenation: it keeps the order of the
    * two parts. */
  lemma {:induction false} MatchingAppend(a: seq<Task>, b: seq<Task>, status: string)
    ensures Matching(a + b, status) == Matching(a, status) + Matching(b, status)
  {
    if b != [] {
      var init := b[..|b| - 1];
      assert (a + b)[..|a + b| - 1] == a + init;
      MatchingAppend(a, init, status);
    } else {
      assert a + b == a;
    }
  }

  /** Marking the task at `id` with `status` puts it into that status's
    * listing at its place, and takes it out of every other status's
    * listing; the rest of every listing is as before. */
  lemma MarkedListings(s: seq<Task>, id: int, status: string, other: string)
    requires ValidPosition(id, |s|)
    requires other != status
    ensures Matching(WithStatus(s, id, status), status)
         == Matching(s[..id - 1], status) + [s[id - 1].(status := status)] + Matching(s[id..], status)
    ensures Matching(WithStatus(s, id, status), other) == Matching(Without(s, id), other)
  {
    var p, q := s[..id - 1], s[id..];
    var x := s[id - 1].(status := status);
    assert WithStatus(s, id, status) == p + [x] + q;
    assert Without(s, id) == p + q;
    MatchingSingle(x, status);
    MatchingSingle(x, other);
    MatchingAppend(p + [x], q, status);
    MatchingAppend(p, [x], status);
    MatchingAppend(p + [x], q, other);
    MatchingAppend(p, [x], other);
    MatchingAppend(p, q, other);
  }

  lemma MatchingSingle(x: Task, status: string)
    ensures Matching([x], status) == if x.status == status then [x] else []
  {
    assert [x][..0] == [];
  }

  /** The selection loop shared by the three status listings. */
  method ListWithStatus(tasks: seq<Task>, status: string) returns (shown: seq<Task>)
    ensures shown == Matching(tasks, status)
  {
    shown := [];
    for i := 0 to |tasks|
      invariant shown == Matching(tasks[..i], status)
    {
      assert tasks[..i + 1][..i] == tasks[..i];
      if tasks[i].status == status {
        shown := shown + [tasks[i]];
      }
    }
    assert tasks[..|tasks|] == tasks;
  }

  /** The tasks `list todo` prints. */
  method ListToDo(tasks: seq<Task>) returns (shown: seq<Task>)
    ensures shown == Matching(tasks, Todo)
  {
    shown := ListWithStatus(tasks, Todo);
  }

  /** The tasks `list done` prints. */
  method ListDone(tasks: seq<Task>) returns (shown: seq<Task>)
    ensures shown == Matching(tasks, Done)
  {
    shown := ListWithStatus(tasks, Done);
  }

  /** The tasks `list in-progress` prints. */
  method ListInProgress(tasks: seq<Task>) returns (shown: seq<Task>)
    ensures shown == Matching(tasks, InProgress)
  {
    shown := ListWithStatus(tasks, InProgress);
  }

  /** The tasks `list` prints: all of them, in stored order. */
  method List(tasks: seq<Task>) returns (shown: seq<Task>)
    ensures shown == tasks
  {
    shown := [];
    for i := 0 to |tasks|
      invariant shown == tasks[..i]
    {
      shown := shown + [tasks[i]];
    }
  }
}

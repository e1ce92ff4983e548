/**
 The task record and the two list edits the commands perform: appending a new task and
 marking one task done. Position in the list is a task's only identity.
 */
module Tasks {

  /** One entry of the list, with the field names of the stored JSON objects. */
  datatype Task = Task(task: string, done: bool, date: string)

  /** A task as `add` creates it: not done, stamped with the creation date. */
  function NewTask(description: string, date: string): Task {
    Task(description, false, date)
  }

  /** The list after `add`: the earlier tasks in order, then one new not-done task. */
  function Append(todos: seq<Task>, description: string, date: string): (r: seq<Task>)
    ensures |r| == |todos| + 1
    ensures forall i :: 0 <= i < |todos| ==> r[i] == todos[i]
    ensures r[|todos|].task == description && !r[|todos|].done && r[|todos|].date == date
  {
    todos + [NewTask(description, date)]
  }

  /** The list after a valid mark-done: the task at `index` is done, nothing else changes. */
  function MarkDone(todos: seq<Task>, index: nat): (r: seq<Task>)
    requires index < |todos|
    ensures |r| == |todos|
    ensures r[index].done
    ensures r[index].task == todos[index].task && r[index].date == todos[index].date
    ensures forall i :: 0 <= i < |todos| && i != index ==> r[i] == todos[i]
  {
    todos[index := todos[index].(done := true)]
  }

  /** No task that was done before is not done after, position by position. */
  predicate NeverUndone(before: seq<Task>, after: seq<Task>) {
    forall i :: 0 <= i < |before| && i < |after| && before[i].done ==> after[i].done
  }

  /** How many tasks of the list are done. */
  function CountDone(todos: seq<Task>): (n: nat)
    ensures n <= |todos|
  {
    if todos == [] then 0 else CountDone(todos[..|todos| - 1]) + (if todos[|todos| - 1].done then 1 else 0)
  }

  lemma {:induction false} CountDoneUpdate(todos: seq<Task>, index: nat, t: Task)
    requires index < |todos|
    ensures CountDone(todos[index := t]) ==
            CountDone(todos) - (if todos[index].done then 1 else 0) + (if t.done then 1 else 0)
  {
    var last := |todos| - 1;
    var r := todos[index := t];
    assert r[..last] == if index == last then todos[..last] else todos[..last][index := t];
    if index < last {
      CountDoneUpdate(todos[..last], index, t);
    }
  }

  /** Marking a task done raises the done count by one exactly when the task was not done yet. */
  lemma MarkDoneCount(todos: seq<Task>, index: nat)
    requires index < |todos|
    ensures CountDone(MarkDone(todos, index)) == CountDone(todos) + (if todos[index].done then 0 else 1)
  {
    CountDoneUpdate(todos, index, todos[index].(done := true));
  }

  /** Appending a new task leaves the done count unchanged. */
  lemma AppendCount(todos: seq<Task>, description: string, date: string)
    ensures CountDone(Append(todos, description, date)) == CountDone(todos)
  {
    assert Append(todos, description, date)[..|todos|] == todos;
  }

  /** Marking the same task done twice is the same as marking it once. */
  lemma MarkDoneIdempotent(todos: seq<Task>, index: nat)
    requires index < |todos|
    ensures MarkDone(MarkDone(todos, index), index) == MarkDone(todos, index)
  {
  }

  /** Marking two tasks done gives the same list in either order. */
  lemma MarkDoneCommutes(todos: seq<Task>, i: nat, j: nat)
    requires i < |todos| && j < |todos|
    ensures MarkDone(MarkDone(todos, i), j) == MarkDone(MarkDone(todos, j), i)
  {
  }

  /** Appending never takes a task from done back to not done. */
  lemma AppendNeverUndoes(todos: seq<Task>, description: string, date: string)
    ensures NeverUndone(todos, Append(todos, description, date))
  {
  }

  /** Marking a task done never takes a task from done back to not done. */
  lemma MarkDoneNeverUndoes(todos: seq<Task>, index: nat)
    requires index < |todos|
    ensures NeverUndone(todos, MarkDone(todos, index))
  {
  }
}

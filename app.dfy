/**
 * The task collection held by the App component: an ordered sequence of
 * task records, replaced wholesale by each operation, and the dark-mode flag.
 */
module App {
  import opened Values
  import opened Arrays

  /** A task record is a plain object; generated tasks carry id, name, description, timeframe, completed, createdAt. */
  type Task = Fields

  /** `task.id === taskId`. */
  predicate HasId(t: Task, taskId: Value)
    ensures "id" in t ==> (HasId(t, taskId) <==> t["id"] == taskId)
    ensures "id" !in t ==> (HasId(t, taskId) <==> taskId == Undefined)
  {
    Get(t, "id") == taskId
  }

  /** `addTasks`: the new batch is appended after the existing tasks, in batch order. */
  function AddTasks(prev: seq<Task>, batch: seq<Task>): (r: seq<Task>)
    ensures |r| == |prev| + |batch|
    ensures r[..|prev|] == prev
    ensures r[|prev|..] == batch
  {
    prev + batch
  }

  /**
   * `updateTask`: every task whose id matches gets `{ ...task, ...updates }`;
   * every other task stays as it was, in the same position.
   */
  function UpdateTask(prev: seq<Task>, taskId: Value, updates: Fields): (r: seq<Task>)
    ensures |r| == |prev|
    ensures forall i :: 0 <= i < |prev| && !HasId(prev[i], taskId) ==> r[i] == prev[i]
    ensures forall i :: 0 <= i < |prev| && HasId(prev[i], taskId) ==> r[i] == Merge(prev[i], updates)
  {
    seq(|prev|, i requires 0 <= i < |prev| =>
      if HasId(prev[i], taskId) then Merge(prev[i], updates) else prev[i])
  }

  /**
   * In a matching task, each property named in `updates` takes the new value
   * and every other property keeps its old value (or stays absent).
   */
  lemma UpdateMergesFields(prev: seq<Task>, taskId: Value, updates: Fields, i: nat, key: string)
    requires i < |prev| && HasId(prev[i], taskId)
    ensures key in updates ==> Get(UpdateTask(prev, taskId, updates)[i], key) == updates[key]
    ensures key !in updates ==> Get(UpdateTask(prev, taskId, updates)[i], key) == Get(prev[i], key)
  {
  }

  /** Updating an id that no task has leaves the collection unchanged. */
  lemma UpdateMissingIsNoop(prev: seq<Task>, taskId: Value, updates: Fields)
    requires forall i :: 0 <= i < |prev| ==> !HasId(prev[i], taskId)
    ensures UpdateTask(prev, taskId, updates) == prev
  {
  }

  /** An update that does not name `id` leaves every task's id as it was. */
  lemma UpdateKeepsIds(prev: seq<Task>, taskId: Value, updates: Fields, i: nat)
    requires "id" !in updates && i < |prev|
    ensures Get(UpdateTask(prev, taskId, updates)[i], "id") == Get(prev[i], "id")
  {
  }

  /** `deleteTask`: keeps the tasks whose id differs, in their original relative order. */
  function DeleteTask(prev: seq<Task>, taskId: Value): (r: seq<Task>)
    ensures forall i :: 0 <= i < |r| ==> !HasId(r[i], taskId) && r[i] in prev
    ensures forall i :: 0 <= i < |prev| && !HasId(prev[i], taskId) ==> prev[i] in r
    ensures IsSubsequence(r, prev)
  {
    var keep := (t: Task) => !HasId(t, taskId);
    FilterIsSubsequence(prev, keep);
    Filter(prev, keep)
  }

  /** Deleting an id that no task has leaves the collection unchanged. */
  lemma DeleteMissingIsNoop(prev: seq<Task>, taskId: Value)
    requires forall i :: 0 <= i < |prev| ==> !HasId(prev[i], taskId)
    ensures DeleteTask(prev, taskId) == prev
  {
    FilterKeepsAll(prev, (t: Task) => !HasId(t, taskId));
  }

  /** Deleting the same id twice is deleting it once. */
  lemma DeleteIdempotent(prev: seq<Task>, taskId: Value)
    ensures DeleteTask(DeleteTask(prev, taskId), taskId) == DeleteTask(prev, taskId)
  {
    FilterIdempotent(prev, (t: Task) => !HasId(t, taskId));
  }

  /** Deleting from a concatenation deletes from each part in place. */
  lemma DeleteConcat(a: seq<Task>, b: seq<Task>, taskId: Value)
    ensures DeleteTask(a + b, taskId) == DeleteTask(a, taskId) + DeleteTask(b, taskId)
  {
    FilterConcat(a, b, (t: Task) => !HasId(t, taskId));
  }

  /** An update after a delete of the same id finds nothing to change. */
  lemma UpdateAfterDelete(prev: seq<Task>, taskId: Value, updates: Fields)
    ensures UpdateTask(DeleteTask(prev, taskId), taskId, updates) == DeleteTask(prev, taskId)
  {
    UpdateMissingIsNoop(DeleteTask(prev, taskId), taskId, updates);
  }

  /** A task counts as completed when its `completed` property is truthy. */
  predicate IsCompleted(t: Task)
  {
    Truthy(Get(t, "completed"))
  }

  /** `tasks.filter(t => t.completed).length`. */
  function CompletedCount(tasks: seq<Task>): (n: nat)
    ensures n <= |tasks|
  {
    |Filter(tasks, IsCompleted)|
  }

  /** The completed count of an appended collection is the sum of the parts' counts. */
  lemma CompletedCountAdd(prev: seq<Task>, batch: seq<Task>)
    ensures CompletedCount(AddTasks(prev, batch)) == CompletedCount(prev) + CompletedCount(batch)
  {
    FilterConcat(prev, batch, IsCompleted);
  }

  /**
   * Changing one task whose id is unique from not completed to completed raises
   * the completed count by exactly one.
   */
  lemma CompletingOneTaskCountsOnce(prev: seq<Task>, i: nat, updates: Fields)
    requires i < |prev|
    requires forall j :: 0 <= j < |prev| && j != i ==> !HasId(prev[j], Get(prev[i], "id"))
    requires !IsCompleted(prev[i]) && "completed" in updates && Truthy(updates["completed"])
    ensures CompletedCount(UpdateTask(prev, Get(prev[i], "id"), updates)) == CompletedCount(prev) + 1
  {
    var id := Get(prev[i], "id");
    var next := UpdateTask(prev, id, updates);
    assert prev == prev[..i] + [prev[i]] + prev[i + 1..];
    assert next == prev[..i] + [Merge(prev[i], updates)] + prev[i + 1..];
    FilterConcat(prev[..i] + [prev[i]], prev[i + 1..], IsCompleted);
    FilterConcat(prev[..i], [prev[i]], IsCompleted);
    FilterConcat(prev[..i] + [Merge(prev[i], updates)], prev[i + 1..], IsCompleted);
    FilterConcat(prev[..i], [Merge(prev[i], updates)], IsCompleted);
  }

  /** `toggleDarkMode`: the flag flips, so toggling twice restores it. */
  function ToggleDarkMode(dark: bool): (r: bool)
    ensures r != dark
  {
    !dark
  }
}

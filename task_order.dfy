/**
 * The `filteredTasks` getter of the resource cache
 * (app/src/stores/todoStore.ts): keep the tasks the current filter admits,
 * then sort them by `taskSort`, ties broken by creation time. The sort is an
 * insertion sort, which keeps equal tasks in their original order as the
 * stable `Array.prototype.sort` does.
 */
module TaskOrder {
  import opened Wrappers
  import opened Js
  import opened Types

  /** `{ completed, archived }`; null admits either value of the flag. */
  datatype TodoFilter = TodoFilter(completed: Option<bool>, archived: Option<bool>)

  predicate Matches(filter: TodoFilter, task: Task) {
    && (filter.completed.None? || task.isCompleted == filter.completed.value)
    && (filter.archived.None? || task.isArchived == filter.archived.value)
  }

  /** The comparator `a.taskSort - b.taskSort || a.createdDt - b.createdDt` is at most 0. */
  predicate InOrder(a: Task, b: Task) {
    a.taskSort < b.taskSort || (a.taskSort == b.taskSort && a.createdDt <= b.createdDt)
  }

  predicate Sorted(tasks: seq<Task>) {
    forall i, j :: 0 <= i < j < |tasks| ==> InOrder(tasks[i], tasks[j])
  }

  /** Places `task` before the first task it is in order with. */
  function Insert(task: Task, sorted: seq<Task>): (r: seq<Task>)
    requires Sorted(sorted)
    ensures Sorted(r)
    ensures multiset(r) == multiset(sorted) + multiset{task}
  {
    if sorted == [] then [task]
    else if InOrder(task, sorted[0]) then [task] + sorted
    else
      var rest := Insert(task, sorted[1..]);
      assert sorted == [sorted[0]] + sorted[1..];
      assert forall x :: x in rest ==> x in multiset(rest);
      assert forall j :: 0 <= j < |rest| ==> InOrder(sorted[0], rest[j]) by {
        forall j | 0 <= j < |rest| ensures InOrder(sorted[0], rest[j]) {
          assert rest[j] in multiset(rest);
          assert rest[j] == task || rest[j] in sorted[1..];
        }
      }
      [sorted[0]] + rest
  }

  /** `Array.prototype.sort` with the comparator above. */
  function SortTasks(tasks: seq<Task>): (r: seq<Task>)
    ensures Sorted(r)
    ensures multiset(r) == multiset(tasks)
  {
    if tasks == [] then []
    else
      assert tasks == [tasks[0]] + tasks[1..];
      Insert(tasks[0], SortTasks(tasks[1..]))
  }

  /** `filteredTasks`: the tasks the filter admits, in display order. */
  function FilterAndSort(tasks: seq<Task>, filter: TodoFilter): (r: seq<Task>)
    ensures Sorted(r)
    ensures forall t :: t in r <==> t in tasks && Matches(filter, t)
  {
    var kept := Filter(tasks, (t: Task) => Matches(filter, t));
    assert forall t :: t in kept <==> t in tasks && Matches(filter, t);
    var r := SortTasks(kept);
    assert forall t :: t in r <==> t in multiset(r);
    assert forall t :: t in kept <==> t in multiset(kept);
    r
  }

  /**
   * The result is a permutation of exactly the admitted tasks: each admitted
   * task occurs as often as in the list, every other task not at all.
   */
  lemma FilterAndSortCounts(tasks: seq<Task>, filter: TodoFilter, t: Task)
    ensures multiset(FilterAndSort(tasks, filter))[t] == if Matches(filter, t) then multiset(tasks)[t] else 0
  {
    FilterCount(tasks, (t: Task) => Matches(filter, t), t);
  }

  /** The empty filter admits every task. */
  lemma NoFilterKeepsAll(tasks: seq<Task>)
    ensures multiset(FilterAndSort(tasks, TodoFilter(None, None))) == multiset(tasks)
  {
    forall t {
      FilterAndSortCounts(tasks, TodoFilter(None, None), t);
    }
  }
}

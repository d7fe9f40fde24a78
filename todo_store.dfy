/**
 * The client-side cache of tasks, categories and priorities
 * (app/src/stores/todoStore.ts). Every awaited API call is an input: the
 * action is given the `Outcome` the call resolved (`Ok`) or rejected (`Err`
 * with the error's message) with, and the deny-list store it consults.
 */
module Todos {
  import opened Wrappers
  import opened Js
  import opened Types
  import opened TaskOrder
  import opened ProhibitedWords

  const TaskProhibited := "Task name contains prohibited words."
  const CategoryProhibited := "Category name contains prohibited words."
  const PriorityProhibited := "Priority name contains prohibited words."
  const TaskNotFound := "Task not found."
  const FetchTasksFailed := "Failed to fetch todo tasks."
  const FetchCategoriesFailed := "Failed to fetch todo categories."
  const FetchPrioritiesFailed := "Failed to fetch priorities."
  const CreateTaskFailed := "Failed to create todo task."
  const TaskForEditFailed := "Failed to fetch task for edit."
  const UpdateTaskFailed := "Failed to update todo task."
  const DeleteTaskFailed := "Failed to delete todo task."
  const CreateCategoryFailed := "Failed to create todo category."
  const CreatePriorityFailed := "Failed to create todo priority."

  /** `err.message || fallback`, stored as the store's error. */
  function Failed(message: string, fallback: string): Option<string> {
    Some(Or(message, fallback))
  }

  /** A `Partial<TodoFilter>`: each key may be absent, null or a flag. */
  datatype FilterPatch = FilterPatch(completed: Prop<Option<bool>>, archived: Prop<Option<bool>>)

  /** The store's state, as one value. */
  datatype TodoState = TodoState(
    tasks: seq<Task>,
    categories: seq<Category>,
    priorities: seq<Priority>,
    currentFilter: TodoFilter,
    selectedTaskForEdit: Option<Task>,
    isLoadingTasks: bool,
    isLoadingCategories: bool,
    isLoadingPriorities: bool,
    error: Option<string>)

  const InitialState := TodoState([], [], [], TodoFilter(None, None), None, false, false, false, None)

  /** The state after `clearUserTodosAndCategories`: the filter and the loading flags survive. */
  function Emptied(s: TodoState): (r: TodoState)
    ensures r.tasks == [] && r.categories == [] && r.priorities == []
    ensures FilterAndSort(r.tasks, r.currentFilter) == []
    ensures forall id :: FindCategory(r.categories, id).None? && FindPriority(r.priorities, id).None?
    ensures r.selectedTaskForEdit.None? && r.error.None?
    ensures r.currentFilter == s.currentFilter
    ensures r.isLoadingTasks == s.isLoadingTasks && r.isLoadingCategories == s.isLoadingCategories
    ensures r.isLoadingPriorities == s.isLoadingPriorities
  {
    s.(tasks := [], categories := [], priorities := [], selectedTaskForEdit := None, error := None)
  }

  /** `tasks.findIndex(t => t.id === id)`. */
  function IndexOfId(tasks: seq<Task>, id: string): (i: int)
    ensures -1 <= i < |tasks|
    ensures i == -1 <==> forall k :: 0 <= k < |tasks| ==> tasks[k].id != id
    ensures 0 <= i ==> tasks[i].id == id && forall k :: 0 <= k < i ==> tasks[k].id != id
  {
    FirstIndex(tasks, (t: Task) => t.id == id)
  }

  /** Replacing a task by one with the same id does not move the first index of any id. */
  lemma IndexOfIdAfterSet(tasks: seq<Task>, i: int, task: Task, id: string)
    requires 0 <= i < |tasks| && task.id == tasks[i].id
    ensures IndexOfId(tasks[i := task], id) == IndexOfId(tasks, id)
  {
    var after := tasks[i := task];
    assert forall k :: 0 <= k < |tasks| ==> after[k].id == tasks[k].id;
  }

  /** `categories.find(c => c.id === id)`. */
  function FindCategory(categories: seq<Category>, id: string): (r: Option<Category>)
    ensures r.Some? ==> r.value in categories && r.value.id == id
    ensures r.None? <==> forall c :: c in categories ==> c.id != id
    ensures r.Some? ==> exists i :: 0 <= i < |categories| && categories[i] == r.value && forall k :: 0 <= k < i ==> categories[k].id != id
  {
    var i := FirstIndex(categories, (c: Category) => c.id == id);
    if i == -1 then None else Some(categories[i])
  }

  /** `priorities.find(p => p.id === id)`. */
  function FindPriority(priorities: seq<Priority>, id: string): (r: Option<Priority>)
    ensures r.Some? ==> r.value in priorities && r.value.id == id
    ensures r.None? <==> forall p :: p in priorities ==> p.id != id
    ensures r.Some? ==> exists i :: 0 <= i < |priorities| && priorities[i] == r.value && forall k :: 0 <= k < i ==> priorities[k].id != id
  {
    var i := FirstIndex(priorities, (p: Priority) => p.id == id);
    if i == -1 then None else Some(priorities[i])
  }

  /** `{ ...task, ...response }`: what the response carries wins, what it omits is kept. */
  function Merge(task: Task, response: Task): (r: Task)
    ensures r.(taskName := response.taskName, dueDt := response.dueDt,
               todoCategory := response.todoCategory, todoPriority := response.todoPriority) == response
    ensures r.taskName == if response.taskName.Has? then response.taskName else task.taskName
    ensures r.dueDt == if response.dueDt.Has? then response.dueDt else task.dueDt
    ensures r.todoCategory == if response.todoCategory.Has? then response.todoCategory else task.todoCategory
    ensures r.todoPriority == if response.todoPriority.Has? then response.todoPriority else task.todoPriority
  {
    Task(
      response.id,
      Spread(task.taskName, response.taskName),
      response.taskSort,
      response.createdDt,
      Spread(task.dueDt, response.dueDt),
      response.isCompleted,
      response.isArchived,
      response.todoCategoryId,
      response.todoPriorityId,
      response.syncDt,
      Spread(task.todoCategory, response.todoCategory),
      Spread(task.todoPriority, response.todoPriority))
  }

  /** Merging the same response twice is merging it once. */
  lemma MergeIdempotent(task: Task, response: Task)
    ensures Merge(Merge(task, response), response) == Merge(task, response)
  {
  }

  /** A response that carries every optional property replaces the task outright. */
  lemma MergeCompleteResponse(task: Task, response: Task)
    requires response.taskName.Has? && response.dueDt.Has?
    requires response.todoCategory.Has? && response.todoPriority.Has?
    ensures Merge(task, response) == response
  {
  }

  /** A property the response omits keeps the task's value, including an explicit null. */
  lemma MergeKeepsOmitted(task: Task, response: Task)
    requires response.dueDt.Missing? && response.todoCategory.Missing?
    ensures Merge(task, response).dueDt == task.dueDt
    ensures Merge(task, response).todoCategory == task.todoCategory
  {
  }

  /** The task list after a successful update: the first task with the id is merged, nothing else changes. */
  function MergeById(tasks: seq<Task>, id: string, response: Task): (r: seq<Task>)
    ensures |r| == |tasks|
    ensures forall k :: 0 <= k < |tasks| && k != IndexOfId(tasks, id) ==> r[k] == tasks[k]
    ensures forall k :: 0 <= k < |tasks| && tasks[k].id != id ==> r[k] == tasks[k]
    ensures IndexOfId(tasks, id) == -1 ==> r == tasks
    ensures IndexOfId(tasks, id) != -1 ==> r[IndexOfId(tasks, id)] == Merge(tasks[IndexOfId(tasks, id)], response)
  {
    var i := IndexOfId(tasks, id);
    if i == -1 then tasks else tasks[i := Merge(tasks[i], response)]
  }

  /** The task open for editing after a successful update of `id`. */
  function MergeSelected(selected: Option<Task>, id: string, response: Task): (r: Option<Task>)
    ensures r.Some? <==> selected.Some?
    ensures selected.Some? && selected.value.id == id ==> r == Some(Merge(selected.value, response))
    ensures selected.Some? && selected.value.id == id ==> r.value.id == response.id
    ensures selected.Some? && selected.value.id != id ==> r == selected
  {
    if selected.Some? && selected.value.id == id then Some(Merge(selected.value, response)) else selected
  }

  /** `tasks.filter(task => task.id !== id)`. */
  function WithoutId(tasks: seq<Task>, id: string): (r: seq<Task>)
    ensures |r| <= |tasks|
    ensures forall t :: t in r <==> t in tasks && t.id != id
  {
    Filter(tasks, (t: Task) => t.id != id)
  }

  /** Deleting keeps every other task as often as it was there, and drops every copy of the id. */
  lemma WithoutIdKeepsOthers(tasks: seq<Task>, id: string, t: Task)
    ensures multiset(WithoutId(tasks, id))[t] == if t.id != id then multiset(tasks)[t] else 0
  {
    FilterCount(tasks, (t: Task) => t.id != id, t);
  }

  /** Deleting keeps the surviving tasks in their order: it acts on each part of the list separately. */
  lemma WithoutIdKeepsOrder(front: seq<Task>, back: seq<Task>, id: string)
    ensures WithoutId(front + back, id) == WithoutId(front, id) + WithoutId(back, id)
  {
    FilterAppend(front, back, (t: Task) => t.id != id);
  }

  /** Deleting an id no task carries leaves the list as it was. */
  lemma WithoutIdAbsent(tasks: seq<Task>, id: string)
    requires forall k :: 0 <= k < |tasks| ==> tasks[k].id != id
    ensures WithoutId(tasks, id) == tasks
  {
    FilterAll(tasks, (t: Task) => t.id != id);
  }

  /** The update payload the toggles build from a task. */
  function UpdateFrom(task: Task): TaskUpdate {
    TaskUpdate(
      task.id, Read(task.taskName), Some(task.todoCategoryId), Some(task.todoPriorityId),
      Read(task.dueDt), Some(task.isCompleted), Some(task.isArchived), Some(task.taskSort))
  }

  /** The state and the result of `updateTask(taskId, data)` against the deny-list `words`. */
  function AfterUpdate(s: TodoState, words: seq<string>, taskId: string, data: TaskUpdate, response: Outcome<Task>): (r: (TodoState, Option<Task>))
    ensures r.1.Some? <==> !(Truthy(data.taskName) && Prohibited(words, data.taskName.value)) && response.Ok?
    ensures r.1.Some? ==> r.1.value == response.value && r.0.error.None?
    ensures r.1.None? ==> r.0.error.Some?
    ensures |r.0.tasks| == |s.tasks|
    ensures r.0.selectedTaskForEdit.Some? <==> s.selectedTaskForEdit.Some?
    ensures r.0.(tasks := s.tasks, selectedTaskForEdit := s.selectedTaskForEdit,
                 isLoadingTasks := s.isLoadingTasks, error := s.error) == s
  {
    if Truthy(data.taskName) && Prohibited(words, data.taskName.value) then
      (s.(error := Some(TaskProhibited)), None)
    else
      match response
      case Ok(updated) =>
        (s.(tasks := MergeById(s.tasks, taskId, updated),
            selectedTaskForEdit := MergeSelected(s.selectedTaskForEdit, taskId, updated),
            isLoadingTasks := false,
            error := None),
         Some(updated))
      case Err(message) =>
        (s.(isLoadingTasks := false, error := Failed(message, UpdateTaskFailed)), None)
  }

  /** A prohibited name only sets the error; the call's outcome plays no part. */
  lemma UpdateProhibited(s: TodoState, words: seq<string>, taskId: string, data: TaskUpdate, response: Outcome<Task>)
    requires Truthy(data.taskName) && Prohibited(words, data.taskName.value)
    ensures AfterUpdate(s, words, taskId, data, response).0 == s.(error := Some(TaskProhibited))
    ensures AfterUpdate(s, words, taskId, data, response).1.None?
  {
  }

  /**
   * An update that is allowed and succeeds merges the response into the
   * first task with the id and into the task open for editing when it has
   * that id, clears the error and returns the response.
   */
  lemma UpdateSuccess(s: TodoState, words: seq<string>, taskId: string, data: TaskUpdate, updated: Task)
    requires !(Truthy(data.taskName) && Prohibited(words, data.taskName.value))
    ensures var r := AfterUpdate(s, words, taskId, data, Ok(updated));
      && r.1 == Some(updated)
      && r.0 == s.(tasks := MergeById(s.tasks, taskId, updated),
                   selectedTaskForEdit := MergeSelected(s.selectedTaskForEdit, taskId, updated),
                   isLoadingTasks := false, error := None)
  {
  }

  /** A failed update leaves the tasks and the task open for editing as they were. */
  lemma UpdateFailureKeepsTasks(s: TodoState, words: seq<string>, taskId: string, data: TaskUpdate, message: string)
    ensures var r := AfterUpdate(s, words, taskId, data, Err(message)).0;
      r.tasks == s.tasks && r.selectedTaskForEdit == s.selectedTaskForEdit && r.error.Some?
  {
  }

  /** An update of an id the cache does not hold adds nothing to the cache. */
  lemma UpdateUnknownId(s: TodoState, words: seq<string>, taskId: string, data: TaskUpdate, response: Outcome<Task>)
    requires IndexOfId(s.tasks, taskId) == -1
    ensures AfterUpdate(s, words, taskId, data, response).0.tasks == s.tasks
  {
  }

  /** The state after `toggleTaskCompleted(taskId)`; the flag is put back when the call fails. */
  function AfterToggleCompleted(s: TodoState, taskId: string, response: Outcome<Task>): (r: TodoState)
    ensures IndexOfId(s.tasks, taskId) == -1 ==> r == s.(error := Some(TaskNotFound))
    ensures IndexOfId(s.tasks, taskId) != -1 ==> r.error == s.error
    ensures |r.tasks| == |s.tasks|
    ensures forall k :: 0 <= k < |s.tasks| ==> r.tasks[k].(isCompleted := s.tasks[k].isCompleted) == s.tasks[k]
    ensures forall k :: 0 <= k < |s.tasks| && s.tasks[k].id != taskId ==> r.tasks[k] == s.tasks[k]
    ensures r.(tasks := s.tasks, error := s.error) == s
  {
    var i := IndexOfId(s.tasks, taskId);
    if i == -1 then s.(error := Some(TaskNotFound))
    else if response.Err? then s
    else s.(tasks := s.tasks[i := s.tasks[i].(isCompleted := !s.tasks[i].isCompleted)])
  }

  /** A toggle that succeeds flips the flag of the first task with the id and changes nothing else. */
  lemma ToggleCompletedFlips(s: TodoState, taskId: string, updated: Task)
    requires IndexOfId(s.tasks, taskId) != -1
    ensures var i := IndexOfId(s.tasks, taskId);
      var r := AfterToggleCompleted(s, taskId, Ok(updated));
      && |r.tasks| == |s.tasks|
      && r.tasks[i].isCompleted == !s.tasks[i].isCompleted
      && r.tasks[i].(isCompleted := s.tasks[i].isCompleted) == s.tasks[i]
      && (forall k :: 0 <= k < |s.tasks| && k != i ==> r.tasks[k] == s.tasks[k])
      && r.(tasks := s.tasks) == s
  {
  }

  /** A toggle whose call fails leaves the state exactly as it was. */
  lemma ToggleCompletedRollback(s: TodoState, taskId: string, message: string)
    requires IndexOfId(s.tasks, taskId) != -1
    ensures AfterToggleCompleted(s, taskId, Err(message)) == s
  {
  }

  /** Two successful toggles of the same task restore the state. */
  lemma ToggleCompletedTwice(s: TodoState, taskId: string, first: Task, second: Task)
    requires IndexOfId(s.tasks, taskId) != -1
    ensures AfterToggleCompleted(AfterToggleCompleted(s, taskId, Ok(first)), taskId, Ok(second)) == s
  {
    var i := IndexOfId(s.tasks, taskId);
    var flipped := s.tasks[i].(isCompleted := !s.tasks[i].isCompleted);
    IndexOfIdAfterSet(s.tasks, i, flipped, taskId);
    assert s.tasks[i := flipped][i := flipped.(isCompleted := !flipped.isCompleted)] == s.tasks;
  }

  /**
   * The state after `toggleTaskArchived(taskId)`: the flag is flipped, then
   * the task goes through `updateTask`, which never rejects, so the flip is
   * never undone.
   */
  function AfterToggleArchived(s: TodoState, words: seq<string>, taskId: string, response: Outcome<Task>): (r: TodoState)
    ensures IndexOfId(s.tasks, taskId) == -1 ==> r == s.(error := Some(TaskNotFound))
    ensures |r.tasks| == |s.tasks|
    ensures forall k :: 0 <= k < |s.tasks| && s.tasks[k].id != taskId ==> r.tasks[k] == s.tasks[k]
    ensures r.categories == s.categories && r.priorities == s.priorities && r.currentFilter == s.currentFilter
    ensures r.isLoadingCategories == s.isLoadingCategories && r.isLoadingPriorities == s.isLoadingPriorities
  {
    var i := IndexOfId(s.tasks, taskId);
    if i == -1 then s.(error := Some(TaskNotFound))
    else
      var task := s.tasks[i].(isArchived := !s.tasks[i].isArchived);
      AfterUpdate(s.(tasks := s.tasks[i := task]), words, taskId, UpdateFrom(task), response).0
  }

  /** When the update is refused or fails, the flipped flag stays and only the error tells. */
  lemma ToggleArchivedNoRollback(s: TodoState, words: seq<string>, taskId: string, response: Outcome<Task>)
    requires IndexOfId(s.tasks, taskId) != -1
    requires response.Err? || Prohibited(words, OrOpt(Read(s.tasks[IndexOfId(s.tasks, taskId)].taskName), ""))
    ensures var i := IndexOfId(s.tasks, taskId);
      var r := AfterToggleArchived(s, words, taskId, response);
      && r.tasks == s.tasks[i := s.tasks[i].(isArchived := !s.tasks[i].isArchived)]
      && r.error.Some?
  {
  }

  /** A successful archive toggle merges the response into the flipped task. */
  lemma ToggleArchivedSuccess(s: TodoState, words: seq<string>, taskId: string, updated: Task)
    requires IndexOfId(s.tasks, taskId) != -1
    requires !Prohibited(words, OrOpt(Read(s.tasks[IndexOfId(s.tasks, taskId)].taskName), ""))
    ensures var i := IndexOfId(s.tasks, taskId);
      var r := AfterToggleArchived(s, words, taskId, Ok(updated));
      && r.tasks == s.tasks[i := Merge(s.tasks[i].(isArchived := !s.tasks[i].isArchived), updated)]
      && r.error.None? && !r.isLoadingTasks
  {
    var i := IndexOfId(s.tasks, taskId);
    var task := s.tasks[i].(isArchived := !s.tasks[i].isArchived);
    IndexOfIdAfterSet(s.tasks, i, task, taskId);
  }

  /** The pinia store `todos`. */
  class TodoStore {
    var tasks: seq<Task>
    var categories: seq<Category>
    var priorities: seq<Priority>
    var currentFilter: TodoFilter
    var selectedTaskForEdit: Option<Task>
    var isLoadingTasks: bool
    var isLoadingCategories: bool
    var isLoadingPriorities: bool
    var error: Option<string>

    function State(): TodoState
      reads this
    {
      TodoState(tasks, categories, priorities, currentFilter, selectedTaskForEdit,
        isLoadingTasks, isLoadingCategories, isLoadingPriorities, error)
    }

    constructor ()
      ensures State() == InitialState
    {
      tasks, categories, priorities := [], [], [];
      currentFilter := TodoFilter(None, None);
      selectedTaskForEdit := None;
      isLoadingTasks, isLoadingCategories, isLoadingPriorities := false, false, false;
      error := None;
    }

    /** `filteredTasks`: the cached tasks the current filter admits, in display order. */
    function FilteredTasks(): (r: seq<Task>)
      reads this
      ensures Sorted(r)
      ensures forall t :: t in r <==> t in tasks && Matches(currentFilter, t)
    {
      FilterAndSort(tasks, currentFilter)
    }

    /** `getCategoryById(id)`: a cached category with that id, if any. */
    function GetCategoryById(id: string): (r: Option<Category>)
      reads this
      ensures r.Some? ==> r.value in categories && r.value.id == id
      ensures r.None? <==> forall c :: c in categories ==> c.id != id
    {
      FindCategory(categories, id)
    }

    /** `getPriorityById(id)`: a cached priority with that id, if any. */
    function GetPriorityById(id: string): (r: Option<Priority>)
      reads this
      ensures r.Some? ==> r.value in priorities && r.value.id == id
      ensures r.None? <==> forall p :: p in priorities ==> p.id != id
    {
      FindPriority(priorities, id)
    }

    method ClearError()
      modifies this
      ensures State() == old(State()).(error := None)
    {
      error := None;
    }

    method ClearUserTodosAndCategories()
      modifies this
      ensures State() == Emptied(old(State()))
    {
      tasks := [];
      categories := [];
      priorities := [];
      selectedTaskForEdit := None;
      error := None;
    }

    method SetFilter(filter: FilterPatch)
      modifies this
      ensures State() == old(State()).(currentFilter := TodoFilter(
        Over(old(currentFilter).completed, filter.completed),
        Over(old(currentFilter).archived, filter.archived)))
    {
      currentFilter := TodoFilter(
        Over(currentFilter.completed, filter.completed),
        Over(currentFilter.archived, filter.archived));
    }

    method FetchTodoTasks(response: Outcome<seq<Task>>)
      modifies this
      ensures response.Ok? ==> State() == old(State()).(tasks := response.value, isLoadingTasks := false, error := None)
      ensures response.Err? ==> State() == old(State()).(tasks := [], isLoadingTasks := false, error := Failed(response.msg, FetchTasksFailed))
    {
      isLoadingTasks := true;
      error := None;
      match response {
        case Ok(fetched) =>
          tasks := fetched;
        case Err(message) =>
          error := Failed(message, FetchTasksFailed);
          tasks := [];
      }
      isLoadingTasks := false;
    }

    method FetchTodoCategories(response: Outcome<seq<Category>>)
      modifies this
      ensures response.Ok? ==> State() == old(State()).(categories := response.value, isLoadingCategories := false, error := None)
      ensures response.Err? ==> State() == old(State()).(categories := [], isLoadingCategories := false, error := Failed(response.msg, FetchCategoriesFailed))
    {
      isLoadingCategories := true;
      error := None;
      match response {
        case Ok(fetched) =>
          categories := fetched;
        case Err(message) =>
          error := Failed(message, FetchCategoriesFailed);
          categories := [];
      }
      isLoadingCategories := false;
    }

    method FetchTodoPriorities(response: Outcome<seq<Priority>>)
      modifies this
      ensures response.Ok? ==> State() == old(State()).(priorities := response.value, isLoadingPriorities := false, error := None)
      ensures response.Err? ==> State() == old(State()).(priorities := [], isLoadingPriorities := false, error := Failed(response.msg, FetchPrioritiesFailed))
    {
      isLoadingPriorities := true;
      error := None;
      match response {
        case Ok(fetched) =>
          priorities := fetched;
        case Err(message) =>
          error := Failed(message, FetchPrioritiesFailed);
          priorities := [];
      }
      isLoadingPriorities := false;
    }

    /** A name the deny-list matches is refused before any call; the response is then not consulted. */
    method CreateTask(taskData: TaskCreate, deny: ProhibitedWordStore, response: Outcome<Task>) returns (created: Option<Task>)
      modifies this
      ensures Prohibited(deny.prohibitedWords, taskData.taskName) ==>
        created.None? && State() == old(State()).(error := Some(TaskProhibited))
      ensures !Prohibited(deny.prohibitedWords, taskData.taskName) && response.Ok? ==>
        created == Some(response.value) &&
        State() == old(State()).(tasks := old(tasks) + [response.value], isLoadingTasks := false, error := None)
      ensures !Prohibited(deny.prohibitedWords, taskData.taskName) && response.Err? ==>
        created.None? &&
        State() == old(State()).(isLoadingTasks := false, error := Failed(response.msg, CreateTaskFailed))
    {
      if deny.IsProhibited(taskData.taskName) {
        error := Some(TaskProhibited);
        return None;
      }
      isLoadingTasks := true;
      error := None;
      match response {
        case Ok(newTask) =>
          tasks := tasks + [newTask];
          created := Some(newTask);
        case Err(message) =>
          error := Failed(message, CreateTaskFailed);
          created := None;
      }
      isLoadingTasks := false;
    }

    method GetTaskForEdit(taskId: string, response: Outcome<Task>)
      modifies this
      ensures response.Ok? ==> State() == old(State()).(selectedTaskForEdit := Some(response.value), isLoadingTasks := false, error := None)
      ensures response.Err? ==> State() == old(State()).(selectedTaskForEdit := None, isLoadingTasks := false, error := Failed(response.msg, TaskForEditFailed))
    {
      isLoadingTasks := true;
      error := None;
      selectedTaskForEdit := None;
      match response {
        case Ok(task) =>
          selectedTaskForEdit := Some(task);
        case Err(message) =>
          error := Failed(message, TaskForEditFailed);
      }
      isLoadingTasks := false;
    }

    method UpdateTask(taskId: string, taskUpdateData: TaskUpdate, deny: ProhibitedWordStore, response: Outcome<Task>) returns (updated: Option<Task>)
      modifies this
      ensures (State(), updated) == AfterUpdate(old(State()), deny.prohibitedWords, taskId, taskUpdateData, response)
    {
      if Truthy(taskUpdateData.taskName) && deny.IsProhibited(taskUpdateData.taskName.value) {
        error := Some(TaskProhibited);
        return None;
      }
      isLoadingTasks := true;
      error := None;
      match response {
        case Ok(updatedTask) =>
          var index := IndexOfId(tasks, taskId);
          if index != -1 {
            tasks := tasks[index := Merge(tasks[index], updatedTask)];
          }
          if selectedTaskForEdit.Some? && selectedTaskForEdit.value.id == taskId {
            selectedTaskForEdit := Some(Merge(selectedTaskForEdit.value, updatedTask));
          }
          updated := Some(updatedTask);
        case Err(message) =>
          error := Failed(message, UpdateTaskFailed);
          updated := None;
      }
      isLoadingTasks := false;
    }

    method DeleteTask(taskId: string, response: Outcome<()>) returns (deleted: bool)
      modifies this
      ensures deleted <==> response.Ok?
      ensures response.Ok? ==> State() == old(State()).(
        tasks := WithoutId(old(tasks), taskId),
        selectedTaskForEdit := if old(selectedTaskForEdit).Some? && old(selectedTaskForEdit).value.id == taskId then None else old(selectedTaskForEdit),
        isLoadingTasks := false,
        error := None)
      ensures response.Err? ==> State() == old(State()).(isLoadingTasks := false, error := Failed(response.msg, DeleteTaskFailed))
    {
      isLoadingTasks := true;
      error := None;
      match response {
        case Ok(_) =>
          tasks := WithoutId(tasks, taskId);
          if selectedTaskForEdit.Some? && selectedTaskForEdit.value.id == taskId {
            selectedTaskForEdit := None;
          }
          deleted := true;
        case Err(message) =>
          error := Failed(message, DeleteTaskFailed);
          deleted := false;
      }
      isLoadingTasks := false;
    }

    method ToggleTaskCompleted(taskId: string, response: Outcome<Task>)
      modifies this
      ensures State() == AfterToggleCompleted(old(State()), taskId, response)
    {
      var index := IndexOfId(tasks, taskId);
      if index == -1 {
        error := Some(TaskNotFound);
        return;
      }
      var originalCompletedState := tasks[index].isCompleted;
      tasks := tasks[index := tasks[index].(isCompleted := !tasks[index].isCompleted)];
      if response.Err? {
        tasks := tasks[index := tasks[index].(isCompleted := originalCompletedState)];
      }
    }

    method ToggleTaskArchived(taskId: string, deny: ProhibitedWordStore, response: Outcome<Task>)
      modifies this
      ensures State() == AfterToggleArchived(old(State()), deny.prohibitedWords, taskId, response)
    {
      var index := IndexOfId(tasks, taskId);
      if index == -1 {
        error := Some(TaskNotFound);
        return;
      }
      tasks := tasks[index := tasks[index].(isArchived := !tasks[index].isArchived)];
      var _ := UpdateTask(taskId, UpdateFrom(tasks[index]), deny, response);
    }

    /** Unlike the other creates, a refused or failed category leaves an earlier error in place until it is overwritten. */
    method CreateCategory(categoryData: CategoryCreate, deny: ProhibitedWordStore, response: Outcome<Category>) returns (created: Option<Category>)
      modifies this
      ensures Truthy(categoryData.categoryName) && Prohibited(deny.prohibitedWords, categoryData.categoryName.value) ==>
        created.None? && State() == old(State()).(error := Some(CategoryProhibited))
      ensures !(Truthy(categoryData.categoryName) && Prohibited(deny.prohibitedWords, categoryData.categoryName.value)) ==>
        match response
        case Ok(category) =>
          created == Some(category) &&
          State() == old(State()).(categories := old(categories) + [category], isLoadingCategories := false)
        case Err(message) =>
          created.None? &&
          State() == old(State()).(isLoadingCategories := false, error := Failed(message, CreateCategoryFailed))
    {
      if Truthy(categoryData.categoryName) && deny.IsProhibited(categoryData.categoryName.value) {
        error := Some(CategoryProhibited);
        return None;
      }
      isLoadingCategories := true;
      match response {
        case Ok(newCategory) =>
          categories := categories + [newCategory];
          created := Some(newCategory);
        case Err(message) =>
          error := Failed(message, CreateCategoryFailed);
          created := None;
      }
      isLoadingCategories := false;
    }

    method CreatePriority(priorityData: PriorityCreate, deny: ProhibitedWordStore, response: Outcome<Priority>) returns (created: Option<Priority>)
      modifies this
      ensures Prohibited(deny.prohibitedWords, priorityData.priorityName) ==>
        created.None? && State() == old(State()).(error := Some(PriorityProhibited))
      ensures !Prohibited(deny.prohibitedWords, priorityData.priorityName) ==>
        match response
        case Ok(priority) =>
          created == Some(priority) &&
          State() == old(State()).(priorities := old(priorities) + [priority], isLoadingPriorities := false, error := None)
        case Err(message) =>
          created.None? &&
          State() == old(State()).(isLoadingPriorities := false, error := Failed(message, CreatePriorityFailed))
    {
      if deny.IsProhibited(priorityData.priorityName) {
        error := Some(PriorityProhibited);
        return None;
      }
      isLoadingPriorities := true;
      error := None;
      match response {
        case Ok(newPriority) =>
          priorities := priorities + [newPriority];
          created := Some(newPriority);
        case Err(message) =>
          error := Failed(message, CreatePriorityFailed);
          created := None;
      }
      isLoadingPriorities := false;
    }
  }
}

/** The workspace kanban board: four named columns of tasks, to which the
    user adds a task by typing its title in a prompt. */
module KanbanBoard {
  import opened Base

  const NewTaskDescription := "Nouvelle tâche"

  /** The column keys, in the order the board shows them. */
  const ColumnNames: seq<string> := ["Backlog", "ToDo", "InProgress", "Done"]

  datatype KanbanTask = KanbanTask(id: int, title: string, description: string)

  /** The board after `task` is added to `column`: that column has the task
      appended, every other column and the set of columns are unchanged. */
  function WithTask(columns: map<string, seq<KanbanTask>>, column: string, task: KanbanTask): (r: map<string, seq<KanbanTask>>)
    requires column in columns
    ensures r.Keys == columns.Keys
    ensures |r[column]| == |columns[column]| + 1
    ensures r[column][..|columns[column]|] == columns[column] && r[column][|columns[column]|] == task
    ensures forall k :: k in columns && k != column ==> r[k] == columns[k]
  {
    columns[column := columns[column] + [task]]
  }

  /** Total number of tasks over a list of columns. */
  function TaskCount(columns: map<string, seq<KanbanTask>>, names: seq<string>): nat
    requires forall i :: 0 <= i < |names| ==> names[i] in columns
  {
    if names == [] then 0 else |columns[names[0]]| + TaskCount(columns, names[1..])
  }

  /** Adding a task to one of the listed columns raises the board's total
      by exactly one. */
  lemma {:induction false} WithTaskCountsOne(columns: map<string, seq<KanbanTask>>, names: seq<string>, column: string, task: KanbanTask)
    requires forall i :: 0 <= i < |names| ==> names[i] in columns
    requires forall i, j :: 0 <= i < j < |names| ==> names[i] != names[j]
    requires column in names
    ensures TaskCount(WithTask(columns, column, task), names) == TaskCount(columns, names) + 1
    decreases |names|
  {
    var r := WithTask(columns, column, task);
    if names[0] == column {
      assert column !in names[1..];
      SameColumnsSameCount(columns, r, names[1..]);
    } else {
      WithTaskCountsOne(columns, names[1..], column, task);
    }
  }

  /** Columns that agree on every listed name have the same total. */
  lemma {:induction false} SameColumnsSameCount(a: map<string, seq<KanbanTask>>, b: map<string, seq<KanbanTask>>, names: seq<string>)
    requires forall i :: 0 <= i < |names| ==> names[i] in a && names[i] in b && a[names[i]] == b[names[i]]
    ensures TaskCount(a, names) == TaskCount(b, names)
    decreases |names|
  {
    if names != [] {
      SameColumnsSameCount(a, b, names[1..]);
    }
  }

  class KanbanBoard {
    var columns: map<string, seq<KanbanTask>>

    /** The board has exactly the four columns. */
    ghost predicate Valid()
      reads this
    {
      columns.Keys == set k | k in ColumnNames
    }

    /** The board starts with the four columns, all empty. */
    constructor ()
      ensures Valid()
      ensures forall k :: k in columns ==> columns[k] == []
    {
      columns := map["Backlog" := [], "ToDo" := [], "InProgress" := [], "Done" := []];
    }

    /** `handleAddTask`: the answer to the prompt is null when cancelled; an
        empty or cancelled answer changes nothing, any other title becomes
        a task with that title and the fixed description, appended to the
        column. The id is the clock reading taken at that moment. */
    method AddTask(column: string, answer: Option<string>, now: int)
      requires Valid() && column in columns
      modifies this
      ensures Valid()
      ensures !Present(answer) ==> columns == old(columns)
      ensures Present(answer) ==> columns == WithTask(old(columns), column, KanbanTask(now, answer.value, NewTaskDescription))
    {
      if Present(answer) {
        var task := KanbanTask(now, answer.value, NewTaskDescription);
        columns := columns[column := columns[column] + [task]];
      }
    }
  }
}

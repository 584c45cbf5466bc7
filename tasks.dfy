/**
 * The task record of the todo list and the pure list transforms behind its two
 * user actions: appending a new task and flipping the `done` flag by id.
 */
module Tasks {

  /** One row of the list: a timestamp id, the text as typed, and whether it is done. */
  datatype Task = Task(id: string, text: string, done: bool)

  /** The task `addTask` builds from the input field and the current timestamp. */
  function NewTask(text: string, id: string): (t: Task)
    ensures t.id == id && t.text == text && !t.done
  {
    Task(id, text, false)
  }

  /** `[...tasks, newItem]`: the old list, in order, followed by the new item. */
  function Appended(tasks: seq<Task>, item: Task): (r: seq<Task>)
    ensures |r| == |tasks| + 1
    ensures r[..|tasks|] == tasks && r[|tasks|] == item
  {
    tasks + [item]
  }

  /** The callback given to `tasks.map`: a matching task gets its flag flipped, any other is returned as is. */
  function ToggleOne(t: Task, id: string): (u: Task)
    ensures u.id == t.id && u.text == t.text
    ensures u.done == (t.done != (t.id == id))
  {
    if t.id == id then t.(done := !t.done) else t
  }

  /** `tasks.map(ToggleOne)`: every task whose id matches is flipped, in place, and nothing else moves. */
  function Toggled(tasks: seq<Task>, id: string): (r: seq<Task>)
    ensures |r| == |tasks|
    ensures forall i :: 0 <= i < |r| ==> r[i].id == tasks[i].id && r[i].text == tasks[i].text
    ensures forall i :: 0 <= i < |r| ==> r[i].done == (tasks[i].done != (tasks[i].id == id))
    decreases |tasks|
  {
    if tasks == [] then [] else [ToggleOne(tasks[0], id)] + Toggled(tasks[1..], id)
  }

  /** The ids of a list, in order. */
  function Ids(tasks: seq<Task>): (r: seq<string>)
    ensures |r| == |tasks| && forall i :: 0 <= i < |r| ==> r[i] == tasks[i].id
    decreases |tasks|
  {
    if tasks == [] then [] else [tasks[0].id] + Ids(tasks[1..])
  }

  /** No two tasks share an id: what the timestamp ids aim for but do not guarantee. */
  predicate UniqueIds(tasks: seq<Task>)
  {
    forall i, j :: 0 <= i < j < |tasks| ==> tasks[i].id != tasks[j].id
  }

  /** `id` is the id of some task of the list. */
  predicate HasId(tasks: seq<Task>, id: string)
  {
    exists i :: 0 <= i < |tasks| && tasks[i].id == id
  }

  /** Toggling twice with the same id gives back the original list. */
  lemma ToggleInvolution(tasks: seq<Task>, id: string)
    ensures Toggled(Toggled(tasks, id), id) == tasks
  {
  }

  /** Toggling an id that no task carries leaves the list exactly as it was. */
  lemma ToggleAbsent(tasks: seq<Task>, id: string)
    requires !HasId(tasks, id)
    ensures Toggled(tasks, id) == tasks
  {
  }

  /** Every task is either flipped (its id matches) or kept identical (it does not). */
  lemma ToggledPointwise(tasks: seq<Task>, id: string, i: nat)
    requires i < |tasks|
    ensures tasks[i].id == id ==> Toggled(tasks, id)[i] == tasks[i].(done := !tasks[i].done)
    ensures tasks[i].id != id ==> Toggled(tasks, id)[i] == tasks[i]
  {
  }

  /** With unique ids, toggling a present id flips exactly that one task and keeps all others identical. */
  lemma ToggleFlipsExactlyOne(tasks: seq<Task>, k: nat)
    requires UniqueIds(tasks) && k < |tasks|
    ensures Toggled(tasks, tasks[k].id)[k] == tasks[k].(done := !tasks[k].done)
    ensures forall j :: 0 <= j < |tasks| && j != k ==> Toggled(tasks, tasks[k].id)[j] == tasks[j]
  {
  }

  /** Toggling never changes the ids, so it keeps them unique. */
  lemma ToggleKeepsIds(tasks: seq<Task>, id: string)
    ensures Ids(Toggled(tasks, id)) == Ids(tasks)
    ensures UniqueIds(tasks) ==> UniqueIds(Toggled(tasks, id))
  {
  }

  /** Appending a task whose id is fresh keeps the ids unique; a repeated timestamp breaks them. */
  lemma AppendKeepsUniqueIds(tasks: seq<Task>, item: Task)
    requires UniqueIds(tasks)
    ensures UniqueIds(Appended(tasks, item)) <==> !HasId(tasks, item.id)
  {
  }
}

/**
 * The state of the todo screen: the task list, the text typed into the input
 * field, and the copy of the list last handed to device storage under the key
 * "TASKS". Each user action replaces the list and writes the whole new list back.
 */
module App {
  import opened JsString
  import opened Tasks

  datatype Option<T> = None | Some(value: T)

  /**
   * What reading the "TASKS" key and parsing it produced at start-up: no value,
   * the empty string, a failure (the read rejected or the JSON did not parse),
   * or a parsed list of tasks.
   */
  datatype Saved = Missing | EmptyString | Unreadable | Parsed(list: seq<Task>)

  /** The list after start-up loading: only a parsed value replaces it; anything else leaves it as it was. */
  function LoadedTasks(current: seq<Task>, saved: Saved): (r: seq<Task>)
    ensures saved.Parsed? ==> r == saved.list
    ensures !saved.Parsed? ==> r == current
  {
    match saved
    case Parsed(list) => list
    case _ => current
  }

  class TodoApp {
    /** The tasks in display order, which is also insertion order and stored order. */
    var tasks: seq<Task>
    /** The current contents of the input field. */
    var newTask: string
    /** The list most recently handed to storage in this session; None before the first write. */
    ghost var stored: Option<seq<Task>>

    /** Both pieces of component state start empty; nothing has been written yet. */
    constructor ()
      ensures tasks == [] && newTask == "" && stored == None
    {
      tasks := [];
      newTask := "";
      stored := None;
    }

    /** Start-up: replace the list with what was read from storage, when a list could be parsed. */
    method LoadTasks(saved: Saved)
      modifies this`tasks
      ensures tasks == LoadedTasks(old(tasks), saved)
    {
      if saved.Parsed? {
        tasks := saved.list;
      }
    }

    /** Typing in the input field replaces its contents and nothing else. */
    method SetNewTask(text: string)
      modifies this`newTask
      ensures newTask == text
    {
      newTask := text;
    }

    /** Write the whole list to storage, overwriting the previous value. */
    method SaveTasks(updated: seq<Task>)
      modifies this`stored
      ensures stored == Some(updated)
    {
      stored := Some(updated);
    }

    /**
     * The Add button. Blank input (white space only) changes nothing, not even
     * the input field. Otherwise the untrimmed text becomes a new pending task
     * with the given timestamp id at the end of the list, that list is stored,
     * and the input field is cleared.
     */
    method AddTask(id: string)
      modifies this`tasks, this`newTask, this`stored
      ensures AllWhitespace(old(newTask)) ==>
                tasks == old(tasks) && newTask == old(newTask) && stored == old(stored)
      ensures !AllWhitespace(old(newTask)) ==>
                tasks == Appended(old(tasks), NewTask(old(newTask), id))
                && stored == Some(tasks) && newTask == ""
    {
      TrimEmptyIffAllWhitespace(newTask);
      if Trim(newTask) == "" {
        return;
      }
      var newItem := NewTask(newTask, id);
      var updated := Appended(tasks, newItem);
      tasks := updated;
      SaveTasks(updated);
      newTask := "";
    }

    /**
     * Tapping a row: flip every task carrying `id` (all of them if the id repeats,
     * none if it is absent), and store the resulting list either way.
     */
    method ToggleTask(id: string)
      modifies this`tasks, this`stored
      ensures tasks == Toggled(old(tasks), id)
      ensures stored == Some(tasks)
    {
      var updated := Toggled(tasks, id);
      tasks := updated;
      SaveTasks(updated);
    }
  }

  /**
   * A first run on an empty device, a restart that reads back what was stored,
   * and a toggle of the restored task.
   */
  method FirstRunThenRestart(id: string)
  {
    var first := new TodoApp();
    first.LoadTasks(Missing);
    assert first.tasks == [];
    first.SetNewTask("Buy milk");
    NonBlankSurvivesTrim("Buy milk", 0);
    first.AddTask(id);
    assert first.tasks == [Task(id, "Buy milk", false)] == first.stored.value;
    assert first.newTask == "";

    var written := first.tasks;
    assert written == first.stored.value;
    var second := new TodoApp();
    second.LoadTasks(Parsed(written));
    assert second.tasks == first.tasks;
    second.ToggleTask(id);
    assert second.tasks == [Task(id, "Buy milk", true)] == second.stored.value;

    var blank := new TodoApp();
    blank.LoadTasks(Unreadable);
    blank.SetNewTask("   ");
    assert AllWhitespace("   ") by {
      forall i | 0 <= i < 3 ensures IsWhitespace("   "[i]) {
        assert "   "[i] == ' ';
      }
    }
    blank.AddTask(id);
    assert blank.tasks == [] && blank.newTask == "   " && blank.stored == None;
  }
}

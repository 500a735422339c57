/**
 * Adding an AI task to an entity only when no task of the same runtime
 * class is already registered. Tasks and task entries are objects; the
 * entity's task list is a sequence of entries that `AddTask` appends to.
 */
module AIPlugin {
  import opened JavaClasses

  /** An AI task object; only its runtime class is looked at. */
  class AITask {
    const runtimeClass: ClassRef

    constructor (c: ClassRef)
      ensures runtimeClass == c
    {
      runtimeClass := c;
    }
  }

  /** One registered task with its priority. */
  class TaskEntry {
    const priority: int
    const action: AITask

    constructor (priority: int, action: AITask)
      ensures this.priority == priority && this.action == action
    {
      this.priority := priority;
      this.action := action;
    }
  }

  /** Some entry's task has exactly the runtime class `c` (class identity, not subtyping). */
  predicate HasTaskOfClass(entries: seq<TaskEntry>, c: ClassRef) {
    exists i :: 0 <= i < |entries| && entries[i].action.runtimeClass == c
  }

  /** An entity's task list. */
  class TaskList {
    var taskEntries: seq<TaskEntry>

    constructor ()
      ensures taskEntries == []
    {
      taskEntries := [];
    }

    /**
     * `addTask`: registers a new entry at the end. `AddAITask` reaches it
     * only after its class scan found no entry of the task's class.
     */
    method AddTask(priority: int, task: AITask)
      modifies this
      ensures |taskEntries| == |old(taskEntries)| + 1
      ensures taskEntries[..|old(taskEntries)|] == old(taskEntries)
      ensures fresh(taskEntries[|old(taskEntries)|])
      ensures taskEntries[|old(taskEntries)|].priority == priority
      ensures taskEntries[|old(taskEntries)|].action == task
    {
      var entry := new TaskEntry(priority, task);
      taskEntries := taskEntries + [entry];
    }
  }

  class EntityLiving {
    const tasks: TaskList

    constructor ()
      ensures fresh(tasks) && tasks.taskEntries == []
    {
      tasks := new TaskList();
    }
  }

  /**
   * `addAITask`: scans the entries and gives up at the first one whose task
   * has the new task's class; otherwise appends `(priority, task)`.
   */
  method AddAITask(entity: EntityLiving, priority: int, task: AITask) returns (added: bool)
    modifies entity.tasks
    ensures added <==> !HasTaskOfClass(old(entity.tasks.taskEntries), task.runtimeClass)
    ensures !added ==> entity.tasks.taskEntries == old(entity.tasks.taskEntries)
    ensures added ==> |entity.tasks.taskEntries| == |old(entity.tasks.taskEntries)| + 1
    ensures entity.tasks.taskEntries[..|old(entity.tasks.taskEntries)|] == old(entity.tasks.taskEntries)
    ensures added ==> fresh(entity.tasks.taskEntries[|old(entity.tasks.taskEntries)|])
    ensures added ==> entity.tasks.taskEntries[|old(entity.tasks.taskEntries)|].priority == priority
    ensures added ==> entity.tasks.taskEntries[|old(entity.tasks.taskEntries)|].action == task
  {
    var entries := entity.tasks.taskEntries;
    for i := 0 to |entries|
      invariant forall j :: 0 <= j < i ==> entries[j].action.runtimeClass != task.runtimeClass
    {
      if entries[i].action.runtimeClass == task.runtimeClass {
        return false;
      }
    }
    entity.tasks.AddTask(priority, task);
    return true;
  }

  /** After a task is added, a second task of the same class is refused and changes nothing. */
  method AddSameClassTwice(entity: EntityLiving, priority: int, first: AITask, second: AITask)
      returns (addedFirst: bool, addedSecond: bool)
    requires second.runtimeClass == first.runtimeClass
    modifies entity.tasks
    ensures !addedSecond
    ensures addedFirst ==> |entity.tasks.taskEntries| == |old(entity.tasks.taskEntries)| + 1
    ensures !addedFirst ==> entity.tasks.taskEntries == old(entity.tasks.taskEntries)
  {
    addedFirst := AddAITask(entity, priority, first);
    assert HasTaskOfClass(entity.tasks.taskEntries, first.runtimeClass) by {
      if !addedFirst {
        var i :| 0 <= i < |old(entity.tasks.taskEntries)| &&
          old(entity.tasks.taskEntries)[i].action.runtimeClass == first.runtimeClass;
        assert entity.tasks.taskEntries[i] == old(entity.tasks.taskEntries)[i];
      } else {
        var n := |old(entity.tasks.taskEntries)|;
        assert entity.tasks.taskEntries[n].action == first;
      }
    }
    addedSecond := AddAITask(entity, priority, second);
  }

  /**
   * The class test is identity: a task whose class extends the class of
   * every registered task is not blocked by them.
   */
  lemma SubclassTaskNotBlocked(entries: seq<TaskEntry>, task: AITask)
    requires forall i :: 0 <= i < |entries| ==> IsProperSubclass(task.runtimeClass, entries[i].action.runtimeClass)
    ensures !HasTaskOfClass(entries, task.runtimeClass)
  {
    forall i | 0 <= i < |entries|
      ensures entries[i].action.runtimeClass != task.runtimeClass
    {
      ProperSubclassDiffers(task.runtimeClass, entries[i].action.runtimeClass);
    }
  }

  /** An entry only blocks tasks of its own class: adding one never blocks a different class. */
  lemma AppendBlocksOnlyItsClass(entries: seq<TaskEntry>, e: TaskEntry, c: ClassRef)
    ensures HasTaskOfClass(entries + [e], e.action.runtimeClass)
    ensures c != e.action.runtimeClass ==>
      (HasTaskOfClass(entries + [e], c) <==> HasTaskOfClass(entries, c))
  {
    var all := entries + [e];
    assert all[|entries|] == e;
    if c != e.action.runtimeClass && HasTaskOfClass(all, c) {
      var i :| 0 <= i < |all| && all[i].action.runtimeClass == c;
      assert i < |entries| && entries[i] == all[i];
    }
    if HasTaskOfClass(entries, c) {
      var i :| 0 <= i < |entries| && entries[i].action.runtimeClass == c;
      assert all[i] == entries[i];
    }
  }
}

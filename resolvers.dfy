/**
 * The two relevance resolvers: which test files and which tasks the
 * selected-tests service relates to the changed files, after filtering. The
 * service's answers are inputs (it is a network client).
 */
module Resolvers {
  import opened Wrappers
  import opened Evergreen
  import opened Exclusion

  /** One entry of the service's test mappings: the test files it relates. */
  datatype TestMapping = TestMapping(testFiles: seq<string>)

  /** One entry of the service's task mappings: the task names it relates. */
  datatype TaskMapping = TaskMapping(tasks: seq<string>)

  /** `_find_selected_test_files`: every test file name across all mappings
      that the test-file classifier accepts, duplicates collapsed. */
  function FindSelectedTestFiles(testMappings: seq<TestMapping>, isTestFile: string -> bool): (r: set<string>)
    ensures forall name :: name in r <==>
      isTestFile(name) && exists m :: m in testMappings && name in m.testFiles
  {
    set m, name | m in testMappings && name in m.testFiles && isTestFile(name) :: name
  }

  /** The task names the service returned, duplicates collapsed. */
  function ReturnedTaskNames(taskMappings: seq<TaskMapping>): (r: set<string>)
    ensures forall name :: name in r <==> exists m :: m in taskMappings && name in m.tasks
  {
    set m, name | m in taskMappings && name in m.tasks :: name
  }

  /** `_find_task`: the task under the exact name, else the one under the
      name with "_gen" appended, else nothing. */
  function FindTask(tasks: map<string, Task>, name: string): (r: Option<Task>)
    ensures name in tasks ==> r == Some(tasks[name])
    ensures name !in tasks && name + "_gen" in tasks ==> r == Some(tasks[name + "_gen"])
    ensures r.None? <==> name !in tasks && name + "_gen" !in tasks
  {
    var task := GetTask(tasks, name);
    if task.None? then GetTask(tasks, name + "_gen") else task
  }

  /** A found task is registered under the name asked for, or under that
      name with the "_gen" suffix; the lookup never strips a suffix. */
  lemma FindTaskResolvedName(tasks: map<string, Task>, name: string)
    requires KeyedByName(tasks)
    requires FindTask(tasks, name).Some?
    ensures FindTask(tasks, name).value.name in tasks
    ensures FindTask(tasks, name).value.name == name || FindTask(tasks, name).value.name == name + "_gen"
  {
  }

  /** The name that returned task name `name` contributes to the selection:
      the resolved task's own name, when the task exists and is eligible. */
  function Contribution(tasks: map<string, Task>, name: string): (r: set<string>)
    ensures r == {} <==> FindTask(tasks, name).None? || IsExcluded(FindTask(tasks, name).value.name)
    ensures r != {} ==> r == {FindTask(tasks, name).value.name}
  {
    match FindTask(tasks, name)
    case None => {}
    case Some(task) => if IsExcluded(task.name) then {} else {task.name}
  }

  /** What `_find_selected_tasks` selects from the returned names. */
  function SelectedTaskNames(tasks: map<string, Task>, returned: set<string>): (r: set<string>)
    ensures forall t :: t in r <==>
      exists name :: name in returned && FindTask(tasks, name).Some?
                     && FindTask(tasks, name).value.name == t && !IsExcluded(t)
  {
    var r := set name, t | name in returned && t in Contribution(tasks, name) :: t;
    assert forall t :: t in r <==>
      exists name :: name in returned && FindTask(tasks, name).Some?
                     && FindTask(tasks, name).value.name == t && !IsExcluded(t)
    by {
      forall t, name | name in returned && FindTask(tasks, name).Some?
                       && FindTask(tasks, name).value.name == t && !IsExcluded(t)
        ensures t in r
      {
        assert t in Contribution(tasks, name);
      }
    }
    r
  }

  /** `_find_selected_tasks`: asks the service for related tasks, resolves
      each through the lookup, and keeps the resolved names of the ones
      that exist and are not excluded. */
  method FindSelectedTasks(taskMappings: seq<TaskMapping>, variant: Variant) returns (existing: set<string>)
    ensures existing == SelectedTaskNames(variant.tasks, ReturnedTaskNames(taskMappings))
  {
    var returned := ReturnedTaskNames(taskMappings);
    existing := {};
    var remaining := returned;
    while remaining != {}
      invariant remaining <= returned
      invariant existing == SelectedTaskNames(variant.tasks, returned - remaining)
      decreases remaining
    {
      var name :| name in remaining;
      ghost var done := returned - remaining;
      var task := FindTask(variant.tasks, name);
      if task.Some? {
        if !IsExcluded(task.value.name) {
          existing := existing + {task.value.name};
        }
      }
      remaining := remaining - {name};
      SelectedTaskNamesAdd(variant.tasks, done, name);
      assert returned - remaining == done + {name};
    }
  }

  lemma SelectedTaskNamesAdd(tasks: map<string, Task>, done: set<string>, name: string)
    ensures SelectedTaskNames(tasks, done + {name}) == SelectedTaskNames(tasks, done) + Contribution(tasks, name)
  {
  }

  /** No selected task is excluded. */
  lemma SelectedNeverExcluded(tasks: map<string, Task>, returned: set<string>, t: string)
    requires t in SelectedTaskNames(tasks, returned)
    ensures !IsExcluded(t)
  {
  }

  /** Every selected name is that of a task of the variant, found for some
      returned name under that name or with the "_gen" suffix; and every
      returned name that resolves to an eligible task is selected. Names
      with no task are dropped. */
  lemma SelectedTasksExist(tasks: map<string, Task>, returned: set<string>)
    requires KeyedByName(tasks)
    ensures forall t :: t in SelectedTaskNames(tasks, returned) ==>
      t in tasks && exists name :: name in returned && (t == name || t == name + "_gen")
    ensures forall name :: name in returned && FindTask(tasks, name).Some? && !IsExcluded(FindTask(tasks, name).value.name) ==>
      FindTask(tasks, name).value.name in SelectedTaskNames(tasks, returned)
  {
    forall name | name in returned && FindTask(tasks, name).Some? && !IsExcluded(FindTask(tasks, name).value.name)
      ensures FindTask(tasks, name).value.name in SelectedTaskNames(tasks, returned)
    {
      var t := FindTask(tasks, name).value.name;
      assert t in Contribution(tasks, name);
    }
    forall t | t in SelectedTaskNames(tasks, returned)
      ensures t in tasks && exists name :: name in returned && (t == name || t == name + "_gen")
    {
      var name :| name in returned && t in Contribution(tasks, name);
      FindTaskResolvedName(tasks, name);
    }
  }
}

/**
 * The shape of the Evergreen project configuration that the selection engine
 * reads: the tasks of one build variant, with the `vars` of their resmoke
 * commands, and the variant's expansions.
 */
module Evergreen {
  import opened Wrappers

  /** A CI task of a build variant. A generator task ("generate resmoke tasks")
      takes its vars from its generate command, a plain task from its
      "run tests" command; a command that is absent, or has no vars, is `None`. */
  datatype Task = Task(
    name: string,
    isGenerateResmokeTask: bool,
    generateResmokeVars: Option<map<string, string>>,
    runTestsVars: Option<map<string, string>>)
  {
    /** The vars of the command this kind of task is driven by. */
    function CommandVars(): Option<map<string, string>>
    {
      if isGenerateResmokeTask then generateResmokeVars else runTestsVars
    }

    /** The same task with the vars of its driving command replaced. */
    function WithCommandVars(vars: map<string, string>): (t: Task)
      ensures t.name == name && t.isGenerateResmokeTask == isGenerateResmokeTask
      ensures t.CommandVars() == Some(vars)
    {
      if isGenerateResmokeTask then this.(generateResmokeVars := Some(vars))
      else this.(runTestsVars := Some(vars))
    }
  }

  /** Tasks of a variant are registered under their own names. */
  ghost predicate KeyedByName(tasks: map<string, Task>)
  {
    forall k :: k in tasks ==> tasks[k].name == k
  }

  /** `Variant.get_task`: the task registered under exactly `name`, if any. */
  function GetTask(tasks: map<string, Task>, name: string): (r: Option<Task>)
    ensures r.Some? <==> name in tasks
    ensures r.Some? ==> r.value == tasks[name]
  {
    if name in tasks then Some(tasks[name]) else None
  }

  /**
   * A build variant. Its name and expansions never change; the vars dicts of
   * its tasks are aliased by the selection engine and updated in place, so
   * the task map is mutable state.
   */
  class Variant {
    const name: string
    const expansions: map<string, string>
    var tasks: map<string, Task>

    ghost predicate Valid()
      reads this
    {
      KeyedByName(tasks)
    }

    constructor (name: string, expansions: map<string, string>, tasks: map<string, Task>)
      requires KeyedByName(tasks)
      ensures Valid()
      ensures this.name == name && this.expansions == expansions && this.tasks == tasks
    {
      this.name := name;
      this.expansions := expansions;
      this.tasks := tasks;
    }
  }
}

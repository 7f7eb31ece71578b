/**
 * The task config resolver: for one selected task, the parameters its
 * sub-suites are regenerated with, read from the task's own command vars and
 * from the expansions of the selected-tests task that runs the engine. The
 * vars dict is the one inside the variant configuration and is updated in
 * place, so resolving a task changes the variant.
 */
module TaskConfig {
  import opened Wrappers
  import opened Evergreen

  /** A config value: a string from the project or expansion files, or the
      set of test names a test-mapping config carries. */
  datatype Value = Str(s: string) | TestSet(tests: set<string>)

  /** A task config: configuration key to value. */
  type Config = map<string, Value>

  /** Why resolving a task config fails: the task is not in the variant, its
      driving command has no vars, or a required key is missing. */
  datatype Error = TaskNotFound(task: string) | MissingCommandVars(task: string) | MissingKey(key: string)

  /** `ResmokeArgs.get_arg` and `ResmokeArgs.remove_arg`, whose workings are
      not part of this model. */
  datatype ResmokeArgs = ResmokeArgs(
    getArg: (string, string) -> Option<string>,
    removeArg: (string, string) -> string)

  /** Python's truth value of what `get_arg` returns: neither None nor "". */
  predicate Truthy(arg: Option<string>)
  {
    arg.Some? && arg.value != ""
  }

  /** The string values of a vars or expansions dict, as config values. */
  function StrValues(m: map<string, string>): (c: Config)
    ensures c.Keys == m.Keys
    ensures forall k :: k in m ==> c[k] == Str(m[k])
  {
    map k | k in m :: Str(m[k])
  }

  const IdentityKeys: set<string> :=
    {"name_of_generating_task", "name_of_generating_build_variant", "name_of_generating_build_id"}

  /** `_get_selected_tests_task_config`: the identity of the selected-tests
      task itself, read from its expansions; a missing key raises, and the
      keys are read in the order task_name, build_variant, build_id. */
  function SelectedTestsTaskConfig(expansions: map<string, string>): (r: Result<map<string, string>, Error>)
    ensures r.Ok? <==> "task_name" in expansions && "build_variant" in expansions && "build_id" in expansions
    ensures r.Ok? ==> (
      && r.value.Keys == IdentityKeys
      && r.value["name_of_generating_task"] == expansions["task_name"]
      && r.value["name_of_generating_build_variant"] == expansions["build_variant"]
      && r.value["name_of_generating_build_id"] == expansions["build_id"])
    ensures r.Err? ==> (
      && r.error.MissingKey? && r.error.key !in expansions
      && r.error.key in {"task_name", "build_variant", "build_id"})
    ensures r.Err? && "task_name" !in expansions ==> r.error == MissingKey("task_name")
  {
    if "task_name" !in expansions then Err(MissingKey("task_name"))
    else if "build_variant" !in expansions then Err(MissingKey("build_variant"))
    else if "build_id" !in expansions then Err(MissingKey("build_id"))
    else Ok(map[
      "name_of_generating_task" := expansions["task_name"],
      "name_of_generating_build_variant" := expansions["build_variant"],
      "name_of_generating_build_id" := expansions["build_id"]])
  }

  /**
   * The vars dict as `_get_evg_task_config` leaves it: a plain task gets a
   * fallback of one sub-suite; then, when resmoke_args is present, a truthy
   * `suites` argument is copied into `suite` and removed from resmoke_args.
   * (Without resmoke_args the call raises after the fallback was stored.)
   */
  function VarsAfterCall(vars: map<string, string>, isGenerateResmokeTask: bool, args: ResmokeArgs): (r: map<string, string>)
  {
    var stamped := if isGenerateResmokeTask then vars else vars["fallback_num_sub_suites" := "1"];
    if "resmoke_args" !in stamped then stamped
    else
      var resmokeArgs := stamped["resmoke_args"];
      var suiteName := args.getArg(resmokeArgs, "suites");
      var withSuite := if Truthy(suiteName) then stamped["suite" := suiteName.value] else stamped;
      withSuite["resmoke_args" := args.removeArg(resmokeArgs, "suites")]
  }

  /** What the call leaves in the vars dict: resmoke_args without the suites
      argument; `suite` set to that argument when it is truthy and untouched
      otherwise; a fallback of "1" for a plain task and none added for a
      generator task; every other key as it was, and no key added but
      `suite` and the fallback. */
  lemma VarsAfterCallContents(vars: map<string, string>, isGenerateResmokeTask: bool, args: ResmokeArgs)
    ensures
      var r := VarsAfterCall(vars, isGenerateResmokeTask, args);
      var fallback := "fallback_num_sub_suites";
      && (!isGenerateResmokeTask ==> fallback in r && r[fallback] == "1")
      && (isGenerateResmokeTask ==> (fallback in r <==> fallback in vars) && (fallback in vars ==> r[fallback] == vars[fallback]))
      && ("resmoke_args" in r <==> "resmoke_args" in vars)
      && ("resmoke_args" in vars ==> r["resmoke_args"] == args.removeArg(vars["resmoke_args"], "suites"))
      && ("resmoke_args" in vars && Truthy(args.getArg(vars["resmoke_args"], "suites")) ==>
            "suite" in r && r["suite"] == args.getArg(vars["resmoke_args"], "suites").value)
      && (!("resmoke_args" in vars && Truthy(args.getArg(vars["resmoke_args"], "suites"))) ==>
            ("suite" in r <==> "suite" in vars) && ("suite" in vars ==> r["suite"] == vars["suite"]))
      && (forall k :: k in vars && k !in {fallback, "resmoke_args", "suite"} ==> k in r && r[k] == vars[k])
      && (forall k :: k in r ==> k in vars || k in {fallback, "suite"})
  {
  }

  /** The task as the variant holds it after its config was resolved. */
  function TaskAfterCall(task: Task, args: ResmokeArgs): (t: Task)
    ensures t.name == task.name && t.isGenerateResmokeTask == task.isGenerateResmokeTask
    ensures t.CommandVars().Some? <==> task.CommandVars().Some?
    ensures task.CommandVars().Some? ==>
      t.CommandVars().value == VarsAfterCall(task.CommandVars().value, task.isGenerateResmokeTask, args)
  {
    match task.CommandVars()
    case None => task
    case Some(vars) => task.WithCommandVars(VarsAfterCall(vars, task.isGenerateResmokeTask, args))
  }

  /** The variant's tasks after resolving each task named in `names`. */
  function TasksAfterCalls(tasks: map<string, Task>, names: set<string>, args: ResmokeArgs): (r: map<string, Task>)
    ensures r.Keys == tasks.Keys
    ensures KeyedByName(tasks) ==> KeyedByName(r)
  {
    map k | k in tasks :: if k in names then TaskAfterCall(tasks[k], args) else tasks[k]
  }

  /** The dict `_get_evg_task_config` returns: task name and variant name
      first, then the task's vars, then the identity keys; later layers win. */
  function LayerTaskConfig(taskName: string, variantName: string, vars: map<string, string>,
                           identity: map<string, string>): (c: Config)
  {
    map["task_name" := Str(taskName), "build_variant" := Str(variantName)] + StrValues(vars) + StrValues(identity)
  }

  /** The layering of the returned dict: identity keys win over vars, vars
      over the task and variant names. */
  lemma LayerPrecedence(taskName: string, variantName: string, vars: map<string, string>, identity: map<string, string>)
    ensures
      var c := LayerTaskConfig(taskName, variantName, vars, identity);
      && c.Keys == {"task_name", "build_variant"} + vars.Keys + identity.Keys
      && (forall k :: k in identity ==> c[k] == Str(identity[k]))
      && (forall k :: k in vars && k !in identity ==> c[k] == Str(vars[k]))
      && ("task_name" !in vars && "task_name" !in identity ==> c["task_name"] == Str(taskName))
      && ("build_variant" !in vars && "build_variant" !in identity ==> c["build_variant"] == Str(variantName))
  {
  }

  /** `_get_evg_task_config`, as a value: the config of `taskName`, or the
      error the call raises. */
  function EvgTaskConfig(tasks: map<string, Task>, variantName: string, expansions: map<string, string>,
                         taskName: string, args: ResmokeArgs): (r: Result<Config, Error>)
  {
    match GetTask(tasks, taskName)
    case None => Err(TaskNotFound(taskName))
    case Some(task) =>
      match task.CommandVars()
      case None => Err(MissingCommandVars(taskName))
      case Some(vars) =>
        if "resmoke_args" !in vars then Err(MissingKey("resmoke_args"))
        else
          match SelectedTestsTaskConfig(expansions)
          case Err(e) => Err(e)
          case Ok(identity) =>
            Ok(LayerTaskConfig(task.name, variantName,
                               VarsAfterCall(vars, task.isGenerateResmokeTask, args), identity))
  }

  /** When resolving raises: a task missing from the variant, a driving
      command without vars, vars without resmoke_args, or an identity key
      missing from the expansions; nothing else makes it fail. */
  lemma EvgTaskConfigOk(tasks: map<string, Task>, variantName: string, expansions: map<string, string>,
                        taskName: string, args: ResmokeArgs)
    ensures EvgTaskConfig(tasks, variantName, expansions, taskName, args).Ok? <==>
      && taskName in tasks
      && tasks[taskName].CommandVars().Some?
      && "resmoke_args" in tasks[taskName].CommandVars().value
      && "task_name" in expansions && "build_variant" in expansions && "build_id" in expansions
    ensures taskName !in tasks ==> EvgTaskConfig(tasks, variantName, expansions, taskName, args) == Err(TaskNotFound(taskName))
  {
  }

  /** A config that resolves is the layered dict of the task's vars as the
      call leaves them and the selected-tests task's identity. */
  lemma EvgTaskConfigLayers(tasks: map<string, Task>, variantName: string, expansions: map<string, string>,
                            taskName: string, args: ResmokeArgs)
    requires EvgTaskConfig(tasks, variantName, expansions, taskName, args).Ok?
    ensures taskName in tasks && tasks[taskName].CommandVars().Some?
    ensures SelectedTestsTaskConfig(expansions).Ok?
    ensures EvgTaskConfig(tasks, variantName, expansions, taskName, args).value
         == LayerTaskConfig(tasks[taskName].name, variantName,
              VarsAfterCall(tasks[taskName].CommandVars().value, tasks[taskName].isGenerateResmokeTask, args),
              SelectedTestsTaskConfig(expansions).value)
  {
    EvgTaskConfigOk(tasks, variantName, expansions, taskName, args);
    assert GetTask(tasks, taskName) == Some(tasks[taskName]);
  }

  /** What a resolved config holds: the identity of the selected-tests task,
      and the task and variant names (possibly overridden by the vars). */
  lemma EvgTaskConfigIdentity(tasks: map<string, Task>, variantName: string, expansions: map<string, string>,
                              taskName: string, args: ResmokeArgs)
    requires EvgTaskConfig(tasks, variantName, expansions, taskName, args).Ok?
    ensures
      var c := EvgTaskConfig(tasks, variantName, expansions, taskName, args).value;
      && c["name_of_generating_task"] == Str(expansions["task_name"])
      && c["name_of_generating_build_variant"] == Str(expansions["build_variant"])
      && c["name_of_generating_build_id"] == Str(expansions["build_id"])
      && "task_name" in c && "build_variant" in c
  {
    EvgTaskConfigLayers(tasks, variantName, expansions, taskName, args);
    var task := tasks[taskName];
    LayerPrecedence(task.name, variantName, VarsAfterCall(task.CommandVars().value, task.isGenerateResmokeTask, args),
                    SelectedTestsTaskConfig(expansions).value);
  }

  /** What a resolved config takes from the task's vars: resmoke_args
      without the suites argument, the suite it named when it named one, a
      fallback of one sub-suite for a plain task; it holds
      "selected_tests_to_run" only when the task's own vars do. */
  lemma EvgTaskConfigContents(tasks: map<string, Task>, variantName: string, expansions: map<string, string>,
                              taskName: string, args: ResmokeArgs)
    requires EvgTaskConfig(tasks, variantName, expansions, taskName, args).Ok?
    ensures
      var c := EvgTaskConfig(tasks, variantName, expansions, taskName, args).value;
      var task := tasks[taskName];
      var vars := task.CommandVars().value;
      && c["resmoke_args"] == Str(args.removeArg(vars["resmoke_args"], "suites"))
      && (!task.isGenerateResmokeTask ==> c["fallback_num_sub_suites"] == Str("1"))
      && (Truthy(args.getArg(vars["resmoke_args"], "suites")) ==>
            c["suite"] == Str(args.getArg(vars["resmoke_args"], "suites").value))
      && ("selected_tests_to_run" in c <==> "selected_tests_to_run" in vars)
  {
    EvgTaskConfigLayers(tasks, variantName, expansions, taskName, args);
    EvgTaskConfigOk(tasks, variantName, expansions, taskName, args);
    var task := tasks[taskName];
    LayeredVarsContents(task.name, variantName, task.CommandVars().value, task.isGenerateResmokeTask,
                        SelectedTestsTaskConfig(expansions).value, args);
  }

  /** The keys the layered dict takes from the vars as the call leaves them
      (none of them is an identity key). */
  lemma LayeredVarsContents(taskName: string, variantName: string, vars: map<string, string>,
                            isGenerateResmokeTask: bool, identity: map<string, string>, args: ResmokeArgs)
    requires identity.Keys == IdentityKeys
    requires "resmoke_args" in vars
    ensures
      var c := LayerTaskConfig(taskName, variantName, VarsAfterCall(vars, isGenerateResmokeTask, args), identity);
      && c["resmoke_args"] == Str(args.removeArg(vars["resmoke_args"], "suites"))
      && (!isGenerateResmokeTask ==> c["fallback_num_sub_suites"] == Str("1"))
      && (Truthy(args.getArg(vars["resmoke_args"], "suites")) ==>
            c["suite"] == Str(args.getArg(vars["resmoke_args"], "suites").value))
      && ("selected_tests_to_run" in c <==> "selected_tests_to_run" in vars)
  {
    assert "resmoke_args" !in identity;
    assert "fallback_num_sub_suites" !in identity;
    assert "suite" !in identity;
    assert "selected_tests_to_run" !in identity && "selected_tests_to_run" !in {"task_name", "build_variant"};
  }

  /** `_get_evg_task_config`: resolves the config of `taskName`, updating
      the task's vars inside the variant as it goes. The new state is the
      same whether or not a later step raises. */
  method GetEvgTaskConfig(variant: Variant, expansionFile: map<string, string>, taskName: string, args: ResmokeArgs)
    returns (r: Result<Config, Error>)
    requires variant.Valid()
    modifies variant
    ensures variant.Valid()
    ensures r == EvgTaskConfig(old(variant.tasks), variant.name, expansionFile, taskName, args)
    ensures variant.tasks == TasksAfterCalls(old(variant.tasks), {taskName}, args)
  {
    ghost var tasks0 := variant.tasks;
    var task := GetTask(variant.tasks, taskName);
    if task.None? {
      TasksAfterCallOne(tasks0, taskName, args);
      return Err(TaskNotFound(taskName));
    }
    var t := task.value;
    ghost var after := TaskAfterCall(t, args);
    TasksAfterCallOne(tasks0, taskName, args);
    var vars := t.CommandVars();
    if vars.None? {
      return Err(MissingCommandVars(taskName));
    }
    var taskVars := vars.value;
    if !t.isGenerateResmokeTask {
      taskVars := taskVars["fallback_num_sub_suites" := "1"];
      variant.tasks := variant.tasks[taskName := t.WithCommandVars(taskVars)];
    }
    if "resmoke_args" !in taskVars {
      assert t.WithCommandVars(taskVars) == after;
      return Err(MissingKey("resmoke_args"));
    }
    var suiteName := args.getArg(taskVars["resmoke_args"], "suites");
    if Truthy(suiteName) {
      taskVars := taskVars["suite" := suiteName.value];
    }
    taskVars := taskVars["resmoke_args" := args.removeArg(taskVars["resmoke_args"], "suites")];
    variant.tasks := variant.tasks[taskName := t.WithCommandVars(taskVars)];
    assert t.WithCommandVars(taskVars) == after;
    var identity := SelectedTestsTaskConfig(expansionFile);
    if identity.Err? {
      return Err(identity.error);
    }
    r := Ok(LayerTaskConfig(t.name, variant.name, taskVars, identity.value));
  }

  /** Resolving one task changes that task's entry and no other. */
  lemma TasksAfterCallOne(tasks: map<string, Task>, name: string, args: ResmokeArgs)
    ensures name !in tasks ==> TasksAfterCalls(tasks, {name}, args) == tasks
    ensures name in tasks ==> TasksAfterCalls(tasks, {name}, args) == tasks[name := TaskAfterCall(tasks[name], args)]
  {
  }

  /** Every task named in `names` resolves without raising. */
  ghost predicate ConfigsOk(tasks: map<string, Task>, variantName: string, expansions: map<string, string>,
                            names: set<string>, args: ResmokeArgs)
  {
    forall n :: n in names ==> EvgTaskConfig(tasks, variantName, expansions, n, args).Ok?
  }

  /** `set(test_list_info["tests"])`. */
  function TestsToRun(tests: seq<string>): (r: set<string>)
    ensures forall t :: t in r <==> t in tests
  {
    set t | t in tests
  }

  /** A test-mapping config: the task's config with the set of its tests
      to run; every other key keeps its value. */
  function WithTests(config: Config, tests: seq<string>): (r: Config)
    ensures "selected_tests_to_run" in r && r["selected_tests_to_run"] == TestSet(TestsToRun(tests))
    ensures r - {"selected_tests_to_run"} == config - {"selected_tests_to_run"}
  {
    config["selected_tests_to_run" := TestSet(TestsToRun(tests))]
  }

  /** What `_get_task_configs_for_test_mappings` builds: one config per task
      of the test-to-task mapping, carrying that task's tests. */
  function TestMappingConfigs(tasks: map<string, Task>, variantName: string, expansions: map<string, string>,
                              testsByTask: map<string, seq<string>>, args: ResmokeArgs): (r: map<string, Config>)
    requires ConfigsOk(tasks, variantName, expansions, testsByTask.Keys, args)
    ensures r.Keys == testsByTask.Keys
    ensures forall n :: n in r ==>
      r[n] == WithTests(EvgTaskConfig(tasks, variantName, expansions, n, args).value, testsByTask[n])
  {
    map n | n in testsByTask :: WithTests(EvgTaskConfig(tasks, variantName, expansions, n, args).value, testsByTask[n])
  }

  /** What `_get_task_configs_for_task_mappings` builds: the plain config of
      each related task. */
  function TaskMappingConfigs(tasks: map<string, Task>, variantName: string, expansions: map<string, string>,
                              related: set<string>, args: ResmokeArgs): (r: map<string, Config>)
    requires ConfigsOk(tasks, variantName, expansions, related, args)
    ensures r.Keys == related
    ensures forall n :: n in r ==> r[n] == EvgTaskConfig(tasks, variantName, expansions, n, args).value
  {
    map n | n in related :: EvgTaskConfig(tasks, variantName, expansions, n, args).value
  }

  /** Resolving some tasks leaves the config of every other task as it was. */
  lemma ConfigOfUntouched(tasks: map<string, Task>, variantName: string, expansions: map<string, string>,
                          done: set<string>, n: string, args: ResmokeArgs)
    requires n !in done
    ensures EvgTaskConfig(TasksAfterCalls(tasks, done, args), variantName, expansions, n, args)
         == EvgTaskConfig(tasks, variantName, expansions, n, args)
  {
    var after := TasksAfterCalls(tasks, done, args);
    assert n in after <==> n in tasks;
    if n in tasks {
      assert after[n] == tasks[n];
    }
  }

  /** Resolving one more task extends the set of resolved tasks. */
  lemma TasksAfterOneMore(tasks: map<string, Task>, done: set<string>, n: string, args: ResmokeArgs)
    requires n !in done
    ensures TasksAfterCalls(TasksAfterCalls(tasks, done, args), {n}, args) == TasksAfterCalls(tasks, done + {n}, args)
  {
  }

  /** One step of either loop: resolving a task not resolved yet gives the
      config it had in the original variant. */
  method ResolveNext(variant: Variant, expansionFile: map<string, string>, taskName: string, args: ResmokeArgs,
                     ghost tasks0: map<string, Task>, ghost done: set<string>)
    returns (config: Result<Config, Error>)
    requires variant.Valid()
    requires variant.tasks == TasksAfterCalls(tasks0, done, args)
    requires taskName !in done
    modifies variant
    ensures variant.Valid()
    ensures variant.tasks == TasksAfterCalls(tasks0, done + {taskName}, args)
    ensures config == EvgTaskConfig(tasks0, variant.name, expansionFile, taskName, args)
  {
    ConfigOfUntouched(tasks0, variant.name, expansionFile, done, taskName, args);
    TasksAfterOneMore(tasks0, done, taskName, args);
    config := GetEvgTaskConfig(variant, expansionFile, taskName, args);
  }

  /** Adding one more task's test-mapping config keeps every config the
      one specified. */
  lemma TestConfigAdded(configs: map<string, Config>, tasks: map<string, Task>, variantName: string,
                        expansions: map<string, string>, testsByTask: map<string, seq<string>>, args: ResmokeArgs,
                        taskName: string, config: Config)
    requires forall n :: n in configs ==> n in testsByTask && EvgTaskConfig(tasks, variantName, expansions, n, args).Ok?
    requires forall n :: n in configs ==>
      configs[n] == WithTests(EvgTaskConfig(tasks, variantName, expansions, n, args).value, testsByTask[n])
    requires taskName in testsByTask
    requires EvgTaskConfig(tasks, variantName, expansions, taskName, args) == Ok(config)
    ensures var added := configs[taskName := WithTests(config, testsByTask[taskName])];
      forall n :: n in added ==>
        added[n] == WithTests(EvgTaskConfig(tasks, variantName, expansions, n, args).value, testsByTask[n])
  {
  }

  /** `_get_task_configs_for_test_mappings`: the loop that resolves each task
      of the test-to-task mapping and adds its tests to its config. */
  method GetTaskConfigsForTestMappings(variant: Variant, expansionFile: map<string, string>,
                                       testsByTask: map<string, seq<string>>, args: ResmokeArgs)
    returns (r: Result<map<string, Config>, Error>)
    requires variant.Valid()
    modifies variant
    ensures variant.Valid()
    ensures r.Ok? <==> ConfigsOk(old(variant.tasks), variant.name, expansionFile, testsByTask.Keys, args)
    ensures r.Ok? ==>
      && r.value.Keys == testsByTask.Keys
      && (forall n :: n in r.value ==> r.value[n] == WithTests(EvgTaskConfig(old(variant.tasks), variant.name, expansionFile, n, args).value, testsByTask[n]))
      && variant.tasks == TasksAfterCalls(old(variant.tasks), testsByTask.Keys, args)
  {
    ghost var tasks0 := variant.tasks;
    var configs: map<string, Config> := map[];
    var remaining := testsByTask.Keys;
    ghost var done: set<string> := {};
    while remaining != {}
      invariant done <= testsByTask.Keys && remaining == testsByTask.Keys - done
      invariant variant.Valid()
      invariant variant.tasks == TasksAfterCalls(tasks0, done, args)
      invariant ConfigsOk(tasks0, variant.name, expansionFile, done, args)
      invariant configs.Keys == done
      invariant forall n :: n in configs ==>
        configs[n] == WithTests(EvgTaskConfig(tasks0, variant.name, expansionFile, n, args).value, testsByTask[n])
      decreases remaining
    {
      var taskName :| taskName in remaining;
      var config := ResolveNext(variant, expansionFile, taskName, args, tasks0, done);
      if config.Err? {
        assert !ConfigsOk(tasks0, variant.name, expansionFile, testsByTask.Keys, args);
        return Err(config.error);
      }
      TestConfigAdded(configs, tasks0, variant.name, expansionFile, testsByTask, args, taskName, config.value);
      configs := configs[taskName := WithTests(config.value, testsByTask[taskName])];
      remaining := remaining - {taskName};
      done := done + {taskName};
    }
    r := Ok(configs);
  }

  /** `_get_task_configs_for_task_mappings`: the loop that resolves each
      related task. */
  method GetTaskConfigsForTaskMappings(variant: Variant, expansionFile: map<string, string>,
                                       related: set<string>, args: ResmokeArgs)
    returns (r: Result<map<string, Config>, Error>)
    requires variant.Valid()
    modifies variant
    ensures variant.Valid()
    ensures r.Ok? <==> ConfigsOk(old(variant.tasks), variant.name, expansionFile, related, args)
    ensures r.Ok? ==>
      && r.value.Keys == related
      && (forall n :: n in r.value ==> r.value[n] == EvgTaskConfig(old(variant.tasks), variant.name, expansionFile, n, args).value)
      && variant.tasks == TasksAfterCalls(old(variant.tasks), related, args)
  {
    ghost var tasks0 := variant.tasks;
    var configs: map<string, Config> := map[];
    var remaining := related;
    ghost var done: set<string> := {};
    while remaining != {}
      invariant done <= related && remaining == related - done
      invariant variant.Valid()
      invariant variant.tasks == TasksAfterCalls(tasks0, done, args)
      invariant ConfigsOk(tasks0, variant.name, expansionFile, done, args)
      invariant configs.Keys == done
      invariant forall n :: n in configs ==> configs[n] == EvgTaskConfig(tasks0, variant.name, expansionFile, n, args).value
      decreases remaining
    {
      var taskName :| taskName in remaining;
      var config := ResolveNext(variant, expansionFile, taskName, args, tasks0, done);
      if config.Err? {
        assert !ConfigsOk(tasks0, variant.name, expansionFile, related, args);
        return Err(config.error);
      }
      configs := configs[taskName := config.value];
      remaining := remaining - {taskName};
      done := done + {taskName};
    }
    r := Ok(configs);
  }
}

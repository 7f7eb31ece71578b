/**
 * The top level of the selection engine: the option layering of each task's
 * generation config, the merge of the test-mapping and task-mapping configs,
 * and the loop that turns every merged config into suite files and generated
 * task definitions. The sub-suite generator and the shrub serialiser are not
 * part of this model: they are an `Engine` value passed in.
 */
module SelectedTests {
  import opened Wrappers
  import opened Evergreen
  import opened Exclusion
  import opened Resolvers
  import opened TaskConfig

  /** The name of the generated task configuration in the output. */
  const ConfigFileName: string := "selected_tests_config.json"

  /**
   * The generation engine of `_update_config_with_task`: the suite files
   * `GenerateSubSuites` writes for one task's options, the shrub
   * configuration after it adds that task's generated tasks, the empty shrub
   * configuration, and its JSON text.
   */
  datatype Engine<!S> = Engine(
    suiteFiles: Config -> map<string, string>,
    addTasks: (S, Config) -> S,
    empty: S,
    toJson: S -> string)

  /** `SelectedTestsConfigOptions.from_file`: the options of one task are the
      variant's expansions, overridden by the expansion file, overridden by
      the task config. */
  function FromFile(variantExpansions: map<string, string>, configFile: map<string, string>,
                    overwrites: Config): (c: Config)
    ensures c.Keys == variantExpansions.Keys + configFile.Keys + overwrites.Keys
    ensures forall k :: k in overwrites ==> c[k] == overwrites[k]
  {
    StrValues(variantExpansions) + StrValues(configFile) + overwrites
  }

  /** The layering of the options: the task config wins over the file, the
      file over the variant's expansions, and no key comes from elsewhere. */
  lemma FromFilePrecedence(variantExpansions: map<string, string>, configFile: map<string, string>,
                           overwrites: Config, k: string)
    ensures
      var c := FromFile(variantExpansions, configFile, overwrites);
      && (k in c <==> k in variantExpansions || k in configFile || k in overwrites)
      && (k in overwrites ==> c[k] == overwrites[k])
      && (k !in overwrites && k in configFile ==> c[k] == Str(configFile[k]))
      && (k !in overwrites && k !in configFile && k in variantExpansions ==> c[k] == Str(variantExpansions[k]))
  {
  }

  /** Python's truth value of an option's value. */
  predicate TruthyValue(v: Value)
  {
    match v
    case Str(s) => s != ""
    case TestSet(tests) => tests != {}
  }

  /** `create_misc_suite`: a catch-all suite is wanted unless the options
      name tests to run. */
  predicate CreateMiscSuite(options: Config): (r: bool)
    ensures "selected_tests_to_run" !in options ==> r
    ensures "selected_tests_to_run" in options && options["selected_tests_to_run"].TestSet? ==>
      (r <==> options["selected_tests_to_run"].tests == {})
    ensures "selected_tests_to_run" in options && options["selected_tests_to_run"].Str? ==>
      (r <==> options["selected_tests_to_run"].s == "")
  {
    !("selected_tests_to_run" in options && TruthyValue(options["selected_tests_to_run"]))
  }

  /** A test-mapping config asks for no catch-all suite exactly when it has
      no tests to run, whatever the layers below it say. */
  lemma MiscSuiteOfTestMapping(variantExpansions: map<string, string>, configFile: map<string, string>,
                               config: Config, tests: seq<string>)
    ensures CreateMiscSuite(FromFile(variantExpansions, configFile, WithTests(config, tests))) <==> tests == []
  {
    var c := FromFile(variantExpansions, configFile, WithTests(config, tests));
    assert c["selected_tests_to_run"] == TestSet(TestsToRun(tests));
    if tests != [] {
      assert tests[0] in TestsToRun(tests);
    }
  }

  /** An options dict without tests to run asks for the catch-all suite. */
  lemma MiscSuiteWithoutTests(variantExpansions: map<string, string>, configFile: map<string, string>,
                              config: Config)
    requires "selected_tests_to_run" !in variantExpansions
    requires "selected_tests_to_run" !in configFile
    requires "selected_tests_to_run" !in config
    ensures CreateMiscSuite(FromFile(variantExpansions, configFile, config))
  {
    FromFilePrecedence(variantExpansions, configFile, config, "selected_tests_to_run");
  }

  /** The merged task configs of `run`: a test-mapping config for each task
      of the test-to-task mapping, replaced by the task-mapping config for
      each related task. The task-mapping configs are resolved after the
      test-mapping ones, so they see the vars those left behind. */
  function MergedConfigs(tasks: map<string, Task>, variantName: string, expansions: map<string, string>,
                         testsByTask: map<string, seq<string>>, related: set<string>, args: ResmokeArgs)
    : (r: map<string, Config>)
    requires ConfigsOk(tasks, variantName, expansions, testsByTask.Keys, args)
    requires ConfigsOk(TasksAfterCalls(tasks, testsByTask.Keys, args), variantName, expansions, related, args)
    ensures r.Keys == testsByTask.Keys + related
    ensures forall n :: n in related ==>
      r[n] == EvgTaskConfig(TasksAfterCalls(tasks, testsByTask.Keys, args), variantName, expansions, n, args).value
    ensures forall n :: n in testsByTask && n !in related ==>
      r[n] == WithTests(EvgTaskConfig(tasks, variantName, expansions, n, args).value, testsByTask[n])
  {
    TestMappingConfigs(tasks, variantName, expansions, testsByTask, args)
      + TaskMappingConfigs(TasksAfterCalls(tasks, testsByTask.Keys, args), variantName, expansions, related, args)
  }

  /** Resolving a task's config a second time, as `run` does for a task that
      both mappings select, sees the vars the first call left behind. When
      stripping the suites argument is idempotent and leaves no suites
      argument behind, the second call returns the same config. */
  lemma VarsAfterCallTwice(vars: map<string, string>, isGenerateResmokeTask: bool, args: ResmokeArgs)
    requires "resmoke_args" in vars
    requires
      var stripped := args.removeArg(vars["resmoke_args"], "suites");
      args.removeArg(stripped, "suites") == stripped && !Truthy(args.getArg(stripped, "suites"))
    ensures VarsAfterCall(VarsAfterCall(vars, isGenerateResmokeTask, args), isGenerateResmokeTask, args)
         == VarsAfterCall(vars, isGenerateResmokeTask, args)
  {
    var once := VarsAfterCall(vars, isGenerateResmokeTask, args);
    var twice := VarsAfterCall(once, isGenerateResmokeTask, args);
    var stripped := args.removeArg(vars["resmoke_args"], "suites");
    assert "resmoke_args" in once && once["resmoke_args"] == stripped;
    if !isGenerateResmokeTask {
      assert once["fallback_num_sub_suites"] == "1";
      assert once["fallback_num_sub_suites" := "1"] == once;
    }
  }

  /** The config a task gets when resolved a second time equals the first
      one, under the same conditions on the suites argument. */
  lemma ResolveTwice(tasks: map<string, Task>, variantName: string, expansions: map<string, string>,
                     n: string, args: ResmokeArgs)
    requires EvgTaskConfig(tasks, variantName, expansions, n, args).Ok?
    requires n in tasks && tasks[n].CommandVars().Some? && "resmoke_args" in tasks[n].CommandVars().value
    requires
      var stripped := args.removeArg(tasks[n].CommandVars().value["resmoke_args"], "suites");
      args.removeArg(stripped, "suites") == stripped && !Truthy(args.getArg(stripped, "suites"))
    ensures EvgTaskConfig(TasksAfterCalls(tasks, {n}, args), variantName, expansions, n, args)
         == EvgTaskConfig(tasks, variantName, expansions, n, args)
  {
    var task := tasks[n];
    var vars := task.CommandVars().value;
    TasksAfterCallOne(tasks, n, args);
    VarsAfterCallTwice(vars, task.isGenerateResmokeTask, args);
    var after := TaskAfterCall(task, args);
    assert TasksAfterCalls(tasks, {n}, args)[n] == after;
    VarsAfterCallContents(vars, task.isGenerateResmokeTask, args);
  }

  /** A task both mappings select ends up with the task-mapping config; it
      is resolved from the vars the test-mapping call left behind, and
      under the conditions of `ResolveTwice` it is the config the task had
      in the variant as given. */
  lemma SharedTaskConfig(tasks: map<string, Task>, variantName: string, expansions: map<string, string>,
                         testsByTask: map<string, seq<string>>, related: set<string>, args: ResmokeArgs, n: string)
    requires SelectionOk(tasks, variantName, expansions, testsByTask, related, args)
    requires n in testsByTask && n in related
    requires n in tasks && tasks[n].CommandVars().Some? && "resmoke_args" in tasks[n].CommandVars().value
    requires
      var stripped := args.removeArg(tasks[n].CommandVars().value["resmoke_args"], "suites");
      args.removeArg(stripped, "suites") == stripped && !Truthy(args.getArg(stripped, "suites"))
    ensures n in MergedConfigs(tasks, variantName, expansions, testsByTask, related, args)
    ensures MergedConfigs(tasks, variantName, expansions, testsByTask, related, args)[n]
         == EvgTaskConfig(tasks, variantName, expansions, n, args).value
  {
    var tasks1 := TasksAfterCalls(tasks, testsByTask.Keys, args);
    var single := TasksAfterCalls(tasks, {n}, args);
    assert EvgTaskConfig(tasks, variantName, expansions, n, args).Ok?;
    ResolveTwice(tasks, variantName, expansions, n, args);
    assert tasks1[n] == single[n];
    assert GetTask(tasks1, n) == GetTask(single, n);
    assert EvgTaskConfig(tasks1, variantName, expansions, n, args) == EvgTaskConfig(single, variantName, expansions, n, args);
  }

  /** A task that only the test mappings select keeps its tests to run, so
      it gets no catch-all suite when it has tests. */
  lemma TestOnlyTaskRunsItsTests(tasks: map<string, Task>, variantName: string, expansions: map<string, string>,
                                 testsByTask: map<string, seq<string>>, related: set<string>, args: ResmokeArgs,
                                 variantExpansions: map<string, string>, n: string)
    requires SelectionOk(tasks, variantName, expansions, testsByTask, related, args)
    requires n in testsByTask && n !in related
    ensures n in MergedConfigs(tasks, variantName, expansions, testsByTask, related, args)
    ensures CreateMiscSuite(OptionsOf(variantExpansions, expansions,
                                      MergedConfigs(tasks, variantName, expansions, testsByTask, related, args), n))
        <==> testsByTask[n] == []
  {
    var merged := MergedConfigs(tasks, variantName, expansions, testsByTask, related, args);
    MiscSuiteOfTestMapping(variantExpansions, expansions,
                           EvgTaskConfig(tasks, variantName, expansions, n, args).value, testsByTask[n]);
  }

  /** A task that the task mappings select runs all its tests: unless its
      own vars or the expansions name tests to run, it gets the catch-all
      suite, even when the test mappings selected it too. */
  lemma RelatedTaskRunsAllTests(tasks: map<string, Task>, variantName: string, expansions: map<string, string>,
                                testsByTask: map<string, seq<string>>, related: set<string>, args: ResmokeArgs,
                                variantExpansions: map<string, string>, n: string)
    requires SelectionOk(tasks, variantName, expansions, testsByTask, related, args)
    requires n in related
    requires n in tasks && tasks[n].CommandVars().Some?
    requires "selected_tests_to_run" !in tasks[n].CommandVars().value
    requires "selected_tests_to_run" !in expansions && "selected_tests_to_run" !in variantExpansions
    ensures n in MergedConfigs(tasks, variantName, expansions, testsByTask, related, args)
    ensures CreateMiscSuite(OptionsOf(variantExpansions, expansions,
                                      MergedConfigs(tasks, variantName, expansions, testsByTask, related, args), n))
  {
    var tasks1 := TasksAfterCalls(tasks, testsByTask.Keys, args);
    var task := tasks[n];
    assert tasks1[n] == task || tasks1[n] == TaskAfterCall(task, args);
    VarsAfterCallContents(task.CommandVars().value, task.isGenerateResmokeTask, args);
    assert "selected_tests_to_run" !in tasks1[n].CommandVars().value;
    EvgTaskConfigContents(tasks1, variantName, expansions, n, args);
    var merged := MergedConfigs(tasks, variantName, expansions, testsByTask, related, args);
    MiscSuiteWithoutTests(variantExpansions, expansions, merged[n]);
  }

  /** The options of the task whose config `merged[n]` is. */
  function OptionsOf(variantExpansions: map<string, string>, configFile: map<string, string>,
                     merged: map<string, Config>, n: string): (c: Config)
    requires n in merged
  {
    FromFile(variantExpansions, configFile, merged[n])
  }

  /** The suite files after the loop of `run` has handled the tasks in
      `order`: each task's files are added by dict update. */
  function SuiteFilesAfter<S>(engine: Engine<S>, variantExpansions: map<string, string>, configFile: map<string, string>,
                              merged: map<string, Config>, order: seq<string>): (r: map<string, string>)
    requires forall n :: n in order ==> n in merged
    ensures order == [] ==> r == map[]
    ensures order != [] ==>
      var last := engine.suiteFiles(OptionsOf(variantExpansions, configFile, merged, order[|order| - 1]));
      forall f :: f in last ==> f in r && r[f] == last[f]
  {
    if order == [] then map[]
    else
      SuiteFilesAfter(engine, variantExpansions, configFile, merged, order[..|order| - 1])
        + engine.suiteFiles(OptionsOf(variantExpansions, configFile, merged, order[|order| - 1]))
  }

  /** The shrub configuration after the loop of `run` has handled the tasks
      in `order`. */
  function ShrubAfter<S>(engine: Engine<S>, variantExpansions: map<string, string>, configFile: map<string, string>,
                         merged: map<string, Config>, order: seq<string>): (r: S)
    requires forall n :: n in order ==> n in merged
    ensures order == [] ==> r == engine.empty
    ensures |order| == 1 ==> r == engine.addTasks(engine.empty, OptionsOf(variantExpansions, configFile, merged, order[0]))
  {
    if order == [] then engine.empty
    else
      engine.addTasks(ShrubAfter(engine, variantExpansions, configFile, merged, order[..|order| - 1]),
                      OptionsOf(variantExpansions, configFile, merged, order[|order| - 1]))
  }

  /** What `run` returns once the tasks were handled in `order`: the suite
      files and, written last, the generated task configuration. */
  function Artifacts<S>(engine: Engine<S>, variantExpansions: map<string, string>, configFile: map<string, string>,
                        merged: map<string, Config>, order: seq<string>): (r: map<string, string>)
    requires forall n :: n in order ==> n in merged
    ensures ConfigFileName in r
    ensures r[ConfigFileName] == engine.toJson(ShrubAfter(engine, variantExpansions, configFile, merged, order))
    ensures forall f :: f != ConfigFileName ==>
      && (f in r <==> f in SuiteFilesAfter(engine, variantExpansions, configFile, merged, order))
      && (f in r ==> r[f] == SuiteFilesAfter(engine, variantExpansions, configFile, merged, order)[f])
  {
    SuiteFilesAfter(engine, variantExpansions, configFile, merged, order)[
      ConfigFileName := engine.toJson(ShrubAfter(engine, variantExpansions, configFile, merged, order))]
  }

  /** A suite file in the output was written by some handled task. */
  lemma {:induction false} SuiteFileHasWriter<S>(engine: Engine<S>, variantExpansions: map<string, string>,
                                                 configFile: map<string, string>, merged: map<string, Config>,
                                                 order: seq<string>, f: string)
    requires forall n :: n in order ==> n in merged
    requires f in SuiteFilesAfter(engine, variantExpansions, configFile, merged, order)
    ensures exists i :: 0 <= i < |order| && f in engine.suiteFiles(OptionsOf(variantExpansions, configFile, merged, order[i]))
  {
    var last := |order| - 1;
    if f !in engine.suiteFiles(OptionsOf(variantExpansions, configFile, merged, order[last])) {
      var prefix := order[..last];
      SuiteFileHasWriter(engine, variantExpansions, configFile, merged, prefix, f);
      var i :| 0 <= i < |prefix| && f in engine.suiteFiles(OptionsOf(variantExpansions, configFile, merged, prefix[i]));
      assert order[i] == prefix[i];
    }
  }

  /** A suite file some handled task wrote is in the output. */
  lemma {:induction false} SuiteFileKept<S>(engine: Engine<S>, variantExpansions: map<string, string>,
                                            configFile: map<string, string>, merged: map<string, Config>,
                                            order: seq<string>, f: string, i: nat)
    requires forall n :: n in order ==> n in merged
    requires i < |order|
    requires f in engine.suiteFiles(OptionsOf(variantExpansions, configFile, merged, order[i]))
    ensures f in SuiteFilesAfter(engine, variantExpansions, configFile, merged, order)
  {
    var prefix := order[..|order| - 1];
    if i < |prefix| {
      assert prefix[i] == order[i];
      SuiteFileKept(engine, variantExpansions, configFile, merged, prefix, f, i);
    }
  }

  /** A suite file is in the output exactly when some handled task wrote it. */
  lemma SuiteFileWritten<S>(engine: Engine<S>, variantExpansions: map<string, string>,
                            configFile: map<string, string>, merged: map<string, Config>,
                            order: seq<string>, f: string)
    requires forall n :: n in order ==> n in merged
    ensures f in SuiteFilesAfter(engine, variantExpansions, configFile, merged, order) <==>
      exists i :: 0 <= i < |order| && f in engine.suiteFiles(OptionsOf(variantExpansions, configFile, merged, order[i]))
  {
    if f in SuiteFilesAfter(engine, variantExpansions, configFile, merged, order) {
      SuiteFileHasWriter(engine, variantExpansions, configFile, merged, order, f);
    } else if exists i :: 0 <= i < |order| && f in engine.suiteFiles(OptionsOf(variantExpansions, configFile, merged, order[i])) {
      var i :| 0 <= i < |order| && f in engine.suiteFiles(OptionsOf(variantExpansions, configFile, merged, order[i]));
      SuiteFileKept(engine, variantExpansions, configFile, merged, order, f, i);
    }
  }

  /** On a suite file name that several tasks write, the last of them wins. */
  lemma {:induction false} LaterTaskWins<S>(engine: Engine<S>, variantExpansions: map<string, string>,
                                            configFile: map<string, string>, merged: map<string, Config>,
                                            order: seq<string>, f: string, i: nat)
    requires forall n :: n in order ==> n in merged
    requires i < |order|
    requires f in engine.suiteFiles(OptionsOf(variantExpansions, configFile, merged, order[i]))
    requires forall j :: i < j < |order| ==>
      f !in engine.suiteFiles(OptionsOf(variantExpansions, configFile, merged, order[j]))
    ensures f in SuiteFilesAfter(engine, variantExpansions, configFile, merged, order)
    ensures SuiteFilesAfter(engine, variantExpansions, configFile, merged, order)[f]
         == engine.suiteFiles(OptionsOf(variantExpansions, configFile, merged, order[i]))[f]
  {
    var prefix := order[..|order| - 1];
    if i < |order| - 1 {
      assert prefix[i] == order[i];
      forall j | i < j < |prefix|
        ensures f !in engine.suiteFiles(OptionsOf(variantExpansions, configFile, merged, prefix[j]))
      {
        assert prefix[j] == order[j];
      }
      LaterTaskWins(engine, variantExpansions, configFile, merged, prefix, f, i);
    }
  }

  /** When no test file is mapped to a task and the task mappings select no
      task, nothing is resolved, the merge is empty, and whatever order the
      loop takes, the output is the empty task configuration and nothing
      else. */
  lemma NothingSelected<S>(engine: Engine<S>, variantExpansions: map<string, string>, configFile: map<string, string>,
                           tasks: map<string, Task>, variantName: string, expansions: map<string, string>,
                           testMappings: seq<TestMapping>, taskMappings: seq<TaskMapping>, isTestFile: string -> bool,
                           taskListForTests: set<string> -> map<string, seq<string>>, args: ResmokeArgs)
    requires TestsByTask(testMappings, isTestFile, taskListForTests) == map[]
    requires SelectedTaskNames(tasks, ReturnedTaskNames(taskMappings)) == {}
    ensures
      var testsByTask := TestsByTask(testMappings, isTestFile, taskListForTests);
      var related := SelectedTaskNames(tasks, ReturnedTaskNames(taskMappings));
      && SelectionOk(tasks, variantName, expansions, testsByTask, related, args)
      && MergedConfigs(tasks, variantName, expansions, testsByTask, related, args) == map[]
      && forall order: seq<string> | forall n :: n in order ==> n in MergedConfigs(tasks, variantName, expansions, testsByTask, related, args) ::
           Artifacts(engine, variantExpansions, configFile, MergedConfigs(tasks, variantName, expansions, testsByTask, related, args), order)
           == map[ConfigFileName := engine.toJson(engine.empty)]
  {
  }

  /** Resolving a task changes no task's name, so the lookup selects the
      same tasks before and after the test-mapping configs were resolved. */
  lemma SelectionUnchanged(tasks: map<string, Task>, names: set<string>, args: ResmokeArgs, returned: set<string>)
    ensures SelectedTaskNames(TasksAfterCalls(tasks, names, args), returned) == SelectedTaskNames(tasks, returned)
  {
    var after := TasksAfterCalls(tasks, names, args);
    forall name ensures Contribution(after, name) == Contribution(tasks, name) {
      assert name in after <==> name in tasks;
      assert name + "_gen" in after <==> name + "_gen" in tasks;
      if name in tasks {
        assert after[name].name == tasks[name].name;
      } else if name + "_gen" in tasks {
        assert after[name + "_gen"].name == tasks[name + "_gen"].name;
      }
    }
  }

  /** The test-to-task mapping `run` builds from the selected test files;
      none is built when no test file is selected. */
  function TestsByTask(testMappings: seq<TestMapping>, isTestFile: string -> bool,
                       taskListForTests: set<string> -> map<string, seq<string>>): (r: map<string, seq<string>>)
    ensures (forall m, f :: m in testMappings && f in m.testFiles ==> !isTestFile(f)) ==> r == map[]
  {
    var files := FindSelectedTestFiles(testMappings, isTestFile);
    if files == {} then map[] else taskListForTests(files)
  }

  /** Every selected task resolves: the test-mapping tasks in the variant as
      given, the related tasks in the variant those left behind. */
  ghost predicate SelectionOk(tasks: map<string, Task>, variantName: string, expansions: map<string, string>,
                              testsByTask: map<string, seq<string>>, related: set<string>, args: ResmokeArgs)
  {
    && ConfigsOk(tasks, variantName, expansions, testsByTask.Keys, args)
    && ConfigsOk(TasksAfterCalls(tasks, testsByTask.Keys, args), variantName, expansions, related, args)
  }

  /** Resolving no task leaves the variant as it was. */
  lemma NoCalls(tasks: map<string, Task>, args: ResmokeArgs)
    ensures TasksAfterCalls(tasks, {}, args) == tasks
  {
  }

  /** A map of test-mapping configs built key by key is the one specified. */
  lemma IsTestMappingConfigs(m: map<string, Config>, tasks: map<string, Task>, variantName: string,
                             expansions: map<string, string>, testsByTask: map<string, seq<string>>, args: ResmokeArgs)
    requires ConfigsOk(tasks, variantName, expansions, testsByTask.Keys, args)
    requires m.Keys == testsByTask.Keys
    requires forall n :: n in m ==>
      m[n] == WithTests(EvgTaskConfig(tasks, variantName, expansions, n, args).value, testsByTask[n])
    ensures m == TestMappingConfigs(tasks, variantName, expansions, testsByTask, args)
  {
  }

  /** A map of task-mapping configs built key by key is the one specified. */
  lemma IsTaskMappingConfigs(m: map<string, Config>, tasks: map<string, Task>, variantName: string,
                             expansions: map<string, string>, related: set<string>, args: ResmokeArgs)
    requires ConfigsOk(tasks, variantName, expansions, related, args)
    requires m.Keys == related
    requires forall n :: n in m ==> m[n] == EvgTaskConfig(tasks, variantName, expansions, n, args).value
    ensures m == TaskMappingConfigs(tasks, variantName, expansions, related, args)
  {
  }

  /** The first part of `run`: the configs of the tasks that the selected
      test files map to, each carrying its tests; nothing is resolved when
      no test file is selected. */
  method ConfigsForTestFiles(variant: Variant, expansionFile: map<string, string>, testMappings: seq<TestMapping>,
                             isTestFile: string -> bool, taskListForTests: set<string> -> map<string, seq<string>>,
                             args: ResmokeArgs)
    returns (testsByTask: map<string, seq<string>>, r: Result<map<string, Config>, Error>)
    requires variant.Valid()
    modifies variant
    ensures variant.Valid()
    ensures testsByTask == TestsByTask(testMappings, isTestFile, taskListForTests)
    ensures r.Ok? <==> ConfigsOk(old(variant.tasks), variant.name, expansionFile, testsByTask.Keys, args)
    ensures r.Ok? ==>
      && r.value == TestMappingConfigs(old(variant.tasks), variant.name, expansionFile, testsByTask, args)
      && variant.tasks == TasksAfterCalls(old(variant.tasks), testsByTask.Keys, args)
  {
    ghost var tasks0 := variant.tasks;
    testsByTask := map[];
    var relatedTestFiles := FindSelectedTestFiles(testMappings, isTestFile);
    if relatedTestFiles != {} {
      testsByTask := taskListForTests(relatedTestFiles);
      r := GetTaskConfigsForTestMappings(variant, expansionFile, testsByTask, args);
      if r.Ok? {
        IsTestMappingConfigs(r.value, tasks0, variant.name, expansionFile, testsByTask, args);
      }
    } else {
      NoCalls(tasks0, args);
      r := Ok(map[]);
      assert TestMappingConfigs(tasks0, variant.name, expansionFile, testsByTask, args) == map[];
    }
  }

  /** The second part of `run`: the configs of the tasks the task mappings
      select; nothing is resolved when none is selected. */
  method ConfigsForTasks(variant: Variant, expansionFile: map<string, string>, taskMappings: seq<TaskMapping>,
                         args: ResmokeArgs)
    returns (r: Result<map<string, Config>, Error>)
    requires variant.Valid()
    modifies variant
    ensures variant.Valid()
    ensures
      var related := SelectedTaskNames(old(variant.tasks), ReturnedTaskNames(taskMappings));
      && (r.Ok? <==> ConfigsOk(old(variant.tasks), variant.name, expansionFile, related, args))
      && (r.Ok? ==>
            && r.value == TaskMappingConfigs(old(variant.tasks), variant.name, expansionFile, related, args)
            && variant.tasks == TasksAfterCalls(old(variant.tasks), related, args))
  {
    ghost var tasks0 := variant.tasks;
    var relatedTasks := FindSelectedTasks(taskMappings, variant);
    if relatedTasks != {} {
      r := GetTaskConfigsForTaskMappings(variant, expansionFile, relatedTasks, args);
      if r.Ok? {
        IsTaskMappingConfigs(r.value, tasks0, variant.name, expansionFile, relatedTasks, args);
      }
    } else {
      NoCalls(tasks0, args);
      r := Ok(map[]);
      assert TaskMappingConfigs(tasks0, variant.name, expansionFile, relatedTasks, args) == map[];
    }
  }

  /** The part of `run` before the generation loop: the test-mapping configs
      updated with the task-mapping configs, which win on a shared task. */
  method CollectTaskConfigs(variant: Variant, expansionFile: map<string, string>,
                            testMappings: seq<TestMapping>, taskMappings: seq<TaskMapping>,
                            isTestFile: string -> bool, taskListForTests: set<string> -> map<string, seq<string>>,
                            args: ResmokeArgs)
    returns (r: Result<map<string, Config>, Error>)
    requires variant.Valid()
    modifies variant
    ensures variant.Valid()
    ensures
      var testsByTask := TestsByTask(testMappings, isTestFile, taskListForTests);
      var related := SelectedTaskNames(old(variant.tasks), ReturnedTaskNames(taskMappings));
      && (r.Ok? <==> SelectionOk(old(variant.tasks), variant.name, expansionFile, testsByTask, related, args))
      && (r.Ok? ==>
            && r.value == MergedConfigs(old(variant.tasks), variant.name, expansionFile, testsByTask, related, args)
            && variant.tasks == TasksAfterCalls(TasksAfterCalls(old(variant.tasks), testsByTask.Keys, args), related, args))
  {
    ghost var tasks0 := variant.tasks;
    var testsByTask, testConfigs := ConfigsForTestFiles(variant, expansionFile, testMappings, isTestFile,
                                                        taskListForTests, args);
    if testConfigs.Err? {
      return Err(testConfigs.error);
    }
    SelectionUnchanged(tasks0, testsByTask.Keys, args, ReturnedTaskNames(taskMappings));
    var taskConfigs := ConfigsForTasks(variant, expansionFile, taskMappings, args);
    if taskConfigs.Err? {
      return Err(taskConfigs.error);
    }
    r := Ok(testConfigs.value + taskConfigs.value);
  }

  /** No name occurs twice in `order`. */
  predicate Distinct(order: seq<string>)
  {
    forall i, j :: 0 <= i < j < |order| ==> order[i] != order[j]
  }

  /** Handling one more task extends the accumulated suite files and shrub
      configuration by that task's. */
  lemma HandleOneMore<S>(engine: Engine<S>, variantExpansions: map<string, string>, configFile: map<string, string>,
                         configs: map<string, Config>, order: seq<string>, name: string)
    requires forall n :: n in order ==> n in configs
    requires name in configs && name !in order && Distinct(order)
    ensures Distinct(order + [name])
    ensures SuiteFilesAfter(engine, variantExpansions, configFile, configs, order + [name])
         == SuiteFilesAfter(engine, variantExpansions, configFile, configs, order)
            + engine.suiteFiles(OptionsOf(variantExpansions, configFile, configs, name))
    ensures ShrubAfter(engine, variantExpansions, configFile, configs, order + [name])
         == engine.addTasks(ShrubAfter(engine, variantExpansions, configFile, configs, order),
                            OptionsOf(variantExpansions, configFile, configs, name))
  {
    assert (order + [name])[..|order|] == order;
  }

  /** The generation loop of `run`: each merged config, layered over the
      variant's expansions and the expansion file, goes to the generation
      engine; the suite files it writes accumulate by dict update, and the
      generated task configuration is added last. The configs are handled
      in an order the model leaves open, returned as `order`: each once. */
  method GenerateArtifacts<S>(engine: Engine<S>, variantExpansions: map<string, string>,
                              configFile: map<string, string>, configs: map<string, Config>)
    returns (files: map<string, string>, order: seq<string>)
    ensures Distinct(order)
    ensures forall n :: n in order <==> n in configs
    ensures files == Artifacts(engine, variantExpansions, configFile, configs, order)
  {
    var configDict: map<string, string> := map[];
    var shrubConfig := engine.empty;
    order := [];
    var remaining := configs.Keys;
    while remaining != {}
      invariant remaining <= configs.Keys
      invariant forall n :: n in configs ==> (n in order <==> n !in remaining)
      invariant forall n :: n in order ==> n in configs
      invariant Distinct(order)
      invariant configDict == SuiteFilesAfter(engine, variantExpansions, configFile, configs, order)
      invariant shrubConfig == ShrubAfter(engine, variantExpansions, configFile, configs, order)
      decreases remaining
    {
      var name :| name in remaining;
      var configOptions := FromFile(variantExpansions, configFile, configs[name]);
      configDict := configDict + engine.suiteFiles(configOptions);
      shrubConfig := engine.addTasks(shrubConfig, configOptions);
      HandleOneMore(engine, variantExpansions, configFile, configs, order, name);
      order := order + [name];
      remaining := remaining - {name};
    }
    files := configDict[ConfigFileName := engine.toJson(shrubConfig)];
  }

  /** `run`: selects the tasks, resolves and merges their configs, and
      generates the suite files and the task configuration from them. */
  method Run<S>(variant: Variant, expansionFile: map<string, string>,
                testMappings: seq<TestMapping>, taskMappings: seq<TaskMapping>,
                isTestFile: string -> bool, taskListForTests: set<string> -> map<string, seq<string>>,
                args: ResmokeArgs, engine: Engine<S>)
    returns (r: Result<map<string, string>, Error>, ghost merged: map<string, Config>, ghost order: seq<string>)
    requires variant.Valid()
    modifies variant
    ensures variant.Valid()
    ensures
      var testsByTask := TestsByTask(testMappings, isTestFile, taskListForTests);
      var related := SelectedTaskNames(old(variant.tasks), ReturnedTaskNames(taskMappings));
      && (r.Ok? <==> SelectionOk(old(variant.tasks), variant.name, expansionFile, testsByTask, related, args))
      && (r.Ok? ==>
            && merged == MergedConfigs(old(variant.tasks), variant.name, expansionFile, testsByTask, related, args)
            && variant.tasks == TasksAfterCalls(TasksAfterCalls(old(variant.tasks), testsByTask.Keys, args), related, args))
    ensures r.Ok? ==>
      && Distinct(order)
      && (forall n :: n in order <==> n in merged)
      && r.value == Artifacts(engine, variant.expansions, expansionFile, merged, order)
  {
    var taskConfigs := CollectTaskConfigs(variant, expansionFile, testMappings, taskMappings,
                                          isTestFile, taskListForTests, args);
    if taskConfigs.Err? {
      return Err(taskConfigs.error), map[], [];
    }
    merged := taskConfigs.value;
    var files, handled := GenerateArtifacts(engine, variant.expansions, expansionFile, taskConfigs.value);
    order := handled;
    r := Ok(files);
  }
}

# Selected-tests task selection, modelled in Dafny

This project models the core of `buildscripts/selected_tests.py`, MongoDB's
selected-tests generator. Given the answers of the selected-tests service for
a patch's changed files, it decides which CI tasks of one build variant to
regenerate. For each such task it builds the configuration its sub-suites are
generated from, and it collects the generated files. The model covers:

- **Exclusion policy.** The seven regular-expression patterns and the seven
  denylisted task names that keep a task out of the selection. The patterns are modelled with Python `re.match` semantics:
  `.*` stops at a newline and the match is anchored at the start.
- **Relevance resolvers.**
  - The set of test files that the test mappings name and the test-file
    classifier accepts.
  - The set of tasks that the task mappings name. Each one is looked up under
    its exact name, then under the name with `_gen` appended. Missing tasks are
    dropped and excluded tasks are filtered out.
- **Task config resolver** (`_get_evg_task_config`). It picks the vars of the
  task's driving command and adds a fallback of one sub-suite for a plain task.
  It copies a truthy `suites` argument into `suite` and strips it from
  `resmoke_args`. Then it layers the task name, the variant name, the vars and
  the identity of the selected-tests task.
  - The vars dict is the one stored in the variant configuration, and it is
    updated in place. The model keeps this: `Evergreen.Variant` is a class whose
    task map is rewritten by every resolution.
  - A task selected by both kinds of mapping is therefore resolved a second
    time from the vars the first resolution left behind.
- **`run`.**
  - It builds test-mapping configs, which carry `selected_tests_to_run`, and
    task-mapping configs. It merges them so that a task-mapping config wins on a
    shared task.
  - It layers each merged config over the variant's expansions and the expansion
    file (`from_file`), and hands it to the generation engine.
  - Suite files accumulate by dict update. The generated task configuration is
    written last under `selected_tests_config.json`.

The functions that belong to other files are parameters of the model: the test-file
classifier, the test-to-task mapper, `ResmokeArgs.get_arg`/`remove_arg`, and
the sub-suite generator together with its shrub serialiser (`SelectedTests.Engine`).
The answers of the selected-tests service are inputs (`seq<TestMapping>`,
`seq<TaskMapping>`), and so are the contents of the expansion file.
Exceptions raised by `_get_evg_task_config` become `Err` results
(`TaskConfig.Error`); nothing else can fail in the model.

Files: `wrappers.dfy` (Option, Result), `evergreen.dfy` (tasks and the
variant), `exclusion.dfy`, `resolvers.dfy`, `task_config.dfy`,
`run_selection.dfy` (module `SelectedTests`).

Two details of the code that the model keeps:
- `_get_evg_task_config` builds each config from the task's own `vars` dict
  and updates that dict in place (`buildscripts/selected_tests.py:247-259`).
- `resmoke_args` is always passed through `remove_arg`, whether or not a
  `suites` argument is present (`buildscripts/selected_tests.py:258-259`).

## Model

| member | source | states |
|---|---|---|
| Exclusion.OccursInIff | buildscripts/selected_tests.py:57-60 | The left-to-right scan used for the `.*literal.*` patterns finds the literal exactly when it occurs at some position. |
| Exclusion.Matches | buildscripts/selected_tests.py:57-63 | `re.match` of one pattern against a task name; a name shorter than the pattern's literal never matches. What each pattern accepts is stated by `MatchesIffReMatch`. |
| Exclusion.MatchesIffReMatch | buildscripts/selected_tests.py:57-67 | Each modelled pattern agrees with what its regular expression means under `re.match`. `.*literal.*` matches when the literal starts at a position with no newline before it. `literal.*` matches when the name starts with the literal. |
| Exclusion.PatternsInPlainWords | buildscripts/selected_tests.py:57-67 | For a name without a newline: the compile and fuzz patterns mean "contains", and the other five mean "starts with" concurrency, integration, burn_in, lint or stitch. |
| Exclusion.IsExcluded | buildscripts/selected_tests.py:57-84 | The test that keeps a resolved task out of the selection (used at lines 194-195). A newline-free task name is excluded exactly when it is one of dbtest, idl_tests, unittests, buildscripts_test, package, publish_packages or push, or contains compile or fuzz, or starts with one of the five prefixes. |
| Exclusion.FirstLine | buildscripts/selected_tests.py:57-60 | The part of a name that a leading `.*` can range over: a prefix with no newline, ending at the first newline. |
| Resolvers.FindSelectedTestFiles | buildscripts/selected_tests.py:156-172 | A name is selected exactly when some test mapping lists it and the test-file classifier accepts it; duplicates collapse. |
| Resolvers.ReturnedTaskNames | buildscripts/selected_tests.py:185-189 | A name is returned exactly when some task mapping lists it. |
| Resolvers.FindTask | buildscripts/selected_tests.py:203-214 | The lookup returns the task under the exact name if there is one, else the task under name + "_gen", and nothing exactly when neither exists. |
| Resolvers.FindTaskResolvedName | buildscripts/selected_tests.py:203-214 | A found task is registered in the variant, and its name is the asked name or the asked name + "_gen". |
| Resolvers.Contribution | buildscripts/selected_tests.py:191-199 | What one returned name adds to the selection: nothing when no task is found for it or the found task is excluded, and otherwise exactly the found task's own name. |
| Resolvers.SelectedTaskNames | buildscripts/selected_tests.py:190-200 | A name is selected exactly when some returned name resolves through the lookup to a task of that name and the name is not excluded. |
| Resolvers.FindSelectedTasks | buildscripts/selected_tests.py:175-200 | The loop returns exactly the resolved names of the returned tasks that exist and are not excluded. |
| Resolvers.SelectedNeverExcluded | buildscripts/selected_tests.py:193-199 | No selected task is excluded. |
| Resolvers.SelectedTasksExist | buildscripts/selected_tests.py:185-200 | Every selected name is a task of the variant, found for some returned name under that name or with "_gen". Every returned name that resolves to a non-excluded task is selected; names without a task are dropped. |
| Evergreen.GetTask | buildscripts/selected_tests.py:245 | `get_task` finds a task exactly when one is registered under that exact name, and returns that task. |
| TaskConfig.SelectedTestsTaskConfig | buildscripts/selected_tests.py:217-229 | Succeeds exactly when the expansions hold task_name, build_variant and build_id. On success it maps the three identity keys to those values. On failure it reports a missing key among the three, checking task_name first. |
| TaskConfig.VarsAfterCallContents | buildscripts/selected_tests.py:245-259 | What `VarsAfterCall` leaves in the vars: resmoke_args without the suites argument; `suite` set to a truthy suites argument and untouched otherwise; a fallback of "1" for a plain task and no fallback added for a generator task; every other key unchanged; no other key added. |
| TaskConfig.TaskAfterCall | buildscripts/selected_tests.py:245-259 | Resolution keeps the task's name and kind, and replaces the vars of its driving command with the vars as the call leaves them. |
| TaskConfig.TasksAfterCalls | buildscripts/selected_tests.py:245-259 | Resolving tasks keeps the variant's task names and keeps every task registered under its own name. |
| TaskConfig.LayerPrecedence | buildscripts/selected_tests.py:263-266 | In the dict `LayerTaskConfig` returns, identity keys win over vars, and vars win over the task and variant names. Its keys are exactly those of the three layers. |
| TaskConfig.EvgTaskConfigOk | buildscripts/selected_tests.py:245-261 | `EvgTaskConfig`, the value of `_get_evg_task_config`, fails exactly when the task is missing, its driving command has no vars, the vars lack resmoke_args, or an identity key is missing. A missing task gives TaskNotFound. |
| TaskConfig.EvgTaskConfigLayers | buildscripts/selected_tests.py:245-266 | A resolved config is the layered dict of the task name, the variant name, the vars as the call leaves them, and the identity. |
| TaskConfig.EvgTaskConfigIdentity | buildscripts/selected_tests.py:261-266 | A resolved config holds the selected-tests task's name, variant and build id under the name_of_generating_* keys, and has task_name and build_variant keys. |
| TaskConfig.EvgTaskConfigContents | buildscripts/selected_tests.py:246-266 | A resolved config has: resmoke_args without suites; the truthy suites argument as `suite`; fallback "1" for a plain task; selected_tests_to_run exactly when the task's vars have it. |
| TaskConfig.LayeredVarsContents | buildscripts/selected_tests.py:250-266 | The same four facts, stated for the layered dict built from any vars that contain resmoke_args. |
| TaskConfig.GetEvgTaskConfig | buildscripts/selected_tests.py:232-266 | Returns the specified config or error. It leaves the variant with that task's vars updated in place, on the error paths after the first update as well, and every other task untouched. |
| TaskConfig.TasksAfterCallOne | buildscripts/selected_tests.py:245-259 | Resolving one task changes that task's entry and no other; resolving a missing task changes nothing. |
| TaskConfig.ConfigOfUntouched | buildscripts/selected_tests.py:300-301 | Resolving other tasks leaves a task's config unchanged. |
| TaskConfig.TasksAfterOneMore | buildscripts/selected_tests.py:300-301 | Resolving the tasks one more at a time composes. |
| TaskConfig.ResolveNext | buildscripts/selected_tests.py:301 | One loop step resolves a not-yet-resolved task to the config it had in the variant as the loop found it. |
| TaskConfig.TestsToRun | buildscripts/selected_tests.py:302 | `set(tests)` holds exactly the listed tests. |
| TaskConfig.WithTests | buildscripts/selected_tests.py:302 | The config after `update`: selected_tests_to_run holds the set of the task's tests, and every other key is as it was. |
| TaskConfig.TestMappingConfigs | buildscripts/selected_tests.py:289-306 | One config per task of the test-to-task mapping: that task's resolved config, with its tests to run added. |
| TaskConfig.TaskMappingConfigs | buildscripts/selected_tests.py:309-325 | One config per related task: its resolved config, without tests added. |
| TaskConfig.GetTaskConfigsForTestMappings | buildscripts/selected_tests.py:289-306 | The loop succeeds exactly when every task resolves. It then returns one config per task, each carrying `selected_tests_to_run`, and leaves every listed task resolved in the variant. |
| TaskConfig.GetTaskConfigsForTaskMappings | buildscripts/selected_tests.py:309-325 | The loop succeeds exactly when every related task resolves. It then returns each task's config and leaves every related task resolved in the variant. |
| SelectedTests.FromFile | buildscripts/selected_tests.py:106-107 | The options' keys are those of the variant's expansions, the expansion file and the task config together, and every key of the task config keeps its value. |
| SelectedTests.FromFilePrecedence | buildscripts/selected_tests.py:106-107 | The task's options: the task config wins over the expansion file, which wins over the variant's expansions. No key comes from elsewhere. |
| SelectedTests.CreateMiscSuite | buildscripts/selected_tests.py:125-128 | A catch-all suite is wanted when the options have no selected_tests_to_run; when they hold a set of tests, exactly when that set is empty; and when they hold a string, exactly when the string is empty. |
| SelectedTests.MiscSuiteOfTestMapping | buildscripts/selected_tests.py:125-128 | Options built from a test-mapping config ask for a catch-all suite exactly when the task has no tests to run. |
| SelectedTests.MiscSuiteWithoutTests | buildscripts/selected_tests.py:125-128 | Options without selected_tests_to_run in any layer ask for a catch-all suite. |
| SelectedTests.MergedConfigs | buildscripts/selected_tests.py:346-368 | The merge: its keys are the test-mapping and related tasks. A related task gets its task-mapping config, resolved in the variant the test-mapping pass left behind. Every other task keeps its test-mapping config. |
| SelectedTests.VarsAfterCallTwice | buildscripts/selected_tests.py:245-259 | If stripping the suites argument is idempotent and leaves none behind, resolving vars a second time changes nothing. |
| SelectedTests.ResolveTwice | buildscripts/selected_tests.py:355-368 | Under the same conditions, a task resolved a second time gets the config it got the first time. |
| SelectedTests.SharedTaskConfig | buildscripts/selected_tests.py:355-368 | A task both mappings select ends up with its plain task-mapping config and no tests to run added. Under those conditions, that is the config it had in the variant as given. |
| SelectedTests.TestOnlyTaskRunsItsTests | buildscripts/selected_tests.py:351-357 | A task only the test mappings select is in the merge. Its options ask for no catch-all suite exactly when it has tests. |
| SelectedTests.RelatedTaskRunsAllTests | buildscripts/selected_tests.py:362-368 | A related task whose vars and expansions name no tests gets the catch-all suite, even when the test mappings selected it too. |
| SelectedTests.SelectionUnchanged | buildscripts/selected_tests.py:359-360 | Resolving test-mapping tasks changes no name, so the task-mapping selection is the same before and after. |
| SelectedTests.Artifacts | buildscripts/selected_tests.py:384-385 | The output always holds selected_tests_config.json with the engine's JSON, even over a suite file of that name. Every other name is in the output exactly when it is among the accumulated suite files, with the same content; so the facts below about the accumulated suite files hold of the output. |
| SelectedTests.SuiteFilesAfter | buildscripts/selected_tests.py:372-383 | Before any task is handled there is no suite file; after handling, every suite file the last handled task wrote is in the result with the content that task gave it. |
| SelectedTests.ShrubAfter | buildscripts/selected_tests.py:343-383 | The shrub configuration starts empty, and after one handled task it holds that task's generated tasks added to the empty one. `HandleOneMore` states the step for any number. |
| SelectedTests.SuiteFileHasWriter | buildscripts/selected_tests.py:372-383 | Every accumulated suite file was written by some handled task. |
| SelectedTests.SuiteFileKept | buildscripts/selected_tests.py:372-383 | Every suite file some handled task wrote is among the accumulated suite files. |
| SelectedTests.SuiteFileWritten | buildscripts/selected_tests.py:372-383 | A suite file is among the accumulated suite files exactly when some handled task wrote it. |
| SelectedTests.LaterTaskWins | buildscripts/selected_tests.py:268-285 | When several tasks write a suite file of the same name, the accumulated suite files hold the content of the last of them. |
| SelectedTests.TestsByTask | buildscripts/selected_tests.py:349-352 | When no mapping lists a file the classifier accepts, no test-to-task mapping is built and the mapper is not consulted. |
| SelectedTests.NothingSelected | buildscripts/selected_tests.py:343-385 | When no task is mapped from test files and no related task is selected, every selected task resolves vacuously, the merge is empty, and for every handling order the output is the empty task configuration alone. |
| SelectedTests.HandleOneMore | buildscripts/selected_tests.py:372-383 | Handling one more task appends its suite files by dict update and adds its tasks to the shrub configuration. |
| SelectedTests.ConfigsForTestFiles | buildscripts/selected_tests.py:349-357 | With no selected test file, nothing is resolved. Otherwise the test-mapping configs of the mapper's tasks are built. Success, the configs and the new variant state are all specified. |
| SelectedTests.ConfigsForTasks | buildscripts/selected_tests.py:359-368 | With no related task, nothing is resolved. Otherwise the task-mapping configs of the selected tasks are built. Success, the configs and the new variant state are all specified. |
| SelectedTests.CollectTaskConfigs | buildscripts/selected_tests.py:346-368 | Succeeds exactly when every selected task resolves, and then returns the merge, in which task-mapping configs win. |
| SelectedTests.GenerateArtifacts | buildscripts/selected_tests.py:370-385 | Handles every merged config exactly once, in some order. It returns the accumulated suite files plus the generated task configuration, as `Artifacts` specifies for that order. |
| SelectedTests.Run | buildscripts/selected_tests.py:329-385 | Succeeds exactly when every selected task resolves. It then returns the artifacts of the merged configs handled in some order, and leaves the variant with every selected task resolved. |

## Left out

- Logging, the command line, reading the changed files from git, and writing the output files.
- The selected-tests service is a network client. Its answers are inputs, so the relevance threshold passed with the requests is not modelled.
- The Evergreen API client is used only by `GenerateSubSuites` (`buildscripts/selected_tests.py:280`). Its answers are hidden inside the `Engine` functions and are not modelled.
- `SelectedTests.GenerateArtifacts`: failures inside the generation loop (`buildscripts/selected_tests.py:372-383`) are not modelled: `GenerateSubSuites`, the Evergreen API queries it makes, and lookups of required `ConfigOptions` keys cannot fail in the model, so `GenerateArtifacts` is total.
- `get_variant` returning no variant is not modelled. `Run` takes an existing variant.
- `create_task_list_for_tests` is a parameter and its workings are not modelled. Of each entry it returns, only the list of tests is kept.
- `is_file_a_test_file`, `ResmokeArgs.get_arg` and `ResmokeArgs.remove_arg` are parameters and their workings are not modelled.
- `read_config_file` is not modelled; the expansion file is given as its contents.
- `GenerateSubSuites`, `generate_display_task` and the shrub `Configuration` are modelled only as the `Engine` parameter: suite files out, an updated configuration, its JSON text.
- `SelectedTests.CreateMiscSuite`: ConfigOptions defaults, required keys and format functions are not modelled. A missing option reads as absent, and values are strings or the test set.
- `SelectedTests.GenerateArtifacts`: Python visits the merged configs in dict insertion order. The model visits them in an unspecified order, returned as `order`.
- `TaskConfig.GetTaskConfigsForTestMappings`: Python visits the tasks in dict order; the model visits them in an unspecified order. On success the result does not depend on it; which error is reported, and which tasks were already resolved, does.
- `TaskConfig.GetTaskConfigsForTaskMappings`: Python visits the tasks in set order; the model visits them in an unspecified order. On success the result does not depend on it; which error is reported, and which tasks were already resolved, does.
- `SelectedTests.Run`: on an error, the state the variant is left in is not stated. Python raises there and writes nothing.
- Values read from YAML are modelled as strings; other YAML value types are not modelled.
- The properties `run_tests_task`, `run_tests_build_variant` and `run_tests_build_id` of the options are not modelled. `run_tests_task` strips the `_gen` suffix from `name_of_generating_task` through `remove_gen_suffix` (`buildscripts/selected_tests.py:113`). `run_tests_build_variant` and `run_tests_build_id` return `name_of_generating_build_variant` and `name_of_generating_build_id` unchanged (`buildscripts/selected_tests.py:118`, `123`). Only the sub-suite generator reads them, and it is the `Engine` parameter.
- Failures of the selected-tests service, malformed answers (a missing `name`, `test_files` or `tasks` key), and exceptions raised by `is_file_a_test_file` or `create_task_list_for_tests` are not modelled: the answers are well-formed inputs and the two parameters are total.

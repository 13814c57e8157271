# Rucio test-matrix runner, modelled in Dafny

`tools/test/run_tests.py` runs Rucio's containerised test matrix. It reads a
matrix of test cases and a table of images from standard input. For each case
it selects an image and derives an id and a run configuration from the case
and the process environment. Each case then runs in one of two ways:

- directly, in a single one-shot container;
- against a primary container plus auxiliary service containers (a database,
  the service group), with the staged scripts before_script, host-name
  registration, install and test.

Cases run one after another, or in parallel in a worker pool, with an overall
six-hour budget and an optional failfast mode.

This project models that runner:

- **Strings**: the parts of Python's `str.strip` and `int()` the runner relies
  on, and `'sep'.join`.
- **Types**: JSON scalar values with Python's `bool()`, `==` and `str()` on
  them. Also the actions the runner asks of its host, and the exceptions that
  decide its control flow.
- **Matrix**: `matches`, `find_image`, `case_id`, `stringify_dict` and the
  one-case normalisation of `main`.
- **Config**: the environment switches, `gen_case_kwargs` and the size of the
  worker pool.
- **Shell**: the host as a class. It keeps the log of actions issued so far,
  answers each action through an oracle, and holds where `sys.stderr` points.
- **Lifecycle**: `run_test_directly`, `run_with_httpd`, `run_case` and
  `run_case_logger`.
  - Each is a function from the log so far to a result and a new log, plus a
    method that drives the host and is proved to agree with that function.
  - Lemmas state properties of these traces: phase order, teardown after a
    pod, the `finally` actions, and which errors are swallowed.
- **Scheduler**: the parallel collection loop under an abstract clock and
  abstract task results, serial mode on the host, `run_tests` and `main`.

The outside world appears as parameters:

- the oracle that gives each command's exit status and output;
- the process environment;
- what the `suites` module registers (database and service container
  classes, service host names);
- the fresh namespace `uuid4()` would give;
- the clock readings and task results of the pool.

## Model

| member | source | states |
|---|---|---|
| Matrix.Matches | tools/test/run_tests.py:33-37 | the loop with early return yields true iff every key of the selector is in the case with a Python-equal value |
| Matrix.SelectorMatchesSubMap | tools/test/run_tests.py:33-37 | an empty selector matches every case; a selector contained in a case matches it |
| Matrix.SelectorMatchesOnlyOwnKeys | tools/test/run_tests.py:33-37 | keys outside the selector never affect whether it matches |
| Matrix.FirstMatch | tools/test/run_tests.py:44-47 | the position found is a matching image and no earlier image matches |
| Matrix.ImageFor | tools/test/run_tests.py:44-48 | raises "could not find image" iff no selector matches; otherwise returns the first image, in insertion order, whose selector matches |
| Matrix.FindImage | tools/test/run_tests.py:44-48 | the loop returns exactly what `ImageFor` specifies |
| Matrix.CaseId | tools/test/run_tests.py:51-53 | an id exists only when DIST, PYTHON and SUITE are present and PYTHON is a string; the only errors are a KeyError for one of those keys and a TypeError |
| Matrix.CaseIdFormat | tools/test/run_tests.py:51-53 | with string fields the id is the non-empty ones of DIST, "py"+PYTHON, SUITE and RDBMS joined by "-", so an empty DIST, SUITE or RDBMS leaves no "-"; with DIST and SUITE non-empty it is DIST-pyPYTHON-SUITE, then -RDBMS only for a non-empty RDBMS |
| Matrix.IdPartsOfStrings | tools/test/run_tests.py:53 | `filter(bool, parts)` and `'-'.join` on string parts keep exactly the non-empty ones, in order |
| Matrix.CaseIdNonStringPart | tools/test/run_tests.py:51-53 | a non-string DIST, SUITE or RDBMS raises TypeError when it is truthy, and is dropped like "" when it is falsy |
| Matrix.RdbmsEmptySameAsMissing | tools/test/run_tests.py:52-53 | a missing RDBMS and RDBMS="" give the same id (or the same error) |
| Matrix.CaseIdOnlyIdKeys | tools/test/run_tests.py:51-53 | two cases that agree on DIST, PYTHON, SUITE and RDBMS have the same id |
| Matrix.Stringify | tools/test/run_tests.py:40-41 | `stringify_dict` keeps the keys of the case, and every string value as it is |
| Matrix.StringifyStringCase | tools/test/run_tests.py:40-41 | `stringify_dict` leaves a case of string values unchanged |
| Matrix.CaseIdAfterStringify | tools/test/run_tests.py:119-120 | the id `run_case_logger` computes from the stringified case exists whenever the case's own id does, and is equal to it when the id fields are strings |
| Config.GenCaseKwargs | tools/test/run_tests.py:69-80 | the arguments of a case exist iff its image and its id do; a missing image is reported first; the image is the one `find_image` selects and the environment is the stringified case |
| Config.KwargsFromEnvironment | tools/test/run_tests.py:61-80 | each switch is true iff its variable is "1"; namespace needs podman and parallel mode; log copying needs httpd; httpd defaults to on; logs go to `.autotest/log-<id>`; tests default to none; the result is an error exactly when image lookup or the id fails |
| Config.DirectPathOnlyWhenFalsy | tools/test/run_tests.py:70 | only a falsy RUN_HTTPD (false, 0, "", null) selects the direct path; the string "false" does not |
| Config.WorkerCount | tools/test/run_tests.py:83 | the count is min(PROCNUM, number of cases), PROCNUM defaulting to 3, so it never exceeds the number of cases; a malformed PROCNUM raises ValueError |
| Config.PoolSize | tools/test/run_tests.py:83-84 | a pool exists iff the worker count is at least 1, and then its size lies between 1 and the number of cases |
| Config.NoPoolForEmptyMatrix | tools/test/run_tests.py:83-84 | in parallel mode an empty matrix makes pool creation raise ValueError |
| Strings.StripEmptyIffAllSpace | tools/test/run_tests.py:167-168 | the stripped pod id is empty iff the output was all whitespace |
| Strings.ParseIntOfDecimal | tools/test/run_tests.py:83 | `int(str(n)) == n` for every integer n |
| Strings.ParseIntIgnoresSurroundingSpace | tools/test/run_tests.py:83 | `int()` ignores whitespace around the numeral |
| Types.PyEqIsEquivalence | tools/test/run_tests.py:35 | Python `==` on JSON scalars is reflexive, symmetric and transitive |
| Types.PyStrOfScalars | tools/test/run_tests.py:41 | `str()` keeps strings, renders booleans as "True" and "False", and renders integers so that `int()` reads them back |
| Lifecycle.DirectPath | tools/test/run_tests.py:207-250 | the direct path never raises, since a failing run is caught, and issues exactly one action |
| Lifecycle.DirectPathCommand | tools/test/run_tests.py:215-242 | one container runs "install_script.sh && test.sh", with " -p" exactly when tests are given; TESTS is set exactly then, on a copy of caseenv; `--pod pod` is passed iff in pod mode; the result is true iff the run exits 0 |
| Lifecycle.RunTestDirectly | tools/test/run_tests.py:207-250 | the method issues exactly the action `DirectPath` specifies and returns its result |
| Lifecycle.ServiceClasses | tools/test/run_tests.py:278-286 | no auxiliary container without RDBMS; with RDBMS, the database class whenever one is registered, then the service group, whose absence raises KeyError |
| Lifecycle.StartFromTrace | tools/test/run_tests.py:286-288 | auxiliary containers start in order; if one fails, those already started are removed in reverse order and a CalledProcessError is raised |
| Lifecycle.RemovalsReverse | tools/test/run_tests.py:288 | leaving the group removes every auxiliary container, last created first |
| Lifecycle.RunAllStopsAtFirstFailure | tools/test/run_tests.py:292-320 | staged commands run in order up to and including the first that fails, and none after it; the sequence succeeds iff none fails |
| Lifecycle.WithServicesTrace | tools/test/run_tests.py:288-323 | inside the group the phases follow every auxiliary start and precede every removal; only CalledProcessError escapes |
| Lifecycle.HttpdBodyOutcome | tools/test/run_tests.py:267-323 | an unknown service group raises KeyError before any auxiliary container starts; otherwise the body fails only with CalledProcessError, and succeeds iff all four phases do |
| Lifecycle.HttpdPath | tools/test/run_tests.py:253-348 | a primary container that does not start raises its CalledProcessError and nothing else is issued; once it has started, its removal is the last action |
| Lifecycle.HttpdOutcome | tools/test/run_tests.py:264-348 | the result is true iff the auxiliary containers start and all four phases exit 0; false iff one of them fails; it raises only for the primary container or an unknown service group |
| Lifecycle.HttpdTrace | tools/test/run_tests.py:264-338 | once the primary and auxiliary containers are up, the trace is: primary start, the auxiliary starts, before_script, hosts, install and test up to the first failure, the removals, the `finally` actions, and the removal of the primary; CON_DB is the id of the database container, which is requested iff RDBMS names a registered class |
| Lifecycle.HttpdLogsAlwaysIssued | tools/test/run_tests.py:331-338 | once the primary container is up, `docker logs` is always issued after the body; only the log clean-up and copy (when copying) and the removal of the container follow it |
| Lifecycle.FinalizeShape | tools/test/run_tests.py:331-338 | the `finally` block issues `docker logs`, then with copying the clean-up, then the copy only if the clean-up worked |
| Lifecycle.HttpdCopyHarmless | tools/test/run_tests.py:333-347 | whether the logs are copied, and any failure doing so, never changes the result |
| Lifecycle.BeforeScriptEnv | tools/test/run_tests.py:293-303 | before_script gets CON_RUCIO and CONTAINER_RUNTIME_ARGS; any other variable comes from db_env, then namespace_env, then caseenv, then os.environ, whichever has it first |
| Lifecycle.RunWithHttpd | tools/test/run_tests.py:253-348 | the method issues exactly the actions of `HttpdPath` and returns its result |
| Lifecycle.CaseResult | tools/test/run_tests.py:203-204 | the case succeeds iff its branch returned true; a false branch leads to exit 1; an exception passes through |
| Lifecycle.CaseRunEmptyPod | tools/test/run_tests.py:163-169 | in pod mode an empty pod id raises before any branch runs, and nothing is torn down |
| Lifecycle.CaseRunTeardown | tools/test/run_tests.py:161-204 | the image check comes first; `pod stop` then `pod rm` end the trace iff a non-empty pod id was obtained, and then they follow the branch whether it returned or raised |
| Lifecycle.CaseRunSucceeds | tools/test/run_tests.py:161-204 | the case succeeds iff the image check exits 0, in pod mode the pod is created with a non-empty id, and the branch returns true |
| Lifecycle.CaseRun | tools/test/run_tests.py:152-204 | a failed image check raises before anything else is issued; in pod mode a failed `pod create` raises right after it, with no teardown |
| Lifecycle.RunCase | tools/test/run_tests.py:152-204 | the method issues exactly the actions of `CaseRun` and ends as it does |
| Lifecycle.LoggerOutcome | tools/test/run_tests.py:119-149 | `run_case_logger` raises only when the case id cannot be computed, and then before anything runs |
| Lifecycle.LoggerFalseIffCaseRaised | tools/test/run_tests.py:119-149 | `run_case_logger` returns false iff `run_case` raised, the exit of a failed case included, and true iff it completed |
| Lifecycle.RunCaseLogger | tools/test/run_tests.py:119-149 | the method ends as `LoggerOutcome` says and restores `sys.stderr` |
| Scheduler.FirstStop | tools/test/run_tests.py:97-113 | the loop stops at the first task, in submission order, that exhausts the budget, does not finish, or (with failfast) fails |
| Scheduler.Collection | tools/test/run_tests.py:96-113 | the collection completes iff no task stops the loop; it ends otherwise with exit 1 or a TimeoutError |
| Scheduler.CollectResults | tools/test/run_tests.py:96-113 | the loop visits tasks up to where `FirstStop` says and ends as `Collection` says |
| Scheduler.CollectionInOrder | tools/test/run_tests.py:97-113 | every task before the stop finished in time (and, with failfast, succeeded); exit 1 as soon as `start+21600-now <= 0`; exit 1 on a false result only with failfast; success iff no task stopped the loop |
| Scheduler.NoFailfastIgnoresFailures | tools/test/run_tests.py:110-113 | with failfast off, a false result does not stop the collection, and the outcome does not depend on the booleans of tasks |
| Scheduler.FailfastNeedsEverySuccess | tools/test/run_tests.py:110-113 | with failfast on, the collection completes iff every task finishes in time with true |
| Scheduler.Submissions | tools/test/run_tests.py:85-95 | one submission per case, in order, with its generated arguments and its `log-<id>.txt`; the error of the first case whose arguments fail |
| Scheduler.SubmittedCaseIdDefined | tools/test/run_tests.py:91 | the arguments a task is submitted with always let `run_case_logger` compute its id, so a task yields a boolean |
| Scheduler.ParallelEmptyMatrix | tools/test/run_tests.py:83-84 | in parallel mode an empty matrix fails with ValueError when the pool is created |
| Scheduler.ParallelOutcome | tools/test/run_tests.py:82-113 | a pool that cannot be sized raises ValueError; after it, a case whose arguments fail raises that error; parallel mode succeeds iff the pool is sized, every case is submitted and the collection completes |
| Scheduler.ParallelIgnoresFailures | tools/test/run_tests.py:82-113 | without failfast, a sized pool with every case submitted succeeds whenever every task finishes in time, whatever the tasks return, so the process exits 0 even if every case failed |
| Scheduler.ParallelRun | tools/test/run_tests.py:82-113 | pool sizing, then submission, then collection, as `ParallelOutcome` says |
| Scheduler.SerialSpec | tools/test/run_tests.py:115-116 | a serial run succeeds only when the arguments of every case could be generated |
| Scheduler.SerialCompose | tools/test/run_tests.py:115-116 | serial runs compose: after a failing case nothing more is issued |
| Scheduler.SerialSingle | tools/test/run_tests.py:115-116 | one serial case is `run_case` on its generated arguments |
| Scheduler.MainSingleCase | tools/test/run_tests.py:351-354 | in serial mode, `main` on a single case object runs `run_case` on its generated arguments, or raises what generating them raised |
| Scheduler.SerialHasNoNamespace | tools/test/run_tests.py:153-159 | serial mode never uses a namespace |
| Scheduler.SerialRun | tools/test/run_tests.py:115-116 | the method runs the cases in order on the host, as `SerialSpec` says |
| Scheduler.RunTests | tools/test/run_tests.py:60-116 | in parallel mode the outcome is `ParallelOutcome` and the host issues nothing itself; otherwise it is the serial run |
| Scheduler.RunMatrix | tools/test/run_tests.py:351-354 | `main` runs the normalised matrix without a test selection |

## Left out

- Subprocess, docker and podman execution. Every command is an action in the
  host's log, and an oracle gives its exit status and output.
- The `suites` module is not modelled. It is assumed that:
  - `run` checks by default: a call without `check` (lines 161, 166, 229,
    294, 307, 310, 320 and 337) behaves as `check=True` and raises
    `CalledProcessError` on a non-zero status. Only `check=False` (lines 200,
    201 and 332) ignores the status.
  - Entering a `Container` starts it and yields the command output as its id.
    A container that fails to start raises `CalledProcessError`. Leaving it
    removes it and never raises.
  - `CumulativeContextManager` enters its containers in order, removes the
    ones already started when one fails, and leaves in reverse order.
  - `env_args` and the container command lines are not part of this model. A
    one-shot run and a container start are abstract actions carrying their
    arguments.
- `multiprocessing.Pool` and its concurrency. A task's result, and whether
  it is ready within the time left, are given by the `results` parameter.
  `time.time()` is given by `start` and `clock`.
- `uuid.uuid4()` is the `namespace` parameter. `json.load` of standard input
  is replaced by the already parsed matrix and images.
- Writing to standard error and log files, the banners, `mkdir` of the log
  directory, and `shutil.rmtree`. The clean-up of the log directory is the
  abstract action `ClearDir`, whose failure is an `OSError`.
- JSON values are string, boolean, integer or null. Floats, lists and nested
  objects in a case are not modelled.
- `int()` is modelled on ASCII digits with optional sign, underscores and
  surrounding whitespace. Non-ASCII digits are not.
- `bytes.decode` of the pod id is left out: outputs are strings.
- `Scheduler.RunTests`: the parallel tasks run `run_case_logger` in worker
  processes that this model does not execute. The link between a task's
  boolean and the case's own trace is given by `Lifecycle.RunCaseLogger`, not
  by the scheduler's contract.
- `time.time()` returns a float; the model reads the clock as a `real`, so
  the rounding of `start_time + 21600 - time.time()` (line 98) is not
  modelled.
- `pathlib` paths: `logs_dir / f'log-{id}'` and `logs_dir / f'log-{id}.txt'`
  (lines 78 and 91) are plain string concatenation with "/" in the model.
  pathlib's normalisation of an id containing "/" (a doubled or trailing
  separator, for instance) is not modelled.
- The timeout listing of still-running cases (line 102) is output only and is
  not modelled.

The model follows the code, which:

- takes the `images` object as a map from each image to its selector;
- has `find_image` return the first match, without checking that it is unique;
- with failfast off, has the parallel loop ignore false results, so the
  process exits 0 even if every case failed.

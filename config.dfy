/**
 * The run configuration: the switches read from the process environment, the
 * keyword arguments `gen_case_kwargs` derives for each case, and the size of
 * the worker pool.
 */
module Config {
  import opened Strings
  import opened Types
  import opened Matrix

  /** The process environment, `os.environ`. */
  type Env = map<string, string>

  const UsePodmanVar := "USE_PODMAN"
  const ParallelVar := "PARALLEL_AUTOTESTS"
  const FailfastVar := "PARALLEL_AUTOTESTS_FAILFAST"
  const CopyLogsVar := "COPY_AUTOTEST_LOGS"
  const ProcnumVar := "PARALLEL_AUTOTESTS_PROCNUM"

  /** The worker count when `PARALLEL_AUTOTESTS_PROCNUM` is not set. */
  const DefaultProcnum := 3

  /** The directory every per-case log lives in. */
  const LogsRoot := ".autotest"

  /** `name in os.environ and os.environ[name] == '1'` */
  predicate FlagSet(env: Env, name: string) {
    name in env && env[name] == "1"
  }

  datatype Flags = Flags(usePodman: bool, parallel: bool, failfast: bool, copyLogs: bool)

  /** The four switches `run_tests` reads before it does anything else. */
  function ReadFlags(env: Env): Flags {
    Flags(FlagSet(env, UsePodmanVar), FlagSet(env, ParallelVar), FlagSet(env, FailfastVar), FlagSet(env, CopyLogsVar))
  }

  /** The keyword arguments of one `run_case` call. */
  datatype CaseKwargs = CaseKwargs(
    caseenv: map<string, string>,
    image: string,
    usePodman: bool,
    useNamespace: bool,
    useHttpd: bool,
    copyLogs: bool,
    logsDir: string,
    tests: seq<string>)

  /** `case.get('RUN_HTTPD', True)`, as the tests on it see it (its truthiness). */
  predicate UseHttpd(c: Case) {
    if "RUN_HTTPD" in c then Truthy(c["RUN_HTTPD"]) else true
  }

  /** `tests or []` */
  function TestsOrEmpty(tests: Option<seq<string>>): seq<string> {
    match tests
    case None => []
    case Some(t) => t
  }

  /** `logs_dir / f'log-{id}'`: the directory the container logs are copied to. */
  function LogsDirOf(id: string): string {
    LogsRoot + "/log-" + id
  }

  /** `logs_dir / f'log-{id}.txt'`: the file a parallel task's diagnostics go to. */
  function StdLogOf(id: string): string {
    LogsRoot + "/log-" + id + ".txt"
  }

  /**
   * `gen_case_kwargs(case)`: the dictionary is built in order, so a missing
   * image is reported before a malformed id.
   */
  function GenCaseKwargs(flags: Flags, images: Images, c: Case, tests: Option<seq<string>>): (r: Outcome<CaseKwargs>)
    ensures r.Raised? <==> ImageFor(images, c).Raised? || CaseId(c).Raised?
    ensures ImageFor(images, c).Raised? ==> r == Raised(ImageNotFound)
    ensures r.Normal? ==> ImageFor(images, c) == Normal(r.value.image) && r.value.caseenv == Stringify(c)
  {
    var image := ImageFor(images, c);
    if image.Raised? then Raised(image.exc)
    else
      var id := CaseId(c);
      if id.Raised? then Raised(id.exc)
      else
        Normal(CaseKwargs(
          caseenv := Stringify(c),
          image := image.value,
          usePodman := flags.usePodman,
          useNamespace := flags.usePodman && flags.parallel,
          useHttpd := UseHttpd(c),
          copyLogs := flags.copyLogs && UseHttpd(c),
          logsDir := LogsDirOf(id.value),
          tests := TestsOrEmpty(tests)))
  }

  /** `min(int(os.environ.get('PARALLEL_AUTOTESTS_PROCNUM', 3)), len(cases))` */
  function WorkerCount(env: Env, caseCount: nat): (r: Outcome<int>)
    ensures r.Normal? ==> r.value <= caseCount
    ensures ProcnumVar !in env ==> r == Normal(if caseCount < DefaultProcnum then caseCount else DefaultProcnum)
    ensures ProcnumVar in env ==> (r.Normal? <==> ParseInt(env[ProcnumVar]).Some?)
    ensures ProcnumVar in env && r.Normal? ==>
      var p := ParseInt(env[ProcnumVar]).value; r.value == if p < caseCount then p else caseCount
    ensures r.Raised? ==> r.exc == ValueError
  {
    var p := if ProcnumVar in env then ParseInt(env[ProcnumVar]) else Some(DefaultProcnum);
    if p.None? then Raised(ValueError)
    else Normal(if p.value < caseCount then p.value else caseCount)
  }

  /** The `processes` of `multiprocessing.Pool`, which refuses fewer than one. */
  function PoolSize(env: Env, caseCount: nat): (r: Outcome<nat>)
    ensures r.Normal? ==> 1 <= r.value <= caseCount
    ensures r.Normal? <==> WorkerCount(env, caseCount).Normal? && WorkerCount(env, caseCount).value >= 1
    ensures r.Raised? ==> r.exc == ValueError
  {
    var w := WorkerCount(env, caseCount);
    if w.Raised? then Raised(w.exc)
    else if w.value < 1 then Raised(ValueError)
    else Normal(w.value)
  }

  // ---------------------------------------------------------------------------
  // Properties

  /**
   * What `gen_case_kwargs` derives from the environment and the case: it fails
   * exactly when the image lookup or the id fails; otherwise each switch is
   * true iff its variable is "1", the namespace needs podman and parallel mode,
   * log copying needs the httpd path, httpd is on unless RUN_HTTPD is falsy,
   * the logs go to log-<id> and the tests default to none.
   */
  lemma KwargsFromEnvironment(env: Env, images: Images, c: Case, tests: Option<seq<string>>)
    ensures var r := GenCaseKwargs(ReadFlags(env), images, c, tests);
      && (r.Normal? <==> ImageFor(images, c).Normal? && CaseId(c).Normal?)
      && (ImageFor(images, c).Raised? ==> r == Raised(ImageNotFound))
      && (r.Normal? ==>
            var k := r.value;
            && k.image == ImageFor(images, c).value
            && k.caseenv.Keys == c.Keys
            && (k.usePodman <==> UsePodmanVar in env && env[UsePodmanVar] == "1")
            && (k.useNamespace <==> k.usePodman && ParallelVar in env && env[ParallelVar] == "1")
            && (k.useHttpd <==> "RUN_HTTPD" !in c || Truthy(c["RUN_HTTPD"]))
            && (k.copyLogs <==> k.useHttpd && CopyLogsVar in env && env[CopyLogsVar] == "1")
            && k.logsDir == ".autotest/log-" + CaseId(c).value
            && (tests.None? ==> k.tests == []))
  {
  }

  /** Only a falsy RUN_HTTPD (false, 0, "" or null) selects the direct path; the string "false" does not. */
  lemma DirectPathOnlyWhenFalsy(c: Case)
    ensures !UseHttpd(c) <==> "RUN_HTTPD" in c && c["RUN_HTTPD"] in {Bool(false), Int(0), Str(""), Null}
    ensures "RUN_HTTPD" in c && c["RUN_HTTPD"] == Str("false") ==> UseHttpd(c)
  {
  }

  /** In parallel mode an empty matrix cannot get a pool, since `min(procnum, 0)` is 0. */
  lemma NoPoolForEmptyMatrix(env: Env)
    ensures PoolSize(env, 0) == Raised(ValueError)
  {
  }
}

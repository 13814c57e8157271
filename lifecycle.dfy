/**
 * The life of one test case: `run_case` with its optional pod, the direct
 * path `run_test_directly`, the service-backed path `run_with_httpd`, and
 * `run_case_logger`, which turns the case's exceptions into a boolean.
 *
 * Each operation is a function from the log of actions issued so far to its
 * result and the new log, and a method that drives a `Host` through the same
 * actions; each method is proved to agree with its function.
 */
module Lifecycle {
  import opened Strings
  import opened Types
  import opened Matrix
  import opened Config
  import opened Shell

  const InstallScript := "./tools/test/install_script.sh"
  const TestScript := "./tools/test/test.sh"
  const BeforeScript := "./tools/test/before_script.sh"

  /**
   * What the `suites` module provides: the container class of each database
   * (`rdbms_container`), the container classes of each service group
   * (`services`) and the host names of the services (`service_hostnames`).
   */
  datatype Suites = Suites(rdbms: map<string, string>, services: map<string, seq<string>>, hostnames: seq<string>)

  /** The namespace arguments and environment of one case. */
  datatype Isolation = Isolation(nsArgs: seq<string>, nsEnv: map<string, string>)

  /** `namespace_args` and `namespace_env`; `namespace` is the fresh `uuid4()` of the case. */
  function IsolationOf(useNamespace: bool, namespace: string): Isolation {
    if useNamespace then Isolation(["--namespace", namespace], map["NAMESPACE" := namespace])
    else Isolation([], map[])
  }

  /** `pod_net_arg` */
  function PodNetArgs(usePodman: bool, pod: string): seq<string> {
    if usePodman then ["--pod", pod] else []
  }

  // ---------------------------------------------------------------------------
  // The direct path

  /** `scripts_to_run` */
  function DirectScript(tests: seq<string>): string {
    Join(" && ", [InstallScript, TestScript + (if tests != [] then " -p" else "")])
  }

  /** The environment of the one-shot container: a copy of `caseenv`, with TESTS when tests are given. */
  function DirectEnv(caseenv: map<string, string>, tests: seq<string>): map<string, string> {
    if tests != [] then caseenv["TESTS" := Join(" ", tests)] else caseenv
  }

  function DirectAction(kw: CaseKwargs, pod: string, nsArgs: seq<string>): Action {
    RunOneShot(nsArgs, PodNetArgs(kw.usePodman, pod), DirectEnv(kw.caseenv, kw.tests), kw.image, ["sh", "-c", DirectScript(kw.tests)])
  }

  /** `run_test_directly`: a failing run is caught and reported as `False`. */
  function DirectPath(o: Oracle, log: seq<Action>, kw: CaseKwargs, pod: string, nsArgs: seq<string>): (s: Step<bool>)
    ensures s.out.Normal?
    ensures s.log == log + [DirectAction(kw, pod, nsArgs)]
  {
    var s := RunStep(o, log, DirectAction(kw, pod, nsArgs), true);
    Step(Normal(s.out.Normal?), s.log)
  }

  // ---------------------------------------------------------------------------
  // The service-backed path

  function PrimaryStart(kw: CaseKwargs, iso: Isolation, podArgs: seq<string>): Action {
    StartContainer(Primary(kw.image), iso.nsArgs, podArgs, kw.caseenv)
  }

  /** `container_run_args`: the pod, or else the network namespace of the primary container. */
  function ServiceRunArgs(usePodman: bool, podArgs: seq<string>, cid: string): seq<string> {
    if usePodman then podArgs else ["--network", "container:" + cid]
  }

  /** `caseenv.get('RDBMS', '')` */
  function Rdbms(caseenv: map<string, string>): string {
    if "RDBMS" in caseenv then caseenv["RDBMS"] else ""
  }

  /** `caseenv.get('SERVICES', 'default')` */
  function ServiceGroup(caseenv: map<string, string>): string {
    if "SERVICES" in caseenv then caseenv["SERVICES"] else "default"
  }

  /** A database container is created: RDBMS is set and has a registered container class. */
  predicate HasDb(suites: Suites, caseenv: map<string, string>) {
    Rdbms(caseenv) != "" && Rdbms(caseenv) in suites.rdbms
  }

  /**
   * `additional_containers`, as the classes they are created from: nothing
   * without RDBMS; otherwise the database class when one is registered,
   * followed by the classes of the service group, whose absence is a KeyError.
   */
  function ServiceClasses(suites: Suites, caseenv: map<string, string>): (r: Outcome<seq<string>>)
    ensures Rdbms(caseenv) == "" ==> r == Normal([])
    ensures Rdbms(caseenv) != "" ==> (r.Raised? <==> ServiceGroup(caseenv) !in suites.services)
    ensures r.Raised? ==> r.exc == KeyError(ServiceGroup(caseenv))
    ensures r.Normal? && Rdbms(caseenv) != "" ==>
      r.value == (if HasDb(suites, caseenv) then [suites.rdbms[Rdbms(caseenv)]] else []) + suites.services[ServiceGroup(caseenv)]
  {
    var rdbms := Rdbms(caseenv);
    if rdbms == "" then Normal([])
    else
      var db := if rdbms in suites.rdbms then [suites.rdbms[rdbms]] else [];
      var group := ServiceGroup(caseenv);
      if group !in suites.services then Raised(KeyError(group))
      else Normal(db + suites.services[group])
  }

  function ServiceStart(cls: string, nsArgs: seq<string>, runArgs: seq<string>): Action {
    StartContainer(Service(cls), nsArgs, runArgs, map[])
  }

  /** The removals of `cids` in reverse order of creation. */
  function Removals(cids: seq<string>): seq<Action>
    decreases |cids|
  {
    if cids == [] then [] else Removals(cids[1..]) + [RemoveContainer(cids[0])]
  }

  /**
   * Entering the group of auxiliary containers: each is started in turn; when
   * one fails to start, those already started are removed and the error is raised.
   */
  function StartFrom(o: Oracle, log: seq<Action>, classes: seq<string>, nsArgs: seq<string>, runArgs: seq<string>, started: seq<string>): (s: Step<seq<string>>)
    ensures s.out.Normal? ==> |s.out.value| == |started| + |classes|
    decreases |classes|
  {
    if classes == [] then Step(Normal(started), log)
    else
      var st := RunStep(o, log, ServiceStart(classes[0], nsArgs, runArgs), true);
      if st.out.Raised? then Step(Raised(st.out.exc), st.log + Removals(started))
      else StartFrom(o, st.log, classes[1..], nsArgs, runArgs, started + [st.out.value])
  }

  function StartServices(o: Oracle, log: seq<Action>, classes: seq<string>, nsArgs: seq<string>, runArgs: seq<string>): Step<seq<string>> {
    StartFrom(o, log, classes, nsArgs, runArgs, [])
  }

  /** `db_env`: CON_DB is the id of the database container, which is the first auxiliary container when there is one. */
  function DbEnv(hasDb: bool, cids: seq<string>): map<string, string> {
    if hasDb && cids != [] then map["CON_DB" := cids[0]] else map[]
  }

  function BeforeScriptAction(environ: map<string, string>, caseenv: map<string, string>, iso: Isolation, dbEnv: map<string, string>, cid: string): Action {
    Exec([BeforeScript], Some(environ + caseenv + iso.nsEnv + dbEnv +
      map["CONTAINER_RUNTIME_ARGS" := Join(" ", iso.nsArgs), "CON_RUCIO" := cid]))
  }

  function HostsAction(nsArgs: seq<string>, cid: string, hostnames: seq<string>): Action {
    Exec(["docker"] + nsArgs + ["exec", cid, "/bin/sh", "-c", "echo \"127.0.0.1 " + Join(" ", hostnames) + "\" | tee -a /etc/hosts"], None)
  }

  function InstallAction(nsArgs: seq<string>, cid: string): Action {
    Exec(["docker"] + nsArgs + ["exec", cid, InstallScript], None)
  }

  /** `tests_env` */
  function TestsEnvArgs(tests: seq<string>): seq<string> {
    if tests != [] then ["--env", "TESTS=" + Join(" ", tests)] else []
  }

  /** `tests_arg` */
  function TestsFlag(tests: seq<string>): seq<string> {
    if tests != [] then ["-p"] else []
  }

  function TestAction(nsArgs: seq<string>, cid: string, tests: seq<string>): Action {
    Exec(["docker"] + nsArgs + ["exec"] + TestsEnvArgs(tests) + [cid, TestScript] + TestsFlag(tests), None)
  }

  /** The four staged phases, in the order they run: before_script, host names, install, test. */
  function Phases(environ: map<string, string>, hostnames: seq<string>, caseenv: map<string, string>, tests: seq<string>,
                  iso: Isolation, dbEnv: map<string, string>, cid: string): seq<Action> {
    [ BeforeScriptAction(environ, caseenv, iso, dbEnv, cid),
      HostsAction(iso.nsArgs, cid, hostnames),
      InstallAction(iso.nsArgs, cid),
      TestAction(iso.nsArgs, cid, tests) ]
  }

  /** Run actions in order with `check=True`, stopping at the first that fails. */
  function RunAll(o: Oracle, log: seq<Action>, acts: seq<Action>): Step<()>
    decreases |acts|
  {
    if acts == [] then Step(Normal(()), log)
    else
      var s := RunStep(o, log, acts[0], true);
      if s.out.Raised? then Step(Raised(s.out.exc), s.log) else RunAll(o, s.log, acts[1..])
  }

  /** The body of `with CumulativeContextManager(...)`: services up, the phases, services down. */
  function WithServices(o: Oracle, log: seq<Action>, environ: map<string, string>, suites: Suites, caseenv: map<string, string>, tests: seq<string>,
                        iso: Isolation, runArgs: seq<string>, cid: string, classes: seq<string>): Step<()>
  {
    var up := StartServices(o, log, classes, iso.nsArgs, runArgs);
    if up.out.Raised? then Step(Raised(up.out.exc), up.log)
    else
      var cids := up.out.value;
      var ran := RunAll(o, up.log, Phases(environ, suites.hostnames, caseenv, tests, iso, DbEnv(HasDb(suites, caseenv), cids), cid));
      Step(ran.out, ran.log + Removals(cids))
  }

  function LogsAction(nsArgs: seq<string>, cid: string): Action {
    Exec(["docker"] + nsArgs + ["logs", cid], None)
  }

  function CopyAction(nsArgs: seq<string>, cid: string, logsDir: string): Action {
    Exec(["docker"] + nsArgs + ["cp", cid + ":/var/log", logsDir], None)
  }

  /** The `finally` of `run_with_httpd`: the container log, then the optional copy, whose errors are swallowed. */
  function Finalize(o: Oracle, log: seq<Action>, nsArgs: seq<string>, cid: string, copyLogs: bool, logsDir: string): seq<Action> {
    var logs := RunStep(o, log, LogsAction(nsArgs, cid), false).log;
    if !copyLogs then logs
    else
      var cleared := RunStep(o, logs, ClearDir(logsDir), true);
      if cleared.out.Raised? then cleared.log
      else RunStep(o, cleared.log, CopyAction(nsArgs, cid, logsDir), true).log
  }

  /** What the `except subprocess.CalledProcessError` of `run_with_httpd` makes of the body's outcome. */
  function Handled(body: Outcome<()>): Outcome<bool> {
    match body
    case Normal(_) => Normal(true)
    case Raised(CalledProcessError(_, _)) => Normal(false)
    case Raised(e) => Raised(e)
  }

  /** The `try` block of `run_with_httpd`, once the primary container `cid` is up. */
  function HttpdBody(o: Oracle, log: seq<Action>, environ: map<string, string>, suites: Suites, caseenv: map<string, string>, tests: seq<string>,
                     iso: Isolation, runArgs: seq<string>, cid: string): Step<()> {
    var classes := ServiceClasses(suites, caseenv);
    if classes.Raised? then Step(Raised(classes.exc), log)
    else WithServices(o, log, environ, suites, caseenv, tests, iso, runArgs, cid, classes.value)
  }

  /** `run_with_httpd` */
  function HttpdPath(o: Oracle, log: seq<Action>, environ: map<string, string>, suites: Suites, kw: CaseKwargs, iso: Isolation, pod: string): (s: Step<bool>)
    ensures var a := PrimaryStart(kw, iso, PodNetArgs(kw.usePodman, pod));
      o(log, a).code != 0 ==> s == Step(Raised(CalledProcessError(a, o(log, a).code)), log + [a])
    ensures var a := PrimaryStart(kw, iso, PodNetArgs(kw.usePodman, pod));
      o(log, a).code == 0 ==> |s.log| > 0 && s.log[|s.log| - 1] == RemoveContainer(o(log, a).stdout)
  {
    var podArgs := PodNetArgs(kw.usePodman, pod);
    var start := RunStep(o, log, PrimaryStart(kw, iso, podArgs), true);
    if start.out.Raised? then Step(Raised(start.out.exc), start.log)
    else
      var cid := start.out.value;
      var body := HttpdBody(o, start.log, environ, suites, kw.caseenv, kw.tests, iso, ServiceRunArgs(kw.usePodman, podArgs, cid), cid);
      Step(Handled(body.out), Finalize(o, body.log, iso.nsArgs, cid, kw.copyLogs, kw.logsDir) + [RemoveContainer(cid)])
  }

  // ---------------------------------------------------------------------------
  // run_case

  function ImageLsAction(image: string): Action {
    Exec(["docker", "image", "ls", image], None)
  }

  function PodCreateAction(nsArgs: seq<string>): Action {
    Exec(["podman"] + nsArgs + ["pod", "create"], None)
  }

  function PodStopAction(nsArgs: seq<string>, pod: string): Action {
    Exec(["podman"] + nsArgs + ["pod", "stop", "-t", "10", pod], None)
  }

  function PodRmAction(nsArgs: seq<string>, pod: string): Action {
    Exec(["podman"] + nsArgs + ["pod", "rm", "--force", pod], None)
  }

  /** The pod teardown of the `finally` of `run_case`; both commands run with `check=False`. */
  function Teardown(nsArgs: seq<string>, pod: string): seq<Action> {
    if pod == "" then [] else [PodStopAction(nsArgs, pod), PodRmAction(nsArgs, pod)]
  }

  /** The branch of `run_case`. */
  function BranchPath(o: Oracle, log: seq<Action>, environ: map<string, string>, suites: Suites, kw: CaseKwargs, iso: Isolation, pod: string): Step<bool> {
    if kw.useHttpd then HttpdPath(o, log, environ, suites, kw, iso, pod) else DirectPath(o, log, kw, pod, iso.nsArgs)
  }

  /** What `run_case` makes of the branch's outcome: an exception passes, `False` becomes `sys.exit(1)`. */
  function CaseResult(branch: Outcome<bool>): (r: Outcome<()>)
    ensures r.Normal? <==> branch == Normal(true)
    ensures branch == Normal(false) ==> r == Raised(SystemExit(1))
    ensures branch.Raised? ==> r == Raised(branch.exc)
  {
    match branch
    case Raised(e) => Raised(e)
    case Normal(ok) => if ok then Normal(()) else Raised(SystemExit(1))
  }

  /** The part of `run_case` from the `try` on, once the pod (possibly "") is known. */
  function WithPod(o: Oracle, log: seq<Action>, environ: map<string, string>, suites: Suites, kw: CaseKwargs, iso: Isolation, pod: string): Step<()> {
    var b := BranchPath(o, log, environ, suites, kw, iso, pod);
    Step(CaseResult(b.out), b.log + Teardown(iso.nsArgs, pod))
  }

  /** `run_case(**kw)`, with `namespace` the value `uuid4()` would give. */
  function CaseRun(o: Oracle, log: seq<Action>, environ: map<string, string>, suites: Suites, kw: CaseKwargs, namespace: string): (s: Step<()>)
    ensures var ls := ImageLsAction(kw.image);
      o(log, ls).code != 0 ==> s == Step(Raised(CalledProcessError(ls, o(log, ls).code)), log + [ls])
    ensures var create := PodCreateAction(IsolationOf(kw.useNamespace, namespace).nsArgs); var ls := ImageLsAction(kw.image);
      kw.usePodman && o(log, ls).code == 0 && o(log + [ls], create).code != 0 ==>
        s == Step(Raised(CalledProcessError(create, o(log + [ls], create).code)), log + [ls, create])
  {
    var iso := IsolationOf(kw.useNamespace, namespace);
    var ls := RunStep(o, log, ImageLsAction(kw.image), true);
    if ls.out.Raised? then Step(Raised(ls.out.exc), ls.log)
    else if !kw.usePodman then WithPod(o, ls.log, environ, suites, kw, iso, "")
    else
      var created := RunStep(o, ls.log, PodCreateAction(iso.nsArgs), true);
      if created.out.Raised? then Step(Raised(created.out.exc), created.log)
      else
        var pod := Strip(created.out.value);
        if pod == "" then Step(Raised(NoPodId), created.log)
        else WithPod(o, created.log, environ, suites, kw, iso, pod)
  }

  // ---------------------------------------------------------------------------
  // The imperative operations

  /** `run_test_directly` */
  method RunTestDirectly(host: Host, kw: CaseKwargs, pod: string, nsArgs: seq<string>) returns (ok: bool)
    modifies host`log
    ensures Step(Normal(ok), host.log) == DirectPath(host.oracle, old(host.log), kw, pod, nsArgs)
  {
    var caseenv := kw.caseenv;
    if kw.tests != [] {
      caseenv := caseenv["TESTS" := Join(" ", kw.tests)];
    }
    var r := host.Run(RunOneShot(nsArgs, PodNetArgs(kw.usePodman, pod), caseenv, kw.image, ["sh", "-c", DirectScript(kw.tests)]), true);
    ok := r.Normal?;
  }

  /** Entering `CumulativeContextManager(*additional_containers)`. */
  method EnterServices(host: Host, classes: seq<string>, nsArgs: seq<string>, runArgs: seq<string>) returns (r: Outcome<seq<string>>)
    modifies host`log
    ensures Step(r, host.log) == StartServices(host.oracle, old(host.log), classes, nsArgs, runArgs)
  {
    var started: seq<string> := [];
    var i := 0;
    while i < |classes|
      invariant 0 <= i <= |classes|
      invariant StartServices(host.oracle, old(host.log), classes, nsArgs, runArgs) == StartFrom(host.oracle, host.log, classes[i..], nsArgs, runArgs, started)
    {
      var s := host.Run(ServiceStart(classes[i], nsArgs, runArgs), true);
      if s.Raised? {
        ExitServices(host, started);
        return Raised(s.exc);
      }
      started := started + [s.value];
      assert classes[i..][1..] == classes[i + 1..];
      i := i + 1;
    }
    return Normal(started);
  }

  /** Leaving the group: every auxiliary container is removed, the last created first. */
  method ExitServices(host: Host, cids: seq<string>)
    modifies host`log
    ensures host.log == old(host.log) + Removals(cids)
  {
    var i := |cids|;
    while i > 0
      invariant 0 <= i <= |cids|
      invariant host.log == old(host.log) + Removals(cids[i..])
    {
      var ignored := host.Run(RemoveContainer(cids[i - 1]), false);
      assert cids[i - 1..][1..] == cids[i..];
      i := i - 1;
    }
  }

  /** The four staged phases; the first that fails ends the sequence. */
  method RunPhases(host: Host, before: Action, hosts: Action, install: Action, test: Action) returns (r: Outcome<()>)
    modifies host`log
    ensures Step(r, host.log) == RunAll(host.oracle, old(host.log), [before, hosts, install, test])
  {
    ghost var acts := [before, hosts, install, test];
    ghost var l0 := host.log;
    assert acts[1..] == [hosts, install, test] && acts[1..][1..] == [install, test] && acts[1..][1..][1..] == [test];
    var s := host.Run(before, true);
    if s.Raised? { return Raised(s.exc); }
    ghost var l1 := host.log;
    assert RunAll(host.oracle, l0, acts) == RunAll(host.oracle, l1, acts[1..]);
    s := host.Run(hosts, true);
    if s.Raised? { return Raised(s.exc); }
    ghost var l2 := host.log;
    assert RunAll(host.oracle, l1, acts[1..]) == RunAll(host.oracle, l2, acts[1..][1..]);
    s := host.Run(install, true);
    if s.Raised? { return Raised(s.exc); }
    ghost var l3 := host.log;
    assert RunAll(host.oracle, l2, acts[1..][1..]) == RunAll(host.oracle, l3, acts[1..][1..][1..]);
    s := host.Run(test, true);
    if s.Raised? { return Raised(s.exc); }
    assert acts[1..][1..][1..][1..] == [];
    return Normal(());
  }

  /** The `finally` of `run_with_httpd`. */
  method FinalizeLogs(host: Host, nsArgs: seq<string>, cid: string, copyLogs: bool, logsDir: string)
    modifies host`log
    ensures host.log == Finalize(host.oracle, old(host.log), nsArgs, cid, copyLogs, logsDir)
  {
    var ignored := host.Run(LogsAction(nsArgs, cid), false);
    if copyLogs {
      var cleared := host.Run(ClearDir(logsDir), true);
      if cleared.Normal? {
        ignored := host.Run(CopyAction(nsArgs, cid, logsDir), true);
      }
    }
  }

  /** `run_with_httpd` */
  method RunWithHttpd(host: Host, suites: Suites, kw: CaseKwargs, iso: Isolation, pod: string) returns (r: Outcome<bool>)
    modifies host`log
    ensures Step(r, host.log) == HttpdPath(host.oracle, old(host.log), host.environ, suites, kw, iso, pod)
  {
    var podArgs := PodNetArgs(kw.usePodman, pod);
    var started := host.Run(PrimaryStart(kw, iso, podArgs), true);
    if started.Raised? {
      return Raised(started.exc);
    }
    var cid := started.value;
    ghost var afterStart := host.log;
    var body: Outcome<()>;
    var classes := ServiceClasses(suites, kw.caseenv);
    if classes.Raised? {
      body := Raised(classes.exc);
    } else {
      var runArgs := ServiceRunArgs(kw.usePodman, podArgs, cid);
      var up := EnterServices(host, classes.value, iso.nsArgs, runArgs);
      if up.Raised? {
        body := Raised(up.exc);
      } else {
        var cids := up.value;
        var dbEnv := DbEnv(HasDb(suites, kw.caseenv), cids);
        body := RunPhases(host,
          BeforeScriptAction(host.environ, kw.caseenv, iso, dbEnv, cid),
          HostsAction(iso.nsArgs, cid, suites.hostnames),
          InstallAction(iso.nsArgs, cid),
          TestAction(iso.nsArgs, cid, kw.tests));
        ExitServices(host, cids);
      }
    }
    r := Handled(body);
    FinalizeLogs(host, iso.nsArgs, cid, kw.copyLogs, kw.logsDir);
    var ignored := host.Run(RemoveContainer(cid), false);
  }

  /** `run_case(**kw)`; `namespace` stands for the fresh `uuid4()`. */
  method RunCase(host: Host, suites: Suites, kw: CaseKwargs, namespace: string) returns (r: Outcome<()>)
    modifies host`log
    ensures Step(r, host.log) == CaseRun(host.oracle, old(host.log), host.environ, suites, kw, namespace)
  {
    var iso := IsolationOf(kw.useNamespace, namespace);
    var ls := host.Run(ImageLsAction(kw.image), true);
    if ls.Raised? {
      return Raised(ls.exc);
    }
    var pod := "";
    if kw.usePodman {
      var out := host.Run(PodCreateAction(iso.nsArgs), true);
      if out.Raised? {
        return Raised(out.exc);
      }
      pod := Strip(out.value);
      if pod == "" {
        return Raised(NoPodId);
      }
    }
    var branch: Outcome<bool>;
    if kw.useHttpd {
      branch := RunWithHttpd(host, suites, kw, iso, pod);
    } else {
      var ok := RunTestDirectly(host, kw, pod, iso.nsArgs);
      branch := Normal(ok);
    }
    if pod != "" {
      var ignored := host.Run(PodStopAction(iso.nsArgs, pod), false);
      ignored := host.Run(PodRmAction(iso.nsArgs, pod), false);
    }
    r := CaseResult(branch);
  }

  /**
   * What `run_case_logger` returns: an id that cannot be computed raises
   * before anything runs; otherwise any exception of the case, the
   * `sys.exit(1)` of a failed one included, becomes `False`.
   */
  function LoggerOutcome(o: Oracle, log: seq<Action>, environ: map<string, string>, suites: Suites, kw: CaseKwargs, namespace: string): (s: Step<bool>)
    ensures s.out.Raised? <==> CaseId(AsCase(kw.caseenv)).Raised?
    ensures s.out.Raised? ==> s.out.exc == CaseId(AsCase(kw.caseenv)).exc && s.log == log
  {
    var id := CaseId(AsCase(kw.caseenv));
    if id.Raised? then Step(Raised(id.exc), log)
    else
      var s := CaseRun(o, log, environ, suites, kw, namespace);
      Step(Normal(s.out.Normal?), s.log)
  }

  /**
   * `run_case_logger`: diagnostics go to `stdlog` while the case runs, and
   * `sys.stderr` is restored afterwards.
   */
  method RunCaseLogger(host: Host, suites: Suites, kw: CaseKwargs, namespace: string, stdlog: Sink) returns (r: Outcome<bool>)
    modifies host
    ensures host.stderr == old(host.stderr)
    ensures Step(r, host.log) == LoggerOutcome(host.oracle, old(host.log), host.environ, suites, kw, namespace)
  {
    var id := CaseId(AsCase(kw.caseenv));
    if id.Raised? {
      return Raised(id.exc);
    }
    var saved := host.stderr;
    host.stderr := stdlog;
    var outcome := RunCase(host, suites, kw, namespace);
    host.stderr := saved;
    r := Normal(outcome.Normal?);
  }

  // ---------------------------------------------------------------------------
  // Properties of the traces

  /** The start actions of the auxiliary containers, in creation order. */
  function Starts(classes: seq<string>, nsArgs: seq<string>, runArgs: seq<string>): seq<Action>
    decreases |classes|
  {
    if classes == [] then [] else [ServiceStart(classes[0], nsArgs, runArgs)] + Starts(classes[1..], nsArgs, runArgs)
  }

  /** The position of the first action of `acts` that would fail after `log`, or `|acts|`. */
  function FailsAt(o: Oracle, log: seq<Action>, acts: seq<Action>): (k: nat)
    ensures k <= |acts|
    ensures forall j :: 0 <= j < k ==> o(log + acts[..j], acts[j]).code == 0
    ensures k < |acts| ==> o(log + acts[..k], acts[k]).code != 0
    decreases |acts|
  {
    if acts == [] then 0
    else if o(log, acts[0]).code != 0 then
      assert log + acts[..0] == log;
      0
    else
      var k := 1 + FailsAt(o, log + [acts[0]], acts[1..]);
      assert forall j :: 0 <= j < |acts| ==> log + acts[..j + 1] == (log + [acts[0]]) + acts[1..][..j];
      assert log + acts[..0] == log;
      k
  }

  /** How many actions of `acts` are issued when the first failure is at `k`. */
  function Issued(k: nat, n: nat): nat {
    if k < n then k + 1 else n
  }

  /** The removals undo the creations in reverse: the last container created is the first removed. */
  lemma {:induction false} RemovalsReverse(cids: seq<string>)
    ensures |Removals(cids)| == |cids|
    ensures forall j :: 0 <= j < |cids| ==> Removals(cids)[j] == RemoveContainer(cids[|cids| - 1 - j])
    decreases |cids|
  {
    if cids != [] {
      RemovalsReverse(cids[1..]);
    }
  }

  /**
   * Staged actions: every action up to and including the first failure is
   * issued, in order, and no later one; the sequence succeeds iff none fails,
   * and otherwise raises the failure of the first that did.
   */
  lemma {:induction false} RunAllStopsAtFirstFailure(o: Oracle, log: seq<Action>, acts: seq<Action>)
    ensures var s := RunAll(o, log, acts); var k := FailsAt(o, log, acts);
      && (s.out.Normal? <==> k == |acts|)
      && s.log == log + acts[..Issued(k, |acts|)]
      && (k < |acts| ==> s.out.exc == Failure(acts[k], o(log + acts[..k], acts[k]).code))
    decreases |acts|
  {
    if acts != [] && o(log, acts[0]).code == 0 {
      var log1 := log + [acts[0]];
      RunAllStopsAtFirstFailure(o, log1, acts[1..]);
      var k := FailsAt(o, log1, acts[1..]);
      assert log1 + acts[1..][..Issued(k, |acts| - 1)] == log + acts[..Issued(k, |acts| - 1) + 1];
      if k < |acts| - 1 {
        assert log1 + acts[1..][..k] == log + acts[..k + 1];
      }
    } else if acts != [] {
      assert log + acts[..0] == log;
    }
  }

  /**
   * The auxiliary containers start one after the other in the order of their
   * classes. When all start, their ids are returned; when one fails, the ids of
   * those started before it are removed, last first, and the failure is a
   * CalledProcessError.
   */
  lemma {:induction false} StartFromTrace(o: Oracle, log: seq<Action>, classes: seq<string>, nsArgs: seq<string>, runArgs: seq<string>, started: seq<string>)
    returns (k: nat, cids: seq<string>)
    ensures var s := StartFrom(o, log, classes, nsArgs, runArgs, started);
      && k <= |classes| && |cids| == k
      && (s.out.Normal? <==> k == |classes|)
      && (s.out.Normal? ==> s.out.value == started + cids && s.log == log + Starts(classes, nsArgs, runArgs))
      && (s.out.Raised? ==>
            && s.out.exc.CalledProcessError?
            && s.log == log + Starts(classes[..k + 1], nsArgs, runArgs) + Removals(started + cids))
    decreases |classes|
  {
    if classes == [] {
      k, cids := 0, [];
      return;
    }
    var a := ServiceStart(classes[0], nsArgs, runArgs);
    var st := RunStep(o, log, a, true);
    assert Starts(classes[..1], nsArgs, runArgs) == [a] by {
      assert classes[..1][1..] == [];
    }
    if st.out.Raised? {
      k, cids := 0, [];
      assert started + cids == started;
      return;
    }
    var v := st.out.value;
    var k1, cids1 := StartFromTrace(o, st.log, classes[1..], nsArgs, runArgs, started + [v]);
    k, cids := k1 + 1, [v] + cids1;
    assert started + [v] + cids1 == started + cids;
    var s := StartFrom(o, st.log, classes[1..], nsArgs, runArgs, started + [v]);
    if s.out.Normal? {
      assert Starts(classes, nsArgs, runArgs) == [a] + Starts(classes[1..], nsArgs, runArgs);
      assert s.log == log + [a] + Starts(classes[1..], nsArgs, runArgs);
    } else {
      StartsCons(classes, nsArgs, runArgs, k + 1);
      assert s.log == log + [a] + Starts(classes[1..][..k1 + 1], nsArgs, runArgs) + Removals(started + cids);
    }
  }

  lemma StartsCons(classes: seq<string>, nsArgs: seq<string>, runArgs: seq<string>, m: nat)
    requires 0 < m <= |classes|
    ensures Starts(classes[..m], nsArgs, runArgs) == [ServiceStart(classes[0], nsArgs, runArgs)] + Starts(classes[1..][..m - 1], nsArgs, runArgs)
  {
    assert classes[..m][0] == classes[0];
    assert classes[..m][1..] == classes[1..][..m - 1];
  }

  /** The `finally` of `run_with_httpd` issues `docker logs`, then, when copying, the clean-up and (if it worked) the copy. */
  lemma FinalizeShape(o: Oracle, log: seq<Action>, nsArgs: seq<string>, cid: string, copyLogs: bool, logsDir: string)
    ensures var logs := log + [LogsAction(nsArgs, cid)];
      Finalize(o, log, nsArgs, cid, copyLogs, logsDir) == logs +
        (if !copyLogs then []
         else if o(logs, ClearDir(logsDir)).code != 0 then [ClearDir(logsDir)]
         else [ClearDir(logsDir), CopyAction(nsArgs, cid, logsDir)])
  {
  }

  /**
   * The direct path runs one container whose command is the install script
   * followed by the test script, with ` -p` and a TESTS variable exactly when
   * tests are given, and inside the pod exactly in pod mode; it reports
   * success iff that container exits with status 0.
   */
  lemma DirectPathCommand(o: Oracle, log: seq<Action>, kw: CaseKwargs, pod: string, nsArgs: seq<string>)
    ensures var a := DirectAction(kw, pod, nsArgs); var s := DirectPath(o, log, kw, pod, nsArgs);
      && s.log == log + [a]
      && a.command == ["sh", "-c", "./tools/test/install_script.sh && ./tools/test/test.sh" + (if kw.tests != [] then " -p" else "")]
      && a.image == kw.image && a.runtimeArgs == nsArgs
      && (kw.tests != [] ==> a.caseenv == kw.caseenv["TESTS" := Join(" ", kw.tests)])
      && (kw.tests == [] ==> a.caseenv == kw.caseenv)
      && (a.podArgs == ["--pod", pod] <==> kw.usePodman)
      && (!kw.usePodman ==> a.podArgs == [])
      && s.out == Normal(o(log, a).code == 0)
  {
    var second := TestScript + (if kw.tests != [] then " -p" else "");
    var parts := [InstallScript, second];
    assert parts[1..] == [second];
    assert Join(" && ", parts[1..]) == second;
    assert DirectScript(kw.tests) == Join(" && ", parts) == InstallScript + " && " + second;
    assert InstallScript + " && " + second == "./tools/test/install_script.sh && ./tools/test/test.sh" + (if kw.tests != [] then " -p" else "");
  }

  /**
   * The `try` block of the service-backed path only appends to the log. An
   * unknown service group raises a KeyError before anything is issued; a
   * container that does not start, or the first phase that fails, raises a
   * CalledProcessError; and once the auxiliary containers are up, the phases
   * are issued in order up to the first that fails, followed by the removal
   * of those containers.
   */
  lemma HttpdBodyOutcome(o: Oracle, log: seq<Action>, environ: map<string, string>, suites: Suites, caseenv: map<string, string>, tests: seq<string>,
                         iso: Isolation, runArgs: seq<string>, cid: string)
    ensures
      var classes := ServiceClasses(suites, caseenv);
      var up := StartServices(o, log, if classes.Normal? then classes.value else [], iso.nsArgs, runArgs);
      var b := HttpdBody(o, log, environ, suites, caseenv, tests, iso, runArgs, cid);
      && |b.log| >= |log| && b.log[..|log|] == log
      && (classes.Raised? ==> b == Step(Raised(KeyError(ServiceGroup(caseenv))), log))
      && (classes.Normal? && up.out.Raised? ==> b.out.Raised? && b.out.exc.CalledProcessError?)
      && (classes.Normal? && up.out.Normal? ==>
            var cids := up.out.value;
            var phases := Phases(environ, suites.hostnames, caseenv, tests, iso, DbEnv(HasDb(suites, caseenv), cids), cid);
            var k := FailsAt(o, up.log, phases);
            && up.log == log + Starts(classes.value, iso.nsArgs, runArgs)
            && |cids| == |classes.value|
            && (b.out.Normal? <==> k == |phases|)
            && (b.out.Raised? ==> b.out.exc.CalledProcessError?)
            && b.log == up.log + phases[..Issued(k, |phases|)] + Removals(cids))
  {
    var classes := ServiceClasses(suites, caseenv);
    if classes.Normal? {
      WithServicesTrace(o, log, environ, suites, caseenv, tests, iso, runArgs, cid, classes.value);
    }
  }

  lemma WithServicesTrace(o: Oracle, log: seq<Action>, environ: map<string, string>, suites: Suites, caseenv: map<string, string>, tests: seq<string>,
                          iso: Isolation, runArgs: seq<string>, cid: string, classes: seq<string>)
    ensures
      var up := StartServices(o, log, classes, iso.nsArgs, runArgs);
      var b := WithServices(o, log, environ, suites, caseenv, tests, iso, runArgs, cid, classes);
      && |b.log| >= |log| && b.log[..|log|] == log
      && (up.out.Raised? ==> b.out.Raised? && b.out.exc.CalledProcessError?)
      && (up.out.Normal? ==>
            var cids := up.out.value;
            var phases := Phases(environ, suites.hostnames, caseenv, tests, iso, DbEnv(HasDb(suites, caseenv), cids), cid);
            var k := FailsAt(o, up.log, phases);
            && up.log == log + Starts(classes, iso.nsArgs, runArgs)
            && |cids| == |classes|
            && (b.out.Normal? <==> k == |phases|)
            && (b.out.Raised? ==> b.out.exc.CalledProcessError?)
            && b.log == up.log + phases[..Issued(k, |phases|)] + Removals(cids))
  {
    var up := StartServices(o, log, classes, iso.nsArgs, runArgs);
    var n, started := StartFromTrace(o, log, classes, iso.nsArgs, runArgs, []);
    assert [] + started == started;
    if up.out.Normal? {
      var phases := Phases(environ, suites.hostnames, caseenv, tests, iso, DbEnv(HasDb(suites, caseenv), up.out.value), cid);
      RunAllExec(o, up.log, phases);
    }
  }

  /** Staged subprocesses, with what `RunAllStopsAtFirstFailure` says, raise only CalledProcessError. */
  lemma RunAllExec(o: Oracle, log: seq<Action>, acts: seq<Action>)
    requires forall i :: 0 <= i < |acts| ==> acts[i].Exec?
    ensures var s := RunAll(o, log, acts); var k := FailsAt(o, log, acts);
      && (s.out.Normal? <==> k == |acts|)
      && (s.out.Raised? ==> s.out.exc.CalledProcessError?)
      && s.log == log + acts[..Issued(k, |acts|)]
  {
    RunAllStopsAtFirstFailure(o, log, acts);
  }

  /**
   * The result of the service-backed path: it raises only when the primary
   * container does not start or the service group is unknown; it is true iff
   * the auxiliary containers start and all four phases exit with status 0, and
   * false iff one of them fails.
   */
  lemma HttpdOutcome(o: Oracle, log: seq<Action>, environ: map<string, string>, suites: Suites, kw: CaseKwargs, iso: Isolation, pod: string)
    ensures
      var podArgs := PodNetArgs(kw.usePodman, pod);
      var a := PrimaryStart(kw, iso, podArgs);
      var started := o(log, a).code == 0;
      var cid := o(log, a).stdout;
      var classes := ServiceClasses(suites, kw.caseenv);
      var up := StartServices(o, log + [a], if classes.Normal? then classes.value else [], iso.nsArgs, ServiceRunArgs(kw.usePodman, podArgs, cid));
      var phases := Phases(environ, suites.hostnames, kw.caseenv, kw.tests, iso, DbEnv(HasDb(suites, kw.caseenv), if up.out.Normal? then up.out.value else []), cid);
      var r := HttpdPath(o, log, environ, suites, kw, iso, pod).out;
      && (r.Raised? <==> !started || classes.Raised?)
      && (!started ==> r == Raised(CalledProcessError(a, o(log, a).code)))
      && (started && classes.Raised? ==> r == Raised(KeyError(ServiceGroup(kw.caseenv))))
      && (r == Normal(true) <==> started && classes.Normal? && up.out.Normal? && FailsAt(o, up.log, phases) == |phases|)
      && (r == Normal(false) <==> started && classes.Normal? && (up.out.Raised? || FailsAt(o, up.log, phases) < |phases|))
  {
    var podArgs := PodNetArgs(kw.usePodman, pod);
    var a := PrimaryStart(kw, iso, podArgs);
    HttpdBodyOutcome(o, log + [a], environ, suites, kw.caseenv, kw.tests, iso, ServiceRunArgs(kw.usePodman, podArgs, o(log, a).stdout), o(log, a).stdout);
  }

  /**
   * The trace of the service-backed path once its containers are up: the
   * primary start, the auxiliary starts in order, the phases in the order
   * before_script, host names, install, test up to the first that fails, the
   * removal of the auxiliary containers, the `finally` actions and last the
   * removal of the primary container. A database container is requested
   * exactly when RDBMS names a registered one; it is then the first auxiliary
   * container and before_script sees its id as CON_DB.
   */
  lemma HttpdTrace(o: Oracle, log: seq<Action>, environ: map<string, string>, suites: Suites, kw: CaseKwargs, iso: Isolation, pod: string)
    ensures
      var podArgs := PodNetArgs(kw.usePodman, pod);
      var a := PrimaryStart(kw, iso, podArgs);
      var cid := o(log, a).stdout;
      var classes := ServiceClasses(suites, kw.caseenv);
      var cls := if classes.Normal? then classes.value else [];
      var runArgs := ServiceRunArgs(kw.usePodman, podArgs, cid);
      var up := StartServices(o, log + [a], cls, iso.nsArgs, runArgs);
      o(log, a).code == 0 && classes.Normal? && up.out.Normal? ==>
        var cids := up.out.value;
        var dbEnv := DbEnv(HasDb(suites, kw.caseenv), cids);
        var phases := Phases(environ, suites.hostnames, kw.caseenv, kw.tests, iso, dbEnv, cid);
        var body := up.log + phases[..Issued(FailsAt(o, up.log, phases), |phases|)] + Removals(cids);
        && up.log == log + [a] + Starts(cls, iso.nsArgs, runArgs)
        && HttpdPath(o, log, environ, suites, kw, iso, pod).log == Finalize(o, body, iso.nsArgs, cid, kw.copyLogs, kw.logsDir) + [RemoveContainer(cid)]
        && (HasDb(suites, kw.caseenv) ==> cls[0] == suites.rdbms[Rdbms(kw.caseenv)] && dbEnv == map["CON_DB" := cids[0]])
        && (!HasDb(suites, kw.caseenv) ==> dbEnv == map[])
  {
    var podArgs := PodNetArgs(kw.usePodman, pod);
    var a := PrimaryStart(kw, iso, podArgs);
    HttpdBodyOutcome(o, log + [a], environ, suites, kw.caseenv, kw.tests, iso, ServiceRunArgs(kw.usePodman, podArgs, o(log, a).stdout), o(log, a).stdout);
  }

  /**
   * `docker logs` is issued after the body whenever the primary container
   * started; after it come only the clean-up and copy of the logs, when
   * copying, and then the removal of the primary container.
   */
  lemma HttpdLogsAlwaysIssued(o: Oracle, log: seq<Action>, environ: map<string, string>, suites: Suites, kw: CaseKwargs, iso: Isolation, pod: string)
    returns (j: nat)
    ensures
      var a := PrimaryStart(kw, iso, PodNetArgs(kw.usePodman, pod));
      var cid := o(log, a).stdout;
      var s := HttpdPath(o, log, environ, suites, kw, iso, pod);
      o(log, a).code == 0 ==>
        && |log| < j < |s.log| - 1
        && s.log[|log|] == a
        && s.log[j] == LogsAction(iso.nsArgs, cid)
        && s.log[|s.log| - 1] == RemoveContainer(cid)
        && (!kw.copyLogs ==> j == |s.log| - 2)
        && (kw.copyLogs ==>
              || s.log[j + 1..] == [ClearDir(kw.logsDir), RemoveContainer(cid)]
              || s.log[j + 1..] == [ClearDir(kw.logsDir), CopyAction(iso.nsArgs, cid, kw.logsDir), RemoveContainer(cid)])
  {
    var podArgs := PodNetArgs(kw.usePodman, pod);
    var a := PrimaryStart(kw, iso, podArgs);
    var cid := o(log, a).stdout;
    if o(log, a).code == 0 {
      var runArgs := ServiceRunArgs(kw.usePodman, podArgs, cid);
      var body := HttpdBody(o, log + [a], environ, suites, kw.caseenv, kw.tests, iso, runArgs, cid);
      HttpdBodyOutcome(o, log + [a], environ, suites, kw.caseenv, kw.tests, iso, runArgs, cid);
      FinallySuffix(o, body.log, iso.nsArgs, cid, kw.copyLogs, kw.logsDir);
      j := |body.log|;
      assert body.log[..|log| + 1][|log|] == a;
    } else {
      j := |log| + 1;
    }
  }

  /** What the `finally` block and the exit of the `with` add after the body. */
  lemma FinallySuffix(o: Oracle, body: seq<Action>, nsArgs: seq<string>, cid: string, copyLogs: bool, logsDir: string)
    ensures var f := Finalize(o, body, nsArgs, cid, copyLogs, logsDir) + [RemoveContainer(cid)];
      && |f| >= |body| + 2
      && f[..|body|] == body
      && f[|body|] == LogsAction(nsArgs, cid)
      && f[|f| - 1] == RemoveContainer(cid)
      && (!copyLogs ==> |f| == |body| + 2)
      && (copyLogs ==>
            || f[|body| + 1..] == [ClearDir(logsDir), RemoveContainer(cid)]
            || f[|body| + 1..] == [ClearDir(logsDir), CopyAction(nsArgs, cid, logsDir), RemoveContainer(cid)])
  {
    FinalizeShape(o, body, nsArgs, cid, copyLogs, logsDir);
  }

  /** Copying the logs, and any failure while doing so, never changes the result of the service-backed path. */
  lemma HttpdCopyHarmless(o: Oracle, log: seq<Action>, environ: map<string, string>, suites: Suites, kw: CaseKwargs, iso: Isolation, pod: string)
    ensures HttpdPath(o, log, environ, suites, kw.(copyLogs := true), iso, pod).out == HttpdPath(o, log, environ, suites, kw.(copyLogs := false), iso, pod).out
  {
  }
  /**
   * The environment of before_script: CON_RUCIO is the primary container and
   * CONTAINER_RUNTIME_ARGS the namespace arguments; every other variable
   * comes from the database, namespace, case then process environment, the
   * first of these that has it.
   */
  lemma BeforeScriptEnv(environ: map<string, string>, caseenv: map<string, string>, iso: Isolation, dbEnv: map<string, string>, cid: string)
    ensures var env := BeforeScriptAction(environ, caseenv, iso, dbEnv, cid).env.value;
      && env["CON_RUCIO"] == cid
      && env["CONTAINER_RUNTIME_ARGS"] == Join(" ", iso.nsArgs)
      && forall key :: key != "CON_RUCIO" && key != "CONTAINER_RUNTIME_ARGS" ==>
           && (key in env <==> key in dbEnv || key in iso.nsEnv || key in caseenv || key in environ)
           && (key in dbEnv ==> env[key] == dbEnv[key])
           && (key !in dbEnv && key in iso.nsEnv ==> env[key] == iso.nsEnv[key])
           && (key !in dbEnv && key !in iso.nsEnv && key in caseenv ==> env[key] == caseenv[key])
           && (key !in dbEnv && key !in iso.nsEnv && key !in caseenv && key in environ ==> env[key] == environ[key])
  {
  }

  /** The branch always issues something, and its last action is a container operation, never a `podman` command. */
  lemma BranchEnds(o: Oracle, log: seq<Action>, environ: map<string, string>, suites: Suites, kw: CaseKwargs, iso: Isolation, pod: string)
    ensures var b := BranchPath(o, log, environ, suites, kw, iso, pod);
      |b.log| > |log| && b.log[..|log|] == log && !b.log[|b.log| - 1].Exec?
  {
    if kw.useHttpd {
      HttpdEnds(o, log, environ, suites, kw, iso, pod);
    }
  }

  lemma HttpdEnds(o: Oracle, log: seq<Action>, environ: map<string, string>, suites: Suites, kw: CaseKwargs, iso: Isolation, pod: string)
    ensures var s := HttpdPath(o, log, environ, suites, kw, iso, pod);
      |s.log| > |log| && s.log[..|log|] == log && !s.log[|s.log| - 1].Exec?
  {
    var podArgs := PodNetArgs(kw.usePodman, pod);
    var a := PrimaryStart(kw, iso, podArgs);
    if o(log, a).code == 0 {
      var cid := o(log, a).stdout;
      var runArgs := ServiceRunArgs(kw.usePodman, podArgs, cid);
      var body := HttpdBody(o, log + [a], environ, suites, kw.caseenv, kw.tests, iso, runArgs, cid);
      HttpdBodyOutcome(o, log + [a], environ, suites, kw.caseenv, kw.tests, iso, runArgs, cid);
      FinallySuffix(o, body.log, iso.nsArgs, cid, kw.copyLogs, kw.logsDir);
      var f := Finalize(o, body.log, iso.nsArgs, cid, kw.copyLogs, kw.logsDir) + [RemoveContainer(cid)];
      assert HttpdPath(o, log, environ, suites, kw, iso, pod).log == f;
      assert f[..|log|] == body.log[..|log| + 1][..|log|];
    }
  }

  /** In pod mode an empty pod id raises before any branch runs, and nothing is torn down. */
  lemma CaseRunEmptyPod(o: Oracle, log: seq<Action>, environ: map<string, string>, suites: Suites, kw: CaseKwargs, namespace: string)
    ensures var iso := IsolationOf(kw.useNamespace, namespace);
      var ls := ImageLsAction(kw.image);
      var create := PodCreateAction(iso.nsArgs);
      kw.usePodman && o(log, ls).code == 0 && o(log + [ls], create).code == 0 && Strip(o(log + [ls], create).stdout) == "" ==>
        CaseRun(o, log, environ, suites, kw, namespace) == Step(Raised(NoPodId), log + [ls, create])
  {
  }

  /**
   * The image check comes first, and `pod stop` then `pod rm` end the trace
   * of a case exactly when a non-empty pod id was obtained; they then follow
   * the branch whether it returned or raised.
   */
  lemma CaseRunTeardown(o: Oracle, log: seq<Action>, environ: map<string, string>, suites: Suites, kw: CaseKwargs, namespace: string)
    ensures var iso := IsolationOf(kw.useNamespace, namespace);
      var ls := ImageLsAction(kw.image);
      var create := PodCreateAction(iso.nsArgs);
      var pod := Strip(o(log + [ls], create).stdout);
      var podCreated := kw.usePodman && o(log, ls).code == 0 && o(log + [ls], create).code == 0 && pod != "";
      var s := CaseRun(o, log, environ, suites, kw, namespace);
      && |s.log| > |log|
      && s.log[|log|] == ls
      && (s.log[|s.log| - 1] == PodRmAction(iso.nsArgs, pod) <==> podCreated)
      && (podCreated ==>
            var b := BranchPath(o, log + [ls, create], environ, suites, kw, iso, pod);
            && s.log == b.log + [PodStopAction(iso.nsArgs, pod), PodRmAction(iso.nsArgs, pod)]
            && s.out == CaseResult(b.out))
  {
    var iso := IsolationOf(kw.useNamespace, namespace);
    var ls := ImageLsAction(kw.image);
    var create := PodCreateAction(iso.nsArgs);
    var pod := Strip(o(log + [ls], create).stdout);
    var rm := PodRmAction(iso.nsArgs, pod);
    var s := CaseRun(o, log, environ, suites, kw, namespace);
    if o(log, ls).code != 0 {
      assert s.log == log + [ls];
      assert ls.argv[0] != rm.argv[0];
    } else if !kw.usePodman {
      CaseRunAfterImageCheck(o, log, environ, suites, kw, iso, namespace, "", [ls]);
      assert !rm.Exec? || s.log[|s.log| - 1] != rm;
    } else if o(log + [ls], create).code != 0 {
      assert s.log == log + [ls, create];
      assert |create.argv| != |rm.argv|;
    } else if pod == "" {
      assert s.log == log + [ls] + [create];
      assert |create.argv| != |rm.argv|;
    } else {
      assert log + [ls] + [create] == log + [ls, create];
      CaseRunAfterImageCheck(o, log, environ, suites, kw, iso, namespace, pod, [ls, create]);
    }
  }

  /** The trace of a case whose image check (and pod creation, `pre`) went through: the branch, then the teardown. */
  lemma CaseRunAfterImageCheck(o: Oracle, log: seq<Action>, environ: map<string, string>, suites: Suites, kw: CaseKwargs,
                               iso: Isolation, namespace: string, pod: string, pre: seq<Action>)
    requires iso == IsolationOf(kw.useNamespace, namespace)
    requires pre != [] && pre[0] == ImageLsAction(kw.image)
    requires CaseRun(o, log, environ, suites, kw, namespace) == WithPod(o, log + pre, environ, suites, kw, iso, pod)
    ensures var s := CaseRun(o, log, environ, suites, kw, namespace); var b := BranchPath(o, log + pre, environ, suites, kw, iso, pod);
      && |s.log| > |log| && s.log[|log|] == pre[0]
      && s.log == b.log + Teardown(iso.nsArgs, pod) && s.out == CaseResult(b.out)
      && (s.log[|s.log| - 1] == PodRmAction(iso.nsArgs, pod) <==> pod != "")
      && (pod == "" ==> !s.log[|s.log| - 1].Exec?)
  {
    WithPodEnds(o, log + pre, environ, suites, kw, iso, pod);
    var w := WithPod(o, log + pre, environ, suites, kw, iso, pod);
    assert w.log[..|log + pre|][|log|] == (log + pre)[|log|];
  }

  /** After the branch, the trace ends with `pod rm` exactly when there is a pod. */
  lemma WithPodEnds(o: Oracle, log: seq<Action>, environ: map<string, string>, suites: Suites, kw: CaseKwargs, iso: Isolation, pod: string)
    ensures var w := WithPod(o, log, environ, suites, kw, iso, pod); var b := BranchPath(o, log, environ, suites, kw, iso, pod);
      && |w.log| > |log| && w.log[..|log|] == log
      && w.log == b.log + Teardown(iso.nsArgs, pod)
      && (w.log[|w.log| - 1] == PodRmAction(iso.nsArgs, pod) <==> pod != "")
      && (pod == "" ==> !w.log[|w.log| - 1].Exec?)
  {
    BranchEnds(o, log, environ, suites, kw, iso, pod);
    var b := BranchPath(o, log, environ, suites, kw, iso, pod);
    if pod == "" {
      assert b.log + [] == b.log;
    }
  }

  /** A case succeeds iff `docker image ls` exits 0, the pod (in pod mode) is created with an id, and the branch returns true. */
  lemma CaseRunSucceeds(o: Oracle, log: seq<Action>, environ: map<string, string>, suites: Suites, kw: CaseKwargs, namespace: string)
    ensures var iso := IsolationOf(kw.useNamespace, namespace);
      var ls := ImageLsAction(kw.image);
      var create := PodCreateAction(iso.nsArgs);
      var pod := Strip(o(log + [ls], create).stdout);
      CaseRun(o, log, environ, suites, kw, namespace).out.Normal? <==>
        && o(log, ls).code == 0
        && (kw.usePodman ==> o(log + [ls], create).code == 0 && pod != "")
        && BranchPath(o, log + [ls] + (if kw.usePodman then [create] else []), environ, suites, kw, iso, if kw.usePodman then pod else "").out == Normal(true)
  {
    var ls := ImageLsAction(kw.image);
    var create := PodCreateAction(IsolationOf(kw.useNamespace, namespace).nsArgs);
    assert log + [ls] + [] == log + [ls];
    assert log + [ls] + [create] == log + [ls, create];
  }

  /**
   * `run_case_logger` returns `False` iff the case raised, which includes the
   * exit of a case whose branch returned `False`, and `True` iff it completed.
   */
  lemma LoggerFalseIffCaseRaised(o: Oracle, log: seq<Action>, environ: map<string, string>, suites: Suites, kw: CaseKwargs, namespace: string)
    ensures var l := LoggerOutcome(o, log, environ, suites, kw, namespace); var s := CaseRun(o, log, environ, suites, kw, namespace);
      && (l.out.Raised? <==> CaseId(AsCase(kw.caseenv)).Raised?)
      && (l.out == Normal(false) <==> CaseId(AsCase(kw.caseenv)).Normal? && s.out.Raised?)
      && (l.out == Normal(true) <==> CaseId(AsCase(kw.caseenv)).Normal? && s.out.Normal?)
      && (s.out == Raised(SystemExit(1)) && CaseId(AsCase(kw.caseenv)).Normal? ==> l.out == Normal(false))
  {
  }
}

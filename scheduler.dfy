/**
 * `run_tests` and `main`: in parallel mode the cases are submitted to a pool
 * and their results collected in submission order under a six-hour budget;
 * in serial mode the cases run one after the other on the host, and the first
 * that fails ends the run.
 */
module Scheduler {
  import opened Strings
  import opened Types
  import opened Matrix
  import opened Config
  import opened Shell
  import opened Lifecycle

  /** The overall budget of the collection loop, in seconds (six hours). */
  const Budget: real := 21600.0

  /**
   * What `task.get(timeout=timeleft)` sees of a submitted case: the boolean
   * `run_case_logger` returned, or a task still running when the timeout
   * expires.
   */
  datatype TaskResult = Finished(ok: bool) | StillRunning

  /** One submitted task: the keyword arguments of its case and the file its diagnostics go to. */
  datatype Submission = Submission(kwargs: CaseKwargs, stdlog: string)

  /** `timeleft` at the moment `now` the loop reaches a task. */
  function TimeLeft(start: real, now: real): real {
    start + Budget - now
  }

  /**
   * Whether the loop ends at task `i`: the budget is spent, that task does not
   * finish in the time left, or it failed while failfast is on.
   */
  predicate StopsAt(results: nat -> TaskResult, start: real, clock: nat -> real, failfast: bool, i: nat) {
    TimeLeft(start, clock(i)) <= 0.0 || results(i).StillRunning? || (failfast && !results(i).ok)
  }

  /** The exception the loop ends with at a task where it stops. */
  function StopReason(results: nat -> TaskResult, start: real, clock: nat -> real, i: nat): Exc {
    if TimeLeft(start, clock(i)) <= 0.0 then SystemExit(1)
    else if results(i).StillRunning? then TimeoutError
    else SystemExit(1)
  }

  /** The first task, from `i` on and before `n`, at which the loop stops, or `n`. */
  function FirstStop(n: nat, results: nat -> TaskResult, start: real, clock: nat -> real, failfast: bool, i: nat): (k: nat)
    requires i <= n
    ensures i <= k <= n
    ensures forall j :: i <= j < k ==> !StopsAt(results, start, clock, failfast, j)
    ensures k < n ==> StopsAt(results, start, clock, failfast, k)
    decreases n - i
  {
    if i == n then n
    else if StopsAt(results, start, clock, failfast, i) then i
    else FirstStop(n, results, start, clock, failfast, i + 1)
  }

  /** How the collection of `n` tasks ends. */
  function Collection(n: nat, results: nat -> TaskResult, start: real, clock: nat -> real, failfast: bool): (r: Outcome<()>)
    ensures r.Normal? <==> forall j :: 0 <= j < n ==> !StopsAt(results, start, clock, failfast, j)
    ensures r.Raised? ==> r.exc == SystemExit(1) || r.exc == TimeoutError
  {
    var k := FirstStop(n, results, start, clock, failfast, 0);
    if k == n then Normal(()) else Raised(StopReason(results, start, clock, k))
  }

  /**
   * The loop over `tasks`: `clock(i)` is what `time.time()` reads when the
   * loop reaches task `i`, and `results(i)` what `task.get` gives for it.
   */
  method CollectResults(n: nat, results: nat -> TaskResult, start: real, clock: nat -> real, failfast: bool)
    returns (r: Outcome<()>, visited: nat)
    ensures visited == FirstStop(n, results, start, clock, failfast, 0)
    ensures r == Collection(n, results, start, clock, failfast)
  {
    visited := 0;
    while visited < n
      invariant visited <= n
      invariant FirstStop(n, results, start, clock, failfast, 0) == FirstStop(n, results, start, clock, failfast, visited)
    {
      var timeleft := start + Budget - clock(visited);
      if timeleft <= 0.0 {
        return Raised(SystemExit(1)), visited;
      }
      var task := results(visited);
      if task.StillRunning? {
        return Raised(TimeoutError), visited;
      }
      if !task.ok && failfast {
        return Raised(SystemExit(1)), visited;
      }
      visited := visited + 1;
    }
    r := Normal(());
  }

  /** The `tasks` list: the cases are submitted in order, and the first whose arguments cannot be built raises. */
  function Submissions(flags: Flags, images: Images, cases: seq<Case>, tests: Option<seq<string>>): (r: Outcome<seq<Submission>>)
    ensures r.Normal? ==> |r.value| == |cases|
    ensures r.Normal? ==> forall i :: 0 <= i < |cases| ==>
      GenCaseKwargs(flags, images, cases[i], tests) == Normal(r.value[i].kwargs) &&
      CaseId(cases[i]).Normal? && r.value[i].stdlog == StdLogOf(CaseId(cases[i]).value)
    ensures r.Raised? ==> exists i :: 0 <= i < |cases| && GenCaseKwargs(flags, images, cases[i], tests) == Raised(r.exc) &&
                                     (forall j :: 0 <= j < i ==> GenCaseKwargs(flags, images, cases[j], tests).Normal?)
    decreases |cases|
  {
    if cases == [] then Normal([])
    else
      var kw := GenCaseKwargs(flags, images, cases[0], tests);
      if kw.Raised? then Raised(kw.exc)
      else
        var rest := Submissions(flags, images, cases[1..], tests);
        if rest.Raised? then
          assert forall i :: 0 <= i < |cases| - 1 ==> cases[1..][i] == cases[i + 1];
          Raised(rest.exc)
        else Normal([Submission(kw.value, StdLogOf(CaseId(cases[0]).value))] + rest.value)
  }

  /** Parallel mode: the pool is sized first, then the cases are submitted, then the results collected. */
  function ParallelOutcome(env: Env, images: Images, cases: seq<Case>, tests: Option<seq<string>>,
                           results: nat -> TaskResult, start: real, clock: nat -> real): (r: Outcome<()>)
    ensures PoolSize(env, |cases|).Raised? ==> r == Raised(ValueError)
    ensures PoolSize(env, |cases|).Normal? && Submissions(ReadFlags(env), images, cases, tests).Raised? ==>
      r == Raised(Submissions(ReadFlags(env), images, cases, tests).exc)
    ensures r.Normal? <==>
      PoolSize(env, |cases|).Normal? && Submissions(ReadFlags(env), images, cases, tests).Normal? &&
      Collection(|cases|, results, start, clock, ReadFlags(env).failfast) == Normal(())
  {
    var size := PoolSize(env, |cases|);
    if size.Raised? then Raised(size.exc)
    else
      var subs := Submissions(ReadFlags(env), images, cases, tests);
      if subs.Raised? then Raised(subs.exc)
      else Collection(|cases|, results, start, clock, ReadFlags(env).failfast)
  }

  method ParallelRun(env: Env, images: Images, cases: seq<Case>, tests: Option<seq<string>>,
                     results: nat -> TaskResult, start: real, clock: nat -> real) returns (r: Outcome<()>)
    ensures r == ParallelOutcome(env, images, cases, tests, results, start, clock)
  {
    var flags := ReadFlags(env);
    var size := PoolSize(env, |cases|);
    if size.Raised? {
      return Raised(size.exc);
    }
    var subs := Submissions(flags, images, cases, tests);
    if subs.Raised? {
      return Raised(subs.exc);
    }
    var visited;
    r, visited := CollectResults(|cases|, results, start, clock, flags.failfast);
  }

  /**
   * Serial mode: `run_case(**gen_case_kwargs(case))` for each case in order;
   * the first case that raises (a failed case exits with status 1) ends the
   * run. No namespace is used, since that needs parallel mode.
   */
  function SerialSpec(o: Oracle, log: seq<Action>, environ: map<string, string>, suites: Suites, flags: Flags,
                      images: Images, cases: seq<Case>, tests: Option<seq<string>>): (s: Step<()>)
    ensures s.out.Normal? ==> forall i :: 0 <= i < |cases| ==> GenCaseKwargs(flags, images, cases[i], tests).Normal?
    decreases |cases|
  {
    if cases == [] then Step(Normal(()), log)
    else
      var kw := GenCaseKwargs(flags, images, cases[0], tests);
      if kw.Raised? then Step(Raised(kw.exc), log)
      else
        var s := CaseRun(o, log, environ, suites, kw.value, "");
        if s.out.Raised? then s else SerialSpec(o, s.log, environ, suites, flags, images, cases[1..], tests)
  }

  method SerialRun(host: Host, suites: Suites, flags: Flags, images: Images, cases: seq<Case>, tests: Option<seq<string>>)
    returns (r: Outcome<()>)
    modifies host`log
    ensures Step(r, host.log) == SerialSpec(host.oracle, old(host.log), host.environ, suites, flags, images, cases, tests)
  {
    var i := 0;
    while i < |cases|
      invariant i <= |cases|
      invariant SerialSpec(host.oracle, old(host.log), host.environ, suites, flags, images, cases, tests)
        == SerialSpec(host.oracle, host.log, host.environ, suites, flags, images, cases[i..], tests)
    {
      assert cases[i..][1..] == cases[i + 1..];
      var kw := GenCaseKwargs(flags, images, cases[i], tests);
      if kw.Raised? {
        return Raised(kw.exc);
      }
      var out := RunCase(host, suites, kw.value, "");
      if out.Raised? {
        return out;
      }
      i := i + 1;
    }
    r := Normal(());
  }

  /**
   * `run_tests(cases, images, tests)`. In parallel mode the cases run in
   * worker processes, so the host issues nothing itself; `results`, `start`
   * and `clock` stand for what the pool and the clock report.
   */
  method RunTests(host: Host, suites: Suites, cases: seq<Case>, images: Images, tests: Option<seq<string>>,
                  results: nat -> TaskResult, start: real, clock: nat -> real) returns (r: Outcome<()>)
    modifies host`log
    ensures ReadFlags(host.environ).parallel ==>
      r == ParallelOutcome(host.environ, images, cases, tests, results, start, clock) && host.log == old(host.log)
    ensures !ReadFlags(host.environ).parallel ==>
      Step(r, host.log) == SerialSpec(host.oracle, old(host.log), host.environ, suites, ReadFlags(host.environ), images, cases, tests)
  {
    var flags := ReadFlags(host.environ);
    if flags.parallel {
      r := ParallelRun(host.environ, images, cases, tests, results, start, clock);
    } else {
      r := SerialRun(host, suites, flags, images, cases, tests);
    }
  }

  /** `main`, given the parsed standard input: a single case object is run as a matrix of one. */
  method RunMatrix(host: Host, suites: Suites, matrix: MatrixInput, images: Images,
                   results: nat -> TaskResult, start: real, clock: nat -> real) returns (r: Outcome<()>)
    modifies host`log
    ensures ReadFlags(host.environ).parallel ==>
      r == ParallelOutcome(host.environ, images, CasesOf(matrix), None, results, start, clock) && host.log == old(host.log)
    ensures !ReadFlags(host.environ).parallel ==>
      Step(r, host.log) == SerialSpec(host.oracle, old(host.log), host.environ, suites, ReadFlags(host.environ), images, CasesOf(matrix), None)
  {
    r := RunTests(host, suites, CasesOf(matrix), images, None, results, start, clock);
  }

  // ---------------------------------------------------------------------------
  // Properties

  /**
   * The loop visits tasks in submission order: every task before the one
   * it stops at was finished in time and, with failfast, successful. It exits
   * with status 1 as soon as the budget is spent, and on a failed task exactly
   * when failfast is on.
   */
  lemma CollectionInOrder(n: nat, results: nat -> TaskResult, start: real, clock: nat -> real, failfast: bool)
    ensures var k := FirstStop(n, results, start, clock, failfast, 0);
      forall j :: 0 <= j < k ==> TimeLeft(start, clock(j)) > 0.0 && results(j).Finished? && (failfast ==> results(j).ok)
    ensures var k := FirstStop(n, results, start, clock, failfast, 0); var r := Collection(n, results, start, clock, failfast);
      r.Normal? <==> k == n
    ensures var k := FirstStop(n, results, start, clock, failfast, 0); var r := Collection(n, results, start, clock, failfast);
      k < n && TimeLeft(start, clock(k)) <= 0.0 ==> r == Raised(SystemExit(1))
    ensures var k := FirstStop(n, results, start, clock, failfast, 0); var r := Collection(n, results, start, clock, failfast);
      k < n && TimeLeft(start, clock(k)) > 0.0 && results(k) == Finished(false) ==> failfast && r == Raised(SystemExit(1))
    ensures var r := Collection(n, results, start, clock, failfast);
      r.Raised? ==> ExitStatus(r) == 1
  {
    var k := FirstStop(n, results, start, clock, failfast, 0);
    forall j | 0 <= j < k
      ensures TimeLeft(start, clock(j)) > 0.0 && results(j).Finished? && (failfast ==> results(j).ok)
    {
      assert !StopsAt(results, start, clock, failfast, j);
    }
  }

  /**
   * With failfast off a failed task is ignored: the outcome does not depend
   * on the results of tasks, only on whether they finish in time, and when all
   * of them do the run succeeds however many failed.
   */
  lemma {:induction false} NoFailfastIgnoresFailures(n: nat, results: nat -> TaskResult, results': nat -> TaskResult,
                                                  start: real, clock: nat -> real, i: nat)
    requires i <= n
    requires forall j :: i <= j < n ==> results(j).Finished? == results'(j).Finished?
    ensures FirstStop(n, results, start, clock, false, i) == FirstStop(n, results', start, clock, false, i)
    ensures FirstStop(n, results, start, clock, false, i) < n ==>
      StopReason(results, start, clock, FirstStop(n, results, start, clock, false, i)) ==
      StopReason(results', start, clock, FirstStop(n, results, start, clock, false, i))
    ensures (forall j :: i <= j < n ==> TimeLeft(start, clock(j)) > 0.0 && results(j).Finished?) ==>
      FirstStop(n, results, start, clock, false, i) == n
    decreases n - i
  {
    if i < n && !StopsAt(results, start, clock, false, i) {
      NoFailfastIgnoresFailures(n, results, results', start, clock, i + 1);
    }
  }

  /** With failfast on, the run succeeds iff every task finishes in time and successfully. */
  lemma {:induction false} FailfastNeedsEverySuccess(n: nat, results: nat -> TaskResult, start: real, clock: nat -> real, i: nat)
    requires i <= n
    ensures FirstStop(n, results, start, clock, true, i) == n <==>
      forall j :: i <= j < n ==> TimeLeft(start, clock(j)) > 0.0 && results(j) == Finished(true)
    decreases n - i
  {
    if i < n && !StopsAt(results, start, clock, true, i) {
      FailfastNeedsEverySuccess(n, results, start, clock, i + 1);
    }
  }

  /**
   * The keyword arguments a task is submitted with always let
   * `run_case_logger` compute its case id, so a task never raises: its
   * result is the boolean `TaskResult` records.
   */
  lemma SubmittedCaseIdDefined(flags: Flags, images: Images, c: Case, tests: Option<seq<string>>)
    ensures var kw := GenCaseKwargs(flags, images, c, tests);
      kw.Normal? ==> CaseId(AsCase(kw.value.caseenv)).Normal?
  {
    if GenCaseKwargs(flags, images, c, tests).Normal? {
      CaseIdAfterStringify(c);
    }
  }

  /** In parallel mode an empty matrix fails when the pool is created, before any case is looked at. */
  lemma ParallelEmptyMatrix(env: Env, images: Images, tests: Option<seq<string>>,
                            results: nat -> TaskResult, start: real, clock: nat -> real)
    ensures ParallelOutcome(env, images, [], tests, results, start, clock) == Raised(ValueError)
  {
    NoPoolForEmptyMatrix(env);
  }

  /**
   * Serial runs compose: running `a + b` is running `a` and, only if all of
   * it passed, running `b` after it; so a failing case ends the run and no
   * later case issues anything.
   */
  lemma {:induction false} SerialCompose(o: Oracle, log: seq<Action>, environ: map<string, string>, suites: Suites, flags: Flags,
                                         images: Images, a: seq<Case>, b: seq<Case>, tests: Option<seq<string>>)
    ensures var s := SerialSpec(o, log, environ, suites, flags, images, a, tests);
      SerialSpec(o, log, environ, suites, flags, images, a + b, tests) ==
        if s.out.Raised? then s else SerialSpec(o, s.log, environ, suites, flags, images, b, tests)
    decreases |a|
  {
    if a == [] {
      assert a + b == b;
    } else {
      assert (a + b)[0] == a[0] && (a + b)[1..] == a[1..] + b;
      var kw := GenCaseKwargs(flags, images, a[0], tests);
      if kw.Normal? {
        var s := CaseRun(o, log, environ, suites, kw.value, "");
        if s.out.Normal? {
          SerialCompose(o, s.log, environ, suites, flags, images, a[1..], b, tests);
        }
      }
    }
  }

  /** One case in serial mode is `run_case` on its generated arguments, without a namespace. */
  lemma SerialSingle(o: Oracle, log: seq<Action>, environ: map<string, string>, suites: Suites, flags: Flags,
                     images: Images, c: Case, tests: Option<seq<string>>)
    ensures var kw := GenCaseKwargs(flags, images, c, tests);
      SerialSpec(o, log, environ, suites, flags, images, [c], tests) ==
        if kw.Raised? then Step(Raised(kw.exc), log) else CaseRun(o, log, environ, suites, kw.value, "")
  {
    var kw := GenCaseKwargs(flags, images, c, tests);
    if kw.Normal? {
      var s := CaseRun(o, log, environ, suites, kw.value, "");
      assert [c][1..] == [];
    }
  }

  /**
   * Parallel mode without failfast: once the pool is sized and every case is
   * submitted, the run succeeds whenever every task finishes in time, whatever
   * the booleans the tasks return, so it exits 0 even if every case failed.
   */
  lemma ParallelIgnoresFailures(env: Env, images: Images, cases: seq<Case>, tests: Option<seq<string>>,
                                results: nat -> TaskResult, start: real, clock: nat -> real)
    requires !ReadFlags(env).failfast
    requires PoolSize(env, |cases|).Normal? && Submissions(ReadFlags(env), images, cases, tests).Normal?
    requires forall j :: 0 <= j < |cases| ==> TimeLeft(start, clock(j)) > 0.0 && results(j).Finished?
    ensures ParallelOutcome(env, images, cases, tests, results, start, clock) == Normal(())
  {
    NoFailfastIgnoresFailures(|cases|, results, results, start, clock, 0);
  }

  /**
   * `main` with a single case object: in serial mode it runs
   * `run_case(**gen_case_kwargs(case))` for that case, or raises what
   * generating its arguments raised, and issues nothing else.
   */
  lemma MainSingleCase(o: Oracle, log: seq<Action>, environ: map<string, string>, suites: Suites, images: Images, c: Case)
    ensures var flags := ReadFlags(environ); var kw := GenCaseKwargs(flags, images, c, None);
      SerialSpec(o, log, environ, suites, flags, images, CasesOf(One(c)), None) ==
        if kw.Raised? then Step(Raised(kw.exc), log) else CaseRun(o, log, environ, suites, kw.value, "")
  {
    SerialSingle(o, log, environ, suites, ReadFlags(environ), images, c, None);
  }

  /** Serial mode never uses a namespace, so the namespace argument does not matter there. */
  lemma SerialHasNoNamespace(flags: Flags, images: Images, c: Case, tests: Option<seq<string>>)
    requires !flags.parallel
    ensures var kw := GenCaseKwargs(flags, images, c, tests);
      kw.Normal? ==> !kw.value.useNamespace && IsolationOf(kw.value.useNamespace, "") == Isolation([], map[])
  {
  }
}

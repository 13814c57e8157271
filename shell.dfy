/**
 * The host the runner drives: it carries out actions one after the other,
 * keeps the log of every action issued, and answers each with an exit status
 * and an output that an oracle determines from the history.
 */
module Shell {
  import opened Strings
  import opened Types

  /** What the host answers to one action. */
  datatype Reply = Reply(code: int, stdout: string)

  /** The outside world: the reply to an action, given every action issued before it. */
  type Oracle = (seq<Action>, Action) -> Reply

  /** The result of a step of the runner and the log of actions after it. */
  datatype Step<+T> = Step(out: Outcome<T>, log: seq<Action>)

  /** The exception a failed action raises. */
  function Failure(a: Action, code: int): Exc {
    if a.ClearDir? then OSError(a.path) else CalledProcessError(a, code)
  }

  /**
   * `run(*a, check=check)`: the action joins the log; with `check` a non-zero
   * status raises, otherwise the output is returned.
   */
  function RunStep(o: Oracle, log: seq<Action>, a: Action, check: bool): (s: Step<string>)
    ensures s.log == log + [a]
    ensures s.out.Raised? <==> check && o(log, a).code != 0
    ensures s.out.Normal? ==> s.out.value == o(log, a).stdout
  {
    var reply := o(log, a);
    Step(if check && reply.code != 0 then Raised(Failure(a, reply.code)) else Normal(reply.stdout), log + [a])
  }

  /** Where `sys.stderr` points. */
  datatype Sink = ProcessStderr | LogFile(path: string)

  class Host {
    /** `os.environ` */
    const environ: map<string, string>
    const oracle: Oracle
    /** Every action issued so far, oldest first. */
    var log: seq<Action>
    var stderr: Sink

    constructor (environ: map<string, string>, oracle: Oracle)
      ensures this.environ == environ && this.oracle == oracle
      ensures log == [] && stderr == ProcessStderr
    {
      this.environ := environ;
      this.oracle := oracle;
      log := [];
      stderr := ProcessStderr;
    }

    /** Carry out one action. */
    method Run(a: Action, check: bool) returns (r: Outcome<string>)
      modifies this`log
      ensures Step(r, log) == RunStep(oracle, old(log), a, check)
    {
      var reply := oracle(log, a);
      log := log + [a];
      if check && reply.code != 0 {
        r := Raised(Failure(a, reply.code));
      } else {
        r := Normal(reply.stdout);
      }
    }
  }
}

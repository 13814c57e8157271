/**
 * The data the test runner passes around: the JSON values a test case is
 * made of (with the Python semantics of `str()`, `bool()` and `==` on them),
 * the actions it asks the host to carry out, and the Python exceptions that
 * can end an operation.
 */
module Types {
  import opened Strings

  /** A scalar JSON value as `json.load` delivers it. */
  datatype Value = Str(s: string) | Bool(b: bool) | Int(i: int) | Null

  /** Python truthiness, `bool(v)`. */
  predicate Truthy(v: Value) {
    match v
    case Str(s) => s != ""
    case Bool(b) => b
    case Int(i) => i != 0
    case Null => false
  }

  /** Python `==` on two values; note that `True == 1` and `False == 0`. */
  predicate PyEq(a: Value, b: Value) {
    match (a, b)
    case (Str(x), Str(y)) => x == y
    case (Null, Null) => true
    case (Str(_), _) => false
    case (_, Str(_)) => false
    case (Null, _) => false
    case (_, Null) => false
    case _ => AsNumber(a) == AsNumber(b)
  }

  function AsNumber(v: Value): int
    requires v.Bool? || v.Int?
  {
    if v.Int? then v.i else if v.b then 1 else 0
  }

  /** Python `str(v)`. */
  function PyStr(v: Value): string {
    match v
    case Str(s) => s
    case Bool(b) => if b then "True" else "False"
    case Int(i) => IntToDecimal(i)
    case Null => "None"
  }

  /** Which container an abstract container start refers to. */
  datatype ContainerKind =
    | Primary(image: string)     // the rucio container built from the case's image
    | Service(cls: string)       // an auxiliary container of the named container class

  /**
   * One thing the runner asks its host to do. `Exec` is a subprocess with its
   * argument vector and, when given, its whole environment; the others stand
   * for operations of the `suites` module (containers and their classes),
   * whose command lines are not part of this model.
   */
  datatype Action =
    | Exec(argv: seq<string>, env: Option<map<string, string>>)
      /** `docker <runtimeArgs> run --rm <podArgs> <env_args(caseenv)> image command...` */
    | RunOneShot(runtimeArgs: seq<string>, podArgs: seq<string>, caseenv: map<string, string>, image: string, command: seq<string>)
    | StartContainer(kind: ContainerKind, runtimeArgs: seq<string>, runArgs: seq<string>, environment: map<string, string>)
    | RemoveContainer(cid: string)
      /** `if path.exists(): shutil.rmtree(path)` */
    | ClearDir(path: string)

  /** The exceptions that decide the runner's control flow. */
  datatype Exc =
    | KeyError(key: string)                        // a dict lookup of a missing key
    | TypeError                                    // a non-string where a string is required
    | ValueError                                   // `int()` of a malformed string, or a pool of fewer than one process
    | ImageNotFound                                // RuntimeError("Could not find image for case ...")
    | NoPodId                                      // RuntimeError("Could not determine pod id")
    | CalledProcessError(action: Action, code: int)
    | OSError(path: string)                        // `shutil.rmtree` failed
    | SystemExit(code: int)                        // `sys.exit(code)`
    | TimeoutError                                 // `task.get(timeout=...)` gave up

  /** How a Python call ended: it returned a value or raised. */
  datatype Outcome<+T> = Normal(value: T) | Raised(exc: Exc)

  /** The exit status of the process after `main` ended with `o`. */
  function ExitStatus<T>(o: Outcome<T>): int {
    match o
    case Normal(_) => 0
    case Raised(SystemExit(c)) => c
    case Raised(_) => 1
  }

  /** Python `==` is an equivalence on JSON values, so selector matching behaves like equality. */
  lemma PyEqIsEquivalence(a: Value, b: Value, c: Value)
    ensures PyEq(a, a)
    ensures PyEq(a, b) ==> PyEq(b, a)
    ensures PyEq(a, b) && PyEq(b, c) ==> PyEq(a, c)
  {
  }

  /** `str()` gives back the string a string value holds, and `int(str(i)) == i`. */
  lemma PyStrOfScalars(v: Value)
    ensures v.Str? ==> PyStr(v) == v.s
    ensures v.Int? ==> ParseInt(PyStr(v)) == Some(v.i)
    ensures v.Bool? ==> PyStr(v) == (if v.b then "True" else "False")
  {
    if v.Int? {
      ParseIntOfDecimal(v.i);
    }
  }
}

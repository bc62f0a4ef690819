/** Model of hatchling's display bridge: three interchangeable views of the
    same nine display operations.

    - `Application` prints directly, filtered by a verbosity level.
    - `InvokedApplication` runs inside a subprocess and forwards every call, as
      one encoded line on stdout, to the process that invoked it.
    - `SafeApplication` wraps either and exposes the nine operations only.

    A Python call `app.display_info(*args, **kwargs)` is `app.Invoke(DisplayInfo,
    PyCall(args, kwargs))` here; `sys.exit(code)` is the effect `Exited(code)`,
    and a raised exception is `Raised(error)`. */
module App {
  import opened Py
  import opened AppCommand

  /** The display capability set. */
  datatype Op =
    | Display | DisplayInfo | DisplayWaiting | DisplaySuccess | DisplayWarning
    | DisplayError | DisplayDebug | DisplayMiniHeader | Abort
  {
    /** The Python method name, which is also the name a forwarded call carries. */
    function Name(): string {
      match this
      case Display => "display"
      case DisplayInfo => "display_info"
      case DisplayWaiting => "display_waiting"
      case DisplaySuccess => "display_success"
      case DisplayWarning => "display_warning"
      case DisplayError => "display_error"
      case DisplayDebug => "display_debug"
      case DisplayMiniHeader => "display_mini_header"
      case Abort => "abort"
    }
  }

  /** The operations `SafeApplication` copies from the wrapped application. */
  const OPERATIONS: seq<Op> := [
    Abort, Display, DisplayInfo, DisplayError, DisplaySuccess,
    DisplayWaiting, DisplayWarning, DisplayDebug, DisplayMiniHeader]

  /** There are exactly nine operations, every one is exposed, and no two
      share a method name. */
  lemma NineOperations()
    ensures |OPERATIONS| == 9
    ensures forall op: Op :: op in OPERATIONS
    ensures forall i, j :: 0 <= i < j < |OPERATIONS| ==> OPERATIONS[i].Name() != OPERATIONS[j].Name()
  {
    forall op: Op
      ensures op in OPERATIONS
    {
      match op
      case Abort => assert OPERATIONS[0] == op;
      case Display => assert OPERATIONS[1] == op;
      case DisplayInfo => assert OPERATIONS[2] == op;
      case DisplayError => assert OPERATIONS[3] == op;
      case DisplaySuccess => assert OPERATIONS[4] == op;
      case DisplayWaiting => assert OPERATIONS[5] == op;
      case DisplayWarning => assert OPERATIONS[6] == op;
      case DisplayDebug => assert OPERATIONS[7] == op;
      case DisplayMiniHeader => assert OPERATIONS[8] == op;
    }
  }

  /** The arguments of a Python call. */
  datatype PyCall = PyCall(args: seq<PyValue>, kwargs: map<string, PyValue>)

  /** Python's binding of a call to the bound method `(self, p1=d1, ...,
      pn=dn, **kwargs)`: too many positional arguments, a parameter given both
      positionally and by keyword, or a keyword `self` (already bound) raise
      `TypeError`; other keywords go to `**kwargs`. */
  function Bind(params: seq<string>, defaults: seq<PyValue>, call: PyCall): (r: Result<seq<PyValue>, PyError>)
    requires |params| == |defaults|
  {
    if |call.args| > |params| then Err(TypeError)
    else if exists i :: 0 <= i < |call.args| && params[i] in call.kwargs then Err(TypeError)
    else if "self" in call.kwargs then Err(TypeError)
    else Ok(seq(|params|, i requires 0 <= i < |params| =>
              if i < |call.args| then call.args[i] else Get(call.kwargs, params[i], defaults[i])))
  }

  /** A call with positional arguments only binds them in order, and the
      defaults fill the parameters left over. */
  lemma BindPositional(params: seq<string>, defaults: seq<PyValue>, args: seq<PyValue>)
    requires |params| == |defaults| && |args| <= |params|
    ensures Bind(params, defaults, PyCall(args, map[])) == Ok(args + defaults[|args|..])
  {
    var call := PyCall(args, map[]);
    assert "self" !in call.kwargs;
    var r := Bind(params, defaults, call);
    var expected := args + defaults[|args|..];
    assert r.Ok? && |r.value| == |expected|;
    forall i | 0 <= i < |params|
      ensures r.value[i] == expected[i]
    {
      if i >= |args| {
        assert params[i] !in call.kwargs;
      }
    }
    assert r.value == expected;
  }

  /** A keyword that names no parameter (and is not `self`) goes to `**kwargs`:
      it changes neither whether the call binds nor what it binds to. */
  lemma BindIgnoresExtraKeyword(params: seq<string>, defaults: seq<PyValue>, call: PyCall, key: string, value: PyValue)
    requires |params| == |defaults|
    requires key !in params && key != "self"
    ensures Bind(params, defaults, PyCall(call.args, call.kwargs[key := value])) == Bind(params, defaults, call)
  {
    var extended := PyCall(call.args, call.kwargs[key := value]);
    forall i | 0 <= i < |params|
      ensures (params[i] in extended.kwargs <==> params[i] in call.kwargs)
      ensures Get(extended.kwargs, params[i], defaults[i]) == Get(call.kwargs, params[i], defaults[i])
    {
      assert params[i] != key;
    }
    assert "self" in extended.kwargs <==> "self" in call.kwargs;
    var r, r' := Bind(params, defaults, extended), Bind(params, defaults, call);
    assert r.Ok? <==> r'.Ok?;
    if r.Ok? {
      assert forall i :: 0 <= i < |params| ==> r.value[i] == r'.value[i];
      assert r.value == r'.value;
    } else {
      assert r.error == r'.error;
    }
  }

  /** What a call does: the lines it prints, and how it ends. */
  datatype Effect = Returned | Raised(error: PyError) | Exited(status: PyValue)
  datatype Outcome = Outcome(printed: seq<string>, effect: Effect)

  const DEBUG_LEVEL_ERROR: string := "Debug output can only have verbosity levels between 1 and 3 (inclusive)"
  const INT_ERROR: string := "invalid literal for int() with base 10: "

  /** The `ValueError` message of `int(text)`: the fixed words, then the text
      in single quotes. */
  function IntError(text: string): PyError {
    ValueError(INT_ERROR + "'" + text + "'")
  }

  /** `verbosity = int(HATCH_VERBOSE or '0') - int(HATCH_QUIET or '0')` */
  function VerbosityFromEnv(env: map<string, string>): Result<int, PyError> {
    var verboseText, quietText := Get(env, "HATCH_VERBOSE", "0"), Get(env, "HATCH_QUIET", "0");
    match ParseInt(verboseText)
    case None => Err(IntError(verboseText))
    case Some(verbose) =>
      match ParseInt(quietText)
      case None => Err(IntError(quietText))
      case Some(quiet) => Ok(verbose - quiet)
  }

  /** Reading the verbosity fails exactly when a counter present in the
      environment is not an integer literal, and names the first such text. */
  lemma VerbosityFailure(env: map<string, string>)
    ensures VerbosityFromEnv(env).Err? <==>
      ("HATCH_VERBOSE" in env && !IntLiteral(env["HATCH_VERBOSE"])) ||
      ("HATCH_QUIET" in env && !IntLiteral(env["HATCH_QUIET"]))
    ensures "HATCH_VERBOSE" in env && !IntLiteral(env["HATCH_VERBOSE"]) ==>
      VerbosityFromEnv(env) == Err(IntError(env["HATCH_VERBOSE"]))
    ensures ("HATCH_VERBOSE" !in env || IntLiteral(env["HATCH_VERBOSE"])) &&
            "HATCH_QUIET" in env && !IntLiteral(env["HATCH_QUIET"]) ==>
      VerbosityFromEnv(env) == Err(IntError(env["HATCH_QUIET"]))
  {
    assert IntLiteral("0") by { assert AllDigits("0"); }
  }

  /** The environment holds each counter as its decimal text, or not at all. */
  predicate CounterOrAbsent(env: map<string, string>, key: string, n: int) {
    if key in env then env[key] == IntStr(n) else n == 0
  }

  /** The verbosity is the difference of the two counters, a missing one counting as 0. */
  lemma VerbosityOfCounters(env: map<string, string>, verbose: int, quiet: int)
    requires CounterOrAbsent(env, "HATCH_VERBOSE", verbose)
    requires CounterOrAbsent(env, "HATCH_QUIET", quiet)
    ensures VerbosityFromEnv(env) == Ok(verbose - quiet)
  {
    ParseIntStr(verbose);
    ParseIntStr(quiet);
    ParseIntStr(0);
  }

  /** Bind a call to `(message='', **kwargs)` and print the message (in
      brackets when `bracketed`) if `shown`. */
  function PrintIf(call: PyCall, shown: bool, bracketed: bool): Outcome {
    match Bind(["message"], [PyStr("")], call)
    case Err(e) => Outcome([], Raised(e))
    case Ok(bound) =>
      var message := Str(bound[0]);
      Outcome(if shown then [if bracketed then "[" + message + "]" else message] else [], Returned)
  }

  /** What each `Application` method does at a given verbosity. */
  function LocalOutcome(verbosity: int, op: Op, call: PyCall): Outcome {
    match op
    case Display => PrintIf(call, true, false)
    case DisplayInfo => PrintIf(call, verbosity >= 0, false)
    case DisplayWaiting => PrintIf(call, verbosity >= 0, false)
    case DisplaySuccess => PrintIf(call, verbosity >= 0, false)
    case DisplayWarning => PrintIf(call, verbosity >= -1, false)
    case DisplayError => PrintIf(call, verbosity >= -2, false)
    case DisplayMiniHeader => PrintIf(call, verbosity >= 0, true)
    case DisplayDebug =>
      (match Bind(["message", "level"], [PyStr(""), PyInt(1)], call)
       case Err(e) => Outcome([], Raised(e))
       case Ok(bound) =>
         match AsNumber(bound[1])
         case None => Outcome([], Raised(TypeError))
         case Some(level) =>
           if !(1 <= level <= 3) then Outcome([], Raised(ValueError(DEBUG_LEVEL_ERROR)))
           else Outcome(if verbosity >= level then [Str(bound[0])] else [], Returned))
    case Abort =>
      match Bind(["message", "code"], [PyStr(""), PyInt(1)], call)
      case Err(e) => Outcome([], Raised(e))
      case Ok(bound) =>
        Outcome(if Truthy(bound[0]) && verbosity >= -2 then [Str(bound[0])] else [], Exited(bound[1]))
  }

  /** The documented table: the least verbosity at which each operation shows
      its message (`None`: always); debug output needs its own level. */
  function Threshold(op: Op, level: int): Option<int> {
    match op
    case Display => None
    case DisplayInfo | DisplayWaiting | DisplaySuccess | DisplayMiniHeader => Some(0)
    case DisplayWarning => Some(-1)
    case DisplayError | Abort => Some(-2)
    case DisplayDebug => Some(level)
  }

  /** The call `op(message)`, with `level=level` for debug output. */
  function MessageCall(op: Op, message: string, level: int): PyCall {
    if op == DisplayDebug then PyCall([PyStr(message)], map["level" := PyInt(level)])
    else PyCall([PyStr(message)], map[])
  }

  /** Every local operation prints its message exactly when the verbosity
      meets the documented threshold; the mini header wraps it in brackets. */
  lemma LocalThresholds(verbosity: int, op: Op, message: string, level: int)
    requires op == DisplayDebug ==> 1 <= level <= 3
    requires op == Abort ==> message != ""
    ensures var o := LocalOutcome(verbosity, op, MessageCall(op, message, level));
      && (o.printed != [] <==> Threshold(op, level).None? || verbosity >= Threshold(op, level).value)
      && (o.printed != [] ==> o.printed == [if op == DisplayMiniHeader then "[" + message + "]" else message])
      && o.effect == (if op == Abort then Exited(PyInt(1)) else Returned)
  {
    var call := MessageCall(op, message, level);
    if op == DisplayDebug {
      var bound := Bind(["message", "level"], [PyStr(""), PyInt(1)], call);
      assert "message" !in call.kwargs;
      assert bound.value[0] == PyStr(message) && bound.value[1] == PyInt(level);
    } else if op == Abort {
      var bound := Bind(["message", "code"], [PyStr(""), PyInt(1)], call);
      assert bound.value[0] == PyStr(message) && bound.value[1] == PyInt(1);
    } else {
      var bound := Bind(["message"], [PyStr("")], call);
      assert bound.value[0] == PyStr(message);
    }
  }

  /** A keyword `self` clashes with the bound instance: every local method
      raises `TypeError` and prints nothing. */
  lemma LocalSelfKeyword(verbosity: int, op: Op, call: PyCall)
    requires "self" in call.kwargs
    ensures LocalOutcome(verbosity, op, call) == Outcome([], Raised(TypeError))
  {
  }

  /** Raising the verbosity never silences a call that printed. */
  lemma LocalMonotonic(verbosity: int, higher: int, op: Op, call: PyCall)
    requires verbosity <= higher
    requires LocalOutcome(verbosity, op, call).printed != []
    ensures LocalOutcome(higher, op, call) == LocalOutcome(verbosity, op, call)
  {
  }

  /** A debug level outside 1..3 fails validation at every verbosity, printing nothing. */
  lemma DebugLevelValidated(verbosity: int, message: string, level: int)
    requires !(1 <= level <= 3)
    ensures LocalOutcome(verbosity, DisplayDebug, MessageCall(DisplayDebug, message, level))
         == Outcome([], Raised(ValueError(DEBUG_LEVEL_ERROR)))
  {
    var call := MessageCall(DisplayDebug, message, level);
    var bound := Bind(["message", "level"], [PyStr(""), PyInt(1)], call);
    assert "message" !in call.kwargs;
    assert bound.value[1] == PyInt(level);
  }

  /** `abort(message, code=code)` prints a non-empty message unless the
      verbosity is below -2, and always exits with `code`, 1 when not given. */
  lemma LocalAbort(verbosity: int, message: string, code: PyValue)
    ensures LocalOutcome(verbosity, Abort, PyCall([PyStr(message)], map["code" := code]))
         == Outcome(if message != "" && verbosity >= -2 then [message] else [], Exited(code))
    ensures LocalOutcome(verbosity, Abort, PyCall([PyStr(message)], map[])).effect == Exited(PyInt(1))
  {
    var withCode := PyCall([PyStr(message)], map["code" := code]);
    var bound := Bind(["message", "code"], [PyStr(""), PyInt(1)], withCode);
    assert "message" !in withCode.kwargs;
    assert bound.value[0] == PyStr(message) && bound.value[1] == code;
    var withoutCode := PyCall([PyStr(message)], map[]);
    bound := Bind(["message", "code"], [PyStr(""), PyInt(1)], withoutCode);
    assert bound.value[1] == PyInt(1);
  }

  /** A keyword that clashes with a parameter of the forwarding path: the
      method's own `self`, or the `method` of `send_app_command` and
      `format_app_command`. */
  predicate ReservedKeyword(call: PyCall) {
    "self" in call.kwargs || "method" in call.kwargs
  }

  /** What each `InvokedApplication` method does: write one encoded line
      naming itself; `abort` then exits with the keyword `code`, default 1.
      A reserved keyword raises `TypeError` before anything is written. */
  function ForwardedOutcome(pickle: Pickler, op: Op, call: PyCall): Outcome {
    if ReservedKeyword(call) then Outcome([], Raised(TypeError))
    else
      Outcome([FormatAppCommand(pickle, op.Name(), call.args, call.kwargs)],
              if op == Abort then Exited(Get(call.kwargs, "code", PyInt(1))) else Returned)
  }

  /** A forwarded call writes exactly one line unless a keyword is reserved,
      whatever the verbosity: a newline-free line that decodes to the
      serialised call of its own name. With a reserved keyword it writes
      nothing and raises `TypeError`, so not even `abort` exits. */
  lemma ForwardedOneLine(pickle: Pickler, op: Op, call: PyCall)
    ensures var o := ForwardedOutcome(pickle, op, call);
      && (|o.printed| == 1 <==> !ReservedKeyword(call))
      && (!ReservedKeyword(call) ==>
            && '\n' !in o.printed[0]
            && DecodeLine(o.printed[0]) == Some(pickle(Token(op.Name(), call.args, call.kwargs)))
            && (o.effect.Exited? <==> op == Abort))
      && (ReservedKeyword(call) ==> o == Outcome([], Raised(TypeError)))
  {
  }

  /** With `code` passed by keyword, both facades' `abort` exit with it. */
  lemma KeywordAbortCode(pickle: Pickler, verbosity: int, message: PyValue, code: PyValue)
    ensures ForwardedOutcome(pickle, Abort, PyCall([message], map["code" := code])).effect == Exited(code)
    ensures LocalOutcome(verbosity, Abort, PyCall([message], map["code" := code])).effect == Exited(code)
  {
    var call := PyCall([message], map["code" := code]);
    assert "message" !in call.kwargs && "self" !in call.kwargs && "method" !in call.kwargs;
    var bound := Bind(["message", "code"], [PyStr(""), PyInt(1)], call);
    assert bound.value[1] == code;
  }

  /** A forwarded `abort` ignores a code passed positionally and exits 1,
      where the local one exits with it. */
  lemma PositionalAbortCode(pickle: Pickler, verbosity: int, message: PyValue, code: PyValue)
    ensures ForwardedOutcome(pickle, Abort, PyCall([message, code], map[])).effect == Exited(PyInt(1))
    ensures LocalOutcome(verbosity, Abort, PyCall([message, code], map[])).effect == Exited(code)
  {
    var bound := Bind(["message", "code"], [PyStr(""), PyInt(1)], PyCall([message, code], map[]));
    assert bound.value[1] == code;
  }

  /** Prints directly, subject to the verbosity fixed when it is made. */
  class Application {
    const verbosity: int
    const stdout: Console

    constructor(verbosity: int, stdout: Console)
      ensures this.verbosity == verbosity && this.stdout == stdout
    {
      this.verbosity := verbosity;
      this.stdout := stdout;
    }

    method Invoke(op: Op, call: PyCall) returns (effect: Effect)
      modifies stdout
      ensures stdout.lines == old(stdout.lines) + LocalOutcome(verbosity, op, call).printed
      ensures effect == LocalOutcome(verbosity, op, call).effect
    {
      match op
      case DisplayDebug =>
        var bound := Bind(["message", "level"], [PyStr(""), PyInt(1)], call);
        if bound.Err? {
          return Raised(bound.error);
        }
        var level := AsNumber(bound.value[1]);
        if level.None? {
          return Raised(TypeError);
        }
        if !(1 <= level.value <= 3) {
          return Raised(ValueError(DEBUG_LEVEL_ERROR));
        } else if verbosity >= level.value {
          stdout.Print(Str(bound.value[0]));
        }
        return Returned;
      case Abort =>
        var bound := Bind(["message", "code"], [PyStr(""), PyInt(1)], call);
        if bound.Err? {
          return Raised(bound.error);
        }
        if Truthy(bound.value[0]) && verbosity >= -2 {
          stdout.Print(Str(bound.value[0]));
        }
        return Exited(bound.value[1]);
      case Display => effect := ShowMessage(call, true, false);
      case DisplayInfo => effect := ShowMessage(call, verbosity >= 0, false);
      case DisplayWaiting => effect := ShowMessage(call, verbosity >= 0, false);
      case DisplaySuccess => effect := ShowMessage(call, verbosity >= 0, false);
      case DisplayWarning => effect := ShowMessage(call, verbosity >= -1, false);
      case DisplayError => effect := ShowMessage(call, verbosity >= -2, false);
      case DisplayMiniHeader => effect := ShowMessage(call, verbosity >= 0, true);
    }

    /** The body shared by the methods of signature `(message='', **kwargs)`. */
    method ShowMessage(call: PyCall, shown: bool, bracketed: bool) returns (effect: Effect)
      modifies stdout
      ensures stdout.lines == old(stdout.lines) + PrintIf(call, shown, bracketed).printed
      ensures effect == PrintIf(call, shown, bracketed).effect
    {
      var bound := Bind(["message"], [PyStr("")], call);
      if bound.Err? {
        return Raised(bound.error);
      }
      var message := Str(bound.value[0]);
      if shown {
        stdout.Print(if bracketed then "[" + message + "]" else message);
      }
      return Returned;
    }

    method GetSafeApplication() returns (safe: SafeApplication)
      ensures fresh(safe) && safe.app == Local(this)
    {
      safe := new SafeApplication(Local(this));
    }
  }

  /** `Application()`: the verbosity is read from the environment once. */
  method NewApplication(env: map<string, string>, stdout: Console) returns (r: Result<Application, PyError>)
    ensures r.Ok? <==> VerbosityFromEnv(env).Ok?
    ensures r.Err? ==> r.error == VerbosityFromEnv(env).error
    ensures r.Ok? ==> fresh(r.value) && r.value.verbosity == VerbosityFromEnv(env).value && r.value.stdout == stdout
  {
    var verbosity := VerbosityFromEnv(env);
    if verbosity.Err? {
      return Err(verbosity.error);
    }
    var app := new Application(verbosity.value, stdout);
    return Ok(app);
  }

  /** Forwards every call to the invoking process as one line on stdout. */
  class InvokedApplication {
    const pickle: Pickler
    const stdout: Console

    constructor(pickle: Pickler, stdout: Console)
      ensures this.pickle == pickle && this.stdout == stdout
    {
      this.pickle := pickle;
      this.stdout := stdout;
    }

    method Invoke(op: Op, call: PyCall) returns (effect: Effect)
      modifies stdout
      ensures stdout.lines == old(stdout.lines) + ForwardedOutcome(pickle, op, call).printed
      ensures effect == ForwardedOutcome(pickle, op, call).effect
    {
      if "self" in call.kwargs || "method" in call.kwargs {
        return Raised(TypeError);
      }
      stdout.Print(FormatAppCommand(pickle, op.Name(), call.args, call.kwargs));
      if op == Abort {
        return Exited(Get(call.kwargs, "code", PyInt(1)));
      }
      return Returned;
    }

    method GetSafeApplication() returns (safe: SafeApplication)
      ensures fresh(safe) && safe.app == Forwarding(this)
    {
      safe := new SafeApplication(Forwarding(this));
    }
  }

  /** Either kind of application. */
  datatype Facade = Local(local: Application) | Forwarding(invoked: InvokedApplication) {
    function Stdout(): Console {
      match this
      case Local(a) => a.stdout
      case Forwarding(f) => f.stdout
    }

    function OutcomeOf(op: Op, call: PyCall): Outcome {
      match this
      case Local(a) => LocalOutcome(a.verbosity, op, call)
      case Forwarding(f) => ForwardedOutcome(f.pickle, op, call)
    }
  }

  /** Exposes the nine display operations of an application and nothing else;
      each does exactly what the wrapped application's does. */
  class SafeApplication {
    const app: Facade

    constructor(app: Facade)
      ensures this.app == app
    {
      this.app := app;
    }

    method Invoke(op: Op, call: PyCall) returns (effect: Effect)
      requires op in OPERATIONS
      modifies app.Stdout()
      ensures app.Stdout().lines == old(app.Stdout().lines) + app.OutcomeOf(op, call).printed
      ensures effect == app.OutcomeOf(op, call).effect
    {
      match app
      case Local(a) => effect := a.Invoke(op, call);
      case Forwarding(f) => effect := f.Invoke(op, call);
    }
  }

  /** `get_application`: the forwarding application exactly when called by the app. */
  method GetApplication(calledByApp: bool, env: map<string, string>, pickle: Pickler, stdout: Console)
    returns (r: Result<Facade, PyError>)
    ensures calledByApp ==> r.Ok? && r.value.Forwarding? && fresh(r.value.invoked) && r.value.invoked.pickle == pickle
    ensures !calledByApp ==> (r.Ok? <==> VerbosityFromEnv(env).Ok?)
    ensures !calledByApp && r.Ok? ==> r.value.Local? && fresh(r.value.local) && r.value.local.verbosity == VerbosityFromEnv(env).value
    ensures r.Ok? ==> r.value.Stdout() == stdout
  {
    if calledByApp {
      var invoked := new InvokedApplication(pickle, stdout);
      return Ok(Forwarding(invoked));
    }
    var app := NewApplication(env, stdout);
    match app
    case Err(e) => r := Err(e);
    case Ok(a) => r := Ok(Local(a));
  }
}
